/**
 * The inventory controller: the manual stock movement (entry, exit,
 * adjustment) on one product, the four stock bands shared by the listing
 * filter and the summary, and the low-stock alert list.
 */
module InventarioController {
  import opened Common
  import opened Entities
  import opened Database

  // ---------------------------------------------------------------------
  // Stock movement

  const ENTRADA: string := "entrada"
  const SALIDA: string := "salida"
  const AJUSTE: string := "ajuste"

  /** A stock-movement request; `cantidad` is absent when missing or not an integer. */
  datatype PeticionStock = PeticionStock(cantidad: Option<int>, tipo: string, motivo: Option<string>)

  /** The request rules: an integer quantity, one of the three movement kinds, a reason of at most 255 characters. */
  predicate PeticionStockValida(r: PeticionStock) {
    r.cantidad.Some?
    && (r.tipo == ENTRADA || r.tipo == SALIDA || r.tipo == AJUSTE)
    && (r.motivo.Some? ==> |r.motivo.value| <= 255)
  }

  /** What a successful movement reports. */
  datatype Cambio = Cambio(productoId: ProductoId, anterior: int, actual: int, diferencia: int)

  /**
   * `actualizarStock`: the product is looked up whatever its status; an
   * entry adds the quantity, an exit subtracts it unless the stock is
   * short, an adjustment sets the stock to it.
   */
  function ActualizarStockSpec(t: Tablas, p: ProductoId, r: PeticionStock): Salida<Cambio> {
    if !PeticionStockValida(r) then Salida(Fallo(Validacion), t)
    else if p !in t.productos then Salida(Fallo(NoEncontrado), t)
    else
      var producto := t.productos[p];
      var c := r.cantidad.value;
      if r.tipo == SALIDA && producto.stock < c then
        Salida(Fallo(StockInsuficiente(p, producto.stock)), t)
      else
        var nuevo :=
          if r.tipo == ENTRADA then producto.stock + c
          else if r.tipo == SALIDA then producto.stock - c
          else c;
        Salida(Exito(Cambio(p, producto.stock, nuevo, nuevo - producto.stock)),
               t.(productos := t.productos[p := producto.(stock := nuevo)]))
  }

  method ActualizarStock(db: Db, p: ProductoId, r: PeticionStock) returns (res: Resultado<Cambio>)
    modifies db`productos
    ensures Salida(res, db.Estado()) == ActualizarStockSpec(old(db.Estado()), p, r)
  {
    if !PeticionStockValida(r) {
      return Fallo(Validacion);
    }
    if p !in db.productos {
      return Fallo(NoEncontrado);
    }
    var producto := db.productos[p];
    var cantidad := r.cantidad.value;
    var anterior := producto.stock;
    if r.tipo == ENTRADA {
      producto := producto.(stock := producto.stock + cantidad);
    } else if r.tipo == SALIDA {
      if producto.stock < cantidad {
        return Fallo(StockInsuficiente(p, producto.stock));
      }
      producto := producto.(stock := producto.stock - cantidad);
    } else {
      producto := producto.(stock := cantidad);
    }
    db.productos := db.productos[p := producto];
    res := Exito(Cambio(p, anterior, producto.stock, producto.stock - anterior));
  }

  /**
   * What a movement promises: when it succeeds, the refusal cases, that only
   * the product's stock changes, and the reported difference.
   */
  lemma ActualizarStockContrato(t: Tablas, p: ProductoId, r: PeticionStock)
    ensures var o := ActualizarStockSpec(t, p, r);
      o.resultado.Exito? <==>
        PeticionStockValida(r) && p in t.productos
        && !(r.tipo == SALIDA && t.productos[p].stock < r.cantidad.value)
    ensures var o := ActualizarStockSpec(t, p, r);
      o.resultado.Fallo? ==> o.tablas == t
    ensures var o := ActualizarStockSpec(t, p, r);
      PeticionStockValida(r) && p in t.productos && r.tipo == SALIDA && t.productos[p].stock < r.cantidad.value ==>
        o.resultado == Fallo(StockInsuficiente(p, t.productos[p].stock)) && o.resultado.falla.Http() == 400
    ensures var o := ActualizarStockSpec(t, p, r);
      o.resultado.Exito? ==>
        var c := o.resultado.valor;
        && c.productoId == p
        && c.anterior == t.productos[p].stock
        && c.diferencia == c.actual - c.anterior
        && o.tablas == t.(productos := t.productos[p := t.productos[p].(stock := c.actual)])
        && (r.tipo == ENTRADA ==> c.diferencia == r.cantidad.value)
        && (r.tipo == SALIDA ==> c.diferencia == -r.cantidad.value && c.actual >= 0)
        && (r.tipo == AJUSTE ==> c.actual == r.cantidad.value)
  {
  }

  /** An entry followed by an exit of the same quantity restores the stock, when the stock was not negative. */
  lemma EntradaLuegoSalida(t: Tablas, p: ProductoId, c: int, motivo: Option<string>)
    requires p in t.productos && t.productos[p].stock >= 0
    requires motivo.Some? ==> |motivo.value| <= 255
    ensures var o1 := ActualizarStockSpec(t, p, PeticionStock(Some(c), ENTRADA, motivo));
      var o2 := ActualizarStockSpec(o1.tablas, p, PeticionStock(Some(c), SALIDA, motivo));
      o1.resultado.Exito? && o2.resultado.Exito? && o2.tablas == t
  {
    var o1 := ActualizarStockSpec(t, p, PeticionStock(Some(c), ENTRADA, motivo));
    assert o1.tablas.productos[p].stock == t.productos[p].stock + c;
    assert t.productos[p].(stock := t.productos[p].stock) == t.productos[p];
  }

  /** A successful exit is undone by an entry of the same quantity. */
  lemma SalidaLuegoEntrada(t: Tablas, p: ProductoId, c: int, motivo: Option<string>)
    requires ActualizarStockSpec(t, p, PeticionStock(Some(c), SALIDA, motivo)).resultado.Exito?
    ensures var o1 := ActualizarStockSpec(t, p, PeticionStock(Some(c), SALIDA, motivo));
      ActualizarStockSpec(o1.tablas, p, PeticionStock(Some(c), ENTRADA, motivo)).tablas == t
  {
    assert t.productos[p].(stock := t.productos[p].stock) == t.productos[p];
  }

  /** The movement touches only the products table, so the database invariant is kept. */
  lemma ActualizarStockPreservaValida(t: Tablas, p: ProductoId, r: PeticionStock)
    requires Valida(t)
    ensures Valida(ActualizarStockSpec(t, p, r).tablas)
  {
  }

  // ---------------------------------------------------------------------
  // Stock bands

  datatype Banda = Critico | Bajo | Normal | Exceso

  /**
   * The SQL conditions of the listing's `estado` filter and of the summary
   * counts. `stock_minimo * 0.5` is exact decimal arithmetic in the
   * database, so `s <= m * 0.5` is `2 * s <= m`.
   */
  predicate EnBanda(s: int, m: int, b: Banda) {
    match b
    case Critico => 2 * s <= m
    case Bajo => s <= m && 2 * s > m
    case Normal => s > m && s <= 2 * m
    case Exceso => s > 2 * m
  }

  /** The band a stock level falls in, tried from the lowest band up. */
  function BandaDe(s: int, m: int): Banda {
    if 2 * s <= m then Critico
    else if s <= m then Bajo
    else if s <= 2 * m then Normal
    else Exceso
  }

  /** With a minimum of zero or more, every stock level is in exactly one band. */
  lemma BandasParticion(s: int, m: int)
    requires m >= 0
    ensures forall b :: EnBanda(s, m, b) <==> b == BandaDe(s, m)
  {
  }

  /** The listing filter's `estado` values; any other value applies no band filter. */
  function FiltroDeEstado(estado: string): (r: Option<Banda>)
    ensures r == Some(Critico) <==> estado == "critico"
    ensures r == Some(Bajo) <==> estado == "bajo"
    ensures r == Some(Normal) <==> estado == "normal"
    ensures r == Some(Exceso) <==> estado == "exceso"
  {
    if estado == "critico" then Some(Critico)
    else if estado == "bajo" then Some(Bajo)
    else if estado == "normal" then Some(Normal)
    else if estado == "exceso" then Some(Exceso)
    else None
  }

  /** The listing's rows: active products only, narrowed to one band when `estado` names one. */
  function FiltrarInventario(ps: seq<Producto>, estado: Option<string>): (r: seq<Producto>)
    ensures |r| <= |ps|
    ensures forall x :: x in r <==>
      x in ps && x.estado == Activo
      && (estado.Some? && FiltroDeEstado(estado.value).Some? ==>
            EnBanda(x.stock, x.stockMinimo, FiltroDeEstado(estado.value).value))
  {
    if ps == [] then []
    else
      var x := ps[0];
      var resto := FiltrarInventario(ps[1..], estado);
      var pasa := x.estado == Activo
        && (estado.Some? && FiltroDeEstado(estado.value).Some? ==>
              EnBanda(x.stock, x.stockMinimo, FiltroDeEstado(estado.value).value));
      assert ps == [x] + ps[1..];
      if pasa then [x] + resto else resto
  }

  // ---------------------------------------------------------------------
  // Summary

  /** Active products in a band. */
  function ContarBanda(ps: seq<Producto>, b: Banda): (r: nat)
    ensures r <= |ps|
  {
    if ps == [] then 0
    else (if ps[0].estado == Activo && EnBanda(ps[0].stock, ps[0].stockMinimo, b) then 1 else 0)
         + ContarBanda(ps[1..], b)
  }

  /** Active products. */
  function ContarActivos(ps: seq<Producto>): (r: nat)
    ensures r <= |ps|
  {
    if ps == [] then 0
    else (if ps[0].estado == Activo then 1 else 0) + ContarActivos(ps[1..])
  }

  /** Active products with no stock at all. */
  function ContarSinStock(ps: seq<Producto>): (r: nat)
    ensures r <= ContarActivos(ps)
  {
    if ps == [] then 0
    else (if ps[0].estado == Activo && ps[0].stock == 0 then 1 else 0) + ContarSinStock(ps[1..])
  }

  /** The stock value of the active products, in cents. */
  function ValorInventario(ps: seq<Producto>): Cents {
    if ps == [] then 0
    else (if ps[0].estado == Activo then ps[0].stock * ps[0].precio else 0) + ValorInventario(ps[1..])
  }

  /** The figures `resumen` reports (movement counts are constant zeros and left out). */
  datatype Resumen = Resumen(total: nat, valor: Cents, critico: nat, bajo: nat, normal: nat, exceso: nat, sinStock: nat)

  function ResumenDe(ps: seq<Producto>): (r: Resumen)
    ensures r.sinStock <= r.total <= |ps|
  {
    Resumen(ContarActivos(ps), ValorInventario(ps),
            ContarBanda(ps, Critico), ContarBanda(ps, Bajo), ContarBanda(ps, Normal), ContarBanda(ps, Exceso),
            ContarSinStock(ps))
  }

  predicate MinimosNoNegativos(ps: seq<Producto>) {
    forall i :: 0 <= i < |ps| ==> ps[i].stockMinimo >= 0
  }

  /** With no negative minimum, the four band counts add up to the number of active products. */
  lemma {:induction false} ResumenParticion(ps: seq<Producto>)
    requires MinimosNoNegativos(ps)
    ensures var r := ResumenDe(ps); r.critico + r.bajo + r.normal + r.exceso == r.total
  {
    if ps != [] {
      assert MinimosNoNegativos(ps[1..]);
      ResumenParticion(ps[1..]);
      BandasParticion(ps[0].stock, ps[0].stockMinimo);
    }
  }

  /** With no negative minimum, every product without stock is counted as critical. */
  lemma {:induction false} SinStockEsCritico(ps: seq<Producto>)
    requires MinimosNoNegativos(ps)
    ensures ResumenDe(ps).sinStock <= ResumenDe(ps).critico
  {
    if ps != [] {
      assert MinimosNoNegativos(ps[1..]);
      SinStockEsCritico(ps[1..]);
    }
  }

  // ---------------------------------------------------------------------
  // Low-stock alerts

  const NIVEL_CRITICO: string := "cr\U{ed}tico"
  const NIVEL_BAJO: string := "bajo"

  /** One entry of `alertasStockBajo`. */
  datatype Alerta = Alerta(productoId: ProductoId, stockActual: int, stockMinimo: int, diferencia: int, nivel: string)

  /** The query's condition: an active product at or below its minimum. */
  predicate EnAlerta(p: Producto) {
    p.estado == Activo && p.stock <= p.stockMinimo
  }

  function AlertaDe(id: ProductoId, p: Producto): Alerta {
    Alerta(id, p.stock, p.stockMinimo, p.stockMinimo - p.stock, if p.stock == 0 then NIVEL_CRITICO else NIVEL_BAJO)
  }

  /**
   * `alertasStockBajo` over the product rows in the order the database
   * returns them; each alert reports the shortfall and whether the product
   * has run out.
   */
  function AlertasStockBajo(filas: seq<(ProductoId, Producto)>): (r: seq<Alerta>)
    ensures |r| <= |filas|
    ensures forall a :: a in r ==>
      a.diferencia == a.stockMinimo - a.stockActual && a.diferencia >= 0
      && (a.nivel == NIVEL_CRITICO <==> a.stockActual == 0)
      && (a.nivel == NIVEL_CRITICO || a.nivel == NIVEL_BAJO)
  {
    if filas == [] then []
    else
      var resto := AlertasStockBajo(filas[1..]);
      if EnAlerta(filas[0].1) then [AlertaDe(filas[0].0, filas[0].1)] + resto else resto
  }

  /** The alerts are exactly those of the rows meeting the query's condition. */
  lemma {:induction false} AlertasExactas(filas: seq<(ProductoId, Producto)>)
    ensures forall i :: 0 <= i < |filas| && EnAlerta(filas[i].1) ==>
      AlertaDe(filas[i].0, filas[i].1) in AlertasStockBajo(filas)
    ensures forall a :: a in AlertasStockBajo(filas) ==>
      exists i :: 0 <= i < |filas| && EnAlerta(filas[i].1) && a == AlertaDe(filas[i].0, filas[i].1)
  {
    if filas != [] {
      AlertasExactas(filas[1..]);
      forall a | a in AlertasStockBajo(filas)
        ensures exists i :: 0 <= i < |filas| && EnAlerta(filas[i].1) && a == AlertaDe(filas[i].0, filas[i].1)
      {
        if EnAlerta(filas[0].1) && a == AlertaDe(filas[0].0, filas[0].1) {
        } else {
          var k :| 0 <= k < |filas[1..]| && EnAlerta(filas[1..][k].1) && a == AlertaDe(filas[1..][k].0, filas[1..][k].1);
          assert filas[k + 1] == filas[1..][k];
        }
      }
      forall i | 0 <= i < |filas| && EnAlerta(filas[i].1)
        ensures AlertaDe(filas[i].0, filas[i].1) in AlertasStockBajo(filas)
      {
        if i > 0 {
          assert filas[i] == filas[1..][i - 1];
        }
      }
    }
  }

  predicate OrdenadasPorStock(filas: seq<(ProductoId, Producto)>) {
    forall i, j :: 0 <= i < j < |filas| ==> filas[i].1.stock <= filas[j].1.stock
  }

  predicate AlertasOrdenadas(r: seq<Alerta>) {
    forall i, j :: 0 <= i < j < |r| ==> r[i].stockActual <= r[j].stockActual
  }

  /** Rows arriving in ascending stock order (the query's ORDER BY) give alerts in ascending stock order. */
  lemma {:induction false} AlertasEnOrden(filas: seq<(ProductoId, Producto)>)
    requires OrdenadasPorStock(filas)
    ensures AlertasOrdenadas(AlertasStockBajo(filas))
  {
    if filas != [] {
      assert OrdenadasPorStock(filas[1..]);
      AlertasEnOrden(filas[1..]);
      AlertasExactas(filas[1..]);
      var resto := AlertasStockBajo(filas[1..]);
      forall a | a in resto ensures filas[0].1.stock <= a.stockActual {
        var k :| 0 <= k < |filas[1..]| && EnAlerta(filas[1..][k].1) && a == AlertaDe(filas[1..][k].0, filas[1..][k].1);
        assert filas[1..][k] == filas[k + 1];
      }
      if EnAlerta(filas[0].1) {
        var r := [AlertaDe(filas[0].0, filas[0].1)] + resto;
        forall i, j | 0 <= i < j < |r| ensures r[i].stockActual <= r[j].stockActual {
          if i == 0 {
            assert r[j] == resto[j - 1] && resto[j - 1] in resto;
          } else {
            assert r[i] == resto[i - 1] && r[j] == resto[j - 1];
          }
        }
      }
    }
  }

  /** The rows list every product of the table once, with its current row. */
  predicate Enumera(filas: seq<(ProductoId, Producto)>, productos: map<ProductoId, Producto>) {
    (forall i :: 0 <= i < |filas| ==> filas[i].0 in productos && productos[filas[i].0] == filas[i].1)
    && (forall id :: id in productos ==> exists i :: 0 <= i < |filas| && filas[i].0 == id)
  }

  /** Over the whole products table: an alert for every active product at or below its minimum, and for no other. */
  lemma AlertasDeTabla(t: Tablas, filas: seq<(ProductoId, Producto)>)
    requires Enumera(filas, t.productos)
    ensures forall id :: id in t.productos && EnAlerta(t.productos[id]) ==>
      AlertaDe(id, t.productos[id]) in AlertasStockBajo(filas)
    ensures forall a :: a in AlertasStockBajo(filas) ==>
      a.productoId in t.productos && EnAlerta(t.productos[a.productoId])
      && a == AlertaDe(a.productoId, t.productos[a.productoId])
  {
    AlertasExactas(filas);
    forall id | id in t.productos && EnAlerta(t.productos[id])
      ensures AlertaDe(id, t.productos[id]) in AlertasStockBajo(filas)
    {
      var i :| 0 <= i < |filas| && filas[i].0 == id;
    }
  }
}
