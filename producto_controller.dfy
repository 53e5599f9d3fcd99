/**
 * The product controller's delete rule: a product with stock is refused,
 * a product that appears in a sale is only deactivated, any other product
 * is deleted together with its inventory row; the foreign keys of the cart
 * lines cascade the deletion to them.
 */
module ProductoController {
  import opened Common
  import opened Entities
  import opened Detalles
  import opened VentaReglas
  import opened Database

  /** How a successful delete request ended. */
  datatype Baja = Desactivado | Eliminado

  /** `detalleVentas()->count() > 0`: some sale has a line for the product. */
  predicate TieneHistorial(ventas: map<VentaId, Venta>, p: ProductoId) {
    exists id :: id in ventas && Menciona(ventas[id].detalles, p)
  }

  /** The cart lines that survive the cascade when product `p` is deleted. */
  function SinLineasDeProducto(ls: seq<LineaCarrito>, p: ProductoId): (r: seq<LineaCarrito>)
    ensures |r| <= |ls|
    ensures forall i :: 0 <= i < |r| ==> r[i].productoId != p
  {
    if ls == [] then []
    else if ls[0].productoId == p then SinLineasDeProducto(ls[1..], p)
    else [ls[0]] + SinLineasDeProducto(ls[1..], p)
  }

  /** The cascade keeps every other line, in order. */
  lemma {:induction false} SinLineasDeProductoSubsecuencia(ls: seq<LineaCarrito>, p: ProductoId)
    ensures forall x :: x in SinLineasDeProducto(ls, p) <==> x in ls && x.productoId != p
    ensures IdsCrecientes(ls) ==> IdsCrecientes(SinLineasDeProducto(ls, p))
  {
    if ls != [] {
      SinLineasDeProductoSubsecuencia(ls[1..], p);
      assert ls == [ls[0]] + ls[1..];
      if IdsCrecientes(ls) {
        assert IdsCrecientes(ls[1..]);
        var r := SinLineasDeProducto(ls, p);
        if ls[0].productoId != p {
          var t := SinLineasDeProducto(ls[1..], p);
          forall i, j | 0 <= i < j < |r| ensures r[i].id < r[j].id {
            if i == 0 {
              assert r[j] == t[j - 1];
              assert t[j - 1] in ls[1..];
            } else {
              assert r[i] == t[i - 1] && r[j] == t[j - 1];
            }
          }
        }
      }
    }
  }

  /** `destroy`: not found, refused while stock remains, deactivated with sales history, else deleted. */
  function DestroySpec(t: Tablas, p: ProductoId): Salida<Baja> {
    if p !in t.productos then Salida(Fallo(NoEncontrado), t)
    else if t.productos[p].stock > 0 then Salida(Fallo(ConStock), t)
    else if TieneHistorial(t.ventas, p) then
      Salida(Exito(Desactivado), t.(productos := t.productos[p := t.productos[p].(estado := Inactivo)]))
    else
      Salida(Exito(Eliminado), t.(productos := t.productos - {p},
                                  inventarios := t.inventarios - {p},
                                  lineas := SinLineasDeProducto(t.lineas, p)))
  }

  method Destroy(db: Db, p: ProductoId) returns (res: Resultado<Baja>)
    modifies db`productos, db`inventarios, db`lineas
    ensures Salida(res, db.Estado()) == DestroySpec(old(db.Estado()), p)
  {
    if p !in db.productos {
      return Fallo(NoEncontrado);
    }
    var producto := db.productos[p];
    if producto.stock > 0 {
      return Fallo(ConStock);
    }
    if TieneHistorial(db.ventas, p) {
      db.productos := db.productos[p := producto.(estado := Inactivo)];
      return Exito(Desactivado);
    }
    db.inventarios := db.inventarios - {p};
    db.productos := db.productos - {p};
    db.lineas := SinLineasDeProducto(db.lineas, p);
    res := Exito(Eliminado);
  }

  /** What the delete rule promises, outcome by outcome. */
  lemma DestroyContrato(t: Tablas, p: ProductoId)
    ensures var o := DestroySpec(t, p);
      o.resultado.Fallo? <==> p !in t.productos || t.productos[p].stock > 0
    ensures var o := DestroySpec(t, p);
      o.resultado.Fallo? ==> o.tablas == t
    ensures var o := DestroySpec(t, p);
      p !in t.productos ==> o.resultado.falla.Http() == 404
    ensures var o := DestroySpec(t, p);
      p in t.productos && t.productos[p].stock > 0 ==> o.resultado.falla.Http() == 400 && p in o.tablas.productos
    ensures var o := DestroySpec(t, p);
      o.resultado == Exito(Desactivado) <==> p in t.productos && t.productos[p].stock <= 0 && TieneHistorial(t.ventas, p)
    ensures var o := DestroySpec(t, p);
      o.resultado == Exito(Desactivado) ==>
        p in o.tablas.productos && o.tablas.productos[p].estado == Inactivo
        && o.tablas.productos[p] == t.productos[p].(estado := Inactivo)
        && o.tablas.ventas == t.ventas && o.tablas.inventarios == t.inventarios && o.tablas.lineas == t.lineas
  {
  }

  /** A deleted product leaves no product row, no inventory row and no cart line behind; everything else stays. */
  lemma DestroyEliminado(t: Tablas, p: ProductoId)
    requires DestroySpec(t, p).resultado == Exito(Eliminado)
    ensures var t2 := DestroySpec(t, p).tablas;
      p !in t2.productos && p !in t2.inventarios
      && (forall x :: x in t2.lineas ==> x.productoId != p)
      && (forall x :: x in t.lineas && x.productoId != p ==> x in t2.lineas)
      && (forall q :: q in t.productos && q != p ==> q in t2.productos && t2.productos[q] == t.productos[q])
      && t2.ventas == t.ventas && t2.carritos == t.carritos
    ensures !TieneHistorial(t.ventas, p) && t.productos[p].stock <= 0
  {
    SinLineasDeProductoSubsecuencia(t.lineas, p);
  }

  lemma DestroyPreservaValida(t: Tablas, p: ProductoId)
    requires Valida(t)
    ensures Valida(DestroySpec(t, p).tablas)
  {
    SinLineasDeProductoSubsecuencia(t.lineas, p);
  }
}
