/**
 * The tables the core reads and writes, held by one `Db` object whose
 * fields the controller actions update in place. `Tablas` is the same
 * state as a value: the controllers' specifications are functions from
 * one `Tablas` to the next, and the actions are proved to follow them.
 */
module Database {
  import opened Common
  import opened Entities
  import opened Detalles

  /**
   * Every table of the core. Carts are numbered by their position in
   * `carritos`; cart lines are kept in id order; sale ids and line ids come
   * from auto-increment counters.
   */
  datatype Tablas = Tablas(
    productos: map<ProductoId, Producto>,
    inventarios: set<ProductoId>,
    clientes: set<ClienteId>,
    ventas: map<VentaId, Venta>,
    siguienteVentaId: VentaId,
    carritos: seq<Carrito>,
    lineas: seq<LineaCarrito>,
    siguienteLineaId: LineaId)

  /** What an action answers, together with the tables it leaves behind. */
  datatype Salida<+T> = Salida(resultado: Resultado<T>, tablas: Tablas)

  predicate VentaGuardada(v: Venta) {
    forall i :: 0 <= i < |v.detalles| ==> LineaVentaGuardada(v.detalles[i])
  }

  predicate IdsCrecientes(ls: seq<LineaCarrito>) {
    forall i, j :: 0 <= i < j < |ls| ==> ls[i].id < ls[j].id
  }

  /**
   * The invariant the actions keep: ids below their counters, line ids
   * unique and increasing, every line in an existing cart, and every line
   * (cart or sale) as the saving hook leaves it.
   */
  predicate Valida(t: Tablas) {
    (forall id :: id in t.ventas ==> id < t.siguienteVentaId && VentaGuardada(t.ventas[id]))
    && IdsCrecientes(t.lineas)
    && (forall i :: 0 <= i < |t.lineas| ==>
          t.lineas[i].id < t.siguienteLineaId
          && t.lineas[i].carritoId < |t.carritos|
          && LineaCarritoGuardada(t.lineas[i]))
  }

  // ---------------------------------------------------------------------
  // Queries

  /** `DetalleCarrito::find(id)`. */
  function IndiceLinea(ls: seq<LineaCarrito>, id: LineaId): (r: Option<nat>)
    ensures r.Some? ==> r.value < |ls| && ls[r.value].id == id
    ensures r.None? ==> forall i :: 0 <= i < |ls| ==> ls[i].id != id
  {
    Primero(ls, (l: LineaCarrito) => l.id == id)
  }

  /** With ids unique up to position i, the line with that id is found at i. */
  lemma IndiceLineaEn(ls: seq<LineaCarrito>, id: LineaId, i: nat)
    requires i < |ls| && ls[i].id == id
    requires forall j :: 0 <= j < i ==> ls[j].id != id
    ensures IndiceLinea(ls, id) == Some(i)
  {
  }

  /**
   * `Carrito::where('cliente_id', c)->first()`, restricted to carts with
   * status Activo when `soloActivos`.
   */
  function PrimerCarrito(cs: seq<Carrito>, c: ClienteId, soloActivos: bool): (r: Option<CarritoId>)
    ensures r.Some? ==> r.value < |cs| && cs[r.value].clienteId == c
    ensures r.Some? && soloActivos ==> cs[r.value].estado == CarritoActivo
    ensures r.Some? ==> forall j :: 0 <= j < r.value ==>
      !(cs[j].clienteId == c && (!soloActivos || cs[j].estado == CarritoActivo))
    ensures r.None? ==> forall j :: 0 <= j < |cs| ==>
      !(cs[j].clienteId == c && (!soloActivos || cs[j].estado == CarritoActivo))
  {
    Primero(cs, (k: Carrito) => k.clienteId == c && (!soloActivos || k.estado == CarritoActivo))
  }

  /** The cart's line for a product, if any. */
  function LineaExistente(ls: seq<LineaCarrito>, carrito: CarritoId, p: ProductoId): (r: Option<nat>)
    ensures r.Some? ==> r.value < |ls| && ls[r.value].carritoId == carrito && ls[r.value].productoId == p
    ensures r.None? ==> forall i :: 0 <= i < |ls| ==> !(ls[i].carritoId == carrito && ls[i].productoId == p)
  {
    Primero(ls, (l: LineaCarrito) => l.carritoId == carrito && l.productoId == p)
  }

  /** The lines of one cart (`$carrito->detalles`), in id order. */
  function LineasDe(ls: seq<LineaCarrito>, carrito: CarritoId): (r: seq<LineaCarrito>)
    ensures |r| <= |ls|
    ensures forall i :: 0 <= i < |r| ==> r[i].carritoId == carrito
  {
    if ls == [] then []
    else (if ls[0].carritoId == carrito then [ls[0]] else []) + LineasDe(ls[1..], carrito)
  }

  /** The table after `$carrito->detalles()->delete()`. */
  function SinLineasDe(ls: seq<LineaCarrito>, carrito: CarritoId): (r: seq<LineaCarrito>)
    ensures |r| <= |ls|
    ensures forall i :: 0 <= i < |r| ==> r[i].carritoId != carrito
  {
    if ls == [] then []
    else (if ls[0].carritoId != carrito then [ls[0]] else []) + SinLineasDe(ls[1..], carrito)
  }

  /** A sale line copied from a cart line (quantity and snapshot price), as saved. */
  function ACopiaVenta(l: LineaCarrito): (r: LineaVenta)
    ensures LineaVentaGuardada(r)
    ensures r.productoId == l.productoId && r.cantidad == l.cantidad && r.precioUnitario == l.precioUnitario
  {
    GuardarLineaVenta(LineaVenta(l.productoId, l.cantidad, l.precioUnitario, l.cantidad * l.precioUnitario))
  }

  function CopiarLineas(ls: seq<LineaCarrito>): (r: seq<LineaVenta>)
    ensures |r| == |ls|
    ensures forall i :: 0 <= i < |ls| ==> r[i] == ACopiaVenta(ls[i])
  {
    if ls == [] then [] else [ACopiaVenta(ls[0])] + CopiarLineas(ls[1..])
  }

  // ---------------------------------------------------------------------

  /** Deleting one cart's lines leaves every other cart's lines exactly as they were. */
  lemma {:induction false} OtrosCarritosIntactos(ls: seq<LineaCarrito>, c: CarritoId, d: CarritoId)
    requires c != d
    ensures LineasDe(SinLineasDe(ls, c), d) == LineasDe(ls, d)
    ensures LineasDe(SinLineasDe(ls, c), c) == []
  {
    if ls != [] {
      OtrosCarritosIntactos(ls[1..], c, d);
      var cabeza := if ls[0].carritoId != c then [ls[0]] else [];
      LineasDeConcat(cabeza, SinLineasDe(ls[1..], c), d);
      LineasDeConcat(cabeza, SinLineasDe(ls[1..], c), c);
    }
  }

  lemma {:induction false} LineasDeConcat(a: seq<LineaCarrito>, b: seq<LineaCarrito>, c: CarritoId)
    ensures LineasDe(a + b, c) == LineasDe(a, c) + LineasDe(b, c)
  {
    if a == [] {
      assert a + b == b;
    } else {
      assert (a + b)[1..] == a[1..] + b;
      LineasDeConcat(a[1..], b, c);
    }
  }

  /** Every line is kept by exactly one of the two filters; nothing is invented. */
  lemma {:induction false} ParticionLineas(ls: seq<LineaCarrito>, c: CarritoId)
    ensures multiset(LineasDe(ls, c)) + multiset(SinLineasDe(ls, c)) == multiset(ls)
  {
    if ls != [] {
      ParticionLineas(ls[1..], c);
      assert ls == [ls[0]] + ls[1..];
      if ls[0].carritoId == c {
        assert LineasDe(ls, c) == [ls[0]] + LineasDe(ls[1..], c);
        assert SinLineasDe(ls, c) == SinLineasDe(ls[1..], c);
      } else {
        assert LineasDe(ls, c) == LineasDe(ls[1..], c);
        assert SinLineasDe(ls, c) == [ls[0]] + SinLineasDe(ls[1..], c);
      }
    }
  }

  /** Filtering keeps the relative order, so increasing ids and saved lines survive deletion. */
  lemma {:induction false} SinLineasDeSubsecuencia(ls: seq<LineaCarrito>, c: CarritoId)
    ensures forall x :: x in SinLineasDe(ls, c) ==> x in ls
    ensures IdsCrecientes(ls) ==> IdsCrecientes(SinLineasDe(ls, c))
    ensures forall x :: x in LineasDe(ls, c) ==> x in ls
  {
    if ls != [] {
      SinLineasDeSubsecuencia(ls[1..], c);
      if IdsCrecientes(ls) {
        assert IdsCrecientes(ls[1..]);
        var r := SinLineasDe(ls, c);
        if ls[0].carritoId != c {
          var t := SinLineasDe(ls[1..], c);
          forall i, j | 0 <= i < j < |r| ensures r[i].id < r[j].id {
            if i == 0 {
              assert r[j] == t[j - 1];
              assert t[j - 1] in ls[1..];
            } else {
              assert r[i] == t[i - 1] && r[j] == t[j - 1];
            }
          }
        }
      }
    }
  }

  /** The database object: one field per table, updated in place by the actions. */
  class Db {
    var productos: map<ProductoId, Producto>
    var inventarios: set<ProductoId>
    var clientes: set<ClienteId>
    var ventas: map<VentaId, Venta>
    var siguienteVentaId: VentaId
    var carritos: seq<Carrito>
    var lineas: seq<LineaCarrito>
    var siguienteLineaId: LineaId

    /** An empty database. */
    constructor ()
      ensures Estado() == Tablas(map[], {}, {}, map[], 0, [], [], 0)
      ensures Valid()
    {
      productos, inventarios, clientes := map[], {}, {};
      ventas, siguienteVentaId := map[], 0;
      carritos, lineas, siguienteLineaId := [], [], 0;
    }

    /** The tables as a value. */
    function Estado(): Tablas
      reads this
    {
      Tablas(productos, inventarios, clientes, ventas, siguienteVentaId, carritos, lineas, siguienteLineaId)
    }

    predicate Valid()
      reads this
    {
      Valida(Estado())
    }
  }
}
