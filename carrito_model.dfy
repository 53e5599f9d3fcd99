/** The derived values of a cart (the Carrito model): its total and its item count. */
module CarritoModel {
  import opened Entities
  import opened Detalles

  /** `calcularTotal`: Σ of the stored line subtotals. */
  function CalcularTotal(ls: seq<LineaCarrito>): Cents {
    if ls == [] then 0 else ls[0].subtotal + CalcularTotal(ls[1..])
  }

  /** `cantidad_items`: Σ of the line quantities. */
  function CantidadItems(ls: seq<LineaCarrito>): int {
    if ls == [] then 0 else ls[0].cantidad + CantidadItems(ls[1..])
  }

  /** Σ of quantity × unit price: what the total means. */
  function SumaImportes(ls: seq<LineaCarrito>): Cents {
    if ls == [] then 0 else ls[0].cantidad * ls[0].precioUnitario + SumaImportes(ls[1..])
  }

  predicate TodasGuardadas(ls: seq<LineaCarrito>) {
    forall i :: 0 <= i < |ls| ==> LineaCarritoGuardada(ls[i])
  }

  // ---------------------------------------------------------------------

  /** An empty cart totals 0 and holds 0 items. */
  lemma CarritoVacio()
    ensures CalcularTotal([]) == 0 && CantidadItems([]) == 0
  {
  }

  /**
   * On lines as the saving hook leaves them, the total is Σ quantity × unit
   * price, whatever sequence of operations produced them.
   */
  lemma {:induction false} TotalEsSumaDeImportes(ls: seq<LineaCarrito>)
    requires TodasGuardadas(ls)
    ensures CalcularTotal(ls) == SumaImportes(ls)
  {
    if ls != [] {
      TotalEsSumaDeImportes(ls[1..]);
    }
  }

  lemma {:induction false} TotalConcat(a: seq<LineaCarrito>, b: seq<LineaCarrito>)
    ensures CalcularTotal(a + b) == CalcularTotal(a) + CalcularTotal(b)
    ensures CantidadItems(a + b) == CantidadItems(a) + CantidadItems(b)
  {
    if a != [] {
      assert (a + b)[1..] == a[1..] + b;
      TotalConcat(a[1..], b);
    } else {
      assert a + b == b;
    }
  }

  /** Removing the line at position i lowers the total by exactly its subtotal. */
  lemma QuitarLinea(ls: seq<LineaCarrito>, i: nat)
    requires i < |ls|
    ensures CalcularTotal(ls[..i] + ls[i + 1..]) == CalcularTotal(ls) - ls[i].subtotal
    ensures CantidadItems(ls[..i] + ls[i + 1..]) == CantidadItems(ls) - ls[i].cantidad
  {
    var antes, despues := ls[..i], ls[i + 1..];
    assert ls == antes + ([ls[i]] + despues);
    assert CalcularTotal([ls[i]]) == ls[i].subtotal && CantidadItems([ls[i]]) == ls[i].cantidad by {
      assert [ls[i]][1..] == [];
    }
    TotalConcat(antes, [ls[i]] + despues);
    TotalConcat([ls[i]], despues);
    TotalConcat(antes, despues);
  }

  /** Replacing the line at position i changes the total by the difference of subtotals. */
  lemma ReemplazarLinea(ls: seq<LineaCarrito>, i: nat, l: LineaCarrito)
    requires i < |ls|
    ensures CalcularTotal(ls[i := l]) == CalcularTotal(ls) - ls[i].subtotal + l.subtotal
    ensures CantidadItems(ls[i := l]) == CantidadItems(ls) - ls[i].cantidad + l.cantidad
  {
    assert ls == ls[..i] + ([ls[i]] + ls[i + 1..]);
    assert ls[i := l] == ls[..i] + ([l] + ls[i + 1..]);
    TotalConcat(ls[..i], [ls[i]] + ls[i + 1..]);
    TotalConcat([ls[i]], ls[i + 1..]);
    TotalConcat(ls[..i], [l] + ls[i + 1..]);
    TotalConcat([l], ls[i + 1..]);
  }
}
