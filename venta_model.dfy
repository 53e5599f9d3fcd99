/**
 * The derived attributes of a sale (the Venta model): its order number,
 * its total, and the subtotal and discount recovered from its lines.
 */
module VentaModel {
  import opened Common
  import opened Text
  import opened Entities
  import opened Detalles

  /** `numero_venta`: "V-" and the id left-padded with zeros to six digits. */
  function NumeroVenta(id: VentaId): string {
    "V-" + PadLeft(NatToString(id), 6, '0')
  }

  /** Σ of the stored line subtotals (`detalles->sum('subtotal')`). */
  function SumaSubtotales(ls: seq<LineaVenta>): Cents {
    if ls == [] then 0 else ls[0].subtotal + SumaSubtotales(ls[1..])
  }

  /** Σ of quantity × unit price over the lines. */
  function SumaImportes(ls: seq<LineaVenta>): Cents {
    if ls == [] then 0 else ls[0].cantidad * ls[0].precioUnitario + SumaImportes(ls[1..])
  }

  /** The `total` accessor: `total_venta`, or 0 when it is null. */
  function Total(v: Venta): Cents {
    v.totalVenta.GetOr(0)
  }

  /**
   * The `subtotal` accessor: the lines' subtotals when the lines are loaded
   * (`cargados`), otherwise the sale's total.
   */
  function Subtotal(v: Venta, cargados: bool): Cents {
    if cargados then SumaSubtotales(v.detalles) else Total(v)
  }

  /**
   * The `descuento` accessor: how far the loaded lines exceed the stored
   * total, never below zero; 0 when the lines are not loaded.
   */
  function Descuento(v: Venta, cargados: bool): (r: Cents)
    ensures r >= 0
    ensures r > 0 ==> cargados && SumaSubtotales(v.detalles) > Total(v)
  {
    if cargados then
      var s := SumaSubtotales(v.detalles);
      if s - Total(v) > 0 then s - Total(v) else 0
    else 0
  }

  /** `calcularTotal`: Σ of the line subtotals. */
  function CalcularTotal(v: Venta): Cents {
    SumaSubtotales(v.detalles)
  }

  // ---------------------------------------------------------------------

  /** On lines as the saving hook leaves them, the two sums agree. */
  lemma {:induction false} SumasGuardadas(ls: seq<LineaVenta>)
    requires forall i :: 0 <= i < |ls| ==> LineaVentaGuardada(ls[i])
    ensures SumaSubtotales(ls) == SumaImportes(ls)
  {
    if ls != [] {
      SumasGuardadas(ls[1..]);
    }
  }

  /** For a sale whose lines went through the saving hook, the computed total is Σ quantity × price. */
  lemma CalcularTotalGuardado(v: Venta)
    requires forall i :: 0 <= i < |v.detalles| ==> LineaVentaGuardada(v.detalles[i])
    ensures CalcularTotal(v) == SumaImportes(v.detalles)
    ensures v.detalles == [] ==> CalcularTotal(v) == 0
  {
    SumasGuardadas(v.detalles);
  }

  lemma {:induction false} SumaSubtotalesConcat(a: seq<LineaVenta>, b: seq<LineaVenta>)
    ensures SumaSubtotales(a + b) == SumaSubtotales(a) + SumaSubtotales(b)
  {
    if a != [] {
      assert (a + b)[1..] == a[1..] + b;
      SumaSubtotalesConcat(a[1..], b);
    } else {
      assert a + b == b;
    }
  }

  lemma {:induction false} SumaImportesConcat(a: seq<LineaVenta>, b: seq<LineaVenta>)
    ensures SumaImportes(a + b) == SumaImportes(a) + SumaImportes(b)
  {
    if a != [] {
      assert (a + b)[1..] == a[1..] + b;
      SumaImportesConcat(a[1..], b);
    } else {
      assert a + b == b;
    }
  }

  /** The order number has eight characters and reads back as the id. */
  lemma NumeroVentaRoundTrip(id: VentaId)
    requires id < 1000000
    ensures |NumeroVenta(id)| == 8
    ensures NumeroVenta(id)[..2] == "V-"
    ensures AllDigits(NumeroVenta(id)[2..]) && DigitsValue(NumeroVenta(id)[2..]) == id
  {
    var p := PadLeft(NatToString(id), 6, '0');
    assert NumeroVenta(id)[2..] == p;
    PaddedLength(id, 6);
    PaddedValue(id, 6);
  }

  /** Distinct sales never share an order number, however large the ids. */
  lemma NumeroVentaInyectivo(a: VentaId, b: VentaId)
    requires NumeroVenta(a) == NumeroVenta(b)
    ensures a == b
  {
    assert NumeroVenta(a)[2..] == PadLeft(NatToString(a), 6, '0');
    assert NumeroVenta(b)[2..] == PadLeft(NatToString(b), 6, '0');
    PaddedValue(a, 6);
    PaddedValue(b, 6);
  }

  /**
   * With the lines loaded, subtotal minus discount gives back the total
   * whenever the lines add up to at least the total.
   */
  lemma SubtotalMenosDescuento(v: Venta)
    requires SumaSubtotales(v.detalles) >= Total(v)
    ensures Subtotal(v, true) - Descuento(v, true) == Total(v)
    ensures Descuento(v, true) == SumaSubtotales(v.detalles) - Total(v)
  {
  }

  /** Without the lines loaded, the subtotal is the total and there is no discount. */
  lemma SinDetallesCargados(v: Venta)
    ensures Subtotal(v, false) == Total(v) && Descuento(v, false) == 0
  {
  }
}
