/**
 * Receipt numbering (the Comprobante model): a three-letter prefix per
 * receipt type, a dash, and a counter zero-padded to six digits. The
 * counter continues from the latest receipt of the same type.
 */
module ComprobanteModel {
  import opened Common
  import opened Text

  /** A receipts-table row: its number and its type, in id order. */
  datatype Registro = Registro(numero: string, tipo: string)

  /** The prefix per receipt type. */
  function Prefijo(tipo: string): (r: string)
    ensures |r| == 3 && forall i :: 0 <= i < 3 ==> r[i] != '-'
    ensures r == "BOL" <==> tipo == "Boleta"
    ensures r == "FAC" <==> tipo == "Factura"
    ensures r == "REC" <==> tipo == "Recibo"
    ensures r == "COM" <==> !(tipo == "Boleta" || tipo == "Factura" || tipo == "Recibo")
  {
    if tipo == "Boleta" then "BOL"
    else if tipo == "Factura" then "FAC"
    else if tipo == "Recibo" then "REC"
    else "COM"
  }

  /** The number of the receipt of this type with the highest id, if any. */
  function UltimoDeTipo(tabla: seq<Registro>, tipo: string): (r: Option<string>)
    ensures r.None? <==> forall i :: 0 <= i < |tabla| ==> tabla[i].tipo != tipo
    ensures r.Some? ==> exists i :: 0 <= i < |tabla| && tabla[i].tipo == tipo && tabla[i].numero == r.value
                                    && forall j :: i < j < |tabla| ==> tabla[j].tipo != tipo
  {
    if tabla == [] then None
    else if tabla[|tabla| - 1].tipo == tipo then Some(tabla[|tabla| - 1].numero)
    else UltimoDeTipo(tabla[..|tabla| - 1], tipo)
  }

  /** The counter: 1 for the first receipt, else the last six characters read as an integer, plus one. */
  function SiguienteNumero(ultimo: Option<string>): int {
    match ultimo
    case None => 1
    case Some(n) => PhpIntCast(LastChars(n, 6)) + 1
  }

  function Formatear(prefijo: string, numero: int): string {
    prefijo + "-" + PadLeft(IntToString(numero), 6, '0')
  }

  /** `generarNumeroComprobante($tipo)`, given the receipts table. */
  function GenerarNumeroComprobante(tabla: seq<Registro>, tipo: string): string {
    Formatear(Prefijo(tipo), SiguienteNumero(UltimoDeTipo(tabla, tipo)))
  }

  // ---------------------------------------------------------------------

  /** The first receipt of a type is number 1. */
  lemma PrimerComprobante(tabla: seq<Registro>, tipo: string)
    requires forall i :: 0 <= i < |tabla| ==> tabla[i].tipo != tipo
    ensures GenerarNumeroComprobante(tabla, tipo) == Prefijo(tipo) + "-000001"
  {
    assert NatToString(1) == "1";
  }

  /** A counter below a million renders as ten characters whose last six read back as the counter. */
  lemma FormatoComprobante(prefijo: string, n: int)
    requires |prefijo| == 3 && 0 <= n < 1000000
    ensures |Formatear(prefijo, n)| == 10
    ensures Formatear(prefijo, n)[..4] == prefijo + "-"
    ensures AllDigits(Formatear(prefijo, n)[4..]) && DigitsValue(Formatear(prefijo, n)[4..]) == n
  {
    var d := PadLeft(NatToString(n), 6, '0');
    assert Formatear(prefijo, n) == prefijo + "-" + d;
    assert Formatear(prefijo, n)[4..] == d;
    PaddedLength(n, 6);
    PaddedValue(n, 6);
  }

  /**
   * When the latest receipt of a type carries counter n, with n at most
   * 999998, the next one carries n + 1 and its last six digits read n + 1.
   */
  lemma Consecutivo(tabla: seq<Registro>, tipo: string, n: nat)
    requires n <= 999998
    requires UltimoDeTipo(tabla, tipo) == Some(Formatear(Prefijo(tipo), n))
    ensures GenerarNumeroComprobante(tabla, tipo) == Formatear(Prefijo(tipo), n + 1)
    ensures PhpIntCast(LastChars(GenerarNumeroComprobante(tabla, tipo), 6)) == n + 1
  {
    LastSixReadBack(Prefijo(tipo), n);
    LastSixReadBack(Prefijo(tipo), n + 1);
  }

  lemma LastSixReadBack(prefijo: string, n: nat)
    requires |prefijo| == 3 && n < 1000000
    ensures PhpIntCast(LastChars(Formatear(prefijo, n), 6)) == n
  {
    FormatoComprobante(prefijo, n);
    var f := Formatear(prefijo, n);
    assert LastChars(f, 6) == f[4..];
    PhpIntCastOfDigits(f[4..]);
  }

  /** Receipts of another type do not move a type's counter. */
  lemma ContadoresIndependientes(tabla: seq<Registro>, r: Registro, tipo: string)
    requires r.tipo != tipo
    ensures GenerarNumeroComprobante(tabla + [r], tipo) == GenerarNumeroComprobante(tabla, tipo)
  {
    assert (tabla + [r])[..|tabla + [r]| - 1] == tabla;
  }

  /** Recording a receipt makes it the latest of its type. */
  lemma UltimoTrasRegistrar(tabla: seq<Registro>, r: Registro)
    ensures UltimoDeTipo(tabla + [r], r.tipo) == Some(r.numero)
  {
  }

  // ---------------------------------------------------------------------
  // The counter wraps at one million

  /**
   * As written, the counter of the receipt after "BOL-1000000" is read from
   * its last six characters "000000", so the next Boleta is "BOL-000001":
   * the very number the first Boleta got, in a column declared unique.
   */
  lemma NumeroRepetidoTrasElMillon()
    ensures Formatear("BOL", 1000000) == "BOL-1000000"
    ensures GenerarNumeroComprobante([Registro("BOL-1000000", "Boleta")], "Boleta") == "BOL-000001"
    ensures GenerarNumeroComprobante([], "Boleta") == "BOL-000001"
  {
    Millon();
    CeroSeisVeces();
    Uno();
  }

  lemma Millon()
    ensures Formatear("BOL", 1000000) == "BOL-1000000"
  {
    assert NatToString(1) == "1";
    assert NatToString(10) == "10";
    assert NatToString(100) == "100";
    assert NatToString(1000) == "1000";
    assert NatToString(10000) == "10000";
    assert NatToString(100000) == "100000";
    assert NatToString(1000000) == "1000000";
  }

  lemma CeroSeisVeces()
    ensures SiguienteNumero(Some("BOL-1000000")) == 1
  {
    var z := "000000";
    assert LastChars("BOL-1000000", 6) == z by {
      var b := "BOL-1000000";
      assert |b| == 11;
      assert b[5..] == z;
    }
    assert forall i :: 0 <= i < |z| ==> z[i] == '0';
    ZerosValue(z);
    PhpIntCastOfDigits(z);
  }

  lemma Uno()
    ensures Formatear("BOL", 1) == "BOL-000001"
  {
    assert NatToString(1) == "1";
    assert PadLeft("1", 6, '0') == "000001";
  }

  /** Everything after the first dash of a receipt number. */
  function DespuesDelGuion(s: string): string {
    if s == [] then [] else if s[0] == '-' then s[1..] else DespuesDelGuion(s[1..])
  }

  /** The counter read from every digit after the prefix, not only the last six. */
  function SiguienteNumeroCorregido(ultimo: Option<string>): int {
    match ultimo
    case None => 1
    case Some(n) => PhpIntCast(DespuesDelGuion(n)) + 1
  }

  /** Receipt numbering that keeps counting past 999999. */
  function GenerarNumeroComprobanteCorregido(tabla: seq<Registro>, tipo: string): string {
    Formatear(Prefijo(tipo), SiguienteNumeroCorregido(UltimoDeTipo(tabla, tipo)))
  }

  lemma {:induction false} DespuesDelGuionDeFormato(p: string, d: string)
    requires forall i :: 0 <= i < |p| ==> p[i] != '-'
    ensures DespuesDelGuion(p + "-" + d) == d
  {
    if p != [] {
      assert (p + "-" + d)[1..] == p[1..] + "-" + d;
      DespuesDelGuionDeFormato(p[1..], d);
    } else {
      assert p + "-" + d == "-" + d;
    }
  }

  /** With the correction, the receipt after counter n carries n + 1 for every n. */
  lemma ConsecutivoCorregido(tabla: seq<Registro>, tipo: string, n: nat)
    requires UltimoDeTipo(tabla, tipo) == Some(Formatear(Prefijo(tipo), n))
    ensures GenerarNumeroComprobanteCorregido(tabla, tipo) == Formatear(Prefijo(tipo), n + 1)
  {
    var d := PadLeft(NatToString(n), 6, '0');
    DespuesDelGuionDeFormato(Prefijo(tipo), d);
    PaddedValue(n, 6);
    PhpIntCastOfDigits(d);
  }

  /** Different counters never render to the same receipt number. */
  lemma FormatoInyectivo(prefijo: string, a: nat, b: nat)
    requires |prefijo| == 3
    requires Formatear(prefijo, a) == Formatear(prefijo, b)
    ensures a == b
  {
    assert Formatear(prefijo, a)[4..] == PadLeft(NatToString(a), 6, '0');
    assert Formatear(prefijo, b)[4..] == PadLeft(NatToString(b), 6, '0');
    PaddedValue(a, 6);
    PaddedValue(b, 6);
  }
}
