/**
 * The pure rules behind the sale controller: the status-transition table,
 * the payment-proof URL check, the audit line appended to `observaciones`,
 * and the stock effect of a sale's lines (debit on confirmation, credit on
 * cancellation).
 */
module VentaReglas {
  import opened Common
  import opened Text
  import opened Entities

  // ---------------------------------------------------------------------
  // Transition table

  /** `$transicionesValidas`: the successors of each of the seven statuses; none for any other string. */
  function Sucesores(estado: string): Option<seq<string>> {
    if estado == PENDIENTE then Some([CONFIRMADO, CANCELADO])
    else if estado == CONFIRMADO then Some([EN_PROCESO, CANCELADO])
    else if estado == EN_PROCESO then Some([ENVIADO, CANCELADO])
    else if estado == ENVIADO then Some([ENTREGADO, CANCELADO])
    else if estado == ENTREGADO then Some([COMPLETADO])
    else if estado == COMPLETADO then Some([])
    else if estado == CANCELADO then Some([])
    else None
  }

  /** `validarTransicionEstado`: a status without an entry is always refused. */
  predicate ValidarTransicionEstado(actual: string, nuevo: string) {
    match Sucesores(actual)
    case None => false
    case Some(s) => nuevo in s
  }

  /** The legal transitions as a set of pairs, stated independently of the lookup. */
  const TRANSICIONES: set<(string, string)> := {
    (PENDIENTE, CONFIRMADO), (PENDIENTE, CANCELADO),
    (CONFIRMADO, EN_PROCESO), (CONFIRMADO, CANCELADO),
    (EN_PROCESO, ENVIADO), (EN_PROCESO, CANCELADO),
    (ENVIADO, ENTREGADO), (ENVIADO, CANCELADO),
    (ENTREGADO, COMPLETADO)
  }

  /** Position of a status along the life cycle; every transition moves forward. */
  function Rango(estado: string): nat {
    if estado == PENDIENTE then 0
    else if estado == CONFIRMADO then 1
    else if estado == EN_PROCESO then 2
    else if estado == ENVIADO then 3
    else if estado == ENTREGADO then 4
    else if estado == COMPLETADO then 5
    else 6
  }

  lemma TransicionSegunTabla(actual: string, nuevo: string)
    ensures ValidarTransicionEstado(actual, nuevo) <==> (actual, nuevo) in TRANSICIONES
  {
  }

  /** An unknown current status is refused whatever the target. */
  lemma EstadoDesconocidoRechazado(actual: string, nuevo: string)
    requires !EsEstadoConocido(actual)
    ensures !ValidarTransicionEstado(actual, nuevo)
  {
  }

  /** Completado and Cancelado have no successors. */
  lemma EstadosTerminales(nuevo: string)
    ensures !ValidarTransicionEstado(COMPLETADO, nuevo)
    ensures !ValidarTransicionEstado(CANCELADO, nuevo)
  {
  }

  /** Every accepted transition joins two known statuses and moves strictly forward, so no status recurs. */
  lemma TransicionAvanza(actual: string, nuevo: string)
    requires ValidarTransicionEstado(actual, nuevo)
    ensures EsEstadoConocido(actual) && EsEstadoConocido(nuevo)
    ensures Rango(actual) < Rango(nuevo)
  {
  }

  // ---------------------------------------------------------------------
  // Payment proof

  /** Prepends "https://" to a URL that has neither scheme. */
  function NormalizarComprobante(url: string): (r: string)
    ensures StartsWith(r, "http://") || StartsWith(r, "https://")
    ensures r == url || r == "https://" + url
    ensures r == url <==> (StartsWith(url, "http://") || StartsWith(url, "https://"))
  {
    if !StartsWith(url, "http://") && !StartsWith(url, "https://") then "https://" + url else url
  }

  /** The trusted-host check: the URL mentions cloudinary.com anywhere. */
  predicate EsDeCloudinary(url: string) {
    Contains(url, "cloudinary.com")
  }

  lemma NormalizarIdempotente(url: string)
    ensures NormalizarComprobante(NormalizarComprobante(url)) == NormalizarComprobante(url)
  {
  }

  /** Normalising neither adds nor removes a cloudinary.com occurrence. */
  lemma NormalizarConservaHost(url: string)
    ensures EsDeCloudinary(NormalizarComprobante(url)) <==> EsDeCloudinary(url)
  {
    if NormalizarComprobante(url) != url {
      ContainsAfterPrefix("https://", url, "cloudinary.com");
    }
  }

  /** The order fields a web checkout request carries. */
  datatype DatosPedido = DatosPedido(
    metodoPago: string,
    direccion: Option<string>,
    telefono: Option<string>,
    observaciones: Option<string>,
    comprobante: Option<string>,
    codigo: Option<string>)

  /** The length limits both checkout endpoints validate. */
  predicate LongitudesValidas(d: DatosPedido) {
    (d.direccion.Some? ==> |d.direccion.value| <= 255)
    && (d.telefono.Some? ==> |d.telefono.value| <= 20)
    && (d.comprobante.Some? ==> |d.comprobante.value| <= 1000)
    && (d.codigo.Some? ==> |d.codigo.value| <= 50)
  }

  /**
   * The payment proof stored by a checkout: none when the field is not
   * filled in, otherwise the normalised URL, which must be on Cloudinary.
   */
  function ComprobanteDePedido(c: Option<string>): (r: Resultado<Option<string>>)
    ensures r.Exito? <==> (!Lleno(c) || EsDeCloudinary(c.value))
    ensures r.Fallo? ==> r.falla == ComprobanteInvalido
    ensures r.Exito? ==> (r.valor.Some? <==> Lleno(c))
    ensures r.Exito? && r.valor.Some? ==>
      r.valor.value == NormalizarComprobante(c.value) && EsDeCloudinary(r.valor.value)
  {
    if !Lleno(c) then Exito(None)
    else
      NormalizarConservaHost(c.value);
      var n := NormalizarComprobante(c.value);
      if EsDeCloudinary(n) then Exito(Some(n)) else Fallo(ComprobanteInvalido)
  }

  // ---------------------------------------------------------------------
  // Audit trail

  /** "\n[ts] old → new", then ": note" when a note is filled in. */
  function EntradaBitacora(ts: string, desde: string, hacia: string, nota: Option<string>): (r: string)
    ensures StartsWith(r, "\n[" + ts + "] " + desde + " \U{2192} " + hacia)
  {
    var base := "\n[" + ts + "] " + desde + " \U{2192} " + hacia;
    if Lleno(nota) then base + ": " + nota.value else base
  }

  /** The new `observaciones`: the old text (null read as "") followed by the entry. */
  function Anotar(obs: Option<string>, entrada: string): (r: string)
    ensures |r| == |obs.GetOr("")| + |entrada|
    ensures StartsWith(r, obs.GetOr("")) && r[|obs.GetOr("")|..] == entrada
  {
    obs.GetOr("") + entrada
  }

  // ---------------------------------------------------------------------
  // Stock effect of a sale's lines

  /** Σ of the quantities the lines hold for one product. */
  function CantidadDe(ls: seq<LineaVenta>, p: ProductoId): int {
    if ls == [] then 0 else (if ls[0].productoId == p then ls[0].cantidad else 0) + CantidadDe(ls[1..], p)
  }

  predicate Menciona(ls: seq<LineaVenta>, p: ProductoId) {
    exists i :: 0 <= i < |ls| && ls[i].productoId == p
  }

  function ConNuevoStock(productos: map<ProductoId, Producto>, p: ProductoId, stock: int): (r: map<ProductoId, Producto>)
    requires p in productos
    ensures r.Keys == productos.Keys
  {
    productos[p := productos[p].(stock := stock)]
  }

  /**
   * The debit loop of a confirmation (and of a point-of-sale sale): line by
   * line, refuse when the product's current stock is below the line's
   * quantity, otherwise subtract it. A line whose product row is gone makes
   * the request fail with a server error.
   */
  function Debitar(productos: map<ProductoId, Producto>, ls: seq<LineaVenta>): (r: Resultado<map<ProductoId, Producto>>)
    ensures r.Exito? ==> r.valor.Keys == productos.Keys
    ensures r.Exito? ==> forall k :: k in productos ==> r.valor[k] == productos[k].(stock := r.valor[k].stock)
    ensures r.Fallo? ==> r.falla.ErrorServidor? || r.falla.StockInsuficiente?
  {
    if ls == [] then Exito(productos)
    else
      var p := ls[0].productoId;
      if p !in productos then Fallo(ErrorServidor)
      else if productos[p].stock < ls[0].cantidad then Fallo(StockInsuficiente(p, productos[p].stock))
      else Debitar(ConNuevoStock(productos, p, productos[p].stock - ls[0].cantidad), ls[1..])
  }

  /** The credit loop of a cancellation: add every line's quantity back, unconditionally. */
  function Acreditar(productos: map<ProductoId, Producto>, ls: seq<LineaVenta>): (r: Resultado<map<ProductoId, Producto>>)
    ensures r.Exito? ==> r.valor.Keys == productos.Keys
    ensures r.Exito? ==> forall k :: k in productos ==> r.valor[k] == productos[k].(stock := r.valor[k].stock)
    ensures r.Fallo? ==> r.falla == ErrorServidor
  {
    if ls == [] then Exito(productos)
    else
      var p := ls[0].productoId;
      if p !in productos then Fallo(ErrorServidor)
      else Acreditar(ConNuevoStock(productos, p, productos[p].stock + ls[0].cantidad), ls[1..])
  }

  /**
   * When the debit succeeds with stock checked line by line: every line's
   * product exists and still has, after the earlier lines of the same
   * product were taken, at least the line's quantity.
   */
  predicate Alcanza(productos: map<ProductoId, Producto>, ls: seq<LineaVenta>) {
    forall i :: 0 <= i < |ls| ==>
      ls[i].productoId in productos
      && productos[ls[i].productoId].stock - CantidadDe(ls[..i], ls[i].productoId) >= ls[i].cantidad
  }

  predicate Existen(productos: map<ProductoId, Producto>, ls: seq<LineaVenta>) {
    forall i :: 0 <= i < |ls| ==> ls[i].productoId in productos
  }

  lemma {:induction false} AlcanzaCons(productos: map<ProductoId, Producto>, ls: seq<LineaVenta>)
    requires ls != [] && ls[0].productoId in productos
    ensures Alcanza(productos, ls) <==>
      productos[ls[0].productoId].stock >= ls[0].cantidad
      && Alcanza(ConNuevoStock(productos, ls[0].productoId, productos[ls[0].productoId].stock - ls[0].cantidad), ls[1..])
  {
    var p := ls[0].productoId;
    var q := ConNuevoStock(productos, p, productos[p].stock - ls[0].cantidad);
    var rest := ls[1..];
    forall j | 0 <= j < |rest|
      ensures rest[j] == ls[j + 1]
      ensures CantidadDe(ls[..j + 1], rest[j].productoId)
              == (if p == rest[j].productoId then ls[0].cantidad else 0) + CantidadDe(rest[..j], rest[j].productoId)
    {
      assert ls[..j + 1][1..] == rest[..j];
    }
    assert CantidadDe(ls[..0], p) == 0;
    if Alcanza(productos, ls) {
      forall j | 0 <= j < |rest|
        ensures rest[j].productoId in q && q[rest[j].productoId].stock - CantidadDe(rest[..j], rest[j].productoId) >= rest[j].cantidad
      {
        assert ls[j + 1] == rest[j];
      }
    }
    if productos[p].stock >= ls[0].cantidad && Alcanza(q, rest) {
      forall i | 0 <= i < |ls|
        ensures ls[i].productoId in productos
        ensures productos[ls[i].productoId].stock - CantidadDe(ls[..i], ls[i].productoId) >= ls[i].cantidad
      {
        if i > 0 {
          assert rest[i - 1] == ls[i];
        }
      }
    }
  }

  /** The debit succeeds exactly when the line-by-line stock check passes. */
  lemma {:induction false} DebitarExitoSiiAlcanza(productos: map<ProductoId, Producto>, ls: seq<LineaVenta>)
    ensures Debitar(productos, ls).Exito? <==> Alcanza(productos, ls)
  {
    if ls != [] {
      var p := ls[0].productoId;
      if p in productos {
        AlcanzaCons(productos, ls);
        DebitarExitoSiiAlcanza(ConNuevoStock(productos, p, productos[p].stock - ls[0].cantidad), ls[1..]);
      }
    }
  }

  /** A successful debit takes from each product exactly the quantities its lines hold. */
  lemma {:induction false} DebitarPorProducto(productos: map<ProductoId, Producto>, ls: seq<LineaVenta>)
    requires Debitar(productos, ls).Exito?
    ensures forall k :: k in productos ==>
      Debitar(productos, ls).valor[k].stock == productos[k].stock - CantidadDe(ls, k)
  {
    if ls != [] {
      var p := ls[0].productoId;
      var q := ConNuevoStock(productos, p, productos[p].stock - ls[0].cantidad);
      assert Debitar(productos, ls) == Debitar(q, ls[1..]);
      DebitarPorProducto(q, ls[1..]);
      forall k | k in productos
        ensures Debitar(productos, ls).valor[k].stock == productos[k].stock - CantidadDe(ls, k)
      {
        assert CantidadDe(ls, k) == (if p == k then ls[0].cantidad else 0) + CantidadDe(ls[1..], k);
        assert q[k].stock == productos[k].stock - (if p == k then ls[0].cantidad else 0);
      }
    }
  }

  /** A successful credit gives each product back exactly the quantities its lines hold. */
  lemma {:induction false} AcreditarPorProducto(productos: map<ProductoId, Producto>, ls: seq<LineaVenta>)
    requires Acreditar(productos, ls).Exito?
    ensures forall k :: k in productos ==>
      Acreditar(productos, ls).valor[k].stock == productos[k].stock + CantidadDe(ls, k)
  {
    if ls != [] {
      var p := ls[0].productoId;
      var q := ConNuevoStock(productos, p, productos[p].stock + ls[0].cantidad);
      assert Acreditar(productos, ls) == Acreditar(q, ls[1..]);
      AcreditarPorProducto(q, ls[1..]);
      forall k | k in productos
        ensures Acreditar(productos, ls).valor[k].stock == productos[k].stock + CantidadDe(ls, k)
      {
        assert CantidadDe(ls, k) == (if p == k then ls[0].cantidad else 0) + CantidadDe(ls[1..], k);
        assert q[k].stock == productos[k].stock + (if p == k then ls[0].cantidad else 0);
      }
    }
  }

  lemma ExistenCons(productos: map<ProductoId, Producto>, ls: seq<LineaVenta>)
    requires ls != []
    ensures Existen(productos, ls) <==> ls[0].productoId in productos && Existen(productos, ls[1..])
  {
    if ls[0].productoId in productos && Existen(productos, ls[1..]) {
      forall i | 0 <= i < |ls| ensures ls[i].productoId in productos {
        if i > 0 { assert ls[1..][i - 1] == ls[i]; }
      }
    }
  }

  lemma ExistenMismasClaves(a: map<ProductoId, Producto>, b: map<ProductoId, Producto>, ls: seq<LineaVenta>)
    requires a.Keys == b.Keys
    ensures Existen(a, ls) <==> Existen(b, ls)
  {
  }

  /** The credit fails only when some line's product row is gone. */
  lemma {:induction false} AcreditarExitoSiiExisten(productos: map<ProductoId, Producto>, ls: seq<LineaVenta>)
    ensures Acreditar(productos, ls).Exito? <==> Existen(productos, ls)
  {
    if ls != [] {
      var p := ls[0].productoId;
      ExistenCons(productos, ls);
      if p in productos {
        var q := ConNuevoStock(productos, p, productos[p].stock + ls[0].cantidad);
        AcreditarExitoSiiExisten(q, ls[1..]);
        ExistenMismasClaves(q, productos, ls[1..]);
      }
    }
  }

  /** Every product a successful debit touched is left with non-negative stock. */
  lemma {:induction false} DebitarNoNegativo(productos: map<ProductoId, Producto>, ls: seq<LineaVenta>)
    requires Debitar(productos, ls).Exito?
    ensures forall k :: k in productos && Menciona(ls, k) ==> Debitar(productos, ls).valor[k].stock >= 0
    ensures forall k :: k in productos && !Menciona(ls, k) ==> Debitar(productos, ls).valor[k] == productos[k]
  {
    if ls != [] {
      var p := ls[0].productoId;
      var q := ConNuevoStock(productos, p, productos[p].stock - ls[0].cantidad);
      var r := Debitar(productos, ls).valor;
      DebitarNoNegativo(q, ls[1..]);
      forall k | k in productos
        ensures Menciona(ls, k) ==> r[k].stock >= 0
        ensures !Menciona(ls, k) ==> r[k] == productos[k]
      {
        if k == p && !Menciona(ls[1..], k) {
          assert r[k] == q[k];
        }
        if Menciona(ls[1..], k) {
          var i :| 0 <= i < |ls[1..]| && ls[1..][i].productoId == k;
          assert ls[i + 1].productoId == k;
        }
        if Menciona(ls, k) && k != p {
          var i :| 0 <= i < |ls| && ls[i].productoId == k;
          assert i > 0 && ls[1..][i - 1].productoId == k;
        }
      }
    }
  }

  /** Crediting back what a debit took restores every product exactly. */
  lemma DebitarLuegoAcreditar(productos: map<ProductoId, Producto>, ls: seq<LineaVenta>)
    requires Debitar(productos, ls).Exito?
    ensures Acreditar(Debitar(productos, ls).valor, ls) == Exito(productos)
  {
    var q := Debitar(productos, ls).valor;
    DebitarExitoSiiAlcanza(productos, ls);
    assert Existen(q, ls) by {
      forall i | 0 <= i < |ls| ensures ls[i].productoId in q {
      }
    }
    AcreditarExitoSiiExisten(q, ls);
    DebitarPorProducto(productos, ls);
    AcreditarPorProducto(q, ls);
    var r := Acreditar(q, ls).valor;
    assert r == productos by {
      forall k | k in productos ensures r[k] == productos[k] {
        assert r[k] == q[k].(stock := r[k].stock);
        assert q[k] == productos[k].(stock := q[k].stock);
      }
    }
  }
}
