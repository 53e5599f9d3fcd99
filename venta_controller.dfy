/**
 * The sale controller's actions: the administrator's status change, the
 * customer's cancellation, the payment-proof upload, and the two ways a
 * sale is created (web checkout from the cart, point of sale). Each action
 * is a method on the `Db` object proved to follow a specification function
 * on `Tablas`; the lemmas state what the actions promise in terms of those
 * functions.
 */
module VentaController {
  import opened Common
  import opened Entities
  import opened Detalles
  import VentaModel
  import CarritoModel
  import opened VentaReglas
  import opened Database

  // ---------------------------------------------------------------------
  // Stock loops

  /**
   * The stock effect of a transition: a debit when a pending sale is
   * confirmed, a credit when a confirmed or in-progress sale is cancelled,
   * none otherwise.
   */
  function EfectoEnStock(productos: map<ProductoId, Producto>, desde: string, hacia: string, ls: seq<LineaVenta>)
    : Resultado<map<ProductoId, Producto>>
  {
    if desde == PENDIENTE && hacia == CONFIRMADO then Debitar(productos, ls)
    else if (desde == CONFIRMADO || desde == EN_PROCESO) && hacia == CANCELADO then Acreditar(productos, ls)
    else Exito(productos)
  }

  /** The confirmation loop: debit line by line; on a short line, roll every earlier debit back. */
  method DebitarStock(db: Db, ls: seq<LineaVenta>) returns (f: Option<Falla>)
    modifies db`productos
    ensures f.None? <==> Debitar(old(db.productos), ls).Exito?
    ensures f.None? ==> db.productos == Debitar(old(db.productos), ls).valor
    ensures f.Some? ==> f.value == Debitar(old(db.productos), ls).falla && db.productos == old(db.productos)
  {
    var inicial := db.productos;
    var i := 0;
    while i < |ls|
      invariant 0 <= i <= |ls|
      invariant Debitar(inicial, ls) == Debitar(db.productos, ls[i..])
    {
      assert ls[i..][1..] == ls[i + 1..];
      var p := ls[i].productoId;
      if p !in db.productos {
        db.productos := inicial;
        return Some(ErrorServidor);
      }
      var producto := db.productos[p];
      if producto.stock < ls[i].cantidad {
        db.productos := inicial;
        return Some(StockInsuficiente(p, producto.stock));
      }
      db.productos := db.productos[p := producto.(stock := producto.stock - ls[i].cantidad)];
      i := i + 1;
    }
    f := None;
  }

  /** The cancellation loop: give every line's quantity back to its product. */
  method AcreditarStock(db: Db, ls: seq<LineaVenta>) returns (f: Option<Falla>)
    modifies db`productos
    ensures f.None? <==> Acreditar(old(db.productos), ls).Exito?
    ensures f.None? ==> db.productos == Acreditar(old(db.productos), ls).valor
    ensures f.Some? ==> f.value == Acreditar(old(db.productos), ls).falla && db.productos == old(db.productos)
  {
    var inicial := db.productos;
    var i := 0;
    while i < |ls|
      invariant 0 <= i <= |ls|
      invariant Acreditar(inicial, ls) == Acreditar(db.productos, ls[i..])
    {
      assert ls[i..][1..] == ls[i + 1..];
      var p := ls[i].productoId;
      if p !in db.productos {
        db.productos := inicial;
        return Some(ErrorServidor);
      }
      var producto := db.productos[p];
      db.productos := db.productos[p := producto.(stock := producto.stock + ls[i].cantidad)];
      i := i + 1;
    }
    f := None;
  }

  // ---------------------------------------------------------------------
  // actualizarEstado

  /** The request's validation: one of the seven statuses, a note of at most 500 characters. */
  predicate PeticionEstadoValida(estado: string, nota: Option<string>) {
    EsEstadoConocido(estado) && (nota.Some? ==> |nota.value| <= 500)
  }

  /** The sale after a successful transition: new status and the audit entry appended. */
  function VentaTrasTransicion(v: Venta, estado: string, nota: Option<string>, ts: string): Venta {
    v.(estado := estado,
       observaciones := Some(Anotar(v.observaciones, EntradaBitacora(ts, v.estado, estado, nota))))
  }

  function ActualizarEstadoSpec(t: Tablas, id: VentaId, estado: string, nota: Option<string>, ts: string): Salida<Venta> {
    if !PeticionEstadoValida(estado, nota) then Salida(Fallo(Validacion), t)
    else if id !in t.ventas then Salida(Fallo(NoEncontrado), t)
    else
      var v := t.ventas[id];
      if !ValidarTransicionEstado(v.estado, estado) then Salida(Fallo(TransicionInvalida(v.estado, estado)), t)
      else match EfectoEnStock(t.productos, v.estado, estado, v.detalles)
        case Fallo(f) => Salida(Fallo(f), t)
        case Exito(p) =>
          var v2 := VentaTrasTransicion(v, estado, nota, ts);
          Salida(Exito(v2), t.(productos := p, ventas := t.ventas[id := v2]))
  }

  /** `actualizarEstado`: validate, check the transition, move stock, then record the change. */
  method ActualizarEstado(db: Db, id: VentaId, estado: string, nota: Option<string>, ts: string)
    returns (r: Resultado<Venta>)
    modifies db`productos, db`ventas
    ensures Salida(r, db.Estado()) == ActualizarEstadoSpec(old(db.Estado()), id, estado, nota, ts)
  {
    if !PeticionEstadoValida(estado, nota) {
      return Fallo(Validacion);
    }
    if id !in db.ventas {
      return Fallo(NoEncontrado);
    }
    var venta := db.ventas[id];
    var anterior := venta.estado;
    if !ValidarTransicionEstado(anterior, estado) {
      return Fallo(TransicionInvalida(anterior, estado));
    }
    var f: Option<Falla> := None;
    if anterior == PENDIENTE && estado == CONFIRMADO {
      f := DebitarStock(db, venta.detalles);
    } else if (anterior == CONFIRMADO || anterior == EN_PROCESO) && estado == CANCELADO {
      f := AcreditarStock(db, venta.detalles);
    }
    if f.Some? {
      return Fallo(f.value);
    }
    var entrada := EntradaBitacora(ts, anterior, estado, nota);
    venta := venta.(estado := estado, observaciones := Some(Anotar(venta.observaciones, entrada)));
    db.ventas := db.ventas[id := venta];
    r := Exito(venta);
  }

  /** A refused status change leaves every table as it was. */
  lemma ActualizarEstadoFalloSinCambios(t: Tablas, id: VentaId, estado: string, nota: Option<string>, ts: string)
    ensures ActualizarEstadoSpec(t, id, estado, nota, ts).resultado.Fallo? ==>
      ActualizarEstadoSpec(t, id, estado, nota, ts).tablas == t
  {
  }

  /**
   * A status change succeeds exactly when the request is valid, the sale
   * exists, the table allows the transition, a confirmation finds enough
   * stock line by line, and a restocking cancellation finds every product.
   */
  lemma ActualizarEstadoExitoSii(t: Tablas, id: VentaId, estado: string, nota: Option<string>, ts: string)
    ensures ActualizarEstadoSpec(t, id, estado, nota, ts).resultado.Exito? <==>
      PeticionEstadoValida(estado, nota) && id in t.ventas
      && ValidarTransicionEstado(t.ventas[id].estado, estado)
      && (t.ventas[id].estado == PENDIENTE && estado == CONFIRMADO ==> Alcanza(t.productos, t.ventas[id].detalles))
      && ((t.ventas[id].estado == CONFIRMADO || t.ventas[id].estado == EN_PROCESO) && estado == CANCELADO ==>
            Existen(t.productos, t.ventas[id].detalles))
  {
    if id in t.ventas {
      DebitarExitoSiiAlcanza(t.productos, t.ventas[id].detalles);
      AcreditarExitoSiiExisten(t.productos, t.ventas[id].detalles);
    }
  }

  /**
   * What a successful status change does: the sale gets the new status and
   * its notes gain the audit entry after the old text; a confirmation takes
   * each product's quantities, a cancellation from Confirmado or En Proceso
   * gives them back, and any other transition leaves stock alone. Nothing
   * else in any table changes.
   */
  lemma ActualizarEstadoExito(t: Tablas, id: VentaId, estado: string, nota: Option<string>, ts: string)
    requires ActualizarEstadoSpec(t, id, estado, nota, ts).resultado.Exito?
    ensures id in t.ventas
    ensures var v := t.ventas[id];
      var t2 := ActualizarEstadoSpec(t, id, estado, nota, ts).tablas;
      && t2.ventas == t.ventas[id := t2.ventas[id]]
      && t2.ventas[id].estado == estado
      && t2.ventas[id].detalles == v.detalles
      && t2.ventas[id].observaciones == Some(v.observaciones.GetOr("") + EntradaBitacora(ts, v.estado, estado, nota))
      && t2 == t.(productos := t2.productos, ventas := t2.ventas)
      && t2.productos.Keys == t.productos.Keys
      && (forall k :: k in t.productos ==> t2.productos[k] == t.productos[k].(stock := t2.productos[k].stock))
      && (v.estado == PENDIENTE && estado == CONFIRMADO ==>
            forall k :: k in t.productos ==> t2.productos[k].stock == t.productos[k].stock - CantidadDe(v.detalles, k))
      && ((v.estado == CONFIRMADO || v.estado == EN_PROCESO) && estado == CANCELADO ==>
            forall k :: k in t.productos ==> t2.productos[k].stock == t.productos[k].stock + CantidadDe(v.detalles, k))
      && (!(v.estado == PENDIENTE && estado == CONFIRMADO)
          && !((v.estado == CONFIRMADO || v.estado == EN_PROCESO) && estado == CANCELADO) ==>
            t2.productos == t.productos)
  {
    var v := t.ventas[id];
    if v.estado == PENDIENTE && estado == CONFIRMADO {
      DebitarPorProducto(t.productos, v.detalles);
    } else if (v.estado == CONFIRMADO || v.estado == EN_PROCESO) && estado == CANCELADO {
      AcreditarPorProducto(t.productos, v.detalles);
    }
  }

  /** Cancelling a pending or a shipped sale restores no stock. */
  lemma CancelarSinReponer(t: Tablas, id: VentaId, nota: Option<string>, ts: string)
    requires id in t.ventas && (t.ventas[id].estado == PENDIENTE || t.ventas[id].estado == ENVIADO)
    ensures ActualizarEstadoSpec(t, id, CANCELADO, nota, ts).resultado.Exito? <==> PeticionEstadoValida(CANCELADO, nota)
    ensures ActualizarEstadoSpec(t, id, CANCELADO, nota, ts).tablas.productos == t.productos
  {
  }

  /** A confirmation never leaves a product of the sale with negative stock. */
  lemma ConfirmarNoDejaNegativo(t: Tablas, id: VentaId, nota: Option<string>, ts: string)
    requires id in t.ventas && t.ventas[id].estado == PENDIENTE
    requires ActualizarEstadoSpec(t, id, CONFIRMADO, nota, ts).resultado.Exito?
    ensures forall k :: k in t.productos && Menciona(t.ventas[id].detalles, k) ==>
      ActualizarEstadoSpec(t, id, CONFIRMADO, nota, ts).tablas.productos[k].stock >= 0
  {
    DebitarNoNegativo(t.productos, t.ventas[id].detalles);
  }

  /** Confirming a pending sale and then cancelling it returns every product's stock to where it was. */
  lemma ConfirmarLuegoCancelar(t: Tablas, id: VentaId, n1: Option<string>, n2: Option<string>, ts1: string, ts2: string)
    requires id in t.ventas && t.ventas[id].estado == PENDIENTE
    requires ActualizarEstadoSpec(t, id, CONFIRMADO, n1, ts1).resultado.Exito?
    requires PeticionEstadoValida(CANCELADO, n2)
    ensures var t1 := ActualizarEstadoSpec(t, id, CONFIRMADO, n1, ts1).tablas;
      && ActualizarEstadoSpec(t1, id, CANCELADO, n2, ts2).resultado.Exito?
      && ActualizarEstadoSpec(t1, id, CANCELADO, n2, ts2).tablas.productos == t.productos
  {
    DebitarLuegoAcreditar(t.productos, t.ventas[id].detalles);
  }

  /** A status change keeps the database invariant. */
  lemma ActualizarEstadoPreservaValida(t: Tablas, id: VentaId, estado: string, nota: Option<string>, ts: string)
    requires Valida(t)
    ensures Valida(ActualizarEstadoSpec(t, id, estado, nota, ts).tablas)
  {
  }

  // ---------------------------------------------------------------------
  // cancelar

  /** The reason written into the notes: the one given, or the default. */
  function MotivoCancelacion(motivo: Option<string>): (r: string)
    ensures Lleno(motivo) ==> r == motivo.value
    ensures !Lleno(motivo) ==> r == "Cancelado por el cliente"
  {
    if Lleno(motivo) then motivo.value else "Cancelado por el cliente"
  }

  /** A customer may cancel only their own sale; a user without a client profile may cancel any. */
  predicate PuedeCancelar(u: Usuario, v: Venta) {
    u.cliente.None? || v.clienteId == u.cliente.value
  }

  function CancelarSpec(t: Tablas, u: Usuario, id: VentaId, motivo: Option<string>, ts: string): Salida<Venta> {
    if id !in t.ventas then Salida(Fallo(NoEncontrado), t)
    else
      var v := t.ventas[id];
      if !PuedeCancelar(u, v) then Salida(Fallo(Prohibido), t)
      else if v.estado != PENDIENTE && v.estado != CONFIRMADO then Salida(Fallo(NoCancelable(v.estado)), t)
      else match (if v.estado == CONFIRMADO then Acreditar(t.productos, v.detalles) else Exito(t.productos))
        case Fallo(f) => Salida(Fallo(f), t)
        case Exito(p) =>
          var v2 := v.(estado := CANCELADO,
                       observaciones := Some(Anotar(v.observaciones, "\n[" + ts + "] Cancelado: " + MotivoCancelacion(motivo))));
          Salida(Exito(v2), t.(productos := p, ventas := t.ventas[id := v2]))
  }

  /** `cancelar`: ownership and status checks, restock a confirmed sale, then record the cancellation. */
  method Cancelar(db: Db, u: Usuario, id: VentaId, motivo: Option<string>, ts: string) returns (r: Resultado<Venta>)
    modifies db`productos, db`ventas
    ensures Salida(r, db.Estado()) == CancelarSpec(old(db.Estado()), u, id, motivo, ts)
  {
    if id !in db.ventas {
      return Fallo(NoEncontrado);
    }
    var venta := db.ventas[id];
    if u.cliente.Some? && venta.clienteId != u.cliente.value {
      return Fallo(Prohibido);
    }
    if venta.estado != PENDIENTE && venta.estado != CONFIRMADO {
      return Fallo(NoCancelable(venta.estado));
    }
    if venta.estado == CONFIRMADO {
      var f := AcreditarStock(db, venta.detalles);
      if f.Some? {
        return Fallo(f.value);
      }
    }
    var texto := if Lleno(motivo) then motivo.value else "Cancelado por el cliente";
    venta := venta.(estado := CANCELADO,
                    observaciones := Some(Anotar(venta.observaciones, "\n[" + ts + "] Cancelado: " + texto)));
    db.ventas := db.ventas[id := venta];
    r := Exito(venta);
  }

  /**
   * A cancellation succeeds exactly when the sale exists, belongs to the
   * requesting customer (if they are one), is Pendiente or Confirmado, and,
   * when confirmed, all its products still exist.
   */
  lemma CancelarExitoSii(t: Tablas, u: Usuario, id: VentaId, motivo: Option<string>, ts: string)
    ensures CancelarSpec(t, u, id, motivo, ts).resultado.Exito? <==>
      id in t.ventas && PuedeCancelar(u, t.ventas[id])
      && (t.ventas[id].estado == PENDIENTE || t.ventas[id].estado == CONFIRMADO)
      && (t.ventas[id].estado == CONFIRMADO ==> Existen(t.productos, t.ventas[id].detalles))
    ensures CancelarSpec(t, u, id, motivo, ts).resultado.Fallo? ==> CancelarSpec(t, u, id, motivo, ts).tablas == t
  {
    if id in t.ventas {
      AcreditarExitoSiiExisten(t.productos, t.ventas[id].detalles);
    }
  }

  /**
   * A successful cancellation moves stock exactly as the administrator's
   * change to Cancelado would (a credit only from Confirmado), sets the
   * status to Cancelado and appends "Cancelado: reason" after the old notes.
   */
  lemma CancelarExito(t: Tablas, u: Usuario, id: VentaId, motivo: Option<string>, ts: string)
    requires CancelarSpec(t, u, id, motivo, ts).resultado.Exito?
    ensures id in t.ventas
    ensures var v := t.ventas[id];
      var t2 := CancelarSpec(t, u, id, motivo, ts).tablas;
      && EfectoEnStock(t.productos, v.estado, CANCELADO, v.detalles) == Exito(t2.productos)
      && (v.estado == PENDIENTE ==> t2.productos == t.productos)
      && (v.estado == CONFIRMADO ==>
            forall k :: k in t.productos ==> t2.productos[k].stock == t.productos[k].stock + CantidadDe(v.detalles, k))
      && t2.ventas == t.ventas[id := v.(estado := CANCELADO, observaciones := t2.ventas[id].observaciones)]
      && t2.ventas[id].observaciones == Some(v.observaciones.GetOr("") + ("\n[" + ts + "] Cancelado: " + MotivoCancelacion(motivo)))
      && t2 == t.(productos := t2.productos, ventas := t2.ventas)
  {
    var v := t.ventas[id];
    if v.estado == CONFIRMADO {
      AcreditarPorProducto(t.productos, v.detalles);
    }
  }

  lemma CancelarPreservaValida(t: Tablas, u: Usuario, id: VentaId, motivo: Option<string>, ts: string)
    requires Valida(t)
    ensures Valida(CancelarSpec(t, u, id, motivo, ts).tablas)
  {
  }

  // ---------------------------------------------------------------------
  // subirComprobante

  /** The request's validation: a URL of 1..1000 characters, an operation code of at most 50. */
  predicate PeticionComprobanteValida(url: string, codigo: Option<string>) {
    Lleno(Some(url)) && |url| <= 1000 && (codigo.Some? ==> |codigo.value| <= 50)
  }

  function SubirComprobanteSpec(t: Tablas, id: VentaId, url: string, codigo: Option<string>): Salida<Venta> {
    if !PeticionComprobanteValida(url, codigo) then Salida(Fallo(Validacion), t)
    else if id !in t.ventas then Salida(Fallo(NoEncontrado), t)
    else
      var n := NormalizarComprobante(url);
      if !EsDeCloudinary(n) then Salida(Fallo(ComprobanteInvalido), t)
      else
        var v := t.ventas[id];
        var v2 := v.(comprobantePago := Some(n),
                     codigoOperacion := if Lleno(codigo) then codigo else v.codigoOperacion);
        Salida(Exito(v2), t.(ventas := t.ventas[id := v2]))
  }

  /** `subirComprobante`: normalise the URL, require the Cloudinary host, store it (and the code when given). */
  method SubirComprobante(db: Db, id: VentaId, url: string, codigo: Option<string>) returns (r: Resultado<Venta>)
    modifies db`ventas
    ensures Salida(r, db.Estado()) == SubirComprobanteSpec(old(db.Estado()), id, url, codigo)
  {
    if !PeticionComprobanteValida(url, codigo) {
      return Fallo(Validacion);
    }
    if id !in db.ventas {
      return Fallo(NoEncontrado);
    }
    var venta := db.ventas[id];
    var normalizada := url;
    if !StartsWithScheme(normalizada) {
      normalizada := "https://" + normalizada;
    }
    if !EsDeCloudinary(normalizada) {
      return Fallo(ComprobanteInvalido);
    }
    venta := venta.(comprobantePago := Some(normalizada));
    if Lleno(codigo) {
      venta := venta.(codigoOperacion := codigo);
    }
    db.ventas := db.ventas[id := venta];
    r := Exito(venta);
  }

  predicate StartsWithScheme(url: string) {
    Text.StartsWith(url, "http://") || Text.StartsWith(url, "https://")
  }

  /**
   * An upload succeeds exactly when the request is valid, the sale exists
   * and the URL as sent mentions cloudinary.com; it then stores a URL with
   * a scheme, keeps the status, stock and every other sale, and replaces the
   * operation code only when one is filled in.
   */
  lemma SubirComprobanteContrato(t: Tablas, id: VentaId, url: string, codigo: Option<string>)
    ensures SubirComprobanteSpec(t, id, url, codigo).resultado.Exito? <==>
      PeticionComprobanteValida(url, codigo) && id in t.ventas && EsDeCloudinary(url)
    ensures var s := SubirComprobanteSpec(t, id, url, codigo);
      s.resultado.Exito? ==>
        && s.tablas == t.(ventas := t.ventas[id := s.resultado.valor])
        && s.resultado.valor.estado == t.ventas[id].estado
        && s.resultado.valor.detalles == t.ventas[id].detalles
        && s.resultado.valor.comprobantePago.Some?
        && StartsWithScheme(s.resultado.valor.comprobantePago.value)
        && EsDeCloudinary(s.resultado.valor.comprobantePago.value)
        && (!Lleno(codigo) ==> s.resultado.valor.codigoOperacion == t.ventas[id].codigoOperacion)
    ensures SubirComprobanteSpec(t, id, url, codigo).resultado.Fallo? ==> SubirComprobanteSpec(t, id, url, codigo).tablas == t
  {
    NormalizarConservaHost(url);
  }

  // ---------------------------------------------------------------------
  // Line copies

  /** The line-copy loop of a checkout: one sale line per cart line, each saved through its hook. */
  method CopiarALineasVenta(ventaId: VentaId, ls: seq<LineaCarrito>) returns (detalles: seq<LineaVenta>)
    ensures detalles == CopiarLineas(ls)
    ensures VentaModel.SumaImportes(detalles) == CarritoModel.SumaImportes(ls)
  {
    detalles := [];
    var i := 0;
    while i < |ls|
      invariant 0 <= i <= |ls|
      invariant |detalles| == i
      invariant forall j :: 0 <= j < i ==> detalles[j] == ACopiaVenta(ls[j])
    {
      var l := ls[i];
      var dv := new DetalleVenta(ventaId, l.productoId, l.cantidad, l.precioUnitario, l.cantidad * l.precioUnitario);
      dv.Saving();
      detalles := detalles + [dv.Fila()];
      i := i + 1;
    }
    ImportesCopiados(ls);
  }

  /** Copying keeps Σ quantity × price. */
  lemma {:induction false} ImportesCopiados(ls: seq<LineaCarrito>)
    ensures VentaModel.SumaImportes(CopiarLineas(ls)) == CarritoModel.SumaImportes(ls)
  {
    if ls != [] {
      ImportesCopiados(ls[1..]);
      assert CopiarLineas(ls)[1..] == CopiarLineas(ls[1..]);
    }
  }

  /** Copies of lines made before the sale existed are all saved lines. */
  lemma CopiasGuardadas(ls: seq<LineaCarrito>)
    ensures VentaGuardada(Venta(0, None, "", None, "", None, None, None, None, None, None, CopiarLineas(ls)))
  {
  }

  // ---------------------------------------------------------------------
  // store: the web order through the sale controller

  /** The request's validation: a payment method and the length limits. */
  predicate PeticionStoreValida(d: DatosPedido) {
    Lleno(Some(d.metodoPago)) && LongitudesValidas(d)
  }

  /** The sale a web order creates from the cart's lines. */
  function VentaWeb(u: Usuario, c: ClienteId, d: DatosPedido, url: Option<string>, ls: seq<LineaCarrito>): Venta {
    Venta(c, Some(u.id), PENDIENTE, Some(CarritoModel.SumaImportes(ls)), d.metodoPago, Some("Web"),
          d.direccion, d.telefono, d.observaciones, url,
          if Lleno(d.codigo) then d.codigo else None, CopiarLineas(ls))
  }

  function StoreSpec(t: Tablas, u: Usuario, d: DatosPedido): Salida<VentaId> {
    if !PeticionStoreValida(d) then Salida(Fallo(Validacion), t)
    else if u.cliente.None? then Salida(Fallo(SinPerfilCliente(403)), t)
    else match PrimerCarrito(t.carritos, u.cliente.value, false)
      case None => Salida(Fallo(CarritoVacio), t)
      case Some(k) =>
        var ls := LineasDe(t.lineas, k);
        if ls == [] then Salida(Fallo(CarritoVacio), t)
        else match ComprobanteDePedido(d.comprobante)
          case Fallo(f) => Salida(Fallo(f), t)
          case Exito(url) =>
            var id := t.siguienteVentaId;
            Salida(Exito(id), t.(ventas := t.ventas[id := VentaWeb(u, u.cliente.value, d, url, ls)],
                                 siguienteVentaId := id + 1,
                                 lineas := SinLineasDe(t.lineas, k)))
  }

  /**
   * `store`: take the customer's first cart (whatever its status), total
   * its lines, create a pending web sale with copies of the lines, and
   * delete the cart's lines.
   */
  method Store(db: Db, u: Usuario, d: DatosPedido) returns (r: Resultado<VentaId>)
    modifies db`ventas, db`siguienteVentaId, db`lineas
    ensures Salida(r, db.Estado()) == StoreSpec(old(db.Estado()), u, d)
  {
    if !PeticionStoreValida(d) {
      return Fallo(Validacion);
    }
    if u.cliente.None? {
      return Fallo(SinPerfilCliente(403));
    }
    var cliente := u.cliente.value;
    var carrito := PrimerCarrito(db.carritos, cliente, false);
    if carrito.None? {
      return Fallo(CarritoVacio);
    }
    var k := carrito.value;
    var ls := LineasDe(db.lineas, k);
    if ls == [] {
      return Fallo(CarritoVacio);
    }
    var subtotal := 0;
    var i := 0;
    while i < |ls|
      invariant 0 <= i <= |ls|
      invariant subtotal + CarritoModel.SumaImportes(ls[i..]) == CarritoModel.SumaImportes(ls)
    {
      assert ls[i..][1..] == ls[i + 1..];
      subtotal := subtotal + ls[i].cantidad * ls[i].precioUnitario;
      i := i + 1;
    }
    var comprobante := ComprobanteDePedido(d.comprobante);
    if comprobante.Fallo? {
      return Fallo(comprobante.falla);
    }
    var id := db.siguienteVentaId;
    db.siguienteVentaId := id + 1;
    var codigo := if Lleno(d.codigo) then d.codigo else None;
    var detalles := CopiarALineasVenta(id, ls);
    var venta := Venta(cliente, Some(u.id), PENDIENTE, Some(subtotal), d.metodoPago, Some("Web"),
                       d.direccion, d.telefono, d.observaciones, comprobante.valor, codigo, detalles);
    db.ventas := db.ventas[id := venta];
    db.lineas := SinLineasDe(db.lineas, k);
    r := Exito(id);
  }

  /**
   * A web order succeeds exactly when the request is valid, the user has a
   * client profile, their first cart exists and has lines, and any payment
   * proof is on Cloudinary. A refused order changes nothing.
   */
  lemma StoreExitoSii(t: Tablas, u: Usuario, d: DatosPedido)
    ensures StoreSpec(t, u, d).resultado.Exito? <==>
      PeticionStoreValida(d) && u.cliente.Some?
      && PrimerCarrito(t.carritos, u.cliente.value, false).Some?
      && LineasDe(t.lineas, PrimerCarrito(t.carritos, u.cliente.value, false).value) != []
      && (!Lleno(d.comprobante) || EsDeCloudinary(d.comprobante.value))
    ensures StoreSpec(t, u, d).resultado.Fallo? ==> StoreSpec(t, u, d).tablas == t
  {
  }

  /**
   * A web order creates a pending "Web" sale whose total is Σ quantity ×
   * price over the cart's lines, copying each line; it deletes only that
   * cart's lines, leaves the cart's status, every other cart's lines and
   * every product's stock as they were.
   */
  lemma StoreExito(t: Tablas, u: Usuario, d: DatosPedido)
    requires Valida(t)
    requires StoreSpec(t, u, d).resultado.Exito?
    ensures u.cliente.Some? && PrimerCarrito(t.carritos, u.cliente.value, false).Some?
    ensures var k := PrimerCarrito(t.carritos, u.cliente.value, false).value;
      var ls := LineasDe(t.lineas, k);
      var t2 := StoreSpec(t, u, d).tablas;
      var id := StoreSpec(t, u, d).resultado.valor;
      && id == t.siguienteVentaId && id !in t.ventas
      && t2.ventas == t.ventas[id := t2.ventas[id]]
      && t2.ventas[id].estado == PENDIENTE && t2.ventas[id].canal == Some("Web")
      && t2.ventas[id].clienteId == u.cliente.value
      && VentaModel.Total(t2.ventas[id]) == CarritoModel.CalcularTotal(ls)
      && VentaModel.CalcularTotal(t2.ventas[id]) == CarritoModel.CalcularTotal(ls)
      && |t2.ventas[id].detalles| == |ls|
      && (forall i :: 0 <= i < |ls| ==>
            t2.ventas[id].detalles[i].productoId == ls[i].productoId
            && t2.ventas[id].detalles[i].cantidad == ls[i].cantidad
            && t2.ventas[id].detalles[i].precioUnitario == ls[i].precioUnitario)
      && t2.productos == t.productos && t2.carritos == t.carritos
      && LineasDe(t2.lineas, k) == []
      && (forall c :: c != k ==> LineasDe(t2.lineas, c) == LineasDe(t.lineas, c))
  {
    var k := PrimerCarrito(t.carritos, u.cliente.value, false).value;
    var ls := LineasDe(t.lineas, k);
    var t2 := StoreSpec(t, u, d).tablas;
    var id := t.siguienteVentaId;
    var v := t2.ventas[id];
    SinLineasDeSubsecuencia(t.lineas, k);
    forall i | 0 <= i < |ls| ensures LineaCarritoGuardada(ls[i]) {
      assert ls[i] in t.lineas;
    }
    CarritoModel.TotalEsSumaDeImportes(ls);
    ImportesCopiados(ls);
    VentaModel.SumasGuardadas(v.detalles);
    forall c | c != k ensures LineasDe(t2.lineas, c) == LineasDe(t.lineas, c) {
      OtrosCarritosIntactos(t.lineas, k, c);
    }
    OtrosCarritosIntactos(t.lineas, k, k + 1);
  }

  lemma StorePreservaValida(t: Tablas, u: Usuario, d: DatosPedido)
    requires Valida(t)
    ensures Valida(StoreSpec(t, u, d).tablas)
  {
    if StoreSpec(t, u, d).resultado.Exito? {
      var k := PrimerCarrito(t.carritos, u.cliente.value, false).value;
      SinLineasDeSubsecuencia(t.lineas, k);
      var r := SinLineasDe(t.lineas, k);
      forall i | 0 <= i < |r|
        ensures r[i].id < t.siguienteLineaId && r[i].carritoId < |t.carritos| && LineaCarritoGuardada(r[i])
      {
        assert r[i] in t.lineas;
      }
    }
  }

  // ---------------------------------------------------------------------
  // crearVenta: the point-of-sale sale

  /** The channel a point-of-sale sale gets when the request names none. */
  const CANAL_TIENDA: string := "Tienda f\U{ed}sica"

  /** One item of a point-of-sale request. */
  datatype Item = Item(productoId: ProductoId, cantidad: int, precioUnitario: Cents)

  /** A point-of-sale request. */
  datatype VentaPos = VentaPos(
    clienteId: ClienteId,
    items: seq<Item>,
    metodoPago: string,
    canal: Option<string>,
    observaciones: Option<string>,
    descuento: Option<Cents>)

  /**
   * The request's validation: an existing client, at least one item, each
   * naming an existing product with quantity ≥ 1 and price ≥ 0, a payment
   * method, and a discount that is absent or ≥ 0.
   */
  predicate VentaPosValida(t: Tablas, d: VentaPos) {
    d.clienteId in t.clientes && |d.items| >= 1
    && (forall i :: 0 <= i < |d.items| ==>
          d.items[i].productoId in t.productos && d.items[i].cantidad >= 1 && d.items[i].precioUnitario >= 0)
    && Lleno(Some(d.metodoPago))
    && (d.descuento.Some? ==> d.descuento.value >= 0)
  }

  /** The sale line an item becomes once saved. */
  function LineaDeItem(it: Item): (r: LineaVenta)
    ensures LineaVentaGuardada(r)
    ensures r.productoId == it.productoId && r.cantidad == it.cantidad && r.precioUnitario == it.precioUnitario
  {
    GuardarLineaVenta(LineaVenta(it.productoId, it.cantidad, it.precioUnitario, it.cantidad * it.precioUnitario))
  }

  function LineasDeItems(items: seq<Item>): (r: seq<LineaVenta>)
    ensures |r| == |items|
    ensures forall i :: 0 <= i < |items| ==> r[i] == LineaDeItem(items[i])
  {
    if items == [] then [] else [LineaDeItem(items[0])] + LineasDeItems(items[1..])
  }

  /** Σ quantity × price over the request's items. */
  function SubtotalItems(items: seq<Item>): Cents {
    if items == [] then 0 else items[0].cantidad * items[0].precioUnitario + SubtotalItems(items[1..])
  }

  /** The completed sale a point-of-sale request creates. */
  function VentaDePos(d: VentaPos, userId: Option<UserId>): Venta {
    Venta(d.clienteId, userId, COMPLETADO, Some(SubtotalItems(d.items) - d.descuento.GetOr(0)), d.metodoPago,
          Some(d.canal.GetOr(CANAL_TIENDA)), None, None, d.observaciones, None, None, LineasDeItems(d.items))
  }

  /**
   * The sale row is inserted before the items are checked, so a refusal
   * after validation still consumes a sale id: the rollback does not give
   * back the auto-increment value.
   */
  function CrearVentaSpec(t: Tablas, userId: Option<UserId>, d: VentaPos): Salida<VentaId> {
    if !VentaPosValida(t, d) then Salida(Fallo(Validacion), t)
    else
      var id := t.siguienteVentaId;
      match Debitar(t.productos, LineasDeItems(d.items))
        case Fallo(f) => Salida(Fallo(f), t.(siguienteVentaId := id + 1))
        case Exito(p) =>
          Salida(Exito(id), t.(productos := p, ventas := t.ventas[id := VentaDePos(d, userId)], siguienteVentaId := id + 1))
  }

  /** The subtotal loop of `crearVenta`. */
  method SumarItems(items: seq<Item>) returns (subtotal: Cents)
    ensures subtotal == SubtotalItems(items)
  {
    subtotal := 0;
    var i := 0;
    while i < |items|
      invariant 0 <= i <= |items|
      invariant subtotal + SubtotalItems(items[i..]) == SubtotalItems(items)
    {
      assert items[i..][1..] == items[i + 1..];
      subtotal := subtotal + items[i].cantidad * items[i].precioUnitario;
      i := i + 1;
    }
    assert items[i..] == [];
  }

  /** One step of the debit: the first line either fails with its product's stock or is taken. */
  lemma PasoDebito(productos: map<ProductoId, Producto>, ls: seq<LineaVenta>, resto: seq<LineaVenta>)
    requires ls != [] && resto == ls[1..] && ls[0].productoId in productos
    ensures var p := ls[0].productoId;
      Debitar(productos, ls) ==
        if productos[p].stock < ls[0].cantidad then Fallo(StockInsuficiente(p, productos[p].stock))
        else Debitar(productos[p := productos[p].(stock := productos[p].stock - ls[0].cantidad)], resto)
  {
  }

  /** One item's sale line: a new DetalleVenta, saved through its hook. */
  method GuardarItem(ventaId: VentaId, it: Item) returns (l: LineaVenta)
    ensures l == LineaDeItem(it)
  {
    var dv := new DetalleVenta(ventaId, it.productoId, it.cantidad, it.precioUnitario, it.cantidad * it.precioUnitario);
    dv.Saving();
    l := dv.Fila();
  }

  /**
   * The item loop of `crearVenta`: per item, refuse (rolling back every
   * earlier debit) when the product is short, otherwise save the line and
   * debit the stock.
   */
  method RegistrarItems(db: Db, ventaId: VentaId, items: seq<Item>) returns (f: Option<Falla>, detalles: seq<LineaVenta>)
    requires forall i :: 0 <= i < |items| ==> items[i].productoId in db.productos
    modifies db`productos
    ensures f.None? <==> Debitar(old(db.productos), LineasDeItems(items)).Exito?
    ensures f.None? ==> db.productos == Debitar(old(db.productos), LineasDeItems(items)).valor
    ensures f.None? ==> detalles == LineasDeItems(items)
    ensures f.Some? ==> f.value == Debitar(old(db.productos), LineasDeItems(items)).falla
    ensures f.Some? ==> db.productos == old(db.productos)
  {
    var inicial := db.productos;
    ghost var ls := LineasDeItems(items);
    detalles := [];
    var i := 0;
    while i < |items|
      invariant 0 <= i <= |items|
      invariant db.productos.Keys == inicial.Keys
      invariant Debitar(inicial, ls) == Debitar(db.productos, ls[i..])
      invariant detalles == ls[..i]
    {
      var it := items[i];
      var producto := db.productos[it.productoId];
      PasoDebito(db.productos, ls[i..], ls[i + 1..]);
      if producto.stock < it.cantidad {
        db.productos := inicial;
        return Some(StockInsuficiente(it.productoId, producto.stock)), [];
      }
      var linea := GuardarItem(ventaId, it);
      assert ls[..i + 1] == ls[..i] + [linea];
      detalles := detalles + [linea];
      db.productos := db.productos[it.productoId := producto.(stock := producto.stock - it.cantidad)];
      i := i + 1;
    }
    assert ls[i..] == [] && ls[..i] == ls;
    f := None;
  }

  /**
   * `crearVenta`: total the items, insert the sale, then record the items
   * one by one; a short item rolls everything back.
   */
  method CrearVenta(db: Db, userId: Option<UserId>, d: VentaPos) returns (r: Resultado<VentaId>)
    modifies db`productos, db`ventas, db`siguienteVentaId
    ensures Salida(r, db.Estado()) == CrearVentaSpec(old(db.Estado()), userId, d)
  {
    if !VentaPosValida(db.Estado(), d) {
      return Fallo(Validacion);
    }
    var subtotal := SumarItems(d.items);
    var total := subtotal - d.descuento.GetOr(0);
    var id := db.siguienteVentaId;
    db.siguienteVentaId := id + 1;
    var f, detalles := RegistrarItems(db, id, d.items);
    if f.Some? {
      return Fallo(f.value);
    }
    var venta := Venta(d.clienteId, userId, COMPLETADO, Some(total), d.metodoPago,
                       Some(d.canal.GetOr(CANAL_TIENDA)), None, None, d.observaciones, None, None, detalles);
    db.ventas := db.ventas[id := venta];
    r := Exito(id);
  }

  lemma {:induction false} SubtotalDeLineas(items: seq<Item>)
    ensures VentaModel.SumaImportes(LineasDeItems(items)) == SubtotalItems(items)
    ensures VentaModel.SumaSubtotales(LineasDeItems(items)) == SubtotalItems(items)
  {
    if items != [] {
      SubtotalDeLineas(items[1..]);
      assert LineasDeItems(items)[1..] == LineasDeItems(items[1..]);
    }
  }

  /**
   * A point-of-sale sale succeeds exactly when the request is valid and the
   * items, checked in order against stock already reduced by the earlier
   * items, are all covered.
   */
  lemma CrearVentaExitoSii(t: Tablas, userId: Option<UserId>, d: VentaPos)
    ensures CrearVentaSpec(t, userId, d).resultado.Exito? <==>
      VentaPosValida(t, d) && Alcanza(t.productos, LineasDeItems(d.items))
  {
    DebitarExitoSiiAlcanza(t.productos, LineasDeItems(d.items));
  }

  /** A refused point-of-sale sale persists nothing: at most the sale-id counter has moved. */
  lemma CrearVentaFallo(t: Tablas, userId: Option<UserId>, d: VentaPos)
    requires CrearVentaSpec(t, userId, d).resultado.Fallo?
    ensures CrearVentaSpec(t, userId, d).tablas == t
         || CrearVentaSpec(t, userId, d).tablas == t.(siguienteVentaId := t.siguienteVentaId + 1)
    ensures CrearVentaSpec(t, userId, d).resultado.falla.StockInsuficiente? || CrearVentaSpec(t, userId, d).resultado.falla == Validacion
  {
    if VentaPosValida(t, d) {
      var ls := LineasDeItems(d.items);
      if Debitar(t.productos, ls).Fallo? && Debitar(t.productos, ls).falla == ErrorServidor {
        DebitarSoloFaltaStock(t.productos, ls);
      }
    }
  }

  /** On lines whose products all exist, the debit can only fail for lack of stock. */
  lemma {:induction false} DebitarSoloFaltaStock(productos: map<ProductoId, Producto>, ls: seq<LineaVenta>)
    requires Existen(productos, ls)
    ensures Debitar(productos, ls).Fallo? ==> Debitar(productos, ls).falla.StockInsuficiente?
  {
    if ls != [] {
      var p := ls[0].productoId;
      assert ls[0].productoId in productos;
      if productos[p].stock >= ls[0].cantidad {
        var q := ConNuevoStock(productos, p, productos[p].stock - ls[0].cantidad);
        assert Existen(q, ls[1..]) by {
          forall i | 0 <= i < |ls[1..]| ensures ls[1..][i].productoId in q {
            assert ls[1..][i] == ls[i + 1];
          }
        }
        DebitarSoloFaltaStock(q, ls[1..]);
      }
    }
  }

  /**
   * A successful point-of-sale sale stores a Completado sale under the next
   * id, with total Σ quantity × price − discount and the channel defaulting
   * to "Tienda física"; read with its lines loaded, the sale's subtotal and
   * discount accessors give back the request's subtotal and discount. Each
   * product loses exactly the quantities its items hold and none is left
   * negative.
   */
  lemma CrearVentaExito(t: Tablas, userId: Option<UserId>, d: VentaPos)
    requires CrearVentaSpec(t, userId, d).resultado.Exito?
    ensures var t2 := CrearVentaSpec(t, userId, d).tablas;
      var id := CrearVentaSpec(t, userId, d).resultado.valor;
      var v := t2.ventas[id];
      var ls := LineasDeItems(d.items);
      && id == t.siguienteVentaId
      && t2.ventas == t.ventas[id := v] && t2.siguienteVentaId == id + 1
      && v.estado == COMPLETADO
      && v.canal == Some(if d.canal.Some? then d.canal.value else CANAL_TIENDA)
      && VentaModel.Total(v) == SubtotalItems(d.items) - d.descuento.GetOr(0)
      && VentaModel.Subtotal(v, true) == SubtotalItems(d.items)
      && VentaModel.Descuento(v, true) == d.descuento.GetOr(0)
      && (forall k :: k in t.productos ==> t2.productos[k].stock == t.productos[k].stock - CantidadDe(ls, k))
      && (forall k :: k in t.productos && Menciona(ls, k) ==> t2.productos[k].stock >= 0)
      && t2.carritos == t.carritos && t2.lineas == t.lineas
  {
    var ls := LineasDeItems(d.items);
    SubtotalDeLineas(d.items);
    DebitarPorProducto(t.productos, ls);
    DebitarNoNegativo(t.productos, ls);
  }

  lemma CrearVentaPreservaValida(t: Tablas, userId: Option<UserId>, d: VentaPos)
    requires Valida(t)
    ensures Valida(CrearVentaSpec(t, userId, d).tablas)
  {
  }
}
