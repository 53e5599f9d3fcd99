/**
 * The cart controller's actions: add a product (merging with an existing
 * line), replace a line's quantity, remove a line, clear the cart, and the
 * checkout that turns the active cart into a pending sale. Stock is only
 * read here, never changed.
 */
module CarritoController {
  import opened Common
  import opened Entities
  import opened Detalles
  import CarritoModel
  import VentaModel
  import opened VentaReglas
  import opened Database
  import VentaController

  // ---------------------------------------------------------------------
  // agregarProducto

  /** The cart `firstOrCreate` yields: the client's first active cart, or a new one appended. */
  function CarritoActivoO(cs: seq<Carrito>, c: ClienteId): (r: (seq<Carrito>, CarritoId))
    ensures r.1 < |r.0| && r.0[r.1] == Carrito(c, CarritoActivo)
    ensures r.0 == cs || r.0 == cs + [Carrito(c, CarritoActivo)]
    ensures r.0 != cs ==> r.1 == |cs| && PrimerCarrito(cs, c, true).None?
  {
    match PrimerCarrito(cs, c, true)
    case Some(k) => (cs, k)
    case None => (cs + [Carrito(c, CarritoActivo)], |cs|)
  }

  function AgregarProductoSpec(t: Tablas, u: Usuario, p: ProductoId, cantidad: int): Salida<CarritoId> {
    if p !in t.productos || cantidad < 1 then Salida(Fallo(Validacion), t)
    else if u.cliente.None? then Salida(Fallo(SinPerfilCliente(400)), t)
    else
      var producto := t.productos[p];
      if producto.stock < cantidad then Salida(Fallo(StockInsuficiente(p, producto.stock)), t)
      else
        var (carritos, k) := CarritoActivoO(t.carritos, u.cliente.value);
        match LineaExistente(t.lineas, k, p)
        case Some(i) =>
          var nueva := t.lineas[i].cantidad + cantidad;
          if producto.stock < nueva then Salida(Fallo(StockInsuficiente(p, producto.stock)), t)
          else
            var l := GuardarLineaCarrito(t.lineas[i].(cantidad := nueva, subtotal := nueva * producto.precio));
            Salida(Exito(k), t.(carritos := carritos, lineas := t.lineas[i := l]))
        case None =>
          var l := GuardarLineaCarrito(LineaCarrito(t.siguienteLineaId, k, p, cantidad, producto.precio, cantidad * producto.precio));
          Salida(Exito(k), t.(carritos := carritos, lineas := t.lineas + [l], siguienteLineaId := t.siguienteLineaId + 1))
  }

  /** Saves a line with a new quantity through a DetalleCarrito object; the hook replaces the assigned subtotal. */
  method GuardarCantidad(l: LineaCarrito, cantidad: int, subtotalAsignado: Cents) returns (r: LineaCarrito)
    ensures r == GuardarLineaCarrito(l.(cantidad := cantidad, subtotal := subtotalAsignado))
    ensures r.cantidad == cantidad && r.subtotal == cantidad * l.precioUnitario
    ensures r.id == l.id && r.carritoId == l.carritoId && r.productoId == l.productoId && r.precioUnitario == l.precioUnitario
  {
    var detalle := new DetalleCarrito(l);
    detalle.cantidad := cantidad;
    detalle.subtotal := subtotalAsignado;
    detalle.Saving();
    r := detalle.Fila();
  }

  /** `DetalleCarrito::create`: a new line object, saved through its hook. */
  method CrearLinea(l: LineaCarrito) returns (r: LineaCarrito)
    ensures r == GuardarLineaCarrito(l)
    ensures LineaCarritoGuardada(r)
  {
    var detalle := new DetalleCarrito(l);
    detalle.Saving();
    r := detalle.Fila();
  }

  /**
   * `agregarProducto`: check the requested quantity against stock, get or
   * create the active cart, then either raise the existing line's quantity
   * (checking the cumulative quantity) or add a line priced at the
   * product's current price.
   */
  method AgregarProducto(db: Db, u: Usuario, p: ProductoId, cantidad: int) returns (r: Resultado<CarritoId>)
    modifies db`carritos, db`lineas, db`siguienteLineaId
    ensures Salida(r, db.Estado()) == AgregarProductoSpec(old(db.Estado()), u, p, cantidad)
  {
    if p !in db.productos || cantidad < 1 {
      return Fallo(Validacion);
    }
    if u.cliente.None? {
      return Fallo(SinPerfilCliente(400));
    }
    var producto := db.productos[p];
    if producto.stock < cantidad {
      return Fallo(StockInsuficiente(p, producto.stock));
    }
    var cliente := u.cliente.value;
    var inicial := db.carritos;
    var k: CarritoId;
    var encontrado := PrimerCarrito(db.carritos, cliente, true);
    if encontrado.Some? {
      k := encontrado.value;
    } else {
      k := |db.carritos|;
      db.carritos := db.carritos + [Carrito(cliente, CarritoActivo)];
    }
    var existente := LineaExistente(db.lineas, k, p);
    if existente.Some? {
      var i := existente.value;
      var nueva := db.lineas[i].cantidad + cantidad;
      if producto.stock < nueva {
        db.carritos := inicial;
        return Fallo(StockInsuficiente(p, producto.stock));
      }
      var l := GuardarCantidad(db.lineas[i], nueva, nueva * producto.precio);
      db.lineas := db.lineas[i := l];
    } else {
      var l := CrearLinea(LineaCarrito(db.siguienteLineaId, k, p, cantidad, producto.precio, cantidad * producto.precio));
      db.lineas := db.lineas + [l];
      db.siguienteLineaId := db.siguienteLineaId + 1;
    }
    r := Exito(k);
  }

  /** Adding is refused before any cart or line is created when the quantity alone exceeds stock. */
  lemma AgregarSinStock(t: Tablas, u: Usuario, p: ProductoId, cantidad: int)
    requires p in t.productos && cantidad >= 1 && u.cliente.Some?
    requires t.productos[p].stock < cantidad
    ensures AgregarProductoSpec(t, u, p, cantidad) == Salida(Fallo(StockInsuficiente(p, t.productos[p].stock)), t)
  {
  }

  /**
   * Adding succeeds exactly when the request is valid, the user has a
   * client profile and the product's stock covers the quantity already in
   * the cart plus the requested one. A refusal changes nothing, and stock
   * is never changed.
   */
  lemma AgregarExitoSii(t: Tablas, u: Usuario, p: ProductoId, cantidad: int)
    ensures var s := AgregarProductoSpec(t, u, p, cantidad);
      s.resultado.Exito? <==>
        p in t.productos && cantidad >= 1 && u.cliente.Some?
        && t.productos[p].stock >= cantidad
        && (var k := CarritoActivoO(t.carritos, u.cliente.value).1;
            LineaExistente(t.lineas, k, p).Some? ==>
              t.productos[p].stock >= t.lineas[LineaExistente(t.lineas, k, p).value].cantidad + cantidad)
    ensures AgregarProductoSpec(t, u, p, cantidad).resultado.Fallo? ==> AgregarProductoSpec(t, u, p, cantidad).tablas == t
    ensures AgregarProductoSpec(t, u, p, cantidad).tablas.productos == t.productos
  {
  }

  /**
   * Adding a product already in the cart raises that line's quantity by the
   * requested amount; its subtotal is the new quantity times the line's
   * snapshot price (the hook overwrites the live-price subtotal assigned
   * before saving); every other line stays as it was.
   */
  lemma AgregarExistente(t: Tablas, u: Usuario, p: ProductoId, cantidad: int)
    requires AgregarProductoSpec(t, u, p, cantidad).resultado.Exito?
    requires LineaExistente(t.lineas, CarritoActivoO(t.carritos, u.cliente.value).1, p).Some?
    ensures var i := LineaExistente(t.lineas, CarritoActivoO(t.carritos, u.cliente.value).1, p).value;
      var t2 := AgregarProductoSpec(t, u, p, cantidad).tablas;
      && |t2.lineas| == |t.lineas|
      && t2.lineas[i].cantidad == t.lineas[i].cantidad + cantidad
      && t2.lineas[i].precioUnitario == t.lineas[i].precioUnitario
      && t2.lineas[i].subtotal == t2.lineas[i].cantidad * t.lineas[i].precioUnitario
      && t2.lineas[i].id == t.lineas[i].id && t2.lineas[i].productoId == p
      && (forall j :: 0 <= j < |t.lineas| && j != i ==> t2.lineas[j] == t.lineas[j])
      && t2.siguienteLineaId == t.siguienteLineaId
  {
  }

  /**
   * Adding a product not yet in the cart appends exactly one line, priced
   * at the product's current price, with subtotal quantity × that price;
   * the cart's total grows by that subtotal.
   */
  lemma AgregarNuevo(t: Tablas, u: Usuario, p: ProductoId, cantidad: int)
    requires AgregarProductoSpec(t, u, p, cantidad).resultado.Exito?
    requires LineaExistente(t.lineas, CarritoActivoO(t.carritos, u.cliente.value).1, p).None?
    ensures var k := CarritoActivoO(t.carritos, u.cliente.value).1;
      var t2 := AgregarProductoSpec(t, u, p, cantidad).tablas;
      var l := t2.lineas[|t.lineas|];
      && t2.lineas == t.lineas + [l]
      && l == LineaCarrito(t.siguienteLineaId, k, p, cantidad, t.productos[p].precio, cantidad * t.productos[p].precio)
      && CarritoModel.CalcularTotal(LineasDe(t2.lineas, k))
         == CarritoModel.CalcularTotal(LineasDe(t.lineas, k)) + cantidad * t.productos[p].precio
      && CarritoModel.CantidadItems(LineasDe(t2.lineas, k)) == CarritoModel.CantidadItems(LineasDe(t.lineas, k)) + cantidad
  {
    var k := CarritoActivoO(t.carritos, u.cliente.value).1;
    var t2 := AgregarProductoSpec(t, u, p, cantidad).tablas;
    var l := t2.lineas[|t.lineas|];
    LineasDeConcat(t.lineas, [l], k);
    assert [l][1..] == [];
    assert LineasDe([l], k) == [l];
    assert CarritoModel.CalcularTotal([l]) == l.subtotal;
    assert CarritoModel.CantidadItems([l]) == l.cantidad;
    CarritoModel.TotalConcat(LineasDe(t.lineas, k), [l]);
  }

  lemma AgregarPreservaValida(t: Tablas, u: Usuario, p: ProductoId, cantidad: int)
    requires Valida(t)
    ensures Valida(AgregarProductoSpec(t, u, p, cantidad).tablas)
  {
    var t2 := AgregarProductoSpec(t, u, p, cantidad).tablas;
    if AgregarProductoSpec(t, u, p, cantidad).resultado.Exito? {
      assert |t.carritos| <= |t2.carritos|;
      forall i | 0 <= i < |t2.lineas|
        ensures t2.lineas[i].id < t2.siguienteLineaId && t2.lineas[i].carritoId < |t2.carritos|
        ensures LineaCarritoGuardada(t2.lineas[i])
      {
      }
    }
  }

  // ---------------------------------------------------------------------
  // actualizarCantidad

  function ActualizarCantidadSpec(t: Tablas, detalleId: LineaId, cantidad: int): Salida<CarritoId> {
    if cantidad < 1 then Salida(Fallo(Validacion), t)
    else match IndiceLinea(t.lineas, detalleId)
      case None => Salida(Fallo(NoEncontrado), t)
      case Some(i) =>
        var l := t.lineas[i];
        if l.productoId !in t.productos then Salida(Fallo(ErrorServidor), t)
        else if t.productos[l.productoId].stock < cantidad then
          Salida(Fallo(StockInsuficiente(l.productoId, t.productos[l.productoId].stock)), t)
        else
          Salida(Exito(l.carritoId),
                 t.(lineas := t.lineas[i := GuardarLineaCarrito(l.(cantidad := cantidad, subtotal := cantidad * l.precioUnitario))]))
  }

  /** `actualizarCantidad`: find the line, check stock against the new quantity, replace it. */
  method ActualizarCantidad(db: Db, detalleId: LineaId, cantidad: int) returns (r: Resultado<CarritoId>)
    modifies db`lineas
    ensures Salida(r, db.Estado()) == ActualizarCantidadSpec(old(db.Estado()), detalleId, cantidad)
  {
    if cantidad < 1 {
      return Fallo(Validacion);
    }
    var encontrado := IndiceLinea(db.lineas, detalleId);
    if encontrado.None? {
      return Fallo(NoEncontrado);
    }
    var i := encontrado.value;
    var detalle := db.lineas[i];
    if detalle.productoId !in db.productos {
      return Fallo(ErrorServidor);
    }
    var producto := db.productos[detalle.productoId];
    if producto.stock < cantidad {
      return Fallo(StockInsuficiente(detalle.productoId, producto.stock));
    }
    var l := GuardarCantidad(detalle, cantidad, cantidad * detalle.precioUnitario);
    db.lineas := db.lineas[i := l];
    r := Exito(detalle.carritoId);
  }

  /**
   * Updating replaces the quantity (it does not add to it), prices it at
   * the line's snapshot price, and touches no other line; refused, it
   * changes nothing. Updating twice to the same quantity equals updating
   * once.
   */
  lemma ActualizarCantidadContrato(t: Tablas, detalleId: LineaId, cantidad: int)
    ensures var s := ActualizarCantidadSpec(t, detalleId, cantidad);
      s.resultado.Exito? <==>
        cantidad >= 1 && IndiceLinea(t.lineas, detalleId).Some?
        && t.lineas[IndiceLinea(t.lineas, detalleId).value].productoId in t.productos
        && t.productos[t.lineas[IndiceLinea(t.lineas, detalleId).value].productoId].stock >= cantidad
    ensures var s := ActualizarCantidadSpec(t, detalleId, cantidad);
      s.resultado.Fallo? ==> s.tablas == t
    ensures var s := ActualizarCantidadSpec(t, detalleId, cantidad);
      s.resultado.Exito? ==>
        var i := IndiceLinea(t.lineas, detalleId).value;
        && s.tablas == t.(lineas := s.tablas.lineas)
        && s.tablas.lineas == t.lineas[i := s.tablas.lineas[i]]
        && s.tablas.lineas[i].cantidad == cantidad
        && s.tablas.lineas[i].subtotal == cantidad * t.lineas[i].precioUnitario
        && s.tablas.lineas[i].precioUnitario == t.lineas[i].precioUnitario
        && ActualizarCantidadSpec(s.tablas, detalleId, cantidad).tablas == s.tablas
  {
    var s := ActualizarCantidadSpec(t, detalleId, cantidad);
    if s.resultado.Exito? {
      var i := IndiceLinea(t.lineas, detalleId).value;
      var t2 := s.tablas;
      IndiceLineaEn(t2.lineas, detalleId, i);
    }
  }

  /** The total of the line's cart changes by exactly the difference of the line's subtotals. */
  lemma ActualizarCantidadTotal(t: Tablas, detalleId: LineaId, cantidad: int)
    requires ActualizarCantidadSpec(t, detalleId, cantidad).resultado.Exito?
    ensures var i := IndiceLinea(t.lineas, detalleId).value;
      var t2 := ActualizarCantidadSpec(t, detalleId, cantidad).tablas;
      CarritoModel.CalcularTotal(t2.lineas)
        == CarritoModel.CalcularTotal(t.lineas) - t.lineas[i].subtotal + cantidad * t.lineas[i].precioUnitario
  {
    var i := IndiceLinea(t.lineas, detalleId).value;
    var t2 := ActualizarCantidadSpec(t, detalleId, cantidad).tablas;
    CarritoModel.ReemplazarLinea(t.lineas, i, t2.lineas[i]);
  }

  lemma ActualizarCantidadPreservaValida(t: Tablas, detalleId: LineaId, cantidad: int)
    requires Valida(t)
    ensures Valida(ActualizarCantidadSpec(t, detalleId, cantidad).tablas)
  {
  }

  // ---------------------------------------------------------------------
  // eliminarProducto

  function EliminarProductoSpec(t: Tablas, detalleId: LineaId): Salida<CarritoId> {
    match IndiceLinea(t.lineas, detalleId)
    case None => Salida(Fallo(NoEncontrado), t)
    case Some(i) => Salida(Exito(t.lineas[i].carritoId), t.(lineas := t.lineas[..i] + t.lineas[i + 1..]))
  }

  /** `eliminarProducto`: delete the named line. */
  method EliminarProducto(db: Db, detalleId: LineaId) returns (r: Resultado<CarritoId>)
    modifies db`lineas
    ensures Salida(r, db.Estado()) == EliminarProductoSpec(old(db.Estado()), detalleId)
  {
    var encontrado := IndiceLinea(db.lineas, detalleId);
    if encontrado.None? {
      return Fallo(NoEncontrado);
    }
    var i := encontrado.value;
    var carrito := db.lineas[i].carritoId;
    db.lineas := db.lineas[..i] + db.lineas[i + 1..];
    r := Exito(carrito);
  }

  /**
   * Removing deletes exactly the named line: afterwards no line has its id,
   * every other line is still there, and nothing but the lines changes.
   */
  lemma EliminarProductoContrato(t: Tablas, detalleId: LineaId)
    requires Valida(t)
    ensures EliminarProductoSpec(t, detalleId).resultado.Exito? <==> IndiceLinea(t.lineas, detalleId).Some?
    ensures EliminarProductoSpec(t, detalleId).resultado.Fallo? ==> EliminarProductoSpec(t, detalleId).tablas == t
    ensures var s := EliminarProductoSpec(t, detalleId);
      s.resultado.Exito? ==>
        var i := IndiceLinea(t.lineas, detalleId).value;
        && s.resultado.valor == t.lineas[i].carritoId
        && s.tablas == t.(lineas := s.tablas.lineas)
        && |s.tablas.lineas| == |t.lineas| - 1
        && (forall j :: 0 <= j < |s.tablas.lineas| ==> s.tablas.lineas[j].id != detalleId)
        && (forall j :: 0 <= j < |t.lineas| && j != i ==> t.lineas[j] in s.tablas.lineas)
  {
    var s := EliminarProductoSpec(t, detalleId);
    if s.resultado.Exito? {
      var i := IndiceLinea(t.lineas, detalleId).value;
      var r := s.tablas.lineas;
      forall j | 0 <= j < |r| ensures r[j].id != detalleId {
        if j < i {
          assert r[j] == t.lineas[j];
        } else {
          assert r[j] == t.lineas[j + 1];
        }
      }
      forall j | 0 <= j < |t.lineas| && j != i ensures t.lineas[j] in r {
        if j < i {
          assert r[j] == t.lineas[j];
        } else {
          assert r[j - 1] == t.lineas[j];
        }
      }
    }
  }

  /** Removing a line lowers its cart's total and item count by exactly that line's subtotal and quantity. */
  lemma EliminarProductoTotal(t: Tablas, detalleId: LineaId)
    requires IndiceLinea(t.lineas, detalleId).Some?
    ensures var i := IndiceLinea(t.lineas, detalleId).value;
      var l := t.lineas[i];
      var r := EliminarProductoSpec(t, detalleId).tablas.lineas;
      && CarritoModel.CalcularTotal(LineasDe(r, l.carritoId))
         == CarritoModel.CalcularTotal(LineasDe(t.lineas, l.carritoId)) - l.subtotal
      && CarritoModel.CantidadItems(LineasDe(r, l.carritoId))
         == CarritoModel.CantidadItems(LineasDe(t.lineas, l.carritoId)) - l.cantidad
  {
    var i := IndiceLinea(t.lineas, detalleId).value;
    var l := t.lineas[i];
    var c := l.carritoId;
    var antes, despues := t.lineas[..i], t.lineas[i + 1..];
    assert EliminarProductoSpec(t, detalleId).tablas.lineas == antes + despues;
    assert t.lineas == antes + ([l] + despues);
    LineasDeConcat(antes, [l] + despues, c);
    LineasDeConcat([l], despues, c);
    LineasDeConcat(antes, despues, c);
    assert LineasDe([l], c) == [l] + LineasDe([], c);
    var la, ld := LineasDe(antes, c), LineasDe(despues, c);
    CarritoModel.TotalConcat(la, [l] + ld);
    CarritoModel.TotalConcat([l], ld);
    CarritoModel.TotalConcat(la, ld);
  }

  lemma EliminarProductoPreservaValida(t: Tablas, detalleId: LineaId)
    requires Valida(t)
    ensures Valida(EliminarProductoSpec(t, detalleId).tablas)
  {
    var s := EliminarProductoSpec(t, detalleId);
    if s.resultado.Exito? {
      var i := IndiceLinea(t.lineas, detalleId).value;
      var r := s.tablas.lineas;
      forall a, b | 0 <= a < b < |r| ensures r[a].id < r[b].id {
        var a' := if a < i then a else a + 1;
        var b' := if b < i then b else b + 1;
        assert r[a] == t.lineas[a'] && r[b] == t.lineas[b'];
      }
      forall j | 0 <= j < |r|
        ensures r[j].id < t.siguienteLineaId && r[j].carritoId < |t.carritos| && LineaCarritoGuardada(r[j])
      {
        assert r[j] == t.lineas[if j < i then j else j + 1];
      }
    }
  }

  // ---------------------------------------------------------------------
  // vaciarCarrito

  function VaciarCarritoSpec(t: Tablas, u: Usuario): Salida<CarritoId> {
    if u.cliente.None? then Salida(Fallo(ErrorServidor), t)
    else match PrimerCarrito(t.carritos, u.cliente.value, true)
      case None => Salida(Fallo(NoEncontrado), t)
      case Some(k) => Salida(Exito(k), t.(lineas := SinLineasDe(t.lineas, k)))
  }

  /** `vaciarCarrito`: delete every line of the client's active cart. */
  method VaciarCarrito(db: Db, u: Usuario) returns (r: Resultado<CarritoId>)
    modifies db`lineas
    ensures Salida(r, db.Estado()) == VaciarCarritoSpec(old(db.Estado()), u)
  {
    if u.cliente.None? {
      return Fallo(ErrorServidor);
    }
    var encontrado := PrimerCarrito(db.carritos, u.cliente.value, true);
    if encontrado.None? {
      return Fallo(NoEncontrado);
    }
    db.lineas := SinLineasDe(db.lineas, encontrado.value);
    r := Exito(encontrado.value);
  }

  /**
   * Clearing leaves the active cart with no lines, total 0 and 0 items; the
   * cart stays Activo and every other cart keeps its lines.
   */
  lemma VaciarCarritoContrato(t: Tablas, u: Usuario)
    ensures VaciarCarritoSpec(t, u).resultado.Exito? <==>
      u.cliente.Some? && PrimerCarrito(t.carritos, u.cliente.value, true).Some?
    ensures VaciarCarritoSpec(t, u).resultado.Fallo? ==> VaciarCarritoSpec(t, u).tablas == t
    ensures var s := VaciarCarritoSpec(t, u);
      s.resultado.Exito? ==>
        var k := s.resultado.valor;
        && s.tablas.carritos == t.carritos && t.carritos[k].estado == CarritoActivo
        && LineasDe(s.tablas.lineas, k) == []
        && CarritoModel.CalcularTotal(LineasDe(s.tablas.lineas, k)) == 0
        && CarritoModel.CantidadItems(LineasDe(s.tablas.lineas, k)) == 0
        && (forall c :: c != k ==> LineasDe(s.tablas.lineas, c) == LineasDe(t.lineas, c))
        && s.tablas == t.(lineas := s.tablas.lineas)
  {
    var s := VaciarCarritoSpec(t, u);
    if s.resultado.Exito? {
      var k := s.resultado.valor;
      forall c | c != k ensures LineasDe(s.tablas.lineas, c) == LineasDe(t.lineas, c) {
        OtrosCarritosIntactos(t.lineas, k, c);
      }
      OtrosCarritosIntactos(t.lineas, k, k + 1);
    }
  }

  lemma VaciarCarritoPreservaValida(t: Tablas, u: Usuario)
    requires Valida(t)
    ensures Valida(VaciarCarritoSpec(t, u).tablas)
  {
    var s := VaciarCarritoSpec(t, u);
    if s.resultado.Exito? {
      var k := s.resultado.valor;
      SinLineasDeSubsecuencia(t.lineas, k);
      var r := SinLineasDe(t.lineas, k);
      forall i | 0 <= i < |r|
        ensures r[i].id < t.siguienteLineaId && r[i].carritoId < |t.carritos| && LineaCarritoGuardada(r[i])
      {
        assert r[i] in t.lineas;
      }
    }
  }

  // ---------------------------------------------------------------------
  // crearVentaDesdeCarrito: checkout

  /** The payment methods checkout accepts. */
  predicate MetodoPagoValido(m: string) {
    m == "Efectivo" || m == "Transferencia" || m == "Yape" || m == "Plin"
  }

  /** Every line's product exists and has at least the line's quantity (each line checked on its own). */
  predicate Cubiertas(productos: map<ProductoId, Producto>, ls: seq<LineaCarrito>) {
    forall i :: 0 <= i < |ls| ==> ls[i].productoId in productos && productos[ls[i].productoId].stock >= ls[i].cantidad
  }

  /** The checkout's stock check: the failure of the first line that is not covered. */
  function PrimeraSinStock(productos: map<ProductoId, Producto>, ls: seq<LineaCarrito>): (r: Option<Falla>)
    ensures r.None? <==> Cubiertas(productos, ls)
    ensures r.Some? ==> r.value == ErrorServidor || r.value.StockInsuficiente?
  {
    if ls == [] then None
    else if ls[0].productoId !in productos then Some(ErrorServidor)
    else if productos[ls[0].productoId].stock < ls[0].cantidad then
      Some(StockInsuficiente(ls[0].productoId, productos[ls[0].productoId].stock))
    else
      var r := PrimeraSinStock(productos, ls[1..]);
      assert Cubiertas(productos, ls) <==> Cubiertas(productos, ls[1..]) by {
        if Cubiertas(productos, ls[1..]) {
          forall i | 0 <= i < |ls| ensures ls[i].productoId in productos && productos[ls[i].productoId].stock >= ls[i].cantidad {
            if i > 0 {
              assert ls[i] == ls[1..][i - 1];
            }
          }
        }
      }
      r
  }

  /** The pending sale a checkout creates from the cart's lines. */
  function VentaDeCarrito(c: ClienteId, d: DatosPedido, url: Option<string>, ls: seq<LineaCarrito>): Venta {
    Venta(c, None, PENDIENTE, Some(CarritoModel.SumaImportes(ls)), d.metodoPago, None,
          d.direccion, d.telefono, d.observaciones, url, d.codigo, CopiarLineas(ls))
  }

  function CheckoutSpec(t: Tablas, u: Usuario, d: DatosPedido): Salida<VentaId> {
    if !MetodoPagoValido(d.metodoPago) || !LongitudesValidas(d) then Salida(Fallo(Validacion), t)
    else if u.cliente.None? then Salida(Fallo(SinPerfilCliente(404)), t)
    else match PrimerCarrito(t.carritos, u.cliente.value, true)
      case None => Salida(Fallo(CarritoVacio), t)
      case Some(k) =>
        var ls := LineasDe(t.lineas, k);
        if ls == [] then Salida(Fallo(CarritoVacio), t)
        else match PrimeraSinStock(t.productos, ls)
          case Some(f) => Salida(Fallo(f), t)
          case None =>
            match ComprobanteDePedido(d.comprobante)
            case Fallo(f) => Salida(Fallo(f), t)
            case Exito(url) =>
              var id := t.siguienteVentaId;
              Salida(Exito(id), t.(ventas := t.ventas[id := VentaDeCarrito(u.cliente.value, d, url, ls)],
                                   siguienteVentaId := id + 1,
                                   lineas := SinLineasDe(t.lineas, k),
                                   carritos := t.carritos[k := t.carritos[k].(estado := Convertido)]))
  }

  /** The checkout's stock loop: stop at the first line its product does not cover. */
  method ComprobarStock(productos: map<ProductoId, Producto>, ls: seq<LineaCarrito>) returns (f: Option<Falla>)
    ensures f == PrimeraSinStock(productos, ls)
    ensures f.None? <==> Cubiertas(productos, ls)
  {
    var i := 0;
    while i < |ls|
      invariant 0 <= i <= |ls|
      invariant PrimeraSinStock(productos, ls) == PrimeraSinStock(productos, ls[i..])
    {
      assert ls[i..][1..] == ls[i + 1..];
      var l := ls[i];
      if l.productoId !in productos {
        return Some(ErrorServidor);
      }
      if productos[l.productoId].stock < l.cantidad {
        return Some(StockInsuficiente(l.productoId, productos[l.productoId].stock));
      }
      i := i + 1;
    }
    assert ls[i..] == [];
    f := None;
  }

  /** The checkout's total: Σ unit price × quantity over the cart's lines. */
  method TotalCarrito(ls: seq<LineaCarrito>) returns (total: Cents)
    ensures total == CarritoModel.SumaImportes(ls)
  {
    total := 0;
    var i := 0;
    while i < |ls|
      invariant 0 <= i <= |ls|
      invariant total + CarritoModel.SumaImportes(ls[i..]) == CarritoModel.SumaImportes(ls)
    {
      assert ls[i..][1..] == ls[i + 1..];
      total := total + ls[i].precioUnitario * ls[i].cantidad;
      i := i + 1;
    }
    assert ls[i..] == [];
  }

  /**
   * `crearVentaDesdeCarrito`: check every line against stock, total the
   * lines, check the payment proof, create the pending sale with copies of
   * the lines, then empty the cart and mark it Convertido.
   */
  method CrearVentaDesdeCarrito(db: Db, u: Usuario, d: DatosPedido) returns (r: Resultado<VentaId>)
    modifies db`ventas, db`siguienteVentaId, db`lineas, db`carritos
    ensures Salida(r, db.Estado()) == CheckoutSpec(old(db.Estado()), u, d)
  {
    if !MetodoPagoValido(d.metodoPago) || !LongitudesValidas(d) {
      return Fallo(Validacion);
    }
    if u.cliente.None? {
      return Fallo(SinPerfilCliente(404));
    }
    var cliente := u.cliente.value;
    var encontrado := PrimerCarrito(db.carritos, cliente, true);
    if encontrado.None? {
      return Fallo(CarritoVacio);
    }
    var k := encontrado.value;
    var ls := LineasDe(db.lineas, k);
    if ls == [] {
      return Fallo(CarritoVacio);
    }
    var faltante := ComprobarStock(db.productos, ls);
    if faltante.Some? {
      return Fallo(faltante.value);
    }
    var total := TotalCarrito(ls);
    var comprobante := ComprobanteDePedido(d.comprobante);
    if comprobante.Fallo? {
      return Fallo(comprobante.falla);
    }
    var id := db.siguienteVentaId;
    db.siguienteVentaId := id + 1;
    var detalles := VentaController.CopiarALineasVenta(id, ls);
    db.ventas := db.ventas[id := Venta(cliente, None, PENDIENTE, Some(total), d.metodoPago, None,
                                       d.direccion, d.telefono, d.observaciones, comprobante.valor, d.codigo, detalles)];
    db.lineas := SinLineasDe(db.lineas, k);
    db.carritos := db.carritos[k := db.carritos[k].(estado := Convertido)];
    r := Exito(id);
  }

  /**
   * Checkout succeeds exactly when the request is valid, the user has a
   * client profile and an active cart with lines, every line's product has
   * at least that line's quantity, and any payment proof is on Cloudinary.
   * A refused checkout leaves every table unchanged: no sale exists
   * afterwards and the cart keeps its lines and status.
   */
  lemma CheckoutExitoSii(t: Tablas, u: Usuario, d: DatosPedido)
    ensures CheckoutSpec(t, u, d).resultado.Exito? <==>
      MetodoPagoValido(d.metodoPago) && LongitudesValidas(d) && u.cliente.Some?
      && PrimerCarrito(t.carritos, u.cliente.value, true).Some?
      && LineasDe(t.lineas, PrimerCarrito(t.carritos, u.cliente.value, true).value) != []
      && Cubiertas(t.productos, LineasDe(t.lineas, PrimerCarrito(t.carritos, u.cliente.value, true).value))
      && (!Lleno(d.comprobante) || EsDeCloudinary(d.comprobante.value))
    ensures CheckoutSpec(t, u, d).resultado.Fallo? ==> CheckoutSpec(t, u, d).tablas == t
  {
  }

  /**
   * A successful checkout creates a Pendiente sale under the next id whose
   * total is the cart's total, with one line per cart line carrying the
   * same quantity and price; it empties the cart and marks it Convertido,
   * leaves every other cart's lines alone and changes no stock.
   */
  lemma CheckoutExito(t: Tablas, u: Usuario, d: DatosPedido)
    requires Valida(t)
    requires CheckoutSpec(t, u, d).resultado.Exito?
    ensures u.cliente.Some? && PrimerCarrito(t.carritos, u.cliente.value, true).Some?
    ensures var k := PrimerCarrito(t.carritos, u.cliente.value, true).value;
      var ls := LineasDe(t.lineas, k);
      var t2 := CheckoutSpec(t, u, d).tablas;
      var id := CheckoutSpec(t, u, d).resultado.valor;
      && id == t.siguienteVentaId && t2.siguienteVentaId == id + 1
      && t2.ventas == t.ventas[id := t2.ventas[id]]
      && t2.ventas[id].estado == PENDIENTE && t2.ventas[id].clienteId == u.cliente.value
      && VentaModel.Total(t2.ventas[id]) == CarritoModel.CalcularTotal(ls)
      && VentaModel.CalcularTotal(t2.ventas[id]) == CarritoModel.CalcularTotal(ls)
      && |t2.ventas[id].detalles| == |ls|
      && (forall i :: 0 <= i < |ls| ==>
            t2.ventas[id].detalles[i].productoId == ls[i].productoId
            && t2.ventas[id].detalles[i].cantidad == ls[i].cantidad
            && t2.ventas[id].detalles[i].precioUnitario == ls[i].precioUnitario)
      && LineasDe(t2.lineas, k) == []
      && t2.carritos == t.carritos[k := Carrito(u.cliente.value, Convertido)]
      && (forall c :: c != k ==> LineasDe(t2.lineas, c) == LineasDe(t.lineas, c))
      && t2.productos == t.productos
  {
    var k := PrimerCarrito(t.carritos, u.cliente.value, true).value;
    var ls := LineasDe(t.lineas, k);
    var t2 := CheckoutSpec(t, u, d).tablas;
    var id := t.siguienteVentaId;
    SinLineasDeSubsecuencia(t.lineas, k);
    forall i | 0 <= i < |ls| ensures LineaCarritoGuardada(ls[i]) {
      assert ls[i] in t.lineas;
    }
    CarritoModel.TotalEsSumaDeImportes(ls);
    VentaController.ImportesCopiados(ls);
    VentaModel.SumasGuardadas(t2.ventas[id].detalles);
    forall c | c != k ensures LineasDe(t2.lineas, c) == LineasDe(t.lineas, c) {
      OtrosCarritosIntactos(t.lineas, k, c);
    }
    OtrosCarritosIntactos(t.lineas, k, k + 1);
  }

  lemma CheckoutPreservaValida(t: Tablas, u: Usuario, d: DatosPedido)
    requires Valida(t)
    ensures Valida(CheckoutSpec(t, u, d).tablas)
  {
    if CheckoutSpec(t, u, d).resultado.Exito? {
      var k := PrimerCarrito(t.carritos, u.cliente.value, true).value;
      SinLineasDeSubsecuencia(t.lineas, k);
      var r := SinLineasDe(t.lineas, k);
      forall i | 0 <= i < |r|
        ensures r[i].id < t.siguienteLineaId && r[i].carritoId < |t.carritos| && LineaCarritoGuardada(r[i])
      {
        assert r[i] in t.lineas;
      }
    }
  }
}
