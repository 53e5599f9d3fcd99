/**
 * The records of the shop's database that the core reads and writes:
 * products, sales (orders) with their lines, carts with their lines, the
 * authenticated user, and the error outcomes of the controllers.
 * Money is held in integer cents, since every money column is decimal(10,2).
 */
module Entities {
  import opened Common

  type ProductoId = nat
  type VentaId = nat
  type ClienteId = nat
  type CarritoId = nat
  type LineaId = nat
  type UserId = nat

  /** An amount of money in cents. */
  type Cents = int

  // Order statuses, spelled as the sale controller spells them.
  const PENDIENTE: string := "Pendiente"
  const CONFIRMADO: string := "Confirmado"
  const EN_PROCESO: string := "En Proceso"
  const ENVIADO: string := "Enviado"
  const ENTREGADO: string := "Entregado"
  const COMPLETADO: string := "Completado"
  const CANCELADO: string := "Cancelado"

  /** The seven statuses the status-update request accepts. */
  predicate EsEstadoConocido(s: string) {
    s == PENDIENTE || s == CONFIRMADO || s == EN_PROCESO || s == ENVIADO
    || s == ENTREGADO || s == COMPLETADO || s == CANCELADO
  }

  datatype EstadoProducto = Activo | Inactivo

  /** A product row: price, available stock, minimum stock and status. */
  datatype Producto = Producto(
    nombre: string,
    precio: Cents,
    stock: int,
    stockMinimo: int,
    estado: EstadoProducto)

  /** A sale line (detalle_ventas row): quantity and unit price snapshot. */
  datatype LineaVenta = LineaVenta(
    productoId: ProductoId,
    cantidad: int,
    precioUnitario: Cents,
    subtotal: Cents)

  /** A sale (ventas row) together with its lines. */
  datatype Venta = Venta(
    clienteId: ClienteId,
    userId: Option<UserId>,
    estado: string,
    totalVenta: Option<Cents>,
    metodoPago: string,
    canal: Option<string>,
    direccion: Option<string>,
    telefono: Option<string>,
    observaciones: Option<string>,
    comprobantePago: Option<string>,
    codigoOperacion: Option<string>,
    detalles: seq<LineaVenta>)

  datatype EstadoCarrito = CarritoActivo | Convertido | Abandonado

  /** A cart row; its lines live in their own table. */
  datatype Carrito = Carrito(clienteId: ClienteId, estado: EstadoCarrito)

  /** A cart line (detalle_carritos row). */
  datatype LineaCarrito = LineaCarrito(
    id: LineaId,
    carritoId: CarritoId,
    productoId: ProductoId,
    cantidad: int,
    precioUnitario: Cents,
    subtotal: Cents)

  /** The authenticated user: role and, for customers, the client profile. */
  datatype Usuario = Usuario(id: UserId, rol: string, cliente: Option<ClienteId>)

  /** Why a controller action refused; `Http` gives the status code it answers with. */
  datatype Falla =
    | Validacion
    | NoEncontrado
    | Prohibido
    | SinPerfilCliente(codigo: int)
    | TransicionInvalida(desde: string, hacia: string)
    | StockInsuficiente(productoId: ProductoId, disponible: int)
    | NoCancelable(estado: string)
    | ComprobanteInvalido
    | CarritoVacio
    | ConStock
    | ErrorServidor
  {
    function Http(): int {
      match this
      case Validacion => 422
      case NoEncontrado => 404
      case Prohibido => 403
      case SinPerfilCliente(c) => c
      case ErrorServidor => 500
      case _ => 400
    }
  }

  datatype Resultado<+T> = Exito(valor: T) | Fallo(falla: Falla)

  /** The characters PHP's trim() strips. */
  predicate EsBlanco(c: char) {
    c == ' ' || c == '\t' || c == '\n' || c == '\r' || c == '\0' || c == '\U{0B}'
  }

  /** Laravel's `filled`: the field is present and not blank once trimmed. */
  predicate Lleno(o: Option<string>) {
    o.Some? && exists i :: 0 <= i < |o.value| && !EsBlanco(o.value[i])
  }
}
