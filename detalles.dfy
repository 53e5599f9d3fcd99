/**
 * The cart-line and sale-line Eloquent models. Each registers a `saving`
 * hook that overwrites `subtotal` with `cantidad * precio_unitario` on the
 * object just before it is written, whatever subtotal was assigned earlier.
 */
module Detalles {
  import opened Entities

  /** The cart line the `saving` hook leaves behind. */
  function GuardarLineaCarrito(l: LineaCarrito): (r: LineaCarrito)
    ensures r.subtotal == r.cantidad * r.precioUnitario
    ensures r.(subtotal := l.subtotal) == l
  {
    l.(subtotal := l.cantidad * l.precioUnitario)
  }

  /** The sale line the `saving` hook leaves behind. */
  function GuardarLineaVenta(l: LineaVenta): (r: LineaVenta)
    ensures r.subtotal == r.cantidad * r.precioUnitario
    ensures r.(subtotal := l.subtotal) == l
  {
    l.(subtotal := l.cantidad * l.precioUnitario)
  }

  /** A line as every save leaves it. */
  predicate LineaCarritoGuardada(l: LineaCarrito) {
    l.subtotal == l.cantidad * l.precioUnitario
  }

  predicate LineaVentaGuardada(l: LineaVenta) {
    l.subtotal == l.cantidad * l.precioUnitario
  }

  /** Saving twice leaves the same line as saving once. */
  lemma GuardarLineaCarritoIdempotente(l: LineaCarrito)
    ensures GuardarLineaCarrito(GuardarLineaCarrito(l)) == GuardarLineaCarrito(l)
    ensures LineaCarritoGuardada(GuardarLineaCarrito(l))
  {
  }

  lemma GuardarLineaVentaIdempotente(l: LineaVenta)
    ensures GuardarLineaVenta(GuardarLineaVenta(l)) == GuardarLineaVenta(l)
    ensures LineaVentaGuardada(GuardarLineaVenta(l))
  {
  }

  /** A cart-line model object (DetalleCarrito). */
  class DetalleCarrito {
    var id: LineaId
    var carritoId: CarritoId
    var productoId: ProductoId
    var cantidad: int
    var precioUnitario: Cents
    var subtotal: Cents

    /** Hydrates the object from a stored row, as a query does. */
    constructor (l: LineaCarrito)
      ensures Fila() == l
    {
      id, carritoId, productoId := l.id, l.carritoId, l.productoId;
      cantidad, precioUnitario, subtotal := l.cantidad, l.precioUnitario, l.subtotal;
    }

    /** The row this object is written as. */
    function Fila(): LineaCarrito
      reads this
    {
      LineaCarrito(id, carritoId, productoId, cantidad, precioUnitario, subtotal)
    }

    /** The `saving` hook: only `subtotal` changes, to quantity times unit price. */
    method Saving()
      modifies this`subtotal
      ensures Fila() == GuardarLineaCarrito(old(Fila()))
    {
      subtotal := cantidad * precioUnitario;
    }
  }

  /** A sale-line model object (DetalleVenta). */
  class DetalleVenta {
    var ventaId: VentaId
    var productoId: ProductoId
    var cantidad: int
    var precioUnitario: Cents
    var subtotal: Cents

    /** A fresh line with the attributes a controller assigns before saving. */
    constructor (ventaId: VentaId, productoId: ProductoId, cantidad: int, precioUnitario: Cents, subtotal: Cents)
      ensures this.ventaId == ventaId
      ensures Fila() == LineaVenta(productoId, cantidad, precioUnitario, subtotal)
    {
      this.ventaId, this.productoId := ventaId, productoId;
      this.cantidad, this.precioUnitario, this.subtotal := cantidad, precioUnitario, subtotal;
    }

    /** The row this object is written as (its sale is the one holding it). */
    function Fila(): LineaVenta
      reads this
    {
      LineaVenta(productoId, cantidad, precioUnitario, subtotal)
    }

    /** The `saving` hook: only `subtotal` changes; the product's live price is never read. */
    method Saving()
      modifies this`subtotal
      ensures Fila() == GuardarLineaVenta(old(Fila()))
    {
      subtotal := cantidad * precioUnitario;
    }
  }
}
