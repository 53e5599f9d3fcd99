# Order lifecycle and stock of the Lanería backend, in Dafny

This project models the core of a yarn shop's Laravel back end: how orders
(`ventas`) move through their statuses, how each transition changes product
stock, how carts become orders, how the point of sale records a sale, how an
administrator moves stock by hand, how products are classified into stock
bands and alerts, when a product may be deleted, and the role gate in front
of the routes.

Layout:

- `common.dfy`, `text.dfy`: option values, PHP-style string helpers
  (`str_pad`, `substr(-6)`, `(int)` casts, `str_contains`).
- `entities.dfy`: the rows (product, sale, sale line, cart, cart line, user)
  and the error outcomes of the controllers with their HTTP codes.
- `detalles.dfy`: the saving hook of cart and sale lines, as a function and
  as `DetalleCarrito`/`DetalleVenta` objects whose `Saving` updates the
  subtotal in place.
- `venta_model.dfy`, `carrito_model.dfy`, `comprobante.dfy`: the
  accessors and helpers of the `Venta`, `Carrito` and `Comprobante` models.
- `venta_reglas.dfy`: the status-transition table, the payment-proof URL
  rule, the audit text, and the stock debit and credit over a sale's lines.
- `database.dfy`: the tables, both as a value (`Tablas`) and as a `Db`
  object whose fields the actions update in place, plus the invariant
  `Valida` the actions keep.
- `venta_controller.dfy`, `carrito_controller.dfy`,
  `inventario_controller.dfy`, `producto_controller.dfy`,
  `estadisticas.dfy`, `check_role.dfy`: one module per controller or
  middleware.

Each state-changing action is a `method` on `Db`. It is proved to produce
exactly the answer and the tables that a specification function on
`Tablas` gives. The properties the source promises are lemmas about those
functions: when the action succeeds, that a refusal changes nothing, what
changes on success, round trips, and preservation of `Valida`.

Money is in integer cents, because every money column is `decimal(10,2)`.
Stock is a signed integer, because the column is a signed `integer` and
entries and adjustments accept any integer. Timestamps (`now()`) are a
string parameter.

Where the database migrations and the controllers disagree, the model follows
the controllers:

- The controllers write `canal_venta`, `subtotal`, `descuento` and
  `numero_venta`, which the migrations do not create.
- The controllers use the statuses Confirmado, En Proceso, Enviado,
  Entregado and Completado, which the `ventas` enum of the migrations does
  not list.

Sale statuses are therefore strings. A status outside the transition table
is refused.

## Model

| member | source | states |
|---|---|---|
| VentaReglas.TransicionSegunTabla | app/Http/Controllers/Api/VentaController.php:637-654 | a transition is accepted exactly when (current, new) is one of the nine pairs of the table |
| VentaReglas.EstadoDesconocidoRechazado | app/Http/Controllers/Api/VentaController.php:649-651 | a current status with no entry in the table is refused whatever the target |
| VentaReglas.EstadosTerminales | app/Http/Controllers/Api/VentaController.php:645-646 | Completado and Cancelado accept no transition |
| VentaReglas.TransicionAvanza | app/Http/Controllers/Api/VentaController.php:639-647 | every accepted transition joins two known statuses and moves strictly forward in the life cycle, so no status recurs |
| VentaReglas.NormalizarComprobante | app/Http/Controllers/Api/VentaController.php:283-287 | the stored URL starts with http:// or https://; it is the input unchanged exactly when the input already had a scheme, otherwise "https://" + input |
| VentaReglas.NormalizarIdempotente | app/Http/Controllers/Api/VentaController.php:283-287 | normalising twice is normalising once |
| VentaReglas.NormalizarConservaHost | app/Http/Controllers/Api/VentaController.php:283-294 | adding the scheme never changes whether the URL contains cloudinary.com |
| VentaReglas.ComprobanteDePedido | app/Http/Controllers/Api/CarritoController.php:284-308 | an unfilled proof stores null; a filled one is accepted iff its normalised form is on Cloudinary and is then stored normalised; otherwise 400 |
| VentaReglas.EntradaBitacora | app/Http/Controllers/Api/VentaController.php:218-224 | the audit entry begins "\n[ts] old → new" (the note follows only when filled) |
| VentaReglas.Anotar | app/Http/Controllers/Api/VentaController.php:218-226 | the new observations are the old text (null read as empty) followed by exactly the entry |
| VentaReglas.DebitarExitoSiiAlcanza | app/Http/Controllers/Api/VentaController.php:188-203 | the confirmation debit succeeds iff every line's product exists and still holds the line's quantity after the earlier lines of the same product were taken |
| VentaReglas.DebitarPorProducto | app/Http/Controllers/Api/VentaController.php:189-202 | a successful debit lowers each product's stock by exactly the sum of its lines' quantities |
| VentaReglas.DebitarNoNegativo | app/Http/Controllers/Api/VentaController.php:192-201 | after a successful debit every product it touched has non-negative stock and every other product is unchanged |
| VentaReglas.AcreditarPorProducto | app/Http/Controllers/Api/VentaController.php:206-212 | a credit raises each product's stock by exactly the sum of its lines' quantities |
| VentaReglas.AcreditarExitoSiiExisten | app/Http/Controllers/Api/VentaController.php:206-212 | the credit fails only when some line's product row is missing |
| VentaReglas.DebitarLuegoAcreditar | app/Http/Controllers/Api/VentaController.php:188-212 | crediting back the lines of a successful debit restores every product exactly |
| VentaController.DebitarStock | app/Http/Controllers/Api/VentaController.php:188-203 | the in-place debit loop leaves the products the debit function gives, or on a short line rolls back to the state before the loop |
| VentaController.AcreditarStock | app/Http/Controllers/Api/VentaController.php:206-212 | the in-place credit loop leaves the products the credit function gives, or rolls back |
| VentaController.ActualizarEstado | app/Http/Controllers/Api/VentaController.php:160-248 | the status change updates the products and sales tables exactly as its specification says |
| VentaController.ActualizarEstadoFalloSinCambios | app/Http/Controllers/Api/VentaController.php:167-197 | a refused status change (422, 404, invalid transition, short stock) leaves every table unchanged |
| VentaController.ActualizarEstadoExitoSii | app/Http/Controllers/Api/VentaController.php:162-212 | the change succeeds iff the request is valid, the sale exists, the transition is in the table, and the stock covers a confirmation (or the products exist for a credit) |
| VentaController.ActualizarEstadoExito | app/Http/Controllers/Api/VentaController.php:187-227 | on success only that sale and product stocks change: new status, lines kept, audit entry appended; stock drops by each product's quantity on Pendiente→Confirmado, rises on Confirmado/En Proceso→Cancelado, else unchanged |
| VentaController.CancelarSinReponer | app/Http/Controllers/Api/VentaController.php:205-212 | cancelling a Pendiente or Enviado sale through the status change never touches stock |
| VentaController.ConfirmarNoDejaNegativo | app/Http/Controllers/Api/VentaController.php:188-203 | a successful confirmation leaves every product on the sale with non-negative stock |
| VentaController.ConfirmarLuegoCancelar | app/Http/Controllers/Api/VentaController.php:188-212 | confirming and then cancelling a sale succeeds and restores every product's stock |
| VentaController.ActualizarEstadoPreservaValida | app/Http/Controllers/Api/VentaController.php:160-248 | the status change keeps the database invariant |
| VentaController.MotivoCancelacion | app/Http/Controllers/Api/VentaController.php:360 | the reason is the request's when filled, otherwise "Cancelado por el cliente" |
| VentaController.Cancelar | app/Http/Controllers/Api/VentaController.php:324-376 | the cancellation updates the products and sales tables exactly as its specification says |
| VentaController.CancelarExitoSii | app/Http/Controllers/Api/VentaController.php:326-344 | cancellation succeeds iff the sale exists, belongs to the caller's client (or the caller has none), and is Pendiente or Confirmado; a refusal changes nothing |
| VentaController.CancelarExito | app/Http/Controllers/Api/VentaController.php:346-363 | on success the sale becomes Cancelado with "Cancelado: reason" appended; a Confirmado sale's quantities return to stock, a Pendiente sale's stock is untouched |
| VentaController.CancelarPreservaValida | app/Http/Controllers/Api/VentaController.php:324-376 | cancellation keeps the database invariant |
| VentaController.SubirComprobante | app/Http/Controllers/Api/VentaController.php:253-319 | the proof upload updates the sales table exactly as its specification says |
| VentaController.SubirComprobanteContrato | app/Http/Controllers/Api/VentaController.php:255-302 | the upload succeeds iff the request is valid, the sale exists and the URL is on Cloudinary; only that sale changes, its proof is a normalised Cloudinary URL, its status and lines are kept, and the operation code is kept unless filled |
| VentaController.CopiarALineasVenta | app/Http/Controllers/Api/VentaController.php:468-476 | copying the cart lines through DetalleVenta objects yields one sale line per cart line, with the same Σ quantity × price |
| VentaController.ImportesCopiados | app/Http/Controllers/Api/VentaController.php:468-476 | the copied sale lines have the same Σ quantity × price as the cart lines |
| VentaController.CopiasGuardadas | app/Models/DetalleVenta.php:52-54 | every copied sale line satisfies subtotal = quantity × unit price |
| VentaController.Store | app/Http/Controllers/Api/VentaController.php:381-513 | the web order creation updates the sales, counter and cart-line tables exactly as its specification says |
| VentaController.StoreExitoSii | app/Http/Controllers/Api/VentaController.php:384-443 | store succeeds iff the request is valid, the user has a client, the client's first cart has lines, and a filled proof is on Cloudinary; a refusal changes nothing |
| VentaController.StoreExito | app/Http/Controllers/Api/VentaController.php:422-478 | on success a new Pendiente "Web" sale with the next id holds one line per cart line, its total equals the cart total, that cart's lines are gone, other carts and all stock are untouched |
| VentaController.StorePreservaValida | app/Http/Controllers/Api/VentaController.php:381-513 | store keeps the database invariant |
| VentaController.SumarItems | app/Http/Controllers/Api/VentaController.php:548-551 | the subtotal loop computes Σ quantity × price of the items |
| VentaController.RegistrarItems | app/Http/Controllers/Api/VentaController.php:572-595 | the item loop records one sale line per item and debits stock as the debit function says, or rolls stock back on the first short item |
| VentaController.CrearVenta | app/Http/Controllers/Api/VentaController.php:518-632 | the point-of-sale creation updates the products, sales and counter exactly as its specification says |
| VentaController.SubtotalDeLineas | app/Http/Controllers/Api/VentaController.php:548-589 | the recorded lines' subtotals and Σ quantity × price both equal the request's subtotal |
| VentaController.CrearVentaExitoSii | app/Http/Controllers/Api/VentaController.php:524-595 | a point-of-sale sale succeeds iff the request is valid and the stock covers the items cumulatively in order |
| VentaController.CrearVentaFallo | app/Http/Controllers/Api/VentaController.php:536-581 | a refused sale fails with 422 or short stock and changes nothing but, after validation, the sale-id counter |
| VentaController.DebitarSoloFaltaStock | app/Http/Controllers/Api/VentaController.php:572-581 | when every item's product exists, the only way the item loop fails is short stock |
| VentaController.CrearVentaExito | app/Http/Controllers/Api/VentaController.php:548-595 | on success a new Completado sale with total = subtotal − discount; read back with its lines it shows that subtotal and discount; each product's stock drops by its quantity and stays non-negative |
| VentaController.CrearVentaPreservaValida | app/Http/Controllers/Api/VentaController.php:518-632 | point-of-sale creation keeps the database invariant |
| VentaModel.NumeroVentaRoundTrip | app/Models/Venta.php:43-46 | for ids below one million, the sale number is "V-" plus six digits that read back as the id |
| VentaModel.NumeroVentaInyectivo | app/Models/Venta.php:43-46 | two sales with the same number have the same id |
| VentaModel.Descuento | app/Models/Venta.php:73-82 | the discount is never negative, and positive only when the lines are loaded and their subtotals exceed the total |
| VentaModel.SubtotalMenosDescuento | app/Models/Venta.php:59-82 | with lines loaded whose subtotals reach the total, subtotal − discount = total |
| VentaModel.SinDetallesCargados | app/Models/Venta.php:59-82 | without loaded lines the subtotal is the total and the discount 0 |
| VentaModel.CalcularTotalGuardado | app/Models/Venta.php:167-170 | on saved lines the sale total is Σ quantity × price, and 0 with no lines |
| VentaModel.SumasGuardadas | app/Models/DetalleVenta.php:52-54 | on lines as the saving hook leaves them, Σ subtotal = Σ quantity × price |
| CarritoModel.TotalEsSumaDeImportes | app/Models/Carrito.php:52-55 | on saved lines the cart total is Σ quantity × price |
| CarritoModel.TotalConcat | app/Models/Carrito.php:52-63 | total and item count are additive over concatenation |
| CarritoModel.QuitarLinea | app/Models/Carrito.php:52-63 | removing a line lowers the total and item count by its subtotal and quantity |
| CarritoModel.ReemplazarLinea | app/Models/Carrito.php:52-63 | replacing a line changes the total and item count by the difference |
| CarritoModel.CarritoVacio | app/Models/Carrito.php:52-63 | an empty cart totals 0 with 0 items |
| Detalles.GuardarLineaCarrito | app/Models/DetalleCarrito.php:52-54 | the saved cart line has subtotal = quantity × unit price and differs from the input in nothing else |
| Detalles.GuardarLineaCarritoIdempotente | app/Models/DetalleCarrito.php:52-54 | saving a cart line twice is saving it once |
| Detalles.GuardarLineaVenta | app/Models/DetalleVenta.php:52-54 | the saved sale line has subtotal = quantity × unit price and differs from the input in nothing else |
| Detalles.GuardarLineaVentaIdempotente | app/Models/DetalleVenta.php:52-54 | saving a sale line twice is saving it once |
| Detalles.DetalleCarrito.Saving | app/Models/DetalleCarrito.php:48-55 | the hook overwrites the object's subtotal in place with quantity × unit price |
| Detalles.DetalleVenta.Saving | app/Models/DetalleVenta.php:48-55 | the hook overwrites the object's subtotal in place with quantity × unit price |
| ComprobanteModel.Prefijo | app/Models/Comprobante.php:41-46 | BOL, FAC, REC for Boleta, Factura, Recibo and COM for anything else |
| ComprobanteModel.UltimoDeTipo | app/Models/Comprobante.php:48-50 | the lookup finds the most recent receipt of the type, or none exactly when there is none |
| ComprobanteModel.PrimerComprobante | app/Models/Comprobante.php:52-54 | the first receipt of a type is PREFIX-000001 |
| ComprobanteModel.FormatoComprobante | app/Models/Comprobante.php:54 | below one million a number formats as prefix, dash and six digits that read back as the number |
| ComprobanteModel.Consecutivo | app/Models/Comprobante.php:48-54 | after PREFIX-n (n ≤ 999998) the next receipt is PREFIX-(n+1) |
| ComprobanteModel.LastSixReadBack | app/Models/Comprobante.php:52 | the last six characters of a formatted number read back as the number |
| ComprobanteModel.ContadoresIndependientes | app/Models/Comprobante.php:48-50 | registering a receipt of another type does not change a type's next number |
| ComprobanteModel.UltimoTrasRegistrar | app/Models/Comprobante.php:48-50 | the receipt just registered is the latest of its type |
| ComprobanteModel.NumeroRepetidoTrasElMillon | app/Models/Comprobante.php:52-54 | after BOL-1000000 the next Boleta is BOL-000001, the number the first Boleta got |
| ComprobanteModel.ConsecutivoCorregido | app/Models/Comprobante.php:48-54 | reading every digit after the dash, the next receipt after PREFIX-n is PREFIX-(n+1) for every n |
| ComprobanteModel.FormatoInyectivo | app/Models/Comprobante.php:54 | distinct numbers give distinct receipt numbers |
| CarritoController.CarritoActivoO | app/Http/Controllers/Api/CarritoController.php:84-92 | firstOrCreate yields an active cart of the client, appending a new one only when the client has no active cart |
| CarritoController.AgregarProducto | app/Http/Controllers/Api/CarritoController.php:55-139 | adding to the cart updates carts, lines and the line counter exactly as its specification says |
| CarritoController.AgregarSinStock | app/Http/Controllers/Api/CarritoController.php:71-79 | a quantity above the stock is refused with 400 and nothing changes |
| CarritoController.AgregarExitoSii | app/Http/Controllers/Api/CarritoController.php:57-109 | adding succeeds iff the product exists, quantity ≥ 1, the user has a client, and the stock covers the quantity and the line's new total; a refusal changes nothing; stock never changes |
| CarritoController.AgregarExistente | app/Http/Controllers/Api/CarritoController.php:99-113 | an existing line of the product grows by the quantity at its stored unit price; every other line is unchanged |
| CarritoController.AgregarNuevo | app/Http/Controllers/Api/CarritoController.php:114-122 | otherwise one new line at the product's price is appended, and the cart total rises by quantity × price and its item count by quantity |
| CarritoController.AgregarPreservaValida | app/Http/Controllers/Api/CarritoController.php:55-139 | adding keeps the database invariant |
| CarritoController.ActualizarCantidad | app/Http/Controllers/Api/CarritoController.php:144-182 | the quantity change updates the lines exactly as its specification says |
| CarritoController.ActualizarCantidadContrato | app/Http/Controllers/Api/CarritoController.php:146-172 | it succeeds iff quantity ≥ 1, the line exists and its product's stock covers the quantity; only that line changes, to the new quantity at its stored price; repeating it changes nothing |
| CarritoController.ActualizarCantidadTotal | app/Http/Controllers/Api/CarritoController.php:170-180 | the total moves from the old subtotal to quantity × stored price |
| CarritoController.ActualizarCantidadPreservaValida | app/Http/Controllers/Api/CarritoController.php:144-182 | the quantity change keeps the database invariant |
| CarritoController.EliminarProducto | app/Http/Controllers/Api/CarritoController.php:187-205 | removing a line updates the lines exactly as its specification says |
| CarritoController.EliminarProductoContrato | app/Http/Controllers/Api/CarritoController.php:189-196 | it succeeds iff the line exists; afterwards no line has that id and every other line is still there |
| CarritoController.EliminarProductoTotal | app/Http/Controllers/Api/CarritoController.php:195-203 | the cart's total and item count drop by the removed line's subtotal and quantity |
| CarritoController.EliminarProductoPreservaValida | app/Http/Controllers/Api/CarritoController.php:187-205 | removing keeps the database invariant |
| CarritoController.VaciarCarrito | app/Http/Controllers/Api/CarritoController.php:210-230 | emptying updates the lines exactly as its specification says |
| CarritoController.VaciarCarritoContrato | app/Http/Controllers/Api/CarritoController.php:212-228 | it succeeds iff the client has an active cart; that cart then has no lines (total 0, 0 items) and every other cart keeps its lines |
| CarritoController.VaciarCarritoPreservaValida | app/Http/Controllers/Api/CarritoController.php:210-230 | emptying keeps the database invariant |
| CarritoController.PrimeraSinStock | app/Http/Controllers/Api/CarritoController.php:268-276 | the stock check finds no failure exactly when every line's product covers that line's quantity |
| CarritoController.ComprobarStock | app/Http/Controllers/Api/CarritoController.php:268-276 | the check loop stops at the first uncovered line and passes iff every line is covered |
| CarritoController.TotalCarrito | app/Http/Controllers/Api/CarritoController.php:279-281 | the total loop computes Σ unit price × quantity of the cart's lines |
| CarritoController.CrearVentaDesdeCarrito | app/Http/Controllers/Api/CarritoController.php:235-363 | the checkout updates sales, counter, lines and carts exactly as its specification says |
| CarritoController.CheckoutExitoSii | app/Http/Controllers/Api/CarritoController.php:237-305 | the checkout succeeds iff the payment method and lengths are valid, the user has a client with a non-empty active cart, every line is covered, and a filled proof is on Cloudinary; a refusal changes nothing |
| CarritoController.CheckoutExito | app/Http/Controllers/Api/CarritoController.php:279-338 | on success a new Pendiente sale mirrors the cart lines with total = cart total, the cart becomes Convertido with no lines, other carts keep theirs, and stock is untouched |
| CarritoController.CheckoutPreservaValida | app/Http/Controllers/Api/CarritoController.php:235-363 | the checkout keeps the database invariant |
| InventarioController.ActualizarStock | app/Http/Controllers/Api/InventarioController.php:119-165 | the stock movement updates the product exactly as its specification says |
| InventarioController.ActualizarStockContrato | app/Http/Controllers/Api/InventarioController.php:121-164 | it succeeds iff the request is valid, the product exists and an exit does not exceed the stock (else 400, nothing changes); only that product's stock changes; diferencia = new − old, = cantidad for an entry, = −cantidad for an exit leaving stock ≥ 0; an adjustment sets stock to cantidad |
| InventarioController.EntradaLuegoSalida | app/Http/Controllers/Api/InventarioController.php:140-150 | from non-negative stock, an entry then an exit of the same quantity both succeed and restore the tables |
| InventarioController.SalidaLuegoEntrada | app/Http/Controllers/Api/InventarioController.php:140-150 | an entry of the same quantity undoes a successful exit |
| InventarioController.ActualizarStockPreservaValida | app/Http/Controllers/Api/InventarioController.php:119-165 | the movement keeps the database invariant |
| InventarioController.BandasParticion | app/Http/Controllers/Api/InventarioController.php:48-56 | with a minimum ≥ 0 every stock level is in exactly one of the bands critico, bajo, normal, exceso |
| InventarioController.FiltroDeEstado | app/Http/Controllers/Api/InventarioController.php:46-56 | each of the four filter words selects its band, and any other word selects none |
| InventarioController.FiltrarInventario | app/Http/Controllers/Api/InventarioController.php:31-56 | the listing holds exactly the active products, narrowed to the named band when the filter names one |
| InventarioController.ResumenParticion | app/Http/Controllers/Api/InventarioController.php:264-284 | with no negative minimum the four band counts of the summary add up to the number of active products |
| InventarioController.SinStockEsCritico | app/Http/Controllers/Api/InventarioController.php:270-288 | with no negative minimum every product without stock is also counted as critical |
| InventarioController.AlertasStockBajo | app/Http/Controllers/Api/InventarioController.php:170-197 | every alert reports diferencia = minimum − stock ≥ 0 and level 'crítico' exactly when the stock is 0, otherwise 'bajo' |
| InventarioController.AlertasExactas | app/Http/Controllers/Api/InventarioController.php:172-197 | the alerts are exactly those of the rows that are active with stock ≤ minimum |
| InventarioController.AlertasEnOrden | app/Http/Controllers/Api/InventarioController.php:184 | rows in ascending stock order give alerts in ascending stock order |
| InventarioController.AlertasDeTabla | app/Http/Controllers/Api/InventarioController.php:172-197 | over the whole table there is an alert for every active product at or below its minimum, and only for those |
| ProductoController.Destroy | app/Http/Controllers/Api/ProductoController.php:367-397 | the delete updates products, inventory and cart lines exactly as its specification says |
| ProductoController.DestroyContrato | app/Http/Controllers/Api/ProductoController.php:369-383 | a missing product gives 404 and a product with stock > 0 gives 400, both changing nothing (the product still exists); with sales history the product is only set Inactivo and nothing else changes |
| ProductoController.DestroyEliminado | app/Http/Controllers/Api/ProductoController.php:385-389 | a deleted product leaves no product row, no inventory row and no cart line; other products, sales and carts are unchanged |
| ProductoController.SinLineasDeProductoSubsecuencia | database/migrations/2025_11_05_003847_create_detalle_carritos_table.php:25-28 | the cascade removes exactly the product's cart lines and keeps the rest in order |
| ProductoController.DestroyPreservaValida | app/Http/Controllers/Api/ProductoController.php:367-397 | the delete keeps the database invariant |
| Estadisticas.NormalizarEstado | app/Http/Controllers/Api/EstadisticasController.php:302-315 | the label is cancelada iff Cancelado, completada iff Entregado or Completado, and pendiente for the other four statuses and any unknown one |
| Estadisticas.EtiquetaNoRetrocede | app/Http/Controllers/Api/EstadisticasController.php:304-312 | no accepted transition moves a completed or cancelled sale to another label |
| Estadisticas.EtiquetasAlcanzables | app/Http/Controllers/Api/EstadisticasController.php:304-312 | every known pending-labelled status may be cancelled, which labels it cancelada |
| Estadisticas.SeveridadEntera | app/Http/Controllers/Api/EstadisticasController.php:238-248 | the severity is critico iff minimum ≤ 0 or 2 × stock ≤ minimum, otherwise bajo |
| Estadisticas.SeveridadSegunBanda | app/Http/Controllers/Api/EstadisticasController.php:231-248 | for listed rows (stock ≤ minimum, minimum ≥ 0) critico is the inventory's critical band and bajo its low band |
| Estadisticas.AlertasDashboard | app/Http/Controllers/Api/EstadisticasController.php:231-250 | the list respects the limit, and each entry has stock ≤ minimum and the severity of its stock |
| Estadisticas.DashboardEsPrefijo | app/Http/Controllers/Api/EstadisticasController.php:231-235 | the dashboard list is the first five of the inventory's low-stock alerts, product for product |
| CheckRole.Handle | app/Http/Middleware/CheckRole.php:16-35 | no user gives 401, a role outside the list gives 403, and otherwise the next handler's response is returned unchanged |
| CheckRole.SoloImportaElConjunto | app/Http/Middleware/CheckRole.php:27 | the decision depends only on which roles are listed, not on their order or repetition |
| CheckRole.MasRolesNoRestringen | app/Http/Middleware/CheckRole.php:27-34 | adding roles to a route never refuses a user it admitted |

## Left out

- Persistence, transactions and row locking are not modelled. Each action is one atomic step on the tables, so concurrent requests and their interleavings are out of scope.
- JSON shaping of responses, messages and logging are not modelled.
- The response body is reduced to a success value or a `Falla` with its HTTP code.
- Only the stock-check messages' product and available amount are kept.
- Timestamps are a string parameter; `fecha_venta` and `created_at` are not stored.
- The framework's input normalisation (trimming strings, empty strings as null) is not modelled. Request fields are taken as they reach the controller, and `filled` is modelled on them.
- Validation of a request is reduced to the rules the actions depend on: required fields, `in:` lists, `min`, and `max` lengths in characters.
- Numeric request values are integers (cents, units); decimal or exponent strings are not modelled.
- CheckRole.Handle: role membership is strict equality; PHP's loose `in_array` comparison between a string role and non-string list entries is not modelled.
- Estadisticas.Severidad: the percentage is computed on exact reals. PHP floating point could round differently only for minimums beyond 2^52.
- VentaController.CrearVentaSpec: a request that passes validation but fails on stock still advances the sale-id counter, because the auto-increment is not rolled back. No other effect of the rolled-back insert is kept.
- The stored `subtotal`, `descuento` and `numero_venta` columns are not kept on the sale. The model derives them through the `Venta` accessors.
- InventarioController.AlertasStockBajo and Estadisticas.AlertasDashboard take the rows in the order the database returns them, so the `ORDER BY` itself is not modelled. AlertasEnOrden states what follows when that order is ascending stock.
- The inventory listing's text search, category filter, sorting and pagination are not modelled, and neither are the summary's constant movement counts.
- The stock minimum is assumed non-negative, which the `min:0` rule of the stock-minimum update keeps. For a negative minimum the bands overlap, and the partition lemmas require the minimum to be ≥ 0.
- Product images, Cloudinary uploads and the remaining controllers (clients, suppliers, reports, authentication) are not part of this model.

## Findings

| source | as written | input that shows it | evidently intended | confidence | as-written member | corrected member |
|---|---|---|---|---|---|---|
| app/Models/Comprobante.php:52 | the next number is read from the last six characters of the latest receipt number | after receipt BOL-1000000 the next Boleta is BOL-000001, a number already issued | keep counting: BOL-1000001 | not executed | ComprobanteModel.NumeroRepetidoTrasElMillon | ComprobanteModel.ConsecutivoCorregido |
