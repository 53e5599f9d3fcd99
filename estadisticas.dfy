/**
 * Two rules of the statistics controller: the three-label status the
 * dashboard shows for a sale, and the severity of a low-stock alert on the
 * dashboard.
 */
module Estadisticas {
  import opened Common
  import opened Entities
  import opened VentaReglas
  import opened InventarioController

  const ETIQUETA_PENDIENTE: string := "pendiente"
  const ETIQUETA_COMPLETADA: string := "completada"
  const ETIQUETA_CANCELADA: string := "cancelada"

  /** `normalizarEstado`: the dashboard label of a sale status; unknown statuses read as pending. */
  function NormalizarEstado(estado: string): (r: string)
    ensures r == ETIQUETA_PENDIENTE || r == ETIQUETA_COMPLETADA || r == ETIQUETA_CANCELADA
    ensures r == ETIQUETA_CANCELADA <==> estado == CANCELADO
    ensures r == ETIQUETA_COMPLETADA <==> estado == ENTREGADO || estado == COMPLETADO
    ensures r == ETIQUETA_PENDIENTE <==>
      estado == PENDIENTE || estado == CONFIRMADO || estado == EN_PROCESO || estado == ENVIADO
      || !EsEstadoConocido(estado)
  {
    if estado == ENTREGADO || estado == COMPLETADO then ETIQUETA_COMPLETADA
    else if estado == CANCELADO then ETIQUETA_CANCELADA
    else ETIQUETA_PENDIENTE
  }

  /**
   * Along the transition table a sale never returns to the pending label:
   * once completed or cancelled, every accepted transition keeps the label.
   */
  lemma EtiquetaNoRetrocede(actual: string, nuevo: string)
    requires ValidarTransicionEstado(actual, nuevo)
    requires NormalizarEstado(actual) != ETIQUETA_PENDIENTE
    ensures NormalizarEstado(nuevo) == NormalizarEstado(actual)
  {
  }

  /** A pending-labelled sale can reach both other labels, through the table. */
  lemma EtiquetasAlcanzables(actual: string)
    requires EsEstadoConocido(actual) && NormalizarEstado(actual) == ETIQUETA_PENDIENTE
    ensures ValidarTransicionEstado(actual, CANCELADO)
    ensures NormalizarEstado(CANCELADO) == ETIQUETA_CANCELADA
  {
  }

  // ---------------------------------------------------------------------
  // Dashboard alert severity

  const SEVERIDAD_CRITICO: string := "critico"
  const SEVERIDAD_BAJO: string := "bajo"

  /** The stock as a percentage of the minimum, or 0 when the minimum is not positive. */
  function Porcentaje(s: int, m: int): real {
    if m > 0 then (s as real / m as real) * 100.0 else 0.0
  }

  /** `alertasStockDashboard`'s `estado`: critical at 50% of the minimum or below. */
  function Severidad(s: int, m: int): string {
    if Porcentaje(s, m) <= 50.0 then SEVERIDAD_CRITICO else SEVERIDAD_BAJO
  }

  /** Multiplying both sides by a positive number keeps an inequality. */
  lemma EscalarDesigualdad(a: real, b: real, c: real)
    requires c > 0.0
    ensures a <= b <==> a * c <= b * c
  {
  }

  /** The percentage rule in integers: critical exactly when the minimum is not positive or twice the stock is at most the minimum. */
  lemma SeveridadEntera(s: int, m: int)
    ensures Severidad(s, m) == SEVERIDAD_CRITICO <==> m <= 0 || 2 * s <= m
    ensures Severidad(s, m) == SEVERIDAD_CRITICO || Severidad(s, m) == SEVERIDAD_BAJO
  {
    if m > 0 {
      var sr, mr := s as real, m as real;
      var x := sr / mr;
      assert x * mr == sr;
      EscalarDesigualdad(x * 100.0, 50.0, mr);
      assert (x * 100.0) * mr == 100.0 * (x * mr);
      assert Porcentaje(s, m) <= 50.0 <==> 100.0 * sr <= 50.0 * mr;
    }
  }

  /**
   * For the rows the dashboard lists (active, stock at or below a
   * non-negative minimum) the severity agrees with the inventory's bands:
   * critical in the critical band, low in the low band.
   */
  lemma SeveridadSegunBanda(s: int, m: int)
    requires 0 <= m && s <= m
    ensures Severidad(s, m) == SEVERIDAD_CRITICO <==> EnBanda(s, m, Critico)
    ensures Severidad(s, m) == SEVERIDAD_BAJO <==> EnBanda(s, m, Bajo)
  {
    SeveridadEntera(s, m);
  }

  /** One entry of the dashboard's alert list. */
  datatype AlertaDashboard = AlertaDashboard(productoId: ProductoId, stock: int, stockMinimo: int, estado: string)

  /**
   * `alertasStockDashboard` over the product rows in the order the database
   * returns them: the first five active products at or below their minimum.
   */
  function AlertasDashboard(filas: seq<(ProductoId, Producto)>, cupo: nat): (r: seq<AlertaDashboard>)
    ensures |r| <= cupo && |r| <= |filas|
    ensures forall a :: a in r ==> a.stock <= a.stockMinimo && a.estado == Severidad(a.stock, a.stockMinimo)
  {
    if filas == [] || cupo == 0 then []
    else
      var p := filas[0].1;
      if EnAlerta(p) then
        [AlertaDashboard(filas[0].0, p.stock, p.stockMinimo, Severidad(p.stock, p.stockMinimo))]
        + AlertasDashboard(filas[1..], cupo - 1)
      else AlertasDashboard(filas[1..], cupo)
  }

  /** The dashboard's limit of five alerts. */
  function AlertasStockDashboard(filas: seq<(ProductoId, Producto)>): (r: seq<AlertaDashboard>)
    ensures |r| <= 5
  {
    AlertasDashboard(filas, 5)
  }

  /** The dashboard list is a prefix of the inventory's alert list, product for product. */
  lemma {:induction false} DashboardEsPrefijo(filas: seq<(ProductoId, Producto)>, cupo: nat)
    ensures var r := AlertasDashboard(filas, cupo);
      var q := AlertasStockBajo(filas);
      |r| <= |q| && (forall i :: 0 <= i < |r| ==> r[i].productoId == q[i].productoId && r[i].stock == q[i].stockActual)
    ensures |AlertasDashboard(filas, cupo)| == if |AlertasStockBajo(filas)| < cupo then |AlertasStockBajo(filas)| else cupo
  {
    if filas != [] && cupo != 0 {
      if EnAlerta(filas[0].1) {
        DashboardEsPrefijo(filas[1..], cupo - 1);
      } else {
        DashboardEsPrefijo(filas[1..], cupo);
      }
    }
  }
}
