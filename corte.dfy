/** The daily cash closing screen (src/components/CorteView.js): today's sales
    split by status, their revenue, the units sold, the average ticket and the
    success rate, and the one-way closing of the till. */
module Corte {
  import opened Seqs
  import opened Domain
  import opened Fecha
  import opened DailySales
  import opened Historial

  // ---------------------------------------------------------------------
  // The figures of the day (lines 30-50, 239, 245)

  /** `totalProductosVendidos`: the units of today's completed sales only. */
  function ProductosVendidos(ventas: seq<Sale>, hoy: Day): (n: int)
    ensures NonNegativeLines(ventas) ==> 0 <= n <= Unidades(VentasDelDia(ventas, hoy))
  {
    var delDia := VentasDelDia(ventas, hoy);
    if NonNegativeLines(ventas) then
      DayKeepsNonNegativeLines(ventas, hoy);
      UnitsAtLeastCompleted(delDia);
      FilterKeepsNonNegativeLines(delDia, IsCompletada);
      Unidades(Completadas(delDia))
    else
      Unidades(Completadas(delDia))
  }

  /** The average ticket: revenue over the number of sales, 0 without sales. */
  function PromedioPorVenta(total: int, cantidad: int): (r: real)
    ensures cantidad > 0 ==> r * cantidad as real == total as real
    ensures cantidad <= 0 ==> r == 0.0
    ensures cantidad > 0 && total >= 0 ==> r >= 0.0
  {
    if cantidad > 0 then total as real / cantidad as real else 0.0
  }

  /** The success rate in percent: completed sales over all of today's, 0
      when there are none. */
  function TasaDeExito(completadas: int, delDia: int): (r: real)
    ensures delDia > 0 ==> r * delDia as real == completadas as real * 100.0
    ensures delDia <= 0 ==> r == 0.0
    ensures 0 <= completadas <= delDia ==> 0.0 <= r <= 100.0
  {
    if delDia > 0 then completadas as real / delDia as real * 100.0 else 0.0
  }

  /** The rate shown for the day is a percentage, and it is 100 exactly when
      every sale of the day is completed (and there is at least one). */
  lemma TasaDelDia(ventas: seq<Sale>, hoy: Day)
    ensures var delDia := VentasDelDia(ventas, hoy);
      0.0 <= TasaDeExito(|Completadas(delDia)|, |delDia|) <= 100.0
    ensures var delDia := VentasDelDia(ventas, hoy);
      TasaDeExito(|Completadas(delDia)|, |delDia|) == 100.0 <==>
        |delDia| > 0 && forall k :: 0 <= k < |delDia| ==> delDia[k].estado == Completada
  {
    var delDia := VentasDelDia(ventas, hoy);
    var c := Completadas(delDia);
    StatusPartition(delDia);
    TasaCompleta(|c|, |delDia|);
    if |delDia| > 0 && forall k :: 0 <= k < |delDia| ==> delDia[k].estado == Completada {
      FilterAll(delDia, IsCompletada);
    }
    if |c| == |delDia| {
      AllKeptWhenFull(delDia, IsCompletada);
    }
  }

  /** The rate is 100 exactly when every sale of a non-empty day is completed. */
  lemma TasaCompleta(completadas: int, delDia: int)
    requires 0 <= completadas <= delDia
    ensures TasaDeExito(completadas, delDia) == 100.0 <==> delDia > 0 && completadas == delDia
  {
    if delDia > 0 && TasaDeExito(completadas, delDia) == 100.0 {
      assert 100.0 * delDia as real == completadas as real * 100.0;
    }
  }

  /** A filter that keeps as many elements as there are keeps them all. */
  lemma {:induction false} AllKeptWhenFull<T>(xs: seq<T>, p: T -> bool)
    requires |Filter(xs, p)| == |xs|
    ensures forall k :: 0 <= k < |xs| ==> p(xs[k])
  {
    if xs != [] {
      var tail := xs[1..];
      assert |Filter(tail, p)| <= |tail|;
      AllKeptWhenFull(tail, p);
      forall k | 0 <= k < |xs| ensures p(xs[k]) {
        if k > 0 { assert xs[k] == tail[k - 1]; }
      }
    }
  }

  // ---------------------------------------------------------------------
  // The closing record (lines 80-86)

  datatype CierreData = CierreData(
    responsable: string,
    ventasCompletadas: nat,
    ventasCanceladas: nat,
    totalIngresos: int,
    productosVendidos: int)

  function CierreDe(responsable: string, ventas: seq<Sale>, hoy: Day): (c: CierreData)
    ensures c.responsable == responsable
    ensures c.ventasCompletadas == |Completadas(VentasDelDia(ventas, hoy))|
    ensures c.ventasCanceladas == |Canceladas(VentasDelDia(ventas, hoy))|
    ensures c.ventasCompletadas + c.ventasCanceladas <= |VentasDelDia(ventas, hoy)|
    ensures c.totalIngresos == SumaTotales(Completadas(VentasDelDia(ventas, hoy)))
    ensures c.productosVendidos == Unidades(Completadas(VentasDelDia(ventas, hoy)))
  {
    var delDia := VentasDelDia(ventas, hoy);
    StatusPartition(delDia);
    CierreData(
      responsable,
      |Completadas(delDia)|,
      |Canceladas(delDia)|,
      SumaTotales(Completadas(delDia)),
      ProductosVendidos(ventas, hoy))
  }

  /** The average shown on the closing screen is taken over today's
      completed sales: it is the day's completed revenue over their number
      (so, by `PromedioPorVenta`, times that number it gives the revenue
      back), 0 with none, and never negative when no total is. */
  lemma PromedioDelCierre(responsable: string, ventas: seq<Sale>, hoy: Day)
    ensures var c := CierreDe(responsable, ventas, hoy);
      var avg := PromedioPorVenta(c.totalIngresos, c.ventasCompletadas);
      var completadas := Completadas(VentasDelDia(ventas, hoy));
      avg == PromedioPorVenta(SumaTotales(completadas), |completadas|) &&
      (c.ventasCompletadas == 0 ==> avg == 0.0) &&
      ((forall k :: 0 <= k < |ventas| ==> TotalOrZero(ventas[k]) >= 0) ==> avg >= 0.0)
  {
    CompletedOfDayNonNegative(ventas, hoy);
  }

  /** The completed sales of a day carry non-negative totals when every sale does. */
  lemma CompletedOfDayNonNegative(ventas: seq<Sale>, hoy: Day)
    ensures (forall k :: 0 <= k < |ventas| ==> TotalOrZero(ventas[k]) >= 0) ==>
              SumaTotales(Completadas(VentasDelDia(ventas, hoy))) >= 0
  {
    if forall k :: 0 <= k < |ventas| ==> TotalOrZero(ventas[k]) >= 0 {
      var c := Completadas(VentasDelDia(ventas, hoy));
      forall k | 0 <= k < |c| ensures TotalOrZero(c[k]) >= 0 {
        assert c[k] in VentasDelDia(ventas, hoy);
        assert c[k] in ventas;
      }
    }
  }

  /** The closing record agrees with the history screen filtered to the same
      day on the counts and on the net income, while its units leave the
      cancelled sales out and so are at most the history's. */
  lemma CierreMatchesHistorial(responsable: string, ventas: seq<Sale>, hoy: Day)
    requires ValidDay(hoy) && ValidDates(ventas) && NonNegativeLines(ventas)
    ensures var c := CierreDe(responsable, ventas, hoy);
      var t := CalcularTotales(FilterByDate(ventas, FormatDate(hoy)));
      c.ventasCompletadas == t.cantidadCompletadas &&
      c.ventasCanceladas == t.cantidadCanceladas &&
      c.totalIngresos == t.ingresosNetos &&
      c.productosVendidos <= t.cantidadVendida
  {
    FilterByDayString(ventas, hoy);
    var delDia := VentasDelDia(ventas, hoy);
    DayKeepsNonNegativeLines(ventas, hoy);
    UnitsAtLeastCompleted(delDia);
  }

  lemma DayKeepsNonNegativeLines(ventas: seq<Sale>, hoy: Day)
    requires NonNegativeLines(ventas)
    ensures NonNegativeLines(VentasDelDia(ventas, hoy))
  {
    var delDia := VentasDelDia(ventas, hoy);
    forall k | 0 <= k < |delDia| ensures SaleUnits(delDia[k]) >= 0 {
      assert delDia[k] in ventas;
    }
  }

  /** A cancelled sale of the day that sold something makes the history's
      units strictly larger than the closing record's. */
  lemma CancelledUnitsOnlyInHistorial(responsable: string, ventas: seq<Sale>, hoy: Day, k: int)
    requires ValidDay(hoy) && ValidDates(ventas) && NonNegativeLines(ventas)
    requires 0 <= k < |ventas| && ventas[k].fecha == hoy && ventas[k].estado == Cancelada
    requires SaleUnits(ventas[k]) > 0
    ensures CierreDe(responsable, ventas, hoy).productosVendidos <
            CalcularTotales(FilterByDate(ventas, FormatDate(hoy))).cantidadVendida
  {
    FilterByDayString(ventas, hoy);
    var delDia := VentasDelDia(ventas, hoy);
    var otras := Filter(delDia, NotCompletada);
    assert Unidades(otras) > 0 by {
      DayKeepsNonNegativeLines(ventas, hoy);
      assert ventas[k] in delDia;
      var i :| 0 <= i < |delDia| && delDia[i] == ventas[k];
      assert NotCompletada(delDia[i]);
      assert ventas[k] in otras;
      var j :| 0 <= j < |otras| && otras[j] == ventas[k];
      FilterKeepsNonNegativeLines(delDia, NotCompletada);
      assert Unidades(otras) >= SaleUnits(otras[j]);
    }
    assert CierreDe(responsable, ventas, hoy).productosVendidos == Unidades(Completadas(delDia));
    assert CalcularTotales(delDia).cantidadVendida == Unidades(Completadas(delDia)) + Unidades(otras);
  }

  // ---------------------------------------------------------------------
  // The view's state and handlers

  /** The day summary the closing API returns; only whether the day is
      already closed matters to this screen. */
  datatype ResumenDia = ResumenDia(corteYaRealizado: bool)

  datatype CierreOutcome =
    | YaCerrada
    | Abandonada
    | Fallida(enviado: CierreData)
    | Cerrada(enviado: CierreData)

  class CorteView {
    const responsable: string
    const ventas: seq<Sale>
    const hoy: Day
    var corteRealizado: bool
    var resumenDia: Option<ResumenDia>

    constructor (responsable: string, ventas: seq<Sale>, hoy: Day)
      ensures this.responsable == responsable && this.ventas == ventas && this.hoy == hoy
      ensures !corteRealizado && resumenDia == None
    {
      this.responsable := responsable;
      this.ventas := ventas;
      this.hoy := hoy;
      corteRealizado := false;
      resumenDia := None;
    }

    /** `cargarResumenDelDia()`: the server's summary, when it answers with
        success, sets both the summary and the closed flag. */
    method CargarResumenDelDia(response: ApiResponse<ResumenDia>)
      modifies this`resumenDia, this`corteRealizado
      ensures response.Saved? ==> resumenDia == Some(response.item) &&
                                  corteRealizado == response.item.corteYaRealizado
      ensures !response.Saved? ==> resumenDia == old(resumenDia) && corteRealizado == old(corteRealizado)
    {
      if response.Saved? {
        resumenDia := Some(response.item);
        corteRealizado := response.item.corteYaRealizado;
      }
    }

    /** `cerrarCaja()`.  `continuar` answers the warning shown when there are
        no sales today, `confirmacion` the final confirmation, `creado` is
        whether the closing API answered with success, and `recarga` the
        summary reloaded after it. */
    method CerrarCaja(continuar: bool, confirmacion: bool, creado: bool, recarga: ApiResponse<ResumenDia>)
      returns (outcome: CierreOutcome)
      modifies this`resumenDia, this`corteRealizado
      ensures old(corteRealizado) ==> outcome == YaCerrada
      ensures old(corteRealizado) ==> corteRealizado
      ensures outcome.YaCerrada? || outcome.Abandonada? || outcome.Fallida? ==>
                corteRealizado == old(corteRealizado) && resumenDia == old(resumenDia)
      ensures outcome.Fallida? || outcome.Cerrada? <==>
                !old(corteRealizado) && (|VentasDelDia(ventas, hoy)| > 0 || continuar) && confirmacion
      ensures outcome.Fallida? || outcome.Cerrada? ==> outcome.enviado == CierreDe(responsable, ventas, hoy)
      ensures outcome.Cerrada? <==> (outcome.Fallida? || outcome.Cerrada?) && creado
      ensures outcome.Cerrada? ==>
                (recarga.Saved? ==> corteRealizado == recarga.item.corteYaRealizado &&
                                    resumenDia == Some(recarga.item)) &&
                (!recarga.Saved? ==> corteRealizado && resumenDia == old(resumenDia))
    {
      if corteRealizado {
        return YaCerrada;
      }
      if |VentasDelDia(ventas, hoy)| == 0 && !continuar {
        return Abandonada;
      }
      if !confirmacion {
        return Abandonada;
      }
      var cierre := CierreDe(responsable, ventas, hoy);
      if !creado {
        return Fallida(cierre);
      }
      corteRealizado := true;
      CargarResumenDelDia(recarga);
      outcome := Cerrada(cierre);
    }
  }
}
