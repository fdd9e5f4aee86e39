/** The dashboard (src/components/Dashboard.js): the products at or below
    their minimum stock, the number of products in stock, and today's sales
    split by status with their revenue. */
module Dashboard {
  import opened Seqs
  import opened Domain
  import opened DailySales
  import opened Corte

  /** `p.stock <= p.stockMinimo` */
  function IsLowStock(p: Product): bool {
    p.stock <= p.stockMinimo
  }

  function InStock(p: Product): bool {
    p.stock > 0
  }

  function OutOfStock(p: Product): bool {
    p.stock <= 0
  }

  function AnyProduct(p: Product): bool {
    true
  }

  /** `productosStockBajo`: the products at or below their minimum, every one
      of them, in catalog order. */
  function ProductosStockBajo(productos: seq<Product>): (r: seq<Product>)
    ensures forall p | p in r :: p in productos && p.stock <= p.stockMinimo
    ensures forall k :: 0 <= k < |productos| && productos[k].stock <= productos[k].stockMinimo ==> productos[k] in r
    ensures forall k :: 0 <= k < |productos| && productos[k].stock == 0 && productos[k].stockMinimo >= 0 ==>
              productos[k] in r
  {
    Filter(productos, IsLowStock)
  }

  /** The list keeps catalog order: the low-stock products of a catalog
      made of two parts are those of the first part, then those of the second. */
  lemma StockBajoKeepsOrder(xs: seq<Product>, ys: seq<Product>)
    ensures ProductosStockBajo(xs + ys) == ProductosStockBajo(xs) + ProductosStockBajo(ys)
  {
    FilterConcat(xs, ys, IsLowStock);
  }

  /** `productos.filter(p => p.stock > 0).length` */
  function EnStock(productos: seq<Product>): (n: nat)
    ensures n <= |productos|
    ensures n == 0 <==> forall k :: 0 <= k < |productos| ==> productos[k].stock <= 0
  {
    NoneInStockIff(productos);
    |Filter(productos, InStock)|
  }

  /** Adding a product to the catalog adds one to the count exactly when it
      has stock. */
  lemma EnStockAppend(xs: seq<Product>, p: Product)
    ensures EnStock(xs + [p]) == EnStock(xs) + (if p.stock > 0 then 1 else 0)
  {
    FilterConcat(xs, [p], InStock);
    assert Filter([p], InStock) == if InStock(p) then [p] else [];
  }

  lemma NoneInStockIff(productos: seq<Product>)
    ensures |Filter(productos, InStock)| == 0 <==> forall k :: 0 <= k < |productos| ==> productos[k].stock <= 0
  {
    if forall k :: 0 <= k < |productos| ==> productos[k].stock <= 0 {
      FilterNone(productos, InStock);
    } else {
      var k :| 0 <= k < |productos| && productos[k].stock > 0;
      assert productos[k] in Filter(productos, InStock);
    }
  }

  /** The products in stock and those out of stock together make up the
      catalog card's count. */
  lemma EnStockPlusAgotados(productos: seq<Product>)
    ensures EnStock(productos) + |Filter(productos, OutOfStock)| == |productos|
  {
    DisjointFilters(productos, InStock, OutOfStock, AnyProduct, (p: Product) => 0);
    FilterAll(productos, AnyProduct);
  }

  /** The figures of today's sales the dashboard shows. */
  datatype EstadisticasDia = EstadisticasDia(
    ventasHoy: nat,
    ventasCompletadas: nat,
    ventasCanceladas: nat,
    ingresosTotales: int,
    ingresosCancelados: int)

  function EstadisticasDe(ventas: seq<Sale>, hoy: Day): (e: EstadisticasDia)
    ensures e.ventasHoy == |VentasDelDia(ventas, hoy)|
    ensures e.ventasCompletadas == |Completadas(VentasDelDia(ventas, hoy))|
    ensures e.ventasCanceladas == |Canceladas(VentasDelDia(ventas, hoy))|
    ensures e.ventasCompletadas + e.ventasCanceladas <= e.ventasHoy
    ensures e.ingresosTotales == SumaTotales(Completadas(VentasDelDia(ventas, hoy)))
    ensures e.ingresosCancelados == SumaTotales(Canceladas(VentasDelDia(ventas, hoy)))
    ensures e.ingresosTotales + e.ingresosCancelados ==
              SumaTotales(Filter(VentasDelDia(ventas, hoy), IsCompletadaOCancelada))
  {
    var delDia := VentasDelDia(ventas, hoy);
    StatusPartition(delDia);
    EstadisticasDia(
      |delDia|,
      |Completadas(delDia)|,
      |Canceladas(delDia)|,
      SumaTotales(Completadas(delDia)),
      SumaTotales(Canceladas(delDia)))
  }

  /** The "Ventas Hoy" card (line 73) counts the completed sales of the day
      only: it is below the day's number of sales exactly when one of them is
      not completed. */
  function VentasHoyCard(ventas: seq<Sale>, hoy: Day): (n: nat)
    ensures n <= |VentasDelDia(ventas, hoy)|
    ensures n < |VentasDelDia(ventas, hoy)| <==>
              exists k :: 0 <= k < |VentasDelDia(ventas, hoy)| && !IsCompletada(VentasDelDia(ventas, hoy)[k])
  {
    CompletedCountFull(VentasDelDia(ventas, hoy));
    EstadisticasDe(ventas, hoy).ventasCompletadas
  }

  /** The completed sales are all the sales exactly when every sale is completed. */
  lemma CompletedCountFull(ventas: seq<Sale>)
    ensures |Completadas(ventas)| <= |ventas|
    ensures |Completadas(ventas)| == |ventas| <==> forall k :: 0 <= k < |ventas| ==> IsCompletada(ventas[k])
  {
    if |Completadas(ventas)| == |ventas| {
      AllKeptWhenFull(ventas, IsCompletada);
    }
    if forall k :: 0 <= k < |ventas| ==> IsCompletada(ventas[k]) {
      FilterAll(ventas, IsCompletada);
    }
  }

  /** The day's total (line 193): the revenue of the day's completed sales,
      which is never negative when no total is. */
  function TotalDelDia(ventas: seq<Sale>, hoy: Day): (r: int)
    ensures r == SumaTotales(Completadas(VentasDelDia(ventas, hoy)))
    ensures (forall k :: 0 <= k < |ventas| ==> TotalOrZero(ventas[k]) >= 0) ==> r >= 0
  {
    CompletedOfDayNonNegative(ventas, hoy);
    EstadisticasDe(ventas, hoy).ingresosTotales
  }

  /** The dashboard and the closing screen show the same completed count
      and the same revenue for the day; a cancelled sale changes neither. */
  lemma DashboardMatchesCierre(responsable: string, ventas: seq<Sale>, hoy: Day)
    ensures var c := CierreDe(responsable, ventas, hoy);
      VentasHoyCard(ventas, hoy) == c.ventasCompletadas && TotalDelDia(ventas, hoy) == c.totalIngresos &&
      EstadisticasDe(ventas, hoy).ventasCanceladas == c.ventasCanceladas
  {
  }

  /** Cancelling a completed sale of today takes exactly its total out of the
      day's total. */
  lemma {:induction false} CancelledLeavesTotal(ventas: seq<Sale>, hoy: Day, k: int)
    requires 0 <= k < |ventas| && ventas[k].fecha == hoy && ventas[k].estado == Completada
    ensures TotalDelDia(ventas, hoy) ==
            TotalDelDia(ventas[k := ventas[k].(estado := Cancelada)], hoy) + TotalOrZero(ventas[k])
  {
    var cancelada := ventas[k].(estado := Cancelada);
    var antes := ventas[..k];
    var despues := ventas[k + 1..];
    assert ventas == antes + [ventas[k]] + despues;
    assert ventas[k := cancelada] == antes + [cancelada] + despues;
    CompletedRevenueConcat(antes, [ventas[k]], despues, hoy);
    CompletedRevenueConcat(antes, [cancelada], despues, hoy);
  }

  /** The day's revenue over a list made of three parts is the sum of the
      parts' revenues. */
  lemma CompletedRevenueConcat(a: seq<Sale>, b: seq<Sale>, c: seq<Sale>, hoy: Day)
    ensures TotalDelDia(a + b + c, hoy) == TotalDelDia(a, hoy) + TotalDelDia(b, hoy) + TotalDelDia(c, hoy)
  {
    var day := (v: Sale) => v.fecha == hoy;
    FilterConcat(a + b, c, day);
    FilterConcat(a, b, day);
    var da := VentasDelDia(a, hoy);
    var db := VentasDelDia(b, hoy);
    var dc := VentasDelDia(c, hoy);
    FilterConcat(da + db, dc, IsCompletada);
    FilterConcat(da, db, IsCompletada);
    SumConcat(Completadas(da) + Completadas(db), Completadas(dc), TotalOrZero);
    SumConcat(Completadas(da), Completadas(db), TotalOrZero);
  }
}
