/** The day's sales and their split by status, as CorteView.js (lines 30-50)
    and Dashboard.js (lines 9-20) both compute them: the sales dated today,
    the completed and the cancelled ones among them, the sums of their totals
    and the units they sold. */
module DailySales {
  import opened Seqs
  import opened Domain

  /** `ventas.filter(v => sameDay(v.fecha, hoy))` */
  function VentasDelDia(ventas: seq<Sale>, hoy: Day): (r: seq<Sale>)
    ensures forall v | v in r :: v in ventas && v.fecha == hoy
    ensures forall k :: 0 <= k < |ventas| && ventas[k].fecha == hoy ==> ventas[k] in r
  {
    Filter(ventas, (v: Sale) => v.fecha == hoy)
  }

  /** `ventas.filter(v => v.estado === 'completada')` */
  function Completadas(ventas: seq<Sale>): (r: seq<Sale>)
    ensures forall v | v in r :: v in ventas && v.estado == Completada
    ensures forall k :: 0 <= k < |ventas| && ventas[k].estado == Completada ==> ventas[k] in r
  {
    Filter(ventas, IsCompletada)
  }

  /** `ventas.filter(v => v.estado === 'cancelada')` */
  function Canceladas(ventas: seq<Sale>): (r: seq<Sale>)
    ensures forall v | v in r :: v in ventas && v.estado == Cancelada
    ensures forall k :: 0 <= k < |ventas| && ventas[k].estado == Cancelada ==> ventas[k] in r
  {
    Filter(ventas, IsCancelada)
  }

  /** `ventas.reduce((t, v) => t + (parseFloat(v.total) || 0), 0)` */
  function SumaTotales(ventas: seq<Sale>): (r: int)
    ensures ventas == [] ==> r == 0
    ensures (forall k :: 0 <= k < |ventas| ==> TotalOrZero(ventas[k]) >= 0) ==>
              r >= 0 && forall k :: 0 <= k < |ventas| ==> r >= TotalOrZero(ventas[k])
  {
    SumBounds(ventas, TotalOrZero);
    Sum(ventas, TotalOrZero)
  }

  /** The units sold by a list of sales, a sale without lines counting 0. */
  function Unidades(ventas: seq<Sale>): (r: int)
    ensures ventas == [] ==> r == 0
    ensures NonNegativeLines(ventas) ==> r >= 0 && forall k :: 0 <= k < |ventas| ==> r >= SaleUnits(ventas[k])
  {
    SumBounds(ventas, SaleUnits);
    Sum(ventas, SaleUnits)
  }

  function IsCompletadaOCancelada(v: Sale): bool {
    v.estado == Completada || v.estado == Cancelada
  }

  /** No sale is both completed and cancelled: the two partitions are disjoint,
      their sizes add up to the number of sales in either state (so to at most
      all of them), and their revenues add up to the revenue of those sales. */
  lemma StatusPartition(ventas: seq<Sale>)
    ensures |Completadas(ventas)| + |Canceladas(ventas)| == |Filter(ventas, IsCompletadaOCancelada)|
    ensures |Completadas(ventas)| + |Canceladas(ventas)| <= |ventas|
    ensures SumaTotales(Completadas(ventas)) + SumaTotales(Canceladas(ventas))
            == SumaTotales(Filter(ventas, IsCompletadaOCancelada))
    ensures forall v :: v in Completadas(ventas) ==> v !in Canceladas(ventas)
  {
    DisjointFilters(ventas, IsCompletada, IsCancelada, IsCompletadaOCancelada, TotalOrZero);
  }

  /** When every sale is either completed or cancelled, the partitions cover
      all of them. */
  lemma StatusPartitionComplete(ventas: seq<Sale>)
    requires forall k :: 0 <= k < |ventas| ==> IsCompletadaOCancelada(ventas[k])
    ensures |Completadas(ventas)| + |Canceladas(ventas)| == |ventas|
    ensures SumaTotales(Completadas(ventas)) + SumaTotales(Canceladas(ventas)) == SumaTotales(ventas)
  {
    StatusPartition(ventas);
    FilterAll(ventas, IsCompletadaOCancelada);
  }

  /** Units over a list are the completed sales' units plus the others'. */
  lemma UnitsSplit(ventas: seq<Sale>)
    ensures Unidades(ventas) == Unidades(Completadas(ventas)) + Unidades(Filter(ventas, NotCompletada))
  {
    DisjointFilters(ventas, IsCompletada, NotCompletada, AnySale, SaleUnits);
    FilterAll(ventas, AnySale);
  }

  function NotCompletada(v: Sale): bool { v.estado != Completada }

  function AnySale(v: Sale): bool { true }

  /** Every sale's units are non-negative when every line quantity is. */
  predicate NonNegativeLines(ventas: seq<Sale>) {
    forall k :: 0 <= k < |ventas| ==> SaleUnits(ventas[k]) >= 0
  }

  /** Any selection of sales with non-negative lines has non-negative lines. */
  lemma FilterKeepsNonNegativeLines(ventas: seq<Sale>, p: Sale -> bool)
    requires NonNegativeLines(ventas)
    ensures NonNegativeLines(Filter(ventas, p))
  {
    var r := Filter(ventas, p);
    forall k | 0 <= k < |r| ensures SaleUnits(r[k]) >= 0 {
      assert r[k] in ventas;
    }
  }

  /** Counting the units of every sale gives at least the units of the
      completed ones, when quantities are non-negative. */
  lemma UnitsAtLeastCompleted(ventas: seq<Sale>)
    requires NonNegativeLines(ventas)
    ensures Unidades(Completadas(ventas)) <= Unidades(ventas)
  {
    UnitsSplit(ventas);
    var rest := Filter(ventas, NotCompletada);
    forall k | 0 <= k < |rest| ensures SaleUnits(rest[k]) >= 0 {
      assert rest[k] in ventas;
    }
    SumNonNegative(rest, SaleUnits);
  }
}
