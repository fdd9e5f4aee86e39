/** The sales history screen (src/components/HistorialVentasView.js): the
    filter of the sales by a `YYYY-MM-DD` day, the cancellation of a sale with
    the return of its products to stock, and the totals of the listed sales. */
module Historial {
  import opened Seqs
  import opened Domain
  import opened Crud
  import opened Fecha
  import opened DailySales
  import opened Ventas

  // ---------------------------------------------------------------------
  // The day filter (lines 21-36) and setFechaHoy (lines 107-115)

  /** All sales when no day is selected, otherwise those whose local date
      string is the selected one. */
  function FilterByDate(ventas: seq<Sale>, selectedDate: string): (r: seq<Sale>)
    ensures selectedDate == "" ==> r == ventas
    ensures selectedDate != "" ==> forall v | v in r :: v in ventas && FormatDate(v.fecha) == selectedDate
    ensures selectedDate != "" ==>
              forall k :: 0 <= k < |ventas| && FormatDate(ventas[k].fecha) == selectedDate ==> ventas[k] in r
  {
    if selectedDate != "" then Filter(ventas, (v: Sale) => FormatDate(v.fecha) == selectedDate) else ventas
  }

  predicate ValidDates(ventas: seq<Sale>) {
    forall k :: 0 <= k < |ventas| ==> ValidDay(ventas[k].fecha)
  }

  /** Selecting a day by its string lists exactly the sales of that day, in
      their original order: the history filter agrees with the "today"
      filter of the closing and dashboard screens. */
  lemma FilterByDayString(ventas: seq<Sale>, d: Day)
    requires ValidDay(d) && ValidDates(ventas)
    ensures FilterByDate(ventas, FormatDate(d)) == VentasDelDia(ventas, d)
  {
    var s := FormatDate(d);
    forall k | 0 <= k < |ventas| ensures (FormatDate(ventas[k].fecha) == s) == (ventas[k].fecha == d) {
      FormatDateInjective(ventas[k].fecha, d);
    }
    FilterSame(ventas, (v: Sale) => FormatDate(v.fecha) == s, (v: Sale) => v.fecha == d);
  }

  // ---------------------------------------------------------------------
  // cancelarVenta (lines 38-75)

  function SaleId(v: Sale): int { v.id }

  function SaleLineProductId(l: SaleLine): int { l.productoId }

  /** `ventas.find(v => v.id === ventaId)` */
  function FindSale(ventas: seq<Sale>, id: int): (r: Option<Sale>)
    ensures r.None? <==> forall k :: 0 <= k < |ventas| ==> ventas[k].id != id
    ensures r.Some? ==> exists k :: 0 <= k < |ventas| && ventas[k] == r.value && r.value.id == id &&
                          forall j :: 0 <= j < k ==> ventas[j].id != id
  {
    FindById(ventas, SaleId, id)
  }

  /** Every sale with the id becomes `cancelada`; every other sale is kept. */
  function MarkCancelled(ventas: seq<Sale>, id: int): (r: seq<Sale>)
    ensures |r| == |ventas|
    ensures forall i :: 0 <= i < |ventas| && ventas[i].id != id ==> r[i] == ventas[i]
    ensures forall i :: 0 <= i < |ventas| && ventas[i].id == id ==> r[i] == ventas[i].(estado := Cancelada)
  {
    Map(ventas, (v: Sale) => if v.id == id then v.(estado := Cancelada) else v)
  }

  /** The quantity of the first line of the sale for a product, 0 if none. */
  function ReturnedQuantity(lines: seq<SaleLine>, productoId: int): (q: int)
    ensures (forall k :: 0 <= k < |lines| ==> lines[k].productoId != productoId) ==> q == 0
    ensures forall k ::
              (0 <= k < |lines| && lines[k].productoId == productoId &&
               forall j :: 0 <= j < k ==> lines[j].productoId != productoId) ==>
                q == lines[k].cantidad
  {
    match FindById(lines, SaleLineProductId, productoId)
    case Some(item) => item.cantidad
    case None => 0
  }

  /** Each product with a line in the sale gets back the quantity of its first
      such line; the others are unchanged. */
  function RestoreStock(productos: seq<Product>, lines: seq<SaleLine>): (r: seq<Product>)
    ensures |r| == |productos|
    ensures forall i :: 0 <= i < |productos| ==>
              r[i] == productos[i].(stock := productos[i].stock + ReturnedQuantity(lines, productos[i].id))
  {
    Map(productos, (p: Product) =>
      match FindById(lines, SaleLineProductId, p.id)
      case Some(item) => p.(stock := p.stock + item.cantidad)
      case None => p)
  }

  /** The catalog after a confirmed cancellation of `id`: stock comes back
      only when the sale was `completada` before the call and carries lines. */
  function StockAfterCancel(productos: seq<Product>, ventas: seq<Sale>, id: int): (r: seq<Product>)
    ensures (FindSale(ventas, id).None? || FindSale(ventas, id).value.estado != Completada ||
             FindSale(ventas, id).value.productos.None?) ==> r == productos
    ensures (FindSale(ventas, id).Some? && FindSale(ventas, id).value.estado == Completada &&
             FindSale(ventas, id).value.productos.Some?) ==>
              r == RestoreStock(productos, FindSale(ventas, id).value.productos.value)
  {
    match FindSale(ventas, id)
    case Some(venta) =>
      if venta.estado == Completada && venta.productos.Some?
      then RestoreStock(productos, venta.productos.value)
      else productos
    case None => productos
  }

  /** After a cancellation the sale with that id, if any, is `cancelada`. */
  lemma CancelledAfterMark(ventas: seq<Sale>, id: int)
    ensures FindSale(MarkCancelled(ventas, id), id).None? ||
            FindSale(MarkCancelled(ventas, id), id).value.estado == Cancelada
  {
    var r := MarkCancelled(ventas, id);
    var found := FindSale(r, id);
    if found.Some? {
      var k :| 0 <= k < |r| && r[k] == found.value && SaleId(r[k]) == id;
    }
  }

  /** Cancelling a sale a second time returns no stock: there is no double
      reversal. */
  lemma NoDoubleReversal(productos: seq<Product>, ventas: seq<Sale>, id: int)
    ensures StockAfterCancel(productos, MarkCancelled(ventas, id), id) == productos
  {
    CancelledAfterMark(ventas, id);
  }

  /** The lines recorded for a cart return, product by product, exactly the
      quantity the commit took out of stock. */
  lemma {:induction false} ReturnedIsCommitted(carrito: seq<CartLine>, id: int)
    ensures ReturnedQuantity(SaleLinesOf(carrito), id) == QuantityOf(carrito, id)
  {
    var lines := SaleLinesOf(carrito);
    if carrito == [] {
    } else if carrito[0].Id() == id {
      assert SaleLineProductId(lines[0]) == id;
      assert LineId(carrito[0]) == id;
    } else {
      assert lines[1..] == SaleLinesOf(carrito[1..]);
      ReturnedIsCommitted(carrito[1..], id);
      FirstIdSkips(carrito, id);
      assert SaleLineProductId(lines[0]) != id;
      FirstLineIdSkips(lines, id);
    }
  }

  lemma FirstIdSkips(carrito: seq<CartLine>, id: int)
    requires carrito != [] && carrito[0].Id() != id
    ensures FindById(carrito, LineId, id) == FindById(carrito[1..], LineId, id)
  {
  }

  lemma FirstLineIdSkips(lines: seq<SaleLine>, id: int)
    requires lines != [] && lines[0].productoId != id
    ensures FindById(lines, SaleLineProductId, id) == FindById(lines[1..], SaleLineProductId, id)
  {
  }

  /** Restoring the lines of a committed cart undoes the commit's stock
      update exactly, duplicate lines included (both sides use the first
      line of each product). */
  lemma RestoreUndoesCommit(productos: seq<Product>, carrito: seq<CartLine>)
    ensures RestoreStock(ApplySale(productos, carrito), SaleLinesOf(carrito)) == productos
  {
    var after := ApplySale(productos, carrito);
    var r := RestoreStock(after, SaleLinesOf(carrito));
    forall i | 0 <= i < |productos| ensures r[i] == productos[i] {
      ReturnedIsCommitted(carrito, productos[i].id);
    }
  }

  /** Committing a cart and then cancelling the sale the API recorded for it
      gives every product its stock from before the sale. */
  lemma CommitThenCancel(productos: seq<Product>, ventas: seq<Sale>, carrito: seq<CartLine>, venta: Sale)
    requires venta.estado == Completada && venta.productos == Some(SaleLinesOf(carrito))
    ensures StockAfterCancel(ApplySale(productos, carrito), [venta] + ventas, venta.id) == productos
  {
    assert FindSale([venta] + ventas, venta.id) == Some(venta);
    RestoreUndoesCommit(productos, carrito);
  }

  /** The cancel button is shown only for completed sales (line 303). */
  function ShowsCancelButton(v: Sale): bool {
    v.estado == Completada
  }

  /** With unique sale ids, the button is shown exactly for the sales whose
      cancellation returns their lines to stock. */
  lemma CancelButtonMatchesReversal(productos: seq<Product>, ventas: seq<Sale>, k: int)
    requires UniqueIds(ventas, SaleId) && 0 <= k < |ventas| && ventas[k].productos.Some?
    ensures ShowsCancelButton(ventas[k]) ==>
              StockAfterCancel(productos, ventas, ventas[k].id) == RestoreStock(productos, ventas[k].productos.value)
    ensures !ShowsCancelButton(ventas[k]) ==> StockAfterCancel(productos, ventas, ventas[k].id) == productos
  {
    FindByIdAt(ventas, SaleId, k);
  }

  // ---------------------------------------------------------------------
  // calcularTotales (lines 77-103)

  datatype Totales = Totales(
    totalCompletadas: int,
    totalCanceladas: int,
    cantidadCompletadas: nat,
    cantidadCanceladas: nat,
    ingresosBrutos: int,
    ingresosNetos: int,
    cantidadVendida: int)

  /** The totals of the listed sales.  Gross income is the revenue of every
      sale that is completed or cancelled, net income that of the completed
      ones, and the units sold count the lines of every listed sale, the
      cancelled ones included. */
  function CalcularTotales(ventasFiltradas: seq<Sale>): (t: Totales)
    ensures t.cantidadCompletadas == |Completadas(ventasFiltradas)|
    ensures t.cantidadCanceladas == |Canceladas(ventasFiltradas)|
    ensures t.totalCompletadas == SumaTotales(Completadas(ventasFiltradas))
    ensures t.totalCanceladas == SumaTotales(Canceladas(ventasFiltradas))
    ensures t.cantidadCompletadas + t.cantidadCanceladas <= |ventasFiltradas|
    ensures t.ingresosBrutos == t.totalCompletadas + t.totalCanceladas
    ensures t.ingresosBrutos == SumaTotales(Filter(ventasFiltradas, IsCompletadaOCancelada))
    ensures t.ingresosNetos == t.totalCompletadas
    ensures t.cantidadVendida ==
              Unidades(Completadas(ventasFiltradas)) + Unidades(Filter(ventasFiltradas, NotCompletada))
  {
    var completadas := Completadas(ventasFiltradas);
    var canceladas := Canceladas(ventasFiltradas);
    var totalCompletadas := SumaTotales(completadas);
    var totalCanceladas := SumaTotales(canceladas);
    StatusPartition(ventasFiltradas);
    UnitsSplit(ventasFiltradas);
    Totales(
      totalCompletadas,
      totalCanceladas,
      |completadas|,
      |canceladas|,
      totalCompletadas + totalCanceladas,
      totalCompletadas,
      Unidades(ventasFiltradas))
  }

  /** When every listed sale is completed or cancelled, the two counts cover
      the list and gross income is the revenue of the whole list. */
  lemma TotalesCoverWellFormedList(ventasFiltradas: seq<Sale>)
    requires forall k :: 0 <= k < |ventasFiltradas| ==> IsCompletadaOCancelada(ventasFiltradas[k])
    ensures CalcularTotales(ventasFiltradas).cantidadCompletadas + CalcularTotales(ventasFiltradas).cantidadCanceladas
            == |ventasFiltradas|
    ensures CalcularTotales(ventasFiltradas).ingresosBrutos == SumaTotales(ventasFiltradas)
  {
    StatusPartitionComplete(ventasFiltradas);
    FilterAll(ventasFiltradas, IsCompletadaOCancelada);
  }

  // ---------------------------------------------------------------------
  // The view's state and handlers

  class HistorialVentasView {
    var ventas: seq<Sale>
    var productos: seq<Product>
    var selectedDate: string
    var ventasFiltradas: seq<Sale>

    constructor (ventas: seq<Sale>, productos: seq<Product>, selectedDate: string)
      ensures this.ventas == ventas && this.productos == productos && this.selectedDate == selectedDate
      ensures ventasFiltradas == ventas
    {
      this.ventas := ventas;
      this.productos := productos;
      this.selectedDate := selectedDate;
      ventasFiltradas := ventas;
    }

    /** The effect that recomputes `ventasFiltradas` when the day or the
        sales change. */
    method FiltrarPorFecha()
      modifies this`ventasFiltradas
      ensures ventasFiltradas == FilterByDate(ventas, selectedDate)
    {
      ventasFiltradas := FilterByDate(ventas, selectedDate);
    }

    /** `cancelarVenta(ventaId)`: `confirmado` is the dialog's answer and
        `success` the cancel API's. */
    method CancelarVenta(ventaId: int, confirmado: bool, success: bool) returns (cancelled: bool)
      modifies this`ventas, this`productos
      ensures cancelled == (confirmado && success)
      ensures cancelled ==> ventas == MarkCancelled(old(ventas), ventaId)
      ensures cancelled ==> productos == StockAfterCancel(old(productos), old(ventas), ventaId)
      ensures !cancelled ==> ventas == old(ventas) && productos == old(productos)
    {
      cancelled := false;
      if confirmado && success {
        var ventasActualizadas := MarkCancelled(ventas, ventaId);
        var venta := FindSale(ventas, ventaId);
        if venta.Some? && venta.value.estado == Completada && venta.value.productos.Some? {
          productos := RestoreStock(productos, venta.value.productos.value);
        }
        ventas := ventasActualizadas;
        cancelled := true;
      }
    }

    /** `setFechaHoy()`, `hoy` being the browser's local date. */
    method SetFechaHoy(hoy: Day)
      modifies this`selectedDate
      ensures selectedDate == FormatDate(hoy)
      ensures ValidDay(hoy) && 1000 <= hoy.year <= 9999 ==> |selectedDate| == 10
    {
      selectedDate := FormatDate(hoy);
      if ValidDay(hoy) && 1000 <= hoy.year <= 9999 {
        FormatDateLength(hoy);
      }
    }

    /** `limpiarFiltro()` */
    method LimpiarFiltro()
      modifies this`selectedDate
      ensures selectedDate == ""
    {
      selectedDate := "";
    }
  }
}
