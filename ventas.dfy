/** The point-of-sale screen (src/components/VentasView.js): a cart kept
    against the catalog's stock, its total, and the commit that records a
    sale, takes its quantities out of stock and empties the cart. */
module Ventas {
  import opened Seqs
  import opened Domain
  import opened Crud

  /** `carrito.find(item => item.id === id)` */
  function FindLine(carrito: seq<CartLine>, id: int): Option<CartLine> {
    FindById(carrito, LineId, id)
  }

  /** `productos.find(p => p.id === id)` */
  function FindProduct(productos: seq<Product>, id: int): Option<Product> {
    FindById(productos, ProductId, id)
  }

  predicate InCart(carrito: seq<CartLine>, id: int) {
    HasId(carrito, LineId, id)
  }

  /** The quantity of the first line for `id`, 0 when there is none. */
  function QuantityOf(carrito: seq<CartLine>, id: int): (q: int)
    ensures !InCart(carrito, id) ==> q == 0
    ensures InCart(carrito, id) ==>
              (exists k :: 0 <= k < |carrito| && carrito[k].Id() == id &&
                 q == carrito[k].cantidad && forall j :: 0 <= j < k ==> carrito[j].Id() != id)
  {
    match FindLine(carrito, id)
    case Some(l) => l.cantidad
    case None => 0
  }

  /** With unique ids the first line for an id is the line at its position. */
  lemma QuantityAt(carrito: seq<CartLine>, k: int)
    requires UniqueIds(carrito, LineId) && 0 <= k < |carrito|
    ensures QuantityOf(carrito, carrito[k].Id()) == carrito[k].cantidad
  {
    FindByIdAt(carrito, LineId, k);
  }

  // ---------------------------------------------------------------------
  // agregarAlCarrito (lines 34-57)

  datatype AddOutcome = Added | Incremented | InsufficientStock | OutOfStock

  function IncrementLine(carrito: seq<CartLine>, id: int): seq<CartLine> {
    Map(carrito, (l: CartLine) => if l.Id() == id then l.(cantidad := l.cantidad + 1) else l)
  }

  /** The cart after adding `producto` once: a product already in the cart has
      its line raised by one while that stays within its stock; a new product
      gets a last line of quantity 1 if it has stock; otherwise nothing changes. */
  function AddToCart(carrito: seq<CartLine>, producto: Product): (r: seq<CartLine>)
    ensures !InCart(carrito, producto.id) ==>
              r == if producto.stock > 0 then carrito + [CartLine(producto, 1)] else carrito
    ensures InCart(carrito, producto.id) && QuantityOf(carrito, producto.id) >= producto.stock ==> r == carrito
    ensures InCart(carrito, producto.id) && QuantityOf(carrito, producto.id) < producto.stock ==>
              |r| == |carrito| &&
              forall i :: 0 <= i < |carrito| ==>
                r[i] == if carrito[i].Id() == producto.id
                        then carrito[i].(cantidad := carrito[i].cantidad + 1) else carrito[i]
  {
    match FindLine(carrito, producto.id)
    case Some(item) => if item.cantidad < producto.stock then IncrementLine(carrito, producto.id) else carrito
    case None => if producto.stock > 0 then carrito + [CartLine(producto, 1)] else carrito
  }

  /** Which of the four branches `agregarAlCarrito` takes. */
  function AddOutcomeOf(carrito: seq<CartLine>, producto: Product): (o: AddOutcome)
    ensures o == Added <==> !InCart(carrito, producto.id) && producto.stock > 0
    ensures o == OutOfStock <==> !InCart(carrito, producto.id) && producto.stock <= 0
    ensures o == Incremented <==> InCart(carrito, producto.id) && QuantityOf(carrito, producto.id) < producto.stock
    ensures o == InsufficientStock <==> InCart(carrito, producto.id) && QuantityOf(carrito, producto.id) >= producto.stock
  {
    match FindLine(carrito, producto.id)
    case Some(item) => if item.cantidad < producto.stock then Incremented else InsufficientStock
    case None => if producto.stock > 0 then Added else OutOfStock
  }

  // ---------------------------------------------------------------------
  // actualizarCantidad (lines 59-73) and eliminarDelCarrito (lines 75-77)

  /** `carrito.filter(item => item.id !== id)` */
  function RemoveLine(carrito: seq<CartLine>, id: int): (r: seq<CartLine>)
    ensures !InCart(r, id)
    ensures forall l | l in r :: l in carrito
    ensures forall k :: 0 <= k < |carrito| && carrito[k].Id() != id ==> carrito[k] in r
  {
    RemoveById(carrito, LineId, id)
  }

  datatype SetOutcome = Removed | Updated | ExceedsStock(maximo: int) | ProductMissing

  function SetLine(carrito: seq<CartLine>, id: int, n: int): seq<CartLine> {
    Map(carrito, (l: CartLine) => if l.Id() == id then l.(cantidad := n) else l)
  }

  /** The cart after setting the quantity of `id` to `n`: a quantity of zero or
      less removes the line, one within the catalog stock replaces the
      quantity, and one above it (or for a product the catalog no longer has,
      where the source fails on `producto.stock`) changes nothing. */
  function SetQuantity(carrito: seq<CartLine>, productos: seq<Product>, id: int, n: int): (r: seq<CartLine>)
    ensures n <= 0 ==> r == RemoveLine(carrito, id)
    ensures n > 0 && FindProduct(productos, id).Some? && n <= FindProduct(productos, id).value.stock ==>
              |r| == |carrito| &&
              forall i :: 0 <= i < |carrito| ==>
                r[i] == if carrito[i].Id() == id then carrito[i].(cantidad := n) else carrito[i]
    ensures n > 0 && (FindProduct(productos, id).None? || n > FindProduct(productos, id).value.stock) ==>
              r == carrito
  {
    if n <= 0 then RemoveLine(carrito, id)
    else match FindProduct(productos, id)
      case None => carrito
      case Some(producto) => if n <= producto.stock then SetLine(carrito, id, n) else carrito
  }

  /** Which branch `actualizarCantidad` takes; the message for a quantity
      above the stock names the stock as the maximum. */
  function SetOutcomeOf(productos: seq<Product>, id: int, n: int): (o: SetOutcome)
    ensures o == Removed <==> n <= 0
    ensures o == ProductMissing <==> n > 0 && FindProduct(productos, id).None?
    ensures o == Updated <==> n > 0 && FindProduct(productos, id).Some? && n <= FindProduct(productos, id).value.stock
    ensures o.ExceedsStock? <==> n > 0 && FindProduct(productos, id).Some? && n > FindProduct(productos, id).value.stock
    ensures o.ExceedsStock? ==> o.maximo == FindProduct(productos, id).value.stock
  {
    if n <= 0 then Removed
    else match FindProduct(productos, id)
      case None => ProductMissing
      case Some(producto) => if n <= producto.stock then Updated else ExceedsStock(producto.stock)
  }

  // ---------------------------------------------------------------------
  // The stock ceiling: every line is for a catalog product, once, with a
  // quantity between 1 and that product's stock.

  predicate WithinStock(carrito: seq<CartLine>, productos: seq<Product>) {
    forall i :: 0 <= i < |carrito| ==>
      FindProduct(productos, carrito[i].Id()).Some? &&
      1 <= carrito[i].cantidad <= FindProduct(productos, carrito[i].Id()).value.stock
  }

  predicate ValidCart(carrito: seq<CartLine>, productos: seq<Product>) {
    UniqueIds(carrito, LineId) && WithinStock(carrito, productos)
  }

  /** Changing quantities only, line by line, keeps the ids unique. */
  lemma SameIdsKeepUnique(a: seq<CartLine>, b: seq<CartLine>)
    requires UniqueIds(a, LineId) && |a| == |b|
    requires forall i :: 0 <= i < |a| ==> b[i].Id() == a[i].Id()
    ensures UniqueIds(b, LineId)
  {
    forall i, j | 0 <= i < j < |b| ensures LineId(b[i]) != LineId(b[j]) {
      assert LineId(a[i]) != LineId(a[j]);
    }
  }

  /** A new last line of quantity 1 for an in-stock catalog product not yet in
      the cart keeps a valid cart valid. */
  lemma AppendKeepsValid(carrito: seq<CartLine>, productos: seq<Product>, producto: Product)
    requires ValidCart(carrito, productos)
    requires FindProduct(productos, producto.id) == Some(producto) && producto.stock > 0
    requires !InCart(carrito, producto.id)
    ensures ValidCart(carrito + [CartLine(producto, 1)], productos)
  {
    var r := carrito + [CartLine(producto, 1)];
    forall i, j | 0 <= i < j < |r| ensures LineId(r[i]) != LineId(r[j]) {
      assert r[i] == carrito[i];
      if j < |carrito| {
        assert r[j] == carrito[j];
      } else {
        assert LineId(r[j]) == producto.id;
      }
    }
  }

  /** Raising the line of a catalog product that is still under its stock
      keeps a valid cart valid. */
  lemma IncrementKeepsValid(carrito: seq<CartLine>, productos: seq<Product>, producto: Product)
    requires ValidCart(carrito, productos)
    requires FindProduct(productos, producto.id) == Some(producto)
    requires QuantityOf(carrito, producto.id) < producto.stock
    ensures ValidCart(IncrementLine(carrito, producto.id), productos)
  {
    var r := IncrementLine(carrito, producto.id);
    SameIdsKeepUnique(carrito, r);
    forall i | 0 <= i < |r|
      ensures FindProduct(productos, r[i].Id()).Some? &&
              1 <= r[i].cantidad <= FindProduct(productos, r[i].Id()).value.stock
    {
      if carrito[i].Id() == producto.id {
        QuantityAt(carrito, i);
      }
    }
  }

  /** Adding a catalog product keeps a valid cart valid. */
  lemma AddKeepsValid(carrito: seq<CartLine>, productos: seq<Product>, producto: Product)
    requires ValidCart(carrito, productos)
    requires FindProduct(productos, producto.id) == Some(producto)
    ensures ValidCart(AddToCart(carrito, producto), productos)
  {
    if !InCart(carrito, producto.id) {
      if producto.stock > 0 {
        AppendKeepsValid(carrito, productos, producto);
      }
    } else if QuantityOf(carrito, producto.id) < producto.stock {
      IncrementKeepsValid(carrito, productos, producto);
    }
  }

  /** Setting a quantity against an unchanged catalog keeps a valid cart valid. */
  lemma SetQuantityKeepsValid(carrito: seq<CartLine>, productos: seq<Product>, id: int, n: int)
    requires ValidCart(carrito, productos)
    ensures ValidCart(SetQuantity(carrito, productos, id, n), productos)
  {
    if n <= 0 {
      RemoveKeepsValid(carrito, productos, id);
    } else if FindProduct(productos, id).Some? && n <= FindProduct(productos, id).value.stock {
      SetLineKeepsValid(carrito, productos, id, n);
    }
  }

  /** A new quantity between 1 and the catalog stock keeps a valid cart valid. */
  lemma SetLineKeepsValid(carrito: seq<CartLine>, productos: seq<Product>, id: int, n: int)
    requires ValidCart(carrito, productos)
    requires FindProduct(productos, id).Some? && 1 <= n <= FindProduct(productos, id).value.stock
    ensures ValidCart(SetLine(carrito, id, n), productos)
  {
    var r := SetLine(carrito, id, n);
    assert forall i :: 0 <= i < |r| ==> r[i].Id() == carrito[i].Id();
    SameIdsKeepUnique(carrito, r);
    forall i | 0 <= i < |r|
      ensures FindProduct(productos, r[i].Id()).Some? &&
              1 <= r[i].cantidad <= FindProduct(productos, r[i].Id()).value.stock
    {
      if carrito[i].Id() != id {
        assert r[i] == carrito[i];
      }
    }
  }

  /** Removing a line keeps a valid cart valid. */
  lemma RemoveKeepsValid(carrito: seq<CartLine>, productos: seq<Product>, id: int)
    requires ValidCart(carrito, productos)
    ensures ValidCart(RemoveLine(carrito, id), productos)
  {
    RemoveKeepsUnique(carrito, LineId, id);
    var r := RemoveLine(carrito, id);
    forall i | 0 <= i < |r|
      ensures FindProduct(productos, r[i].Id()).Some? &&
              1 <= r[i].cantidad <= FindProduct(productos, r[i].Id()).value.stock
    {
      assert r[i] in r;
      var k :| 0 <= k < |carrito| && carrito[k] == r[i];
    }
  }

  /** With unique ids, an add changes only the quantity of the added product:
      by one while under its stock, not at all otherwise. */
  lemma AddChangesOnlyThatQuantity(carrito: seq<CartLine>, producto: Product, id: int)
    requires UniqueIds(carrito, LineId)
    requires InCart(carrito, producto.id)
    ensures QuantityOf(AddToCart(carrito, producto), id) ==
              if id == producto.id && QuantityOf(carrito, id) < producto.stock
              then QuantityOf(carrito, id) + 1 else QuantityOf(carrito, id)
  {
    if QuantityOf(carrito, producto.id) < producto.stock {
      assert AddToCart(carrito, producto) == IncrementLine(carrito, producto.id);
      IncrementQuantityOf(carrito, producto.id, id);
    }
  }

  /** Raising the line of `target` by one raises its quantity by one and no
      other product's. */
  lemma IncrementQuantityOf(carrito: seq<CartLine>, target: int, id: int)
    requires UniqueIds(carrito, LineId)
    ensures QuantityOf(IncrementLine(carrito, target), id) ==
              QuantityOf(carrito, id) + (if id == target && InCart(carrito, id) then 1 else 0)
  {
    var r := IncrementLine(carrito, target);
    SameIdsKeepUnique(carrito, r);
    if InCart(carrito, id) {
      var k :| 0 <= k < |carrito| && LineId(carrito[k]) == id;
      QuantityAt(carrito, k);
      QuantityAt(r, k);
    } else {
      forall k | 0 <= k < |r| ensures LineId(r[k]) != id {
        assert LineId(r[k]) == LineId(carrito[k]);
      }
    }
  }

  /** With unique ids, removing a line removes exactly the line at its
      position and keeps the others in order. */
  lemma RemoveExactlyThatLine(carrito: seq<CartLine>, k: int)
    requires UniqueIds(carrito, LineId) && 0 <= k < |carrito|
    ensures RemoveLine(carrito, carrito[k].Id()) == carrito[..k] + carrito[k + 1..]
  {
    assert LineId(carrito[k]) == carrito[k].Id();
    RemoveUnique(carrito, LineId, k);
  }

  // ---------------------------------------------------------------------
  // calcularTotal (lines 79-81) and the sale request (lines 92-100)

  function LineSubtotal(l: CartLine): int { l.producto.precio * l.cantidad }

  /** `carrito.reduce((total, item) => total + item.precio * item.cantidad, 0)` */
  function CalcularTotal(carrito: seq<CartLine>): (t: int)
    ensures carrito == [] ==> t == 0
    ensures (forall k :: 0 <= k < |carrito| ==> LineSubtotal(carrito[k]) >= 0) ==>
              forall k :: 0 <= k < |carrito| ==> t >= LineSubtotal(carrito[k])
  {
    SumBounds(carrito, LineSubtotal);
    Sum(carrito, LineSubtotal)
  }

  function ToSaleLine(l: CartLine): SaleLine {
    SaleLine(l.Id(), l.cantidad, l.producto.precio)
  }

  function SaleLinesOf(carrito: seq<CartLine>): seq<SaleLine> {
    Map(carrito, ToSaleLine)
  }

  function SaleLineSubtotal(l: SaleLine): int { l.precio * l.cantidad }

  /** The body sent to the sales API: seller, one line per cart line, total. */
  datatype SaleRequest = SaleRequest(vendedor: string, productos: seq<SaleLine>, total: int)

  function SaleRequestOf(vendedor: string, carrito: seq<CartLine>): SaleRequest {
    SaleRequest(vendedor, SaleLinesOf(carrito), CalcularTotal(carrito))
  }

  /** The total sent with a sale is the sum of the subtotals of the lines sent
      with it; an empty cart totals 0. */
  lemma {:induction false} RequestTotalIsSumOfLines(carrito: seq<CartLine>)
    ensures CalcularTotal(carrito) == Sum(SaleLinesOf(carrito), SaleLineSubtotal)
    ensures carrito == [] ==> CalcularTotal(carrito) == 0
  {
    if carrito != [] {
      RequestTotalIsSumOfLines(carrito[1..]);
      assert SaleLinesOf(carrito)[1..] == SaleLinesOf(carrito[1..]);
    }
  }

  /** Adding a line adds its subtotal to the total. */
  lemma TotalOfAppend(carrito: seq<CartLine>, l: CartLine)
    ensures CalcularTotal(carrito + [l]) == CalcularTotal(carrito) + l.producto.precio * l.cantidad
  {
    SumConcat(carrito, [l], LineSubtotal);
  }

  /** With non-negative prices and quantities the total is non-negative. */
  lemma TotalNonNegative(carrito: seq<CartLine>)
    requires forall k :: 0 <= k < |carrito| ==> carrito[k].producto.precio >= 0 && carrito[k].cantidad >= 0
    ensures CalcularTotal(carrito) >= 0
  {
    SumNonNegative(carrito, LineSubtotal);
  }

  // ---------------------------------------------------------------------
  // The local stock update after a committed sale (lines 110-117)

  /** Each product loses the quantity of its (first) cart line; a product
      without a line is unchanged. */
  function ApplySale(productos: seq<Product>, carrito: seq<CartLine>): (r: seq<Product>)
    ensures |r| == |productos|
    ensures forall i :: 0 <= i < |productos| ==>
              r[i] == productos[i].(stock := productos[i].stock - QuantityOf(carrito, productos[i].id))
    ensures forall i :: 0 <= i < |productos| && !InCart(carrito, productos[i].id) ==> r[i] == productos[i]
  {
    Map(productos, (p: Product) =>
      match FindLine(carrito, p.id)
      case Some(item) => p.(stock := p.stock - item.cantidad)
      case None => p)
  }

  /** A catalog whose ids are unique and whose stock is never negative. */
  predicate CatalogOk(productos: seq<Product>) {
    UniqueIds(productos, ProductId) && forall k :: 0 <= k < |productos| ==> productos[k].stock >= 0
  }

  /** Committing a cart that is within the stock of the catalog it is applied
      to leaves no stock negative. */
  lemma CommitKeepsStockNonNegative(productos: seq<Product>, carrito: seq<CartLine>)
    requires CatalogOk(productos) && ValidCart(carrito, productos)
    ensures CatalogOk(ApplySale(productos, carrito))
  {
    var r := ApplySale(productos, carrito);
    forall i, j | 0 <= i < j < |r| ensures ProductId(r[i]) != ProductId(r[j]) {
      assert ProductId(productos[i]) != ProductId(productos[j]);
    }
    forall i | 0 <= i < |r| ensures r[i].stock >= 0 {
      SoldWithinStock(productos, carrito, i);
    }
  }

  /** No product in a valid cart sells more than its catalog stock. */
  lemma SoldWithinStock(productos: seq<Product>, carrito: seq<CartLine>, i: int)
    requires UniqueIds(productos, ProductId) && ValidCart(carrito, productos)
    requires 0 <= i < |productos|
    ensures InCart(carrito, productos[i].id) ==> QuantityOf(carrito, productos[i].id) <= productos[i].stock
  {
    var p := productos[i];
    if InCart(carrito, p.id) {
      var k :| 0 <= k < |carrito| && carrito[k].Id() == p.id && QuantityOf(carrito, p.id) == carrito[k].cantidad;
      FindByIdAt(productos, ProductId, i);
      assert carrito[k].cantidad <= FindProduct(productos, carrito[k].Id()).value.stock;
    }
  }

  /** The commit does not re-check stock: a cart built against a catalog that
      has since sold out takes the stock below zero. */
  lemma StaleCartOversells(p: Product)
    requires p.stock == 1
    ensures ValidCart([CartLine(p, 1)], [p])
    ensures ApplySale([p.(stock := 0)], [CartLine(p, 1)])[0].stock == -1
  {
    var c := [CartLine(p, 1)];
    assert FindLine(c, p.id) == Some(CartLine(p, 1));
    assert FindProduct([p], p.id) == Some(p);
  }

  // ---------------------------------------------------------------------
  // The view's state and handlers

  datatype CommitOutcome = EmptyCart | Committed | Failed

  class VentasView {
    var carrito: seq<CartLine>
    var productos: seq<Product>
    var ventas: seq<Sale>
    const currentUser: User

    constructor (currentUser: User, productos: seq<Product>, ventas: seq<Sale>, carrito: seq<CartLine>)
      ensures this.currentUser == currentUser && this.productos == productos
      ensures this.ventas == ventas && this.carrito == carrito
    {
      this.currentUser := currentUser;
      this.productos := productos;
      this.ventas := ventas;
      this.carrito := carrito;
    }

    /** `agregarAlCarrito(producto)`, `producto` being a search result taken
        from the catalog. */
    method AgregarAlCarrito(producto: Product) returns (outcome: AddOutcome)
      modifies this`carrito
      ensures carrito == AddToCart(old(carrito), producto)
      ensures outcome == AddOutcomeOf(old(carrito), producto)
      ensures outcome == Added || outcome == Incremented || carrito == old(carrito)
      ensures old(ValidCart(carrito, productos)) && FindProduct(productos, producto.id) == Some(producto) ==>
                ValidCart(carrito, productos)
    {
      var item := FindLine(carrito, producto.id);
      if item.Some? {
        if item.value.cantidad < producto.stock {
          carrito := IncrementLine(carrito, producto.id);
          outcome := Incremented;
        } else {
          outcome := InsufficientStock;
        }
      } else {
        if producto.stock > 0 {
          carrito := carrito + [CartLine(producto, 1)];
          outcome := Added;
        } else {
          outcome := OutOfStock;
        }
      }
      if old(ValidCart(carrito, productos)) && FindProduct(productos, producto.id) == Some(producto) {
        AddKeepsValid(old(carrito), productos, producto);
      }
    }

    /** `actualizarCantidad(id, nuevaCantidad)` */
    method ActualizarCantidad(id: int, nuevaCantidad: int) returns (outcome: SetOutcome)
      modifies this`carrito
      ensures carrito == SetQuantity(old(carrito), productos, id, nuevaCantidad)
      ensures outcome == SetOutcomeOf(productos, id, nuevaCantidad)
      ensures outcome.ExceedsStock? ==> carrito == old(carrito) && nuevaCantidad > outcome.maximo
      ensures old(ValidCart(carrito, productos)) ==> ValidCart(carrito, productos)
    {
      if nuevaCantidad <= 0 {
        carrito := RemoveLine(carrito, id);
        outcome := Removed;
      } else {
        var producto := FindProduct(productos, id);
        if producto.None? {
          outcome := ProductMissing;
        } else if nuevaCantidad <= producto.value.stock {
          carrito := SetLine(carrito, id, nuevaCantidad);
          outcome := Updated;
        } else {
          outcome := ExceedsStock(producto.value.stock);
        }
      }
      if old(ValidCart(carrito, productos)) {
        SetQuantityKeepsValid(old(carrito), productos, id, nuevaCantidad);
      }
    }

    /** `eliminarDelCarrito(id)` */
    method EliminarDelCarrito(id: int)
      modifies this`carrito
      ensures carrito == RemoveLine(old(carrito), id)
      ensures !InCart(carrito, id)
      ensures old(ValidCart(carrito, productos)) ==> ValidCart(carrito, productos)
    {
      carrito := RemoveLine(carrito, id);
      if old(ValidCart(carrito, productos)) {
        RemoveKeepsValid(old(carrito), productos, id);
      }
    }

    /** `procesarVenta()`: `response` is what the sales API answered to the
        request that is returned in `request` (None when no call was made). */
    method ProcesarVenta(response: ApiResponse<Sale>) returns (outcome: CommitOutcome, request: Option<SaleRequest>)
      modifies this`carrito, this`productos, this`ventas
      ensures old(carrito) == [] <==> outcome == EmptyCart
      ensures outcome == EmptyCart ==> request == None
      ensures outcome != EmptyCart ==> request == Some(SaleRequestOf(currentUser.nombre, old(carrito)))
      ensures outcome == Committed <==> old(carrito) != [] && response.Saved?
      ensures outcome == Committed ==>
                ventas == [response.item] + old(ventas) &&
                productos == ApplySale(old(productos), old(carrito)) &&
                carrito == []
      ensures outcome != Committed ==>
                carrito == old(carrito) && productos == old(productos) && ventas == old(ventas)
    {
      var cart := carrito;
      if |cart| == 0 {
        return EmptyCart, None;
      }
      request := Some(SaleRequestOf(currentUser.nombre, cart));
      if !response.Saved? {
        return Failed, request;
      }
      var stock := productos;
      var nuevos := ApplySale(stock, cart);
      ventas := [response.item] + ventas;
      productos := nuevos;
      carrito := [];
      outcome := Committed;
    }

    /** `limpiarCarrito()`: `confirmado` is the answer to the confirmation dialog. */
    method LimpiarCarrito(confirmado: bool)
      modifies this`carrito
      ensures carrito == if old(carrito) != [] && confirmado then [] else old(carrito)
    {
      if |carrito| > 0 && confirmado {
        carrito := [];
      }
    }
  }
}
