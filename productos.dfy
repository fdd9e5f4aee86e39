/** The product catalog screen (src/components/ProductosView.js): the stock
    status badge, the low-stock warning, and the catalog edits, every one of
    them reserved to administrators. */
module Productos {
  import opened Seqs
  import opened Domain
  import opened Crud
  import opened Dashboard

  datatype StockStatus = SinStock | StockBajo | StockNormal

  /** `getStockStatus(producto)`: every product gets exactly one status. */
  function GetStockStatus(p: Product): (s: StockStatus)
    ensures s == SinStock <==> p.stock <= 0
    ensures s == StockBajo <==> 0 < p.stock <= p.stockMinimo
    ensures s == StockNormal <==> p.stock > 0 && p.stock > p.stockMinimo
  {
    if p.stock <= 0 then SinStock
    else if p.stock <= p.stockMinimo then StockBajo
    else StockNormal
  }

  /** The warning icon next to the stock (line 233).  It agrees with the
      badge except for a sold-out product whose minimum is negative, which
      gets the "Sin stock" badge and no warning. */
  function ShowsLowStockWarning(p: Product): (w: bool)
    ensures w ==> GetStockStatus(p) != StockNormal
    ensures GetStockStatus(p) == StockBajo ==> w
    ensures !w && GetStockStatus(p) == SinStock ==> p.stockMinimo < p.stock <= 0
  {
    p.stock <= p.stockMinimo
  }

  /** The warning appears on exactly the products the dashboard lists as low
      on stock. */
  lemma WarningMatchesDashboard(productos: seq<Product>, k: int)
    requires 0 <= k < |productos|
    ensures ShowsLowStockWarning(productos[k]) <==> productos[k] in ProductosStockBajo(productos)
  {
  }

  /** `currentUser?.rol === 'admin'` */
  function IsAdmin(currentUser: Option<User>): bool {
    currentUser.Some? && currentUser.value.rol == "admin"
  }

  /** The product form: empty, or filled from the product being edited. */
  datatype ProductForm = BlankProduct | FilledFrom(product: Product)

  function EditingId(editingItem: Option<Product>): Option<int> {
    if editingItem.Some? then Some(editingItem.value.id) else None
  }

  class ProductosView {
    const currentUser: Option<User>
    var productos: seq<Product>
    var editingItem: Option<Product>
    var showModal: bool
    var formData: ProductForm

    constructor (currentUser: Option<User>, productos: seq<Product>)
      ensures this.currentUser == currentUser && this.productos == productos
      ensures editingItem == None && !showModal && formData == BlankProduct
    {
      this.currentUser := currentUser;
      this.productos := productos;
      editingItem := None;
      showModal := false;
      formData := BlankProduct;
    }

    /** `resetForm()` */
    method ResetForm()
      modifies this`editingItem, this`showModal, this`formData
      ensures editingItem == None && !showModal && formData == BlankProduct
    {
      formData := BlankProduct;
      editingItem := None;
      showModal := false;
    }

    /** `handleSubmit(e)`.  The update or create call answers `response`; the
        form is reset whether or not the answer carries `success`, but not
        when the call throws. */
    method HandleSubmit(response: ApiResponse<Product>)
      modifies this`productos, this`editingItem, this`showModal, this`formData
      ensures !IsAdmin(currentUser) || response.Threw? ==>
                productos == old(productos) && editingItem == old(editingItem) &&
                showModal == old(showModal) && formData == old(formData)
      ensures IsAdmin(currentUser) && !response.Threw? ==>
                productos == SubmitList(old(productos), ProductId, EditingId(old(editingItem)), response) &&
                editingItem == None && !showModal && formData == BlankProduct
    {
      if !IsAdmin(currentUser) {
        return;
      }
      if response.Threw? {
        return;
      }
      if editingItem.Some? {
        if response.Saved? {
          productos := ReplaceById(productos, ProductId, editingItem.value.id, response.item);
        }
      } else {
        if response.Saved? {
          productos := Append(productos, response.item);
        }
      }
      ResetForm();
    }

    /** `handleEdit(product)` */
    method HandleEdit(product: Product)
      modifies this`editingItem, this`showModal, this`formData
      ensures !IsAdmin(currentUser) ==>
                editingItem == old(editingItem) && showModal == old(showModal) && formData == old(formData)
      ensures IsAdmin(currentUser) ==> editingItem == Some(product) && formData == FilledFrom(product) && showModal
    {
      if !IsAdmin(currentUser) {
        return;
      }
      editingItem := Some(product);
      formData := FilledFrom(product);
      showModal := true;
    }

    /** `handleDelete(id)`: `confirmado` answers the confirmation dialog and
        `success` is the delete call's answer. */
    method HandleDelete(id: int, confirmado: bool, success: bool)
      modifies this`productos
      ensures IsAdmin(currentUser) && confirmado && success ==> productos == RemoveById(old(productos), ProductId, id)
      ensures !(IsAdmin(currentUser) && confirmado && success) ==> productos == old(productos)
    {
      if !IsAdmin(currentUser) {
        return;
      }
      if confirmado && success {
        productos := RemoveById(productos, ProductId, id);
      }
    }

    /** `openNewProductModal()` */
    method OpenNewProductModal()
      modifies this`editingItem, this`showModal, this`formData
      ensures !IsAdmin(currentUser) ==>
                editingItem == old(editingItem) && showModal == old(showModal) && formData == old(formData)
      ensures IsAdmin(currentUser) ==> editingItem == None && formData == BlankProduct && showModal
    {
      if !IsAdmin(currentUser) {
        return;
      }
      editingItem := None;
      formData := BlankProduct;
      showModal := true;
    }
  }

  /** A confirmed delete of a listed product removes exactly that product
      and keeps the others in catalog order, when ids are unique. */
  lemma DeleteRemovesExactlyOne(productos: seq<Product>, k: int)
    requires UniqueIds(productos, ProductId) && 0 <= k < |productos|
    ensures RemoveById(productos, ProductId, productos[k].id) == productos[..k] + productos[k + 1..]
  {
    RemoveUnique(productos, ProductId, k);
  }

  /** A successful update of a listed product changes that position only. */
  lemma UpdateReplacesExactlyOne(productos: seq<Product>, k: int, saved: Product)
    requires UniqueIds(productos, ProductId) && 0 <= k < |productos|
    ensures SubmitList(productos, ProductId, Some(productos[k].id), Saved(saved)) == productos[k := saved]
  {
    ReplaceUnique(productos, ProductId, k, saved);
  }
}
