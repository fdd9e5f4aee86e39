/** The categories screen (src/components/CategoriasView.js): the number of
    products in each category, the rule that a category with products cannot
    be deleted, and the category list edits. */
module Categorias {
  import opened Seqs
  import opened Domain
  import opened Crud

  datatype Categoria = Categoria(id: int, nombre: string, descripcion: string)

  function CategoriaId(c: Categoria): int { c.id }

  /** The category form's two fields. */
  datatype CategoriaForm = CategoriaForm(nombre: string, descripcion: string)

  const EmptyCategoriaForm := CategoriaForm("", "")

  /** `getProductCount(categoriaId)`: how many products belong to the category. */
  function ProductCount(productos: seq<Product>, categoriaId: int): (n: nat)
    ensures n <= |productos|
    ensures n > 0 <==> exists k :: 0 <= k < |productos| && productos[k].categoriaId == categoriaId
  {
    var r := Filter(productos, (p: Product) => p.categoriaId == categoriaId);
    if exists k :: 0 <= k < |productos| && productos[k].categoriaId == categoriaId then
      var k :| 0 <= k < |productos| && productos[k].categoriaId == categoriaId;
      assert productos[k] in r;
      |r|
    else
      FilterNone(productos, (p: Product) => p.categoriaId == categoriaId);
      |r|
  }

  /** The count goes up by one for each product of the category added to the
      catalog, and by nothing for a product of another category. */
  lemma ProductCountAppend(productos: seq<Product>, p: Product, categoriaId: int)
    ensures ProductCount(productos + [p], categoriaId) ==
            ProductCount(productos, categoriaId) + (if p.categoriaId == categoriaId then 1 else 0)
  {
    FilterConcat(productos, [p], (q: Product) => q.categoriaId == categoriaId);
  }

  /** The delete button is disabled for a category with products (line 190). */
  function DeleteButtonDisabled(productos: seq<Product>, categoriaId: int): (disabled: bool)
    ensures disabled <==> exists k :: 0 <= k < |productos| && productos[k].categoriaId == categoriaId
  {
    ProductCount(productos, categoriaId) > 0
  }

  datatype DeleteOutcome = HasProducts(count: nat) | NotConfirmed | Deleted | NotDeleted

  class CategoriasView {
    const productos: seq<Product>
    var categorias: seq<Categoria>
    var editingItem: Option<Categoria>
    var showModal: bool
    var formData: CategoriaForm

    constructor (productos: seq<Product>, categorias: seq<Categoria>)
      ensures this.productos == productos && this.categorias == categorias
      ensures editingItem == None && !showModal && formData == EmptyCategoriaForm
    {
      this.productos := productos;
      this.categorias := categorias;
      editingItem := None;
      showModal := false;
      formData := EmptyCategoriaForm;
    }

    /** `resetForm()` */
    method ResetForm()
      modifies this`editingItem, this`showModal, this`formData
      ensures editingItem == None && !showModal && formData == EmptyCategoriaForm
    {
      formData := EmptyCategoriaForm;
      editingItem := None;
      showModal := false;
    }

    /** `handleSubmit(e)`: no role check here; the form is reset unless the
        call throws. */
    method HandleSubmit(response: ApiResponse<Categoria>)
      modifies this`categorias, this`editingItem, this`showModal, this`formData
      ensures response.Threw? ==>
                categorias == old(categorias) && editingItem == old(editingItem) &&
                showModal == old(showModal) && formData == old(formData)
      ensures !response.Threw? ==>
                categorias == SubmitList(old(categorias), CategoriaId,
                                         if old(editingItem).Some? then Some(old(editingItem).value.id) else None,
                                         response) &&
                editingItem == None && !showModal && formData == EmptyCategoriaForm
    {
      if response.Threw? {
        return;
      }
      if editingItem.Some? {
        if response.Saved? {
          categorias := ReplaceById(categorias, CategoriaId, editingItem.value.id, response.item);
        }
      } else {
        if response.Saved? {
          categorias := Append(categorias, response.item);
        }
      }
      ResetForm();
    }

    /** `handleEdit(categoria)` */
    method HandleEdit(categoria: Categoria)
      modifies this`editingItem, this`showModal, this`formData
      ensures editingItem == Some(categoria) && showModal
      ensures formData == CategoriaForm(categoria.nombre, categoria.descripcion)
    {
      editingItem := Some(categoria);
      formData := CategoriaForm(categoria.nombre, categoria.descripcion);
      showModal := true;
    }

    /** `handleDelete(id)`: the product count is checked before the
        confirmation dialog (`confirmado`) and the delete call (`success`). */
    method HandleDelete(id: int, confirmado: bool, success: bool) returns (outcome: DeleteOutcome)
      modifies this`categorias
      ensures outcome.HasProducts? <==> DeleteButtonDisabled(productos, id)
      ensures outcome.HasProducts? ==> outcome.count == ProductCount(productos, id)
      ensures outcome == Deleted <==> !DeleteButtonDisabled(productos, id) && confirmado && success
      ensures outcome == Deleted ==> categorias == RemoveById(old(categorias), CategoriaId, id)
      ensures outcome != Deleted ==> categorias == old(categorias)
    {
      var productosAsociados := ProductCount(productos, id);
      if productosAsociados > 0 {
        return HasProducts(productosAsociados);
      }
      if !confirmado {
        return NotConfirmed;
      }
      if success {
        categorias := RemoveById(categorias, CategoriaId, id);
        outcome := Deleted;
      } else {
        outcome := NotDeleted;
      }
    }

    /** `openNewCategoriaModal()` */
    method OpenNewCategoriaModal()
      modifies this`editingItem, this`showModal, this`formData
      ensures editingItem == None && formData == EmptyCategoriaForm && showModal
    {
      editingItem := None;
      formData := EmptyCategoriaForm;
      showModal := true;
    }
  }

  /** A category that some product refers to is never deleted, so no product
      is left pointing at a deleted category by this screen. */
  lemma DeleteKeepsReferencedCategory(productos: seq<Product>, categorias: seq<Categoria>, k: int, j: int)
    requires 0 <= k < |productos| && 0 <= j < |categorias| && productos[k].categoriaId == categorias[j].id
    ensures DeleteButtonDisabled(productos, categorias[j].id)
    ensures ProductCount(productos, categorias[j].id) >= 1
  {
  }

  /** With unique ids, a successful delete removes exactly that category and
      keeps the others in order. */
  lemma DeleteRemovesExactlyOne(categorias: seq<Categoria>, k: int)
    requires UniqueIds(categorias, CategoriaId) && 0 <= k < |categorias|
    ensures RemoveById(categorias, CategoriaId, categorias[k].id) == categorias[..k] + categorias[k + 1..]
  {
    RemoveUnique(categorias, CategoriaId, k);
  }
}
