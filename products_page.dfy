/** The products page: the product list, loaded cache-first from the
    browser store, and the add, edit and delete handlers behind its modal
    form. The create, update and delete requests are parameters: their
    outcome is all the page sees of them. */
module ProductsPage {
  import opened Wrappers
  import opened Entities
  import opened Lookup

  /** The browser-store key under which the product list is kept. */
  const ProductsKey: string := "products"

  const AddFailed: string := "Failed to add product"
  const EditFailed: string := "Failed to update product"
  const DeleteFailed: string := "Failed to delete product"

  /** The values of the product form; an empty price field is `None`. */
  datatype ProductValues = ProductValues(title: string, price: Option<Cents>, description: string,
                                         category: string, image: string)

  /** The form's values when it opens for a new product. */
  const BlankValues: ProductValues := ProductValues("", None, "", "", "")

  /** The form's values when it opens on an existing product. */
  function ValuesOf(p: Product): ProductValues
  {
    ProductValues(p.title, Some(p.price), p.description, p.category, p.image)
  }

  /** `productValidationSchema`: every text field required (non-empty),
      the price present and positive. The URL format of the image is not
      part of this predicate. */
  predicate ProductValuesValid(v: ProductValues)
  {
    |v.title| > 0 && v.price.Some? && v.price.value > 0 && |v.description| > 0 &&
    |v.category| > 0 && |v.image| > 0
  }

  /** The blank form is rejected, and opening the form on a product whose
      fields are all filled in with a positive price gives valid values. */
  lemma FormStartValidity(p: Product)
    ensures !ProductValuesValid(BlankValues)
    ensures ProductValuesValid(ValuesOf(p)) <==>
      (|p.title| > 0 && p.price > 0 && |p.description| > 0 && |p.category| > 0 && |p.image| > 0)
  {
  }

  class ProductsPage {
    var products: seq<Product>
    var loading: bool
    var showModal: bool
    var editingProduct: Option<Product>
    /** The browser store, as far as the product list is concerned. */
    var storage: map<string, seq<Product>>

    constructor (initialStorage: map<string, seq<Product>>)
      ensures products == [] && loading && !showModal && editingProduct == None
      ensures storage == initialStorage
    {
      products := [];
      loading := true;
      showModal := false;
      editingProduct := None;
      storage := initialStorage;
    }

    /** `loadProducts`: a cached list is used without any request;
        otherwise the fetched list, when the request succeeds, becomes the
        state and is written under the key. The loading flag ends false. */
    method LoadProducts(fetched: Result<seq<Product>>) returns (requested: bool)
      modifies this
      ensures !loading && showModal == old(showModal) && editingProduct == old(editingProduct)
      ensures requested <==> ProductsKey !in old(storage)
      ensures !requested ==> products == old(storage)[ProductsKey] && storage == old(storage)
      ensures requested && fetched.Ok? ==>
        products == fetched.value && storage == old(storage)[ProductsKey := fetched.value]
      ensures requested && fetched.Err? ==> products == old(products) && storage == old(storage)
    {
      requested := ProductsKey !in storage;
      if !requested {
        products := storage[ProductsKey];
      } else if fetched.Ok? {
        products := fetched.value;
        storage := storage[ProductsKey := fetched.value];
      }
      loading := false;
    }

    /** The "Add Product" button. */
    method OpenAdd()
      modifies this
      ensures editingProduct == None && showModal
      ensures products == old(products) && loading == old(loading) && storage == old(storage)
    {
      editingProduct := None;
      showModal := true;
    }

    /** A product's "Edit" button. */
    method OpenEdit(p: Product)
      modifies this
      ensures editingProduct == Some(p) && showModal
      ensures products == old(products) && loading == old(loading) && storage == old(storage)
    {
      editingProduct := Some(p);
      showModal := true;
    }

    /** The form's "Cancel" button. */
    method CloseModal()
      modifies this
      ensures editingProduct == None && !showModal
      ensures products == old(products) && loading == old(loading) && storage == old(storage)
    {
      showModal := false;
      editingProduct := None;
    }

    /** `handleAddProduct`: a created product is appended and the modal
        closes; a failed request leaves everything as it was and alerts. */
    method HandleAddProduct(created: Result<Product>) returns (alert: Option<string>)
      modifies this
      ensures created.Ok? ==> products == old(products) + [created.value] && !showModal && alert == None
      ensures created.Err? ==>
        products == old(products) && showModal == old(showModal) && alert == Some(AddFailed)
      ensures editingProduct == old(editingProduct) && loading == old(loading) && storage == old(storage)
    {
      if created.Err? {
        return Some(AddFailed);
      }
      products := products + [created.value];
      showModal := false;
      alert := None;
    }

    /** `handleEditProduct`: every product carrying the edited product's id
        is replaced by the updated one, the others stay in place, and the
        modal closes. A failed request, or no product under edit (reading
        its id throws), leaves everything as it was and alerts. */
    method HandleEditProduct(updated: Result<Product>) returns (alert: Option<string>)
      modifies this
      ensures old(editingProduct).Some? && updated.Ok? ==>
        products == ReplaceKey(old(products), ProductId, old(editingProduct).value.id, updated.value) &&
        editingProduct == None && !showModal && alert == None
      ensures !(old(editingProduct).Some? && updated.Ok?) ==>
        products == old(products) && editingProduct == old(editingProduct) &&
        showModal == old(showModal) && alert == Some(EditFailed)
      ensures loading == old(loading) && storage == old(storage)
    {
      if editingProduct.None? || updated.Err? {
        return Some(EditFailed);
      }
      products := ReplaceKey(products, ProductId, editingProduct.value.id, updated.value);
      editingProduct := None;
      showModal := false;
      alert := None;
    }

    /** `handleDeleteProduct`: nothing happens unless the user confirms;
        a confirmed, successful delete drops every product with that id and
        keeps the rest in order; a failed one changes nothing and alerts. */
    method HandleDeleteProduct(productId: int, confirmed: bool, deleted: Outcome) returns (alert: Option<string>)
      modifies this
      ensures confirmed && deleted.Pass? ==> products == RemoveKey(old(products), ProductId, productId)
      ensures !(confirmed && deleted.Pass?) ==> products == old(products)
      ensures alert == if confirmed && deleted.Fail? then Some(DeleteFailed) else None
      ensures editingProduct == old(editingProduct) && showModal == old(showModal)
      ensures loading == old(loading) && storage == old(storage)
    {
      alert := None;
      if confirmed {
        if deleted.Fail? {
          return Some(DeleteFailed);
        }
        products := RemoveKey(products, ProductId, productId);
      }
    }

    /** The modal form's submit: values the schema rejects never reach a
        handler; valid ones go to the edit handler when a product is under
        edit and to the add handler otherwise, with the request's outcome. */
    method SubmitForm(values: ProductValues, response: Result<Product>) returns (alert: Option<string>)
      modifies this
      ensures !ProductValuesValid(values) ==>
        products == old(products) && editingProduct == old(editingProduct) &&
        showModal == old(showModal) && alert == None
      ensures ProductValuesValid(values) && old(editingProduct).None? && response.Ok? ==>
        products == old(products) + [response.value]
      ensures ProductValuesValid(values) && old(editingProduct).Some? && response.Ok? ==>
        products == ReplaceKey(old(products), ProductId, old(editingProduct).value.id, response.value)
      ensures response.Err? ==> products == old(products)
      ensures ProductValuesValid(values) && response.Ok? ==> !showModal && editingProduct == None && alert == None
      ensures ProductValuesValid(values) && response.Err? ==>
        showModal == old(showModal) && editingProduct == old(editingProduct) &&
        alert == Some(if old(editingProduct).Some? then EditFailed else AddFailed)
      ensures loading == old(loading) && storage == old(storage)
    {
      if !ProductValuesValid(values) {
        return None;
      }
      if editingProduct.Some? {
        alert := HandleEditProduct(response);
      } else {
        alert := HandleAddProduct(response);
      }
    }
  }
}
