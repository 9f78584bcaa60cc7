/**
 * The admin product manager: the product list, the modal with its six
 * text fields, and the edit, submit and reset handlers. The server's
 * answer to the update or create call is an input.
 */
module AdminProducts {
  import opened Wrappers
  import opened JsValues
  import opened Types
  import ProductService

  /** The modal's six editable fields, all held as text. */
  datatype ProductForm = ProductForm(name: string, description: string, price: string,
                                     image: string, category: string, stock: string)

  const EmptyForm := ProductForm("", "", "", "", "", "")

  datatype PageState = PageState(products: seq<Product>, showModal: bool, editing: Option<Product>, form: ProductForm)

  /**
   * The body sent to the server: the form with price and stock converted by
   * `Number`; a new product also gets rating and review count 0.
   */
  datatype ProductPayload = ProductPayload(
    name: string, description: string, price: JsNumber, image: string,
    category: string, stock: JsNumber, rating: Option<int>, reviews: Option<int>)

  datatype SaveRequest = UpdateProduct(id: string, payload: ProductPayload) | CreateProduct(payload: ProductPayload)

  /** The update body: the four text fields as typed, price and stock through `Number`, no rating or reviews. */
  function UpdatePayload(f: ProductForm): (p: ProductPayload)
    ensures p.name == f.name && p.description == f.description
    ensures p.image == f.image && p.category == f.category
    ensures p.price == NumberOf(f.price) && p.stock == NumberOf(f.stock)
    ensures p.rating.None? && p.reviews.None?
  {
    ProductPayload(f.name, f.description, NumberOf(f.price), f.image, f.category, NumberOf(f.stock), None, None)
  }

  function CreatePayload(f: ProductForm): (p: ProductPayload)
    ensures p.rating == Some(0) && p.reviews == Some(0)
    ensures p.name == f.name && p.description == f.description
    ensures p.image == f.image && p.category == f.category
    ensures p.price == NumberOf(f.price) && p.stock == NumberOf(f.stock)
  {
    UpdatePayload(f).(rating := Some(0), reviews := Some(0))
  }

  /** The call `handleSubmit` makes: an update of the product being edited, or a create. */
  function SaveRequestOf(s: PageState): (r: SaveRequest)
    ensures s.editing.Some? <==> r.UpdateProduct?
    ensures r.UpdateProduct? ==> r.id == s.editing.value.id && r.payload == UpdatePayload(s.form)
    ensures r.CreateProduct? ==> r.payload == CreatePayload(s.form)
  {
    match s.editing
    case Some(p) => UpdateProduct(p.id, UpdatePayload(s.form))
    case None => CreateProduct(CreatePayload(s.form))
  }

  /** `products.map(p => p.id === id ? updated : p)`. */
  function ReplaceById(ps: seq<Product>, id: string, updated: Product): (r: seq<Product>)
    ensures |r| == |ps|
    ensures forall i :: 0 <= i < |ps| ==> r[i] == if ps[i].id == id then updated else ps[i]
  {
    if |ps| == 0 then [] else [if ps[0].id == id then updated else ps[0]] + ReplaceById(ps[1..], id, updated)
  }

  /** With distinct ids, replacing by id changes exactly the one position that holds the id. */
  lemma ReplaceByIdIsUpdate(ps: seq<Product>, k: int, updated: Product)
    requires ProductService.DistinctIds(ps)
    requires 0 <= k < |ps|
    ensures ReplaceById(ps, ps[k].id, updated) == ps[k := updated]
  {
  }

  /** Replacing an id that is not listed changes nothing. */
  lemma ReplaceAbsentId(ps: seq<Product>, id: string, updated: Product)
    requires forall i :: 0 <= i < |ps| ==> ps[i].id != id
    ensures ReplaceById(ps, id, updated) == ps
  {
  }

  function ResetForm(s: PageState): (r: PageState)
    ensures r.form == EmptyForm
    ensures r.products == s.products && r.showModal == s.showModal && r.editing == s.editing
  {
    s.(form := EmptyForm)
  }

  /** `handleSubmit` given the outcome of the update or create call. */
  function Submit(s: PageState, outcome: Result<Product, Failure>): (r: PageState)
    ensures outcome.Err? ==> r == s
    ensures outcome.Ok? ==> !r.showModal && r.editing.None? && r.form == EmptyForm
    ensures outcome.Ok? && s.editing.Some? ==>
              r.products == ReplaceById(s.products, s.editing.value.id, outcome.value)
    ensures outcome.Ok? && s.editing.None? ==> r.products == s.products + [outcome.value]
  {
    match outcome
    case Err(_) => s
    case Ok(saved) =>
      var products := if s.editing.Some? then ReplaceById(s.products, s.editing.value.id, saved)
                      else s.products + [saved];
      ResetForm(PageState(products, false, None, s.form))
  }

  /** A successful create grows the list by one, keeps the old products in place and puts the new one last. */
  lemma CreateAppends(s: PageState, created: Product)
    requires s.editing.None?
    ensures var r := Submit(s, Ok(created));
            |r.products| == |s.products| + 1
            && r.products[..|s.products|] == s.products
            && r.products[|s.products|] == created
  {
  }

  /** `handleEdit(product)`: open the modal on the product, its price and stock written as text. */
  function Edit(s: PageState, p: Product): (r: PageState)
    ensures r.editing == Some(p) && r.showModal && r.products == s.products
    ensures r.form == ProductForm(p.name, p.description, IntToString(p.price), p.image, p.category, IntToString(p.stock))
  {
    PageState(s.products, true, Some(p),
              ProductForm(p.name, p.description, IntToString(p.price), p.image, p.category, IntToString(p.stock)))
  }

  /** The `Add Product` button: a blank modal that will create. */
  function StartCreate(s: PageState): (r: PageState)
    ensures r.editing.None? && r.showModal && r.form == EmptyForm && r.products == s.products
  {
    ResetForm(s.(editing := None, showModal := true))
  }

  /** Editing and saving without touching a field sends back the product's own values. */
  lemma EditThenSaveUnchanged(s: PageState, p: Product)
    ensures var req := SaveRequestOf(Edit(s, p));
            && req == UpdateProduct(p.id, req.payload)
            && req.payload.name == p.name && req.payload.description == p.description
            && req.payload.image == p.image && req.payload.category == p.category
            && req.payload.price == Num(p.price) && req.payload.stock == Num(p.stock)
  {
    NumberOfIntToString(p.price);
    NumberOfIntToString(p.stock);
  }
}
