/** The admin product form component: the state it keeps, the events that drive it
    (initialisation, route parameters, the two fetch continuations, submit, cancel) and
    the outbound requests each event issues. Service calls and navigation are returned
    as `Effect` values; a fetch's success continuation is a separate event that the
    environment may deliver in any order, or never (a failed call). */
module AdminProductForm {
  import opened JsValues
  import opened ProductSchema

  /** A category option, as the category service returns it. */
  datatype Category = Category(id: real, name: string)

  /** A product as the product service returns it (wire field names). */
  datatype ProductRecord = ProductRecord(
    id: real,
    name: string,
    description: string,
    price: real,
    is_active: bool,
    image_url: string,
    quantity: real,
    category_id: real)

  /** What the component asks of its collaborators. */
  datatype Effect =
    | GetAllCategories
    | GetProductById(id: JsNumber)
    | CreateProduct(payload: FormValue)
    | UpdateProduct(id: JsNumber, payload: FormValue)
    | Navigate(path: string)

  /** The product list view, where a saved or cancelled form leads. */
  const ProductListPath: string := "/admin/products"

  /** The record field each control is loaded from: `isActive` from `is_active`,
      `categoryId` from `category_id`, the others from the field of the same name. */
  function RecordValue(r: ProductRecord, field: Field): FieldValue
  {
    match field
    case Name => Text(r.name)
    case Description => Text(r.description)
    case Price => Number(r.price)
    case ImageUrl => Text(r.image_url)
    case Quantity => Number(r.quantity)
    case CategoryId => Number(r.category_id)
    case IsActive => Flag(r.is_active)
  }

  /** The form value after patching every control from a loaded record. */
  function FormOfRecord(r: ProductRecord): (f: FormValue)
    ensures forall field: Field :: ValueOf(f, field) == RecordValue(r, field)
  {
    FormValue(r.name, r.description, r.price, r.image_url, r.quantity, r.category_id, r.is_active)
  }

  /** The submit branch `isEditMode && productId`: update only in edit mode with a
      truthy id (not null, not 0, not NaN). */
  predicate TargetsUpdate(isEditMode: bool, productId: Option<JsNumber>)
  {
    isEditMode && NullableNumberTruthy(productId)
  }

  /** `Number(id)` as the runtime computes it: exact on decimal digit strings, NaN on a
      string holding a character no numeric literal can contain, any number otherwise. */
  predicate IsNumberOf(id: string, n: JsNumber)
  {
    && (IsDecimalDigits(id) ==> n == Num(DecimalValue(id) as real))
    && ((exists i :: 0 <= i < |id| && RulesOutNumber(id[i])) ==> n == NaN)
  }

  /** A route whose id segment is rendered from a product id n reads back as n, and for
      any n but 0 a submit in edit mode updates that product. */
  lemma {:induction false} RouteIdSelectsProduct(n: nat)
    ensures StringTruthy(Some(DecimalString(n)))
    ensures IsNumberOf(DecimalString(n), Num(n as real))
    ensures TargetsUpdate(true, Some(Num(n as real))) <==> n != 0
  {
    DecimalRoundTrip(n);
  }

  class ProductFormComponent {
    /** `productForm`: unassigned until `initializeForm` builds it. */
    var form: Option<FormValue>
    var categories: seq<Category>
    var isEditMode: bool
    var productId: Option<JsNumber>
    var submitted: bool

    /** The field initialisers: no form yet, no categories, create mode, no id. */
    constructor ()
      ensures form == None && categories == [] && !isEditMode && productId == None && !submitted
    {
      form := None;
      categories := [];
      isEditMode := false;
      productId := None;
      submitted := false;
    }

    /** `initializeForm`: a fresh form with every control at its declared initial value
        (calling it again resets the form). */
    method InitializeForm()
      modifies this
      ensures form == Some(InitialForm())
      ensures categories == old(categories) && isEditMode == old(isEditMode)
      ensures productId == old(productId) && submitted == old(submitted)
    {
      form := Some(InitialForm());
    }

    /** `fetchCategories`: requests the category list and changes nothing yet. */
    method FetchCategories() returns (e: Effect)
      ensures e == GetAllCategories
    {
      e := GetAllCategories;
    }

    /** The continuation of `fetchCategories`: the received list replaces the old one
        wholesale. */
    method OnCategoriesLoaded(data: seq<Category>)
      modifies this
      ensures categories == data
      ensures form == old(form) && isEditMode == old(isEditMode)
      ensures productId == old(productId) && submitted == old(submitted)
    {
      categories := data;
    }

    /** `loadProduct`: requests the product with the given id and changes nothing yet. */
    method LoadProduct(id: JsNumber) returns (e: Effect)
      ensures e == GetProductById(id)
    {
      e := GetProductById(id);
    }

    /** The continuation of `loadProduct`: every control is overwritten from the record,
        nothing else changes. */
    method OnProductLoaded(data: ProductRecord)
      requires form.Some?
      modifies this
      ensures form == Some(FormOfRecord(data))
      ensures forall field: Field :: ValueOf(form.value, field) == RecordValue(data, field)
      ensures categories == old(categories) && isEditMode == old(isEditMode)
      ensures productId == old(productId) && submitted == old(submitted)
    {
      form := Some(FormOfRecord(data));
    }

    /** An emission of the route's parameter map, with `id` its "id" entry and `idNumber`
        the value of `Number(id)`. A non-empty id switches to edit mode, records the
        number and requests that product; a missing or empty id changes nothing, so edit
        mode is never left. */
    method OnRouteParam(id: Option<string>, idNumber: JsNumber) returns (effects: seq<Effect>)
      requires id.Some? ==> IsNumberOf(id.value, idNumber)
      modifies this
      ensures StringTruthy(id) ==> isEditMode && productId == Some(idNumber)
      ensures StringTruthy(id) ==> effects == [GetProductById(idNumber)]
      ensures !StringTruthy(id) ==> isEditMode == old(isEditMode) && productId == old(productId)
      ensures !StringTruthy(id) ==> effects == []
      ensures old(isEditMode) ==> isEditMode
      ensures form == old(form) && categories == old(categories) && submitted == old(submitted)
    {
      effects := [];
      if id.Some? && id.value != "" {
        isEditMode := true;
        productId := Some(idNumber);
        var load := LoadProduct(idNumber);
        effects := [load];
      }
    }

    /** `ngOnInit`: builds the form, requests the categories and subscribes to the route's
        parameters, whose current value (`id`, with `idNumber` its `Number`) is delivered
        at once; later emissions are further `OnRouteParam` events. */
    method NgOnInit(id: Option<string>, idNumber: JsNumber) returns (effects: seq<Effect>)
      requires id.Some? ==> IsNumberOf(id.value, idNumber)
      modifies this
      ensures form == Some(InitialForm())
      ensures categories == old(categories) && submitted == old(submitted)
      ensures StringTruthy(id) ==> isEditMode && productId == Some(idNumber)
      ensures StringTruthy(id) ==> effects == [GetAllCategories, GetProductById(idNumber)]
      ensures !StringTruthy(id) ==> isEditMode == old(isEditMode) && productId == old(productId)
      ensures !StringTruthy(id) ==> effects == [GetAllCategories]
    {
      InitializeForm();
      var fetch := FetchCategories();
      var routed := OnRouteParam(id, idNumber);
      effects := [fetch] + routed;
    }

    /** `onSubmit`: always marks the form submitted. An invalid form issues nothing and
        keeps its values; a valid one issues exactly one save request carrying the whole
        form value: an update of `productId` when `isEditMode && productId` is truthy,
        a create otherwise. Navigation waits for `OnSaveSucceeded`, and nothing guards
        against a second submit while a save is in flight. */
    method Submit() returns (call: Option<Effect>)
      requires form.Some?
      modifies this
      ensures submitted
      ensures form == old(form) && categories == old(categories)
      ensures isEditMode == old(isEditMode) && productId == old(productId)
      ensures call.None? <==> !Valid(form.value)
      ensures call.Some? && TargetsUpdate(isEditMode, productId) ==>
                call.value == UpdateProduct(productId.value, form.value)
      ensures call.Some? && !TargetsUpdate(isEditMode, productId) ==>
                call.value == CreateProduct(form.value)
    {
      submitted := true;
      var value := form.value;
      if !Valid(value) {
        return None;
      }
      if isEditMode && productId.Some? && NumberTruthy(productId.value) {
        call := Some(UpdateProduct(productId.value, value));
      } else {
        call := Some(CreateProduct(value));
      }
    }

    /** The continuation of a successful create or update: go to the product list. */
    method OnSaveSucceeded() returns (e: Effect)
      ensures e == Navigate(ProductListPath)
    {
      e := Navigate(ProductListPath);
    }

    /** `onCancel`: go to the product list, whatever the form holds; no request, no state
        change. */
    method Cancel() returns (e: Effect)
      ensures e == Navigate(ProductListPath)
    {
      e := Navigate(ProductListPath);
    }

    /** The template's input binding: the user's edits replace the control values. */
    method OnUserInput(value: FormValue)
      requires form.Some?
      modifies this
      ensures form == Some(value)
      ensures categories == old(categories) && isEditMode == old(isEditMode)
      ensures productId == old(productId) && submitted == old(submitted)
    {
      form := Some(value);
    }
  }
}
