/** Whole runs of the product form, as a host would drive it, with the requests each run
    issues. Each follows from the component's contracts alone. */
module ProductFormRuns {
  import opened JsValues
  import opened ProductSchema
  import opened AdminProductForm

  /** Editing product 42: the categories and the product are requested, the loaded values
      are sent back unchanged in an update of product 42, and only its success leads
      to the list. */
  method EditExistingProduct(r: ProductRecord, options: seq<Category>) returns (trace: seq<Effect>)
    requires Valid(FormOfRecord(r))
    ensures trace == [GetAllCategories, GetProductById(Num(42.0)),
                      UpdateProduct(Num(42.0), FormOfRecord(r)), Navigate(ProductListPath)]
  {
    var c := new ProductFormComponent();
    var started := c.NgOnInit(Some("42"), Num(42.0));
    c.OnCategoriesLoaded(options);
    c.OnProductLoaded(r);
    var call := c.Submit();
    var nav := c.OnSaveSucceeded();
    trace := started + [call.value, nav];
  }

  /** The route id "0" selects edit mode, yet `Number("0")` is falsy, so the submit
      creates a new product instead of updating. */
  method ZeroIdCreates(r: ProductRecord) returns (trace: seq<Effect>, editing: bool)
    requires Valid(FormOfRecord(r))
    ensures editing
    ensures trace == [GetAllCategories, GetProductById(Num(0.0)), CreateProduct(FormOfRecord(r))]
  {
    var c := new ProductFormComponent();
    var started := c.NgOnInit(Some("0"), Num(0.0));
    c.OnProductLoaded(r);
    var call := c.Submit();
    trace := started + [call.value];
    editing := c.isEditMode;
  }

  /** Creating a product: without an id the user's valid input is sent in a create. */
  method CreateNewProduct(input: FormValue) returns (trace: seq<Effect>)
    requires Valid(input)
    ensures trace == [GetAllCategories, CreateProduct(input), Navigate(ProductListPath)]
  {
    var c := new ProductFormComponent();
    var started := c.NgOnInit(None, NaN);
    c.OnUserInput(input);
    var call := c.Submit();
    var nav := c.OnSaveSucceeded();
    trace := started + [call.value, nav];
  }

  /** Submitting the untouched form issues nothing and only marks it submitted. */
  method SubmitUntouchedForm() returns (call: Option<Effect>, submitted: bool, value: Option<FormValue>)
    ensures call == None && submitted
    ensures value == Some(InitialForm())
  {
    var c := new ProductFormComponent();
    var started := c.NgOnInit(None, NaN);
    InitialFormInvalid();
    call := c.Submit();
    submitted, value := c.submitted, c.form;
  }

  /** Two clicks before the first save returns send two creates. */
  method DoubleSubmit(input: FormValue) returns (first: Option<Effect>, second: Option<Effect>)
    requires Valid(input)
    ensures first == second == Some(CreateProduct(input))
  {
    var c := new ProductFormComponent();
    var started := c.NgOnInit(None, NaN);
    c.OnUserInput(input);
    first := c.Submit();
    second := c.Submit();
  }

  /** A failed product load leaves edit mode on the initial values, which cannot be
      submitted; a later empty route emission does not leave edit mode. */
  method FailedLoadStaysInEditMode() returns (call: Option<Effect>, editing: bool)
    ensures call == None && editing
  {
    var c := new ProductFormComponent();
    var started := c.NgOnInit(Some("7"), Num(7.0));
    var later := c.OnRouteParam(None, NaN);
    InitialFormInvalid();
    call := c.Submit();
    editing := c.isEditMode;
  }

  /** A route id such as "new" holds a character no number can contain, so `Number`
      gives NaN: the form is in edit mode, yet a valid submit creates. */
  method NonNumericIdCreates(idNumber: JsNumber, r: ProductRecord) returns (trace: seq<Effect>, editing: bool)
    requires IsNumberOf("new", idNumber)
    requires Valid(FormOfRecord(r))
    ensures editing
    ensures trace == [GetAllCategories, GetProductById(NaN), CreateProduct(FormOfRecord(r))]
  {
    assert RulesOutNumber("new"[2]);
    var c := new ProductFormComponent();
    var started := c.NgOnInit(Some("new"), idNumber);
    c.OnProductLoaded(r);
    var call := c.Submit();
    trace := started + [call.value];
    editing := c.isEditMode;
  }
}
