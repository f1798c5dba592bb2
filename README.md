# Admin product form — a Dafny model

This project models the state machine of the admin product form
(`ProductFormComponent`) of the e-commerce front end. The form creates a new catalog
product or edits an existing one. It keeps five pieces of state: the form value, the
category options, the edit-mode flag, the product id taken from the route, and the
"submitted" flag. The events that drive it are:

- initialisation;
- emissions of the route's parameters;
- the success continuations of the category fetch and the product fetch;
- submit, the success of a save, and cancel.

Every request the component makes of its collaborators is returned as an `Effect`
value: fetch the categories, fetch a product, create, update, or navigate.

Files:

- `js_values.dfy` (module `JsValues`): the JavaScript values the form observes. These
  are `T | null`, numbers with 0 and NaN, truthiness, and `Number(s)` on decimal digit
  strings, with the round trip `Number(String(n)) == n`.
- `http_url.dfy` (module `HttpUrl`): the image URL pattern `/^https?:\/\/.+/`. Its
  meaning as an ECMAScript regular expression (ECMA-262 section 22.2) is defined as the
  existence of a matching prefix. A direct check is proved to decide it in both
  directions.
- `product_schema.dfy` (module `ProductSchema`): the declaration table of the seven
  controls, with each control's initial value and validators, kept as data. A
  closed-form `Valid` predicate is proved equivalent to "every control passes every
  validator declared for it".
- `product_form.dfy` (module `AdminProductForm`): the component as a class. Each event
  is a method whose contract gives the whole new state and the requests it issues.
- `scenarios.dfy` (module `ProductFormRuns`): whole runs driven as a host would drive
  them, each with the trace of requests it produces.

The model keeps these behaviours of the code:

- Any non-empty `id` selects edit mode, not only one that parses as an integer.
- A submit in edit mode updates only when `productId` is truthy. When `Number(id)` is
  0 (id `"0"`) or NaN (an id such as `"new"`, which holds a character no number can
  contain), it creates a new product instead.
- `quantity` and `categoryId` carry no integrality validator, so they are modelled as
  numbers (reals) like `price`.
- The save payload is the form value itself, so its keys are `image_url`, `categoryId`
  and `isActive`.

## Model

| member | source | states |
|---|---|---|
| `JsValues.DecimalRoundTrip` | Frontend/src/app/features/admin-management/product-form/product-form.component.ts:40 | `Number` applied to the decimal rendering of any natural number gives that number back, and the rendering is a non-empty digit string |
| `JsValues.Utf16Length` | Frontend/src/app/features/admin-management/product-form/product-form.component.ts:48-49 | the length the length validators compare is at least the number of characters and at most twice it; it equals the number of characters when all lie in the Basic Multilingual Plane and twice it when none do |
| `HttpUrl.HttpUrlPrefixDecidesPattern` | Frontend/src/app/features/admin-management/product-form/product-form.component.ts:51 | `/^https?:\/\/.+/` matches a string iff it starts with `http://` or `https://` followed by at least one character that is not a line terminator |
| `HttpUrl.NotAUrlRejected` | Frontend/src/app/features/admin-management/product-form/product-form.component.ts:51 | the pattern does not match `notaurl` |
| `ProductSchema.ValidIffTableValid` | Frontend/src/app/features/admin-management/product-form/product-form.component.ts:48-54 | the form passes all declared validators iff the name's JavaScript length (UTF-16 code units) is in 3..100, the description's in 10..500, 0.01 ≤ price ≤ 1000000, image_url matches the URL pattern, 0 ≤ quantity ≤ 10000 and categoryId ≥ 1; `isActive` is unconstrained |
| `ProductSchema.NameLengthInCodeUnits` | Frontend/src/app/features/admin-management/product-form/product-form.component.ts:48 | a name of "a" plus one emoji has length 3 and passes the name validators; a name of 51 emoji has length 102 and fails `maxLength(100)` |
| `ProductSchema.InitialForm` | Frontend/src/app/features/admin-management/product-form/product-form.component.ts:46-56 | the initial form holds, control by control, the declared initial value: empty texts, zero numbers, `isActive` true |
| `ProductSchema.InitialFormInvalid` | Frontend/src/app/features/admin-management/product-form/product-form.component.ts:46-56 | on the initial form, name, description, price, image URL and category fail their validators, quantity and the active flag pass, so the form is invalid |
| `ProductSchema.WidgetFormValid` | Frontend/src/app/features/admin-management/product-form/product-form.component.ts:48-54 | a form with every value inside its bounds ("Widget", price 9.99, `https://x.com/a`, quantity 5, category 1) passes every validator |
| `ProductSchema.SingleViolationInvalid` | Frontend/src/app/features/admin-management/product-form/product-form.component.ts:48-54 | whatever the other controls hold, a two-character name, a zero price or the image URL `notaurl` makes the form invalid |
| `AdminProductForm.FormOfRecord` | Frontend/src/app/features/admin-management/product-form/product-form.component.ts:69-77 | each control takes the record field it is patched from: `isActive` from `is_active`, `categoryId` from `category_id`, the other five from the field of the same name |
| `AdminProductForm.RouteIdSelectsProduct` | Frontend/src/app/features/admin-management/product-form/product-form.component.ts:36-43 | a route id rendered from product id n is non-empty, reads back as n, and leads a submit in edit mode to update iff n ≠ 0 |
| `AdminProductForm.ProductFormComponent.constructor` | Frontend/src/app/features/admin-management/product-form/product-form.component.ts:19-23 | a new component has no form yet, no categories, create mode, a null product id and is not submitted |
| `AdminProductForm.ProductFormComponent.InitializeForm` | Frontend/src/app/features/admin-management/product-form/product-form.component.ts:46-56 | the form becomes the initial form; the other state is unchanged |
| `AdminProductForm.ProductFormComponent.FetchCategories` | Frontend/src/app/features/admin-management/product-form/product-form.component.ts:61-62 | requests the category list and changes no state |
| `AdminProductForm.ProductFormComponent.OnCategoriesLoaded` | Frontend/src/app/features/admin-management/product-form/product-form.component.ts:62-64 | the received list replaces the categories wholesale; nothing else changes |
| `AdminProductForm.ProductFormComponent.LoadProduct` | Frontend/src/app/features/admin-management/product-form/product-form.component.ts:67-68 | requests the product with the given id and changes no state |
| `AdminProductForm.ProductFormComponent.OnProductLoaded` | Frontend/src/app/features/admin-management/product-form/product-form.component.ts:68-78 | all seven controls are overwritten from the record; categories, mode, product id and submitted flag are unchanged |
| `AdminProductForm.ProductFormComponent.OnRouteParam` | Frontend/src/app/features/admin-management/product-form/product-form.component.ts:36-43 | a non-empty id sets edit mode and `productId := Number(id)` and requests that product; a missing or empty id changes nothing and requests nothing; edit mode is never left |
| `AdminProductForm.ProductFormComponent.NgOnInit` | Frontend/src/app/features/admin-management/product-form/product-form.component.ts:33-44 | builds the initial form, requests the categories, then handles the current route id as `OnRouteParam` does |
| `AdminProductForm.ProductFormComponent.Submit` | Frontend/src/app/features/admin-management/product-form/product-form.component.ts:81-100 | always sets `submitted`. It issues no request iff the form is invalid. Otherwise it issues exactly one request carrying the whole form value: update(productId) iff edit mode and `productId` is truthy (not null, 0 or NaN), create otherwise. It never navigates, and form, categories, mode and id are unchanged |
| `AdminProductForm.ProductFormComponent.OnSaveSucceeded` | Frontend/src/app/features/admin-management/product-form/product-form.component.ts:92-98 | the success of a create or an update navigates to `/admin/products` |
| `AdminProductForm.ProductFormComponent.Cancel` | Frontend/src/app/features/admin-management/product-form/product-form.component.ts:102-104 | navigates to `/admin/products`, issues no service call and changes no state |
| `AdminProductForm.ProductFormComponent.OnUserInput` | Frontend/src/app/features/admin-management/product-form/product-form.component.ts:19 | values the user types into the form's controls replace the form value; nothing else changes |
| `ProductFormRuns.EditExistingProduct` | Frontend/src/app/features/admin-management/product-form/product-form.component.ts:33-100 | editing product "42" with a valid loaded record requests the categories and product 42, updates product 42 with exactly the loaded values, and navigates only after that save succeeds |
| `ProductFormRuns.ZeroIdCreates` | Frontend/src/app/features/admin-management/product-form/product-form.component.ts:91 | with route id "0" the form is in edit mode, yet a valid submit creates instead of updating |
| `ProductFormRuns.NonNumericIdCreates` | Frontend/src/app/features/admin-management/product-form/product-form.component.ts:38-41 | with route id "new", `Number` gives NaN: the form is in edit mode, requests product NaN, and a valid submit creates instead of updating |
| `ProductFormRuns.CreateNewProduct` | Frontend/src/app/features/admin-management/product-form/product-form.component.ts:95-98 | without an id, a valid user input is sent in one create, followed by navigation on success |
| `ProductFormRuns.SubmitUntouchedForm` | Frontend/src/app/features/admin-management/product-form/product-form.component.ts:81-87 | submitting the untouched form issues nothing, leaves the initial values and sets `submitted` |
| `ProductFormRuns.DoubleSubmit` | Frontend/src/app/features/admin-management/product-form/product-form.component.ts:89-99 | two submits before any save returns issue two identical creates: there is no in-flight guard |
| `ProductFormRuns.FailedLoadStaysInEditMode` | Frontend/src/app/features/admin-management/product-form/product-form.component.ts:36-43 | if the product load never completes, the form stays in edit mode on the invalid initial values, and a later empty route emission does not leave edit mode |

## Left out

- `Number(id)` is exact only on two kinds of id. An all-digit id gives its decimal
  value. An id holding an ASCII character that no numeric literal can contain gives
  NaN. For other ids the value is a free parameter of `NgOnInit` and `OnRouteParam`.
  Examples are ids with whitespace, signs, fractions, exponents, hex literals,
  `Infinity`, or non-ASCII characters only.
- IEEE floating point is not modelled. Numbers are exact reals, and NaN or empty
  numeric inputs in the controls are left out.
- Angular validator edge cases are not modelled, such as `minLength` or `pattern`
  skipping an empty value. The declared bounds are modelled directly; `required`
  catches the empty value in every control that has these validators.
- Angular's per-control touched, dirty and pending status is left out. So are the
  `f` getter, the HTML template and its styling.
- RxJS subscriptions, dependency injection and the router are left out. Service calls
  and navigation are returned `Effect` values, and the success callbacks are separate
  event methods.
- Failed service calls are not modelled as events. The code registers no error
  callbacks, so a failed call is a continuation that never fires.
- Fetches are never cancelled. The model has no teardown event.
- Only the fields the form reads are kept from `ProductResponseDTO` and
  `CategoryResponseDTO`. Their definitions are not part of this model, so their other
  fields are left out.
- `PaymentController.java` is not part of this model. It only forwards to a payment
  service whose code is not available.
