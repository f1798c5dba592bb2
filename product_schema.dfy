/** The product form's fixed schema: its seven controls, the initial value and the
    validators each one is declared with, and the validity of a form value. */
module ProductSchema {
  import opened HttpUrl
  import opened JsValues

  /** The controls of the product form, in declaration order. */
  datatype Field = Name | Description | Price | ImageUrl | Quantity | CategoryId | IsActive

  /** A control's value: text inputs hold strings, number inputs JavaScript numbers
      (finite, kept as reals), the checkbox a boolean. */
  datatype FieldValue = Text(text: string) | Number(number: real) | Flag(flag: bool)

  /** The validators the form attaches to its controls. */
  datatype Validator =
    | Required
    | MinLength(minLength: nat)
    | MaxLength(maxLength: nat)
    | Min(min: real)
    | Max(max: real)
    | HttpUrlPattern

  /** One entry of the form declaration: initial value and validators. */
  datatype ControlDecl = ControlDecl(initial: FieldValue, validators: seq<Validator>)

  /** The form's value (`productForm.value`), which is also the create/update payload:
      same keys, same order. */
  datatype FormValue = FormValue(
    name: string,
    description: string,
    price: real,
    image_url: string,
    quantity: real,
    categoryId: real,
    isActive: bool)

  /** The declaration table of the form group. */
  function Declared(field: Field): ControlDecl
  {
    match field
    case Name => ControlDecl(Text(""), [Required, MinLength(3), MaxLength(100)])
    case Description => ControlDecl(Text(""), [Required, MinLength(10), MaxLength(500)])
    case Price => ControlDecl(Number(0.0), [Required, Min(0.01), Max(1000000.0)])
    case ImageUrl => ControlDecl(Text(""), [Required, HttpUrlPattern])
    case Quantity => ControlDecl(Number(0.0), [Required, Min(0.0), Max(10000.0)])
    case CategoryId => ControlDecl(Number(0.0), [Required, Min(1.0)])
    case IsActive => ControlDecl(Flag(true), [])
  }

  /** The value of one control within a form value. */
  function ValueOf(f: FormValue, field: Field): FieldValue
  {
    match field
    case Name => Text(f.name)
    case Description => Text(f.description)
    case Price => Number(f.price)
    case ImageUrl => Text(f.image_url)
    case Quantity => Number(f.quantity)
    case CategoryId => Number(f.categoryId)
    case IsActive => Flag(f.isActive)
  }

  /** What each validator demands of a value: `required` a non-empty text, the length
      validators a bound on the JavaScript length (UTF-16 code units), `min`/`max` a
      numeric bound, the pattern a regular expression match. A validator says nothing about a value of another kind. */
  ghost predicate Passes(v: Validator, x: FieldValue)
  {
    match v
    case Required => !x.Text? || |x.text| > 0
    case MinLength(n) => !x.Text? || Utf16Length(x.text) >= n
    case MaxLength(n) => !x.Text? || Utf16Length(x.text) <= n
    case Min(lo) => !x.Number? || x.number >= lo
    case Max(hi) => !x.Number? || x.number <= hi
    case HttpUrlPattern => !x.Text? || PatternMatches(x.text)
  }

  /** A control is valid when its value passes every validator declared for it. */
  ghost predicate ControlValid(f: FormValue, field: Field)
  {
    var decl := Declared(field);
    forall i :: 0 <= i < |decl.validators| ==> Passes(decl.validators[i], ValueOf(f, field))
  }

  /** The form group is valid when every control is. */
  ghost predicate TableValid(f: FormValue)
  {
    forall field: Field :: ControlValid(f, field)
  }

  /** The bounds the declaration table amounts to, field by field; `isActive` is free.
      Text lengths are JavaScript lengths. */
  predicate Valid(f: FormValue)
  {
    && 3 <= Utf16Length(f.name) <= 100
    && 10 <= Utf16Length(f.description) <= 500
    && 0.01 <= f.price <= 1000000.0
    && HasHttpUrlPrefix(f.image_url)
    && 0.0 <= f.quantity <= 10000.0
    && f.categoryId >= 1.0
  }

  /** The bounds are exactly the declaration table's validators. */
  lemma ValidIffTableValid(f: FormValue)
    ensures Valid(f) <==> TableValid(f)
  {
    HttpUrlPrefixDecidesPattern(f.image_url);
    if Valid(f) {
      forall field: Field ensures ControlValid(f, field) {
        var vs := Declared(field).validators;
        forall i | 0 <= i < |vs| ensures Passes(vs[i], ValueOf(f, field)) {
        }
      }
    } else if !(3 <= Utf16Length(f.name) <= 100) {
      assert !ControlValid(f, Name) by {
        var vs := Declared(Name).validators;
        assert !Passes(vs[1], ValueOf(f, Name)) || !Passes(vs[2], ValueOf(f, Name));
      }
    } else if !(10 <= Utf16Length(f.description) <= 500) {
      assert !ControlValid(f, Description) by {
        var vs := Declared(Description).validators;
        assert !Passes(vs[1], ValueOf(f, Description)) || !Passes(vs[2], ValueOf(f, Description));
      }
    } else if !(0.01 <= f.price <= 1000000.0) {
      assert !ControlValid(f, Price) by {
        var vs := Declared(Price).validators;
        assert !Passes(vs[1], ValueOf(f, Price)) || !Passes(vs[2], ValueOf(f, Price));
      }
    } else if !HasHttpUrlPrefix(f.image_url) {
      assert !ControlValid(f, ImageUrl) by {
        assert !Passes(Declared(ImageUrl).validators[1], ValueOf(f, ImageUrl));
      }
    } else if !(0.0 <= f.quantity <= 10000.0) {
      assert !ControlValid(f, Quantity) by {
        var vs := Declared(Quantity).validators;
        assert !Passes(vs[1], ValueOf(f, Quantity)) || !Passes(vs[2], ValueOf(f, Quantity));
      }
    } else {
      assert !ControlValid(f, CategoryId) by {
        assert !Passes(Declared(CategoryId).validators[1], ValueOf(f, CategoryId));
      }
    }
  }

  /** The value `initializeForm` builds: every control at its declared initial value. */
  function InitialForm(): (f: FormValue)
    ensures forall field: Field :: ValueOf(f, field) == Declared(field).initial
  {
    FormValue("", "", 0.0, "", 0.0, 0.0, true)
  }

  /** The initial form is invalid: name, description, price, image URL and category fail
      their validators, quantity and the active flag pass. */
  lemma InitialFormInvalid()
    ensures !ControlValid(InitialForm(), Name)
    ensures !ControlValid(InitialForm(), Description)
    ensures !ControlValid(InitialForm(), Price)
    ensures !ControlValid(InitialForm(), ImageUrl)
    ensures ControlValid(InitialForm(), Quantity)
    ensures !ControlValid(InitialForm(), CategoryId)
    ensures ControlValid(InitialForm(), IsActive)
    ensures !Valid(InitialForm())
  {
    var f := InitialForm();
    assert !Passes(Declared(Name).validators[0], ValueOf(f, Name));
    assert !Passes(Declared(Description).validators[0], ValueOf(f, Description));
    assert !Passes(Declared(Price).validators[1], ValueOf(f, Price));
    assert !Passes(Declared(ImageUrl).validators[0], ValueOf(f, ImageUrl));
    assert !Passes(Declared(CategoryId).validators[1], ValueOf(f, CategoryId));
    var q := Declared(Quantity).validators;
    assert forall i :: 0 <= i < |q| ==> Passes(q[i], ValueOf(f, Quantity));
  }

  /** A form with every value inside its bounds is valid, e.g. the "Widget" example. */
  lemma WidgetFormValid()
    ensures TableValid(FormValue("Widget", "A sturdy widget", 9.99, "https://x.com/a", 5.0, 1.0, true))
  {
    var f := FormValue("Widget", "A sturdy widget", 9.99, "https://x.com/a", 5.0, 1.0, true);
    assert f.image_url[..8] == "https://";
    ValidIffTableValid(f);
  }

  /** Changing one control to a value outside its bounds blocks the form, whatever the
      other controls hold: a two-character name, a zero price, a non-URL image. */
  lemma SingleViolationInvalid(f: FormValue)
    ensures !TableValid(f.(name := "ab"))
    ensures !TableValid(f.(price := 0.0))
    ensures !TableValid(f.(image_url := "notaurl"))
  {
    assert !ControlValid(f.(name := "ab"), Name) by {
      assert !Passes(Declared(Name).validators[1], ValueOf(f.(name := "ab"), Name));
    }
    assert !ControlValid(f.(price := 0.0), Price) by {
      assert !Passes(Declared(Price).validators[1], ValueOf(f.(price := 0.0), Price));
    }
    assert !ControlValid(f.(image_url := "notaurl"), ImageUrl) by {
      NotAUrlRejected();
      assert !Passes(Declared(ImageUrl).validators[1], ValueOf(f.(image_url := "notaurl"), ImageUrl));
    }
  }

  /** Lengths are counted as JavaScript counts them: "a" and an emoji make a name of
      three code units, long enough; 51 emoji make 102, too long. */
  lemma NameLengthInCodeUnits(f: FormValue)
    ensures ControlValid(f.(name := "a\U{1F600}"), Name)
    ensures !ControlValid(f.(name := seq(51, _ => '\U{1F600}')), Name)
  {
    var short := f.(name := "a\U{1F600}");
    assert Utf16Length(short.name) == 3 by {
      assert short.name[..1] == "a";
    }
    var vs := Declared(Name).validators;
    assert forall i :: 0 <= i < |vs| ==> Passes(vs[i], ValueOf(short, Name));
    var long := f.(name := seq(51, _ => '\U{1F600}'));
    assert Utf16Length(long.name) == 102;
    assert !Passes(vs[2], ValueOf(long, Name));
  }
}
