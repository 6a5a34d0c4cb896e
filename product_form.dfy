/**
 * The product form (src/components/ProductForm.jsx): its data, the change
 * handler, the validator with its field rules, and the submit path.
 */
module ProductForm {
  import opened Common

  /**
   * A form value. Text is what an input produces; a number arrives when the
   * form is opened on a stored product, whose `price` and `inStock` were
   * parsed into numbers when it was saved (src/pages/AddProduct.jsx:15-17).
   */
  datatype Value = Text(s: string) | Num(x: real)

  /** JavaScript truthiness of a value: "" and 0 are falsy. */
  predicate Truthy(v: Value) {
    match v
    case Text(s) => s != ""
    case Num(x) => x != 0.0
  }

  /** A product as the form holds it; `id` is present once App has stored it. */
  datatype ProductData = ProductData(
    id: Option<string>,
    name: string,
    sku: string,
    category: string,
    description: string,
    brand: string,
    price: Value,
    inStock: Value,
    location: string,
    expirationDate: string)

  /** The inputs of the form, by their `name` attribute. */
  datatype ProductField =
    | Name | Sku | Category | Description | Brand | Price | InStock | Location | ExpirationDate

  /** The shape of an empty form. */
  const DefaultProduct := ProductData(None, "", "", "", "", "", Text(""), Text(""), "", "")

  /** Error messages by field; a field is in error when it is a key. */
  type Errors = map<ProductField, string>

  // Parsers. `parseFloat` and `parseInt` are passed in as functions from the
  // text to the number read, `None` standing for NaN.
  type FloatParser = string -> Option<real>
  type IntParser = string -> Option<int>

  /** `x` truncated toward zero, as `parseInt` reads a number's decimal form. */
  function Truncate(x: real): int {
    if x >= 0.0 then x.Floor else -((-x).Floor)
  }

  /** `parseFloat(v)` */
  function FloatOf(v: Value, parseFloat: FloatParser): Option<real> {
    match v
    case Text(s) => parseFloat(s)
    case Num(x) => Some(x)
  }

  /** `parseInt(v)` */
  function IntOf(v: Value, parseInt: IntParser): Option<int> {
    match v
    case Text(s) => parseInt(s)
    case Num(x) => Some(Truncate(x))
  }

  /** The value of one field, text fields read as text. */
  function FieldValue(d: ProductData, f: ProductField): Value {
    match f
    case Name => Text(d.name)
    case Sku => Text(d.sku)
    case Category => Text(d.category)
    case Description => Text(d.description)
    case Brand => Text(d.brand)
    case Price => d.price
    case InStock => d.inStock
    case Location => Text(d.location)
    case ExpirationDate => Text(d.expirationDate)
  }

  /** `{ ...prev, [name]: value }` */
  function WithField(d: ProductData, f: ProductField, value: string): (r: ProductData)
    ensures FieldValue(r, f) == Text(value)
    ensures forall g :: g != f ==> FieldValue(r, g) == FieldValue(d, g)
    ensures r.id == d.id
  {
    match f
    case Name => d.(name := value)
    case Sku => d.(sku := value)
    case Category => d.(category := value)
    case Description => d.(description := value)
    case Brand => d.(brand := value)
    case Price => d.(price := Text(value))
    case InStock => d.(inStock := Text(value))
    case Location => d.(location := value)
    case ExpirationDate => d.(expirationDate := value)
  }

  // ---------------------------------------------------------------------
  // Field rules
  // ---------------------------------------------------------------------

  /** The price rule: missing, unreadable, or not above zero. */
  predicate PriceFails(price: Value, parseFloat: FloatParser) {
    !Truthy(price) || FloatOf(price, parseFloat).None? || FloatOf(price, parseFloat).value <= 0.0
  }

  /** The stock rule: falsy, unreadable, or negative. */
  predicate StockFails(inStock: Value, parseInt: IntParser) {
    !Truthy(inStock) || IntOf(inStock, parseInt).None? || IntOf(inStock, parseInt).value < 0
  }

  /** Whether the validator records an error for field `f`. */
  predicate RuleFails(d: ProductData, f: ProductField, parseFloat: FloatParser, parseInt: IntParser) {
    match f
    case Name => IsBlank(d.name)
    case Sku => IsBlank(d.sku)
    case Category => IsBlank(d.category)
    case Brand => IsBlank(d.brand)
    case Price => PriceFails(d.price, parseFloat)
    case InStock => StockFails(d.inStock, parseInt)
    case Location => IsBlank(d.location)
    case Description => false
    case ExpirationDate => false
  }

  // The messages the validator records.
  const NameRequired := "O nome é obrigatório."
  const SkuRequired := "O SKU é obrigatório."
  const CategoryRequired := "A categoria é obrigatória."
  const BrandRequired := "A marca é obrigatória."
  const PriceInvalid := "O preço é obrigatório e deve ser maior que zero."
  const StockInvalid := "O estoque é obrigatório e deve ser um número válido (>= 0)."
  const LocationRequired := "A localização é obrigatória."

  /** The message recorded for a failing field; the optional fields have none. */
  function Message(f: ProductField): string {
    match f
    case Name => NameRequired
    case Sku => SkuRequired
    case Category => CategoryRequired
    case Brand => BrandRequired
    case Price => PriceInvalid
    case InStock => StockInvalid
    case Location => LocationRequired
    case Description => ""
    case ExpirationDate => ""
  }

  /** The form passes when no field rule fails. */
  predicate IsValid(d: ProductData, parseFloat: FloatParser, parseInt: IntParser) {
    forall f: ProductField :: !RuleFails(d, f, parseFloat, parseInt)
  }

  /** Adds the message of `f` when `fails`: `if (fails) newErrors[f] = message`. */
  function Record(errors: Errors, f: ProductField, fails: bool): Errors {
    if fails then errors[f := Message(f)] else errors
  }

  /** The errors of the rules in `done`: each failing one with its message. */
  function ErrorsFor(done: set<ProductField>, d: ProductData, parseFloat: FloatParser, parseInt: IntParser): Errors {
    map g | g in done && RuleFails(d, g, parseFloat, parseInt) :: Message(g)
  }

  /** Checking one more rule adds its error, if any, to those of the rules checked before. */
  lemma RecordStep(errors: Errors, done: set<ProductField>, f: ProductField, fails: bool,
                   d: ProductData, parseFloat: FloatParser, parseInt: IntParser)
    requires errors == ErrorsFor(done, d, parseFloat, parseInt)
    requires fails == RuleFails(d, f, parseFloat, parseInt)
    ensures Record(errors, f, fails) == ErrorsFor(done + {f}, d, parseFloat, parseInt)
  {
  }

  /**
   * `validateForm`: builds the error map one rule at a time, in the order
   * name, sku, category, brand, price, inStock, location.
   */
  method Validate(d: ProductData, parseFloat: FloatParser, parseInt: IntParser) returns (errors: Errors)
    ensures forall f :: f in errors <==> RuleFails(d, f, parseFloat, parseInt)
    ensures forall f :: f in errors ==> errors[f] == Message(f) && errors[f] != ""
    ensures errors == map[] <==> IsValid(d, parseFloat, parseInt)
  {
    errors := map[];
    ghost var done: set<ProductField> := {};
    RecordStep(errors, done, Name, IsBlank(d.name), d, parseFloat, parseInt);
    errors, done := Record(errors, Name, IsBlank(d.name)), done + {Name};
    RecordStep(errors, done, Sku, IsBlank(d.sku), d, parseFloat, parseInt);
    errors, done := Record(errors, Sku, IsBlank(d.sku)), done + {Sku};
    RecordStep(errors, done, Category, IsBlank(d.category), d, parseFloat, parseInt);
    errors, done := Record(errors, Category, IsBlank(d.category)), done + {Category};
    RecordStep(errors, done, Brand, IsBlank(d.brand), d, parseFloat, parseInt);
    errors, done := Record(errors, Brand, IsBlank(d.brand)), done + {Brand};
    RecordStep(errors, done, Price, PriceFails(d.price, parseFloat), d, parseFloat, parseInt);
    errors, done := Record(errors, Price, PriceFails(d.price, parseFloat)), done + {Price};
    RecordStep(errors, done, InStock, StockFails(d.inStock, parseInt), d, parseFloat, parseInt);
    errors, done := Record(errors, InStock, StockFails(d.inStock, parseInt)), done + {InStock};
    RecordStep(errors, done, Location, IsBlank(d.location), d, parseFloat, parseInt);
    errors, done := Record(errors, Location, IsBlank(d.location)), done + {Location};
    AllRulesChecked(errors, done, d, parseFloat, parseInt);
  }

  /**
   * Once every rule but those of the two optional fields is checked, the map
   * holds exactly the failing fields with their messages, and is empty
   * exactly when the form passes.
   */
  lemma AllRulesChecked(errors: Errors, done: set<ProductField>, d: ProductData, parseFloat: FloatParser, parseInt: IntParser)
    requires errors == ErrorsFor(done, d, parseFloat, parseInt)
    requires forall f :: f !in done ==> f == Description || f == ExpirationDate
    ensures forall f :: f in errors <==> RuleFails(d, f, parseFloat, parseInt)
    ensures forall f :: f in errors ==> errors[f] == Message(f) && errors[f] != ""
    ensures errors == map[] <==> IsValid(d, parseFloat, parseInt)
  {
    NoErrorsIffValid(errors, d, parseFloat, parseInt);
  }

  /** An error map keyed by the failing fields is empty exactly when the form passes. */
  lemma NoErrorsIffValid(errors: Errors, d: ProductData, parseFloat: FloatParser, parseInt: IntParser)
    requires forall f :: f in errors <==> RuleFails(d, f, parseFloat, parseInt)
    ensures errors == map[] <==> IsValid(d, parseFloat, parseInt)
  {
    EmptyIffNoKeys(errors);
  }

  /** The fields whose rule is "required text". */
  predicate IsRequiredText(f: ProductField) {
    f.Name? || f.Sku? || f.Category? || f.Brand? || f.Location?
  }

  /**
   * Each required text field is in error exactly when it is empty or only
   * white space.
   */
  lemma TextRule(d: ProductData, f: ProductField, parseFloat: FloatParser, parseInt: IntParser)
    requires IsRequiredText(f)
    ensures FieldValue(d, f).Text?
    ensures RuleFails(d, f, parseFloat, parseInt) <==> Trim(FieldValue(d, f).s) == ""
  {
    BlankIffTrimEmpty(FieldValue(d, f).s);
  }

  /** The description and the expiration date never produce an error. */
  lemma OptionalFieldsNeverFail(d: ProductData, parseFloat: FloatParser, parseInt: IntParser)
    ensures !RuleFails(d, Description, parseFloat, parseInt)
    ensures !RuleFails(d, ExpirationDate, parseFloat, parseInt)
  {
  }

  /** Typed text: the price passes exactly when it reads as a positive number. */
  lemma PriceRuleOnText(s: string, parseFloat: FloatParser)
    ensures !PriceFails(Text(s), parseFloat) <==>
            s != "" && parseFloat(s).Some? && parseFloat(s).value > 0.0
  {
  }

  /**
   * Typed text: the stock passes exactly when it reads as a number of at least
   * zero, so the text "0" passes whenever `parseInt` reads it as 0.
   */
  lemma StockRuleOnText(s: string, parseInt: IntParser)
    ensures !StockFails(Text(s), parseInt) <==>
            s != "" && parseInt(s).Some? && parseInt(s).value >= 0
    ensures parseInt("0") == Some(0) ==> !StockFails(Text("0"), parseInt)
  {
  }

  /**
   * A stored stock of 0 (the number AddProduct.jsx saves) is rejected by the
   * falsy check, whatever the parser, although the rule's message admits 0.
   */
  lemma StoredZeroStockRejected(d: ProductData, parseFloat: FloatParser, parseInt: IntParser)
    requires d.inStock == Num(0.0)
    ensures RuleFails(d, InStock, parseFloat, parseInt)
    ensures !IsValid(d, parseFloat, parseInt)
  {
    assert RuleFails(d, InStock, parseFloat, parseInt);
  }

  /**
   * The stock rule the message describes: a missing (empty) entry, an
   * unreadable one, or a negative one fails; parsing replaces the falsy test.
   */
  predicate StockFailsIntended(inStock: Value, parseInt: IntParser) {
    inStock == Text("") || IntOf(inStock, parseInt).None? || IntOf(inStock, parseInt).value < 0
  }

  /**
   * The intended rule admits a stored stock of 0, rejects every stored
   * negative number, and agrees with the rule as written on everything the
   * user can type and on every stored number but 0.
   */
  lemma StockRuleIntended(v: Value, parseInt: IntParser)
    ensures !StockFailsIntended(Num(0.0), parseInt)
    ensures v.Num? && v.x <= -1.0 ==> StockFailsIntended(v, parseInt)
    ensures v != Num(0.0) ==> (StockFailsIntended(v, parseInt) <==> StockFails(v, parseInt))
  {
  }

  /** The form's state: the data being edited and the errors on show. */
  class ProductFormState {
    var formData: ProductData
    var errors: Errors

    /** Opening the form: `initialData || defaultState`, no errors. */
    constructor (initialData: Option<ProductData>)
      ensures formData == (if initialData.Some? then initialData.value else DefaultProduct)
      ensures errors == map[]
    {
      formData := if initialData.Some? then initialData.value else DefaultProduct;
      errors := map[];
    }

    /**
     * `handleChange`: sets the named field and clears that field's error.
     * Replacing a message with `null` and removing it read alike: every reader
     * of `errors` tests the entry's truthiness.
     */
    method HandleChange(f: ProductField, value: string)
      modifies this
      ensures formData == WithField(old(formData), f, value)
      ensures errors == old(errors) - {f}
    {
      formData := WithField(formData, f, value);
      if f in errors {
        errors := errors - {f};
      }
    }

    /**
     * `handleSubmit`: validates, shows the new errors, and hands the form data,
     * unchanged, to `onSave` exactly when no rule fails.
     */
    method HandleSubmit(parseFloat: FloatParser, parseInt: IntParser) returns (saved: Option<ProductData>)
      modifies this
      ensures formData == old(formData)
      ensures forall f :: f in errors <==> RuleFails(formData, f, parseFloat, parseInt)
      ensures forall f :: f in errors ==> errors[f] == Message(f)
      ensures saved.Some? <==> IsValid(formData, parseFloat, parseInt)
      ensures saved.Some? ==> saved.value == formData
    {
      errors := Validate(formData, parseFloat, parseInt);
      saved := if errors == map[] then Some(formData) else None;
    }
  }
}
