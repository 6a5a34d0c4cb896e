/**
 * Creating a purchase order (src/components/CreatePurchaseOrder.jsx): the
 * suppliers offered, the change handler that derives the supplier's name,
 * the validator with its past-date check, and the order that is posted.
 */
module OrderCreation {
  import opened Common
  import opened Dates
  import opened SupplierList
  import opened OrderDetail

  /** The form's data; `supplierName` is `undefined` when the chosen supplier has no name. */
  datatype OrderForm = OrderForm(supplierId: string, supplierName: Option<string>, deliveryDate: string)

  /** The inputs a user can change; the supplier name is read-only. */
  datatype OrderField = SupplierId | DeliveryDate

  const DefaultForm := OrderForm("", Some(""), "")

  type Errors = map<OrderField, string>

  const SupplierRequired := "Supplier is required."
  const DateRequired := "Delivery date is required."
  const DateInPast := "Delivery date cannot be in the past."

  // ---------------------------------------------------------------------
  // The suppliers offered
  // ---------------------------------------------------------------------

  /** `data.filter(supplier => supplier.role === "supplier")` */
  function OnlySuppliers(data: seq<Supplier>): seq<Supplier> {
    Filter(data, (s: Supplier) => s.role == Some("supplier"))
  }

  /** Exactly the entries whose role is "supplier" are offered, in their order. */
  lemma OnlySuppliersExactly(data: seq<Supplier>, s: Supplier)
    ensures s in OnlySuppliers(data) <==> s in data && s.role == Some("supplier")
    ensures multiset(OnlySuppliers(data))[s] == if s.role == Some("supplier") then multiset(data)[s] else 0
    ensures IsSubsequence(OnlySuppliers(data), data)
  {
    var p := (x: Supplier) => x.role == Some("supplier");
    FilterMembers(data, p, s);
    FilterCounts(data, p, s);
    FilterIsSubsequence(data, p);
  }

  // ---------------------------------------------------------------------
  // The change handler
  // ---------------------------------------------------------------------

  /** `suppliers.find(s => s.id === value)`: the chosen value is text. */
  function SelectedSupplier(suppliers: seq<Supplier>, value: string): Option<Supplier> {
    Find(suppliers, (s: Supplier) => s.id == StrId(value))
  }

  /** The name of the chosen supplier, or `''` when none has that id. */
  function SupplierNameFor(suppliers: seq<Supplier>, value: string): Option<string> {
    match SelectedSupplier(suppliers, value)
    case Some(s) => s.name
    case None => Some("")
  }

  function FieldValue(form: OrderForm, f: OrderField): string {
    match f
    case SupplierId => form.supplierId
    case DeliveryDate => form.deliveryDate
  }

  /**
   * `handleChange`'s new form data: the field is set, and choosing a
   * non-empty supplier id also sets the supplier's name.
   */
  function ChangedForm(form: OrderForm, suppliers: seq<Supplier>, f: OrderField, value: string): OrderForm {
    match f
    case SupplierId =>
      if value != "" then form.(supplierId := value, supplierName := SupplierNameFor(suppliers, value))
      else form.(supplierId := value)
    case DeliveryDate => form.(deliveryDate := value)
  }

  /**
   * The change sets only the named field; the supplier name follows a
   * non-empty supplier id, taken from the first supplier with that id or
   * `''`, and is otherwise left as it was.
   */
  lemma ChangedFormFields(form: OrderForm, suppliers: seq<Supplier>, f: OrderField, value: string)
    ensures FieldValue(ChangedForm(form, suppliers, f, value), f) == value
    ensures forall g :: g != f ==> FieldValue(ChangedForm(form, suppliers, f, value), g) == FieldValue(form, g)
    ensures f == SupplierId && value != "" ==>
              ChangedForm(form, suppliers, f, value).supplierName ==
              (if exists i :: 0 <= i < |suppliers| && suppliers[i].id == StrId(value)
               then SelectedSupplier(suppliers, value).value.name else Some(""))
    ensures f == SupplierId && value != "" && SelectedSupplier(suppliers, value).Some? ==>
              SelectedSupplier(suppliers, value).value in suppliers
              && SelectedSupplier(suppliers, value).value.id == StrId(value)
    ensures f == DeliveryDate || value == "" ==>
              ChangedForm(form, suppliers, f, value).supplierName == form.supplierName
  {
  }

  /**
   * The select's values are the suppliers' ids as text, and a numeric id is
   * never strictly equal to text: choosing a supplier whose id is a number
   * leaves the supplier name `''`.
   */
  lemma NumericSupplierIdUnnamed(suppliers: seq<Supplier>, value: string)
    requires forall i :: 0 <= i < |suppliers| ==> suppliers[i].id.NumId?
    ensures SupplierNameFor(suppliers, value) == Some("")
  {
  }

  // ---------------------------------------------------------------------
  // The validator
  // ---------------------------------------------------------------------

  /** The delivery date is before today, as strings compare. */
  predicate InPast(deliveryDate: string, today: string) {
    !IsBlank(deliveryDate) && LexLess(deliveryDate, today)
  }

  /** The form passes: a supplier is chosen and the date is given and not past. */
  predicate IsValid(form: OrderForm, today: string) {
    !IsBlank(form.supplierId) && !IsBlank(form.deliveryDate) && !InPast(form.deliveryDate, today)
  }

  /** `if (fails) newErrors[f] = message` */
  function Record(errors: Errors, f: OrderField, fails: bool, message: string): Errors {
    if fails then errors[f := message] else errors
  }

  /** The error map the validator builds, in its order. */
  function ErrorsOf(form: OrderForm, today: string): Errors {
    var e1 := Record(map[], SupplierId, IsBlank(form.supplierId), SupplierRequired);
    var e2 := Record(e1, DeliveryDate, IsBlank(form.deliveryDate), DateRequired);
    Record(e2, DeliveryDate, InPast(form.deliveryDate, today), DateInPast)
  }

  /**
   * The supplier is in error exactly when its id is blank; the date exactly
   * when it is blank ("required") or before today ("past"); each with its
   * message.
   */
  lemma ErrorsOfFields(form: OrderForm, today: string)
    ensures SupplierId in ErrorsOf(form, today) <==> IsBlank(form.supplierId)
    ensures SupplierId in ErrorsOf(form, today) ==> ErrorsOf(form, today)[SupplierId] == SupplierRequired
    ensures DeliveryDate in ErrorsOf(form, today) <==> IsBlank(form.deliveryDate) || InPast(form.deliveryDate, today)
    ensures DeliveryDate in ErrorsOf(form, today) ==>
              ErrorsOf(form, today)[DeliveryDate] == (if IsBlank(form.deliveryDate) then DateRequired else DateInPast)
  {
  }

  /** `validateForm` */
  method Validate(form: OrderForm, today: string) returns (errors: Errors)
    ensures SupplierId in errors <==> IsBlank(form.supplierId)
    ensures SupplierId in errors ==> errors[SupplierId] == SupplierRequired
    ensures DeliveryDate in errors <==> IsBlank(form.deliveryDate) || InPast(form.deliveryDate, today)
    ensures DeliveryDate in errors ==>
              errors[DeliveryDate] == (if IsBlank(form.deliveryDate) then DateRequired else DateInPast)
    ensures errors == map[] <==> IsValid(form, today)
  {
    errors := map[];
    errors := Record(errors, SupplierId, IsBlank(form.supplierId), SupplierRequired);
    errors := Record(errors, DeliveryDate, IsBlank(form.deliveryDate), DateRequired);
    errors := Record(errors, DeliveryDate, InPast(form.deliveryDate, today), DateInPast);
    assert errors == ErrorsOf(form, today);
    ErrorsOfFields(form, today);
    NoErrorsIffValid(errors, form, today);
  }

  /** An error map keyed by the failing fields is empty exactly when the form passes. */
  lemma NoErrorsIffValid(errors: Errors, form: OrderForm, today: string)
    requires SupplierId in errors <==> IsBlank(form.supplierId)
    requires DeliveryDate in errors <==> IsBlank(form.deliveryDate) || InPast(form.deliveryDate, today)
    ensures errors == map[] <==> IsValid(form, today)
  {
    if errors != map[] {
      var k :| k in errors;
      assert k == SupplierId || k == DeliveryDate;
    }
  }

  /** A full date is never blank: it starts with a digit. */
  lemma FullDateNotBlank(s: string)
    requires IsFullDate(s)
    ensures !IsBlank(s)
  {
    assert s[..4][0] == s[0];
    assert !IsSpace(s[0]);
  }

  /**
   * For a date the date input produces and today's date, both `YYYY-MM-DD`,
   * the "past" error is raised exactly when the date is an earlier day, and
   * never for today itself.
   */
  lemma PastCheckIsChronological(form: OrderForm, today: string)
    requires IsFullDate(form.deliveryDate) && IsFullDate(today)
    ensures InPast(form.deliveryDate, today) <==> Before(form.deliveryDate, today)
    ensures form.deliveryDate == today ==> !InPast(form.deliveryDate, today)
    ensures DeliveryDate in ErrorsOf(form, today) <==> Before(form.deliveryDate, today)
  {
    FullDateNotBlank(form.deliveryDate);
    FullDateOrder(form.deliveryDate, today);
    LexIrreflexive(today);
    ErrorsOfFields(form, today);
  }

  // ---------------------------------------------------------------------
  // The posted order
  // ---------------------------------------------------------------------

  /**
   * `finalData`: `nowMillis` is `Date.now()`, whose decimal text is the id,
   * and `today` the date `createdAt` records.
   */
  function CreateOrder(form: OrderForm, nowMillis: nat, today: string): Order {
    Order(
      id := StrId(NatToString(nowMillis)),
      supplierId := Some(StrId(form.supplierId)),
      supplierName := form.supplierName,
      deliveryDate := form.deliveryDate,
      createdAt := today,
      status := "Pending",
      total := 0.0,
      products := [])
  }

  /**
   * A created order is pending, empty and of total 0, carries the form's
   * supplier and date unchanged, and has a text id of decimal digits.
   */
  lemma CreatedOrderShape(form: OrderForm, nowMillis: nat, today: string)
    ensures CreateOrder(form, nowMillis, today).status == "Pending"
    ensures CreateOrder(form, nowMillis, today).products == [] && CreateOrder(form, nowMillis, today).total == 0.0
    ensures CreateOrder(form, nowMillis, today).supplierId == Some(StrId(form.supplierId))
    ensures CreateOrder(form, nowMillis, today).supplierName == form.supplierName
    ensures CreateOrder(form, nowMillis, today).deliveryDate == form.deliveryDate
    ensures CreateOrder(form, nowMillis, today).id.StrId?
    ensures AllDigits(IdString(CreateOrder(form, nowMillis, today).id))
    ensures DecimalValue(IdString(CreateOrder(form, nowMillis, today).id)) == nowMillis
  {
    NatToStringRoundTrip(nowMillis);
  }

  /** Orders created at different milliseconds have different ids. */
  lemma CreatedIdsDistinct(form: OrderForm, form2: OrderForm, m1: nat, m2: nat, today: string)
    requires m1 != m2
    ensures CreateOrder(form, m1, today).id != CreateOrder(form2, m2, today).id
  {
    NatToStringRoundTrip(m1);
    NatToStringRoundTrip(m2);
  }

  /** `navigate(`/purchase-order/${finalData.id}`)` */
  function DetailPath(o: Order): string {
    "/purchase-order/" + IdString(o.id)
  }

  /**
   * The detail page never shows an order created here: its lookup compares
   * with a number, and the created id is text. This holds whatever the store
   * returns and whatever `Number` makes of the URL.
   */
  lemma CreatedOrderNeverShown(form: OrderForm, nowMillis: nat, today: string, data: seq<Order>, key: Option<real>)
    ensures FindOrder(data, key) != Some(CreateOrder(form, nowMillis, today))
  {
    StringIdNeverFound(data, key);
  }

  /**
   * With the lookup by the URL's text, the order just created is found once
   * the store holds it (the path carries its id).
   */
  lemma CreatedOrderShownIntended(form: OrderForm, nowMillis: nat, today: string, data: seq<Order>)
    requires CreateOrder(form, nowMillis, today) in data
    ensures DetailPath(CreateOrder(form, nowMillis, today)) == "/purchase-order/" + NatToString(nowMillis)
    ensures FindOrderIntended(data, NatToString(nowMillis)).Some?
  {
    var o := CreateOrder(form, nowMillis, today);
    var i :| 0 <= i < |data| && data[i] == o;
    FindOrderIntendedProperties(data, NatToString(nowMillis), 0);
  }

  // ---------------------------------------------------------------------
  // The component's state
  // ---------------------------------------------------------------------

  class OrderCreationView {
    var suppliers: seq<Supplier>
    var errors: Errors
    var formData: OrderForm
    var didFetch: bool

    constructor ()
      ensures suppliers == [] && errors == map[] && formData == DefaultForm && !didFetch
    {
      suppliers := [];
      errors := map[];
      formData := DefaultForm;
      didFetch := false;
    }

    /**
     * The mounting effect, guarded to fetch once: `response` is the parsed
     * `/suppliers` list, `None` when the request fails. Of the two state
     * updates the second, the suppliers alone, is the one that stays.
     */
    method MountEffect(response: Option<seq<Supplier>>) returns (requested: bool)
      modifies this
      ensures requested <==> !old(didFetch)
      ensures didFetch
      ensures suppliers == (if requested && response.Some? then OnlySuppliers(response.value) else old(suppliers))
      ensures errors == old(errors) && formData == old(formData)
    {
      if didFetch {
        return false;
      }
      didFetch := true;
      requested := true;
      if response.Some? {
        suppliers := OnlySuppliers(response.value);
      }
    }

    /** `handleChange`: the new form data, and that field's error cleared. */
    method HandleChange(f: OrderField, value: string)
      modifies this
      ensures formData == ChangedForm(old(formData), old(suppliers), f, value)
      ensures errors == old(errors) - {f}
      ensures suppliers == old(suppliers) && didFetch == old(didFetch)
    {
      formData := ChangedForm(formData, suppliers, f, value);
      if f in errors {
        errors := errors - {f};
      }
    }

    /**
     * `handleSubmit`: validates against `today` and, when the form passes,
     * gives the order it posts (the detail path follows from its id).
     */
    method HandleSubmit(today: string, nowMillis: nat) returns (posted: Option<Order>)
      modifies this
      ensures formData == old(formData) && suppliers == old(suppliers)
      ensures SupplierId in errors <==> IsBlank(formData.supplierId)
      ensures SupplierId in errors ==> errors[SupplierId] == SupplierRequired
      ensures DeliveryDate in errors <==> IsBlank(formData.deliveryDate) || InPast(formData.deliveryDate, today)
      ensures DeliveryDate in errors ==>
                errors[DeliveryDate] == (if IsBlank(formData.deliveryDate) then DateRequired else DateInPast)
      ensures posted.Some? <==> IsValid(formData, today)
      ensures posted.Some? ==> posted.value == CreateOrder(formData, nowMillis, today)
    {
      errors := Validate(formData, today);
      posted := if errors == map[] then Some(CreateOrder(formData, nowMillis, today)) else None;
    }
  }
}
