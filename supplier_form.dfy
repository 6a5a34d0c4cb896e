/**
 * The supplier form (src/components/SupplierForm.jsx): its data, the change
 * handler, the two required-field rules, and the payload handed to `onSave`
 * with its identifier and timestamps filled in.
 */
module SupplierForm {
  import opened Common

  /** A supplier as the form holds it: eight text fields. */
  datatype SupplierData = SupplierData(
    id: string,
    name: string,
    email: string,
    role: string,
    notes: string,
    status: string,
    createdAt: string,
    updatedAt: string)

  /** The inputs of the form, by their `name` attribute. */
  datatype SupplierField = Name | Email | Role | Notes | Status

  /** The shape of an empty form. */
  const DefaultSupplier := SupplierData("", "", "", "", "", "", "", "")

  /** The one message the validator records. */
  const Required := "This field is required"

  type Errors = map<SupplierField, string>

  /** The value of one input. */
  function FieldValue(d: SupplierData, f: SupplierField): string {
    match f
    case Name => d.name
    case Email => d.email
    case Role => d.role
    case Notes => d.notes
    case Status => d.status
  }

  /** `{ ...prev, [name]: value }` */
  function WithField(d: SupplierData, f: SupplierField, value: string): (r: SupplierData)
    ensures FieldValue(r, f) == value
    ensures forall g :: g != f ==> FieldValue(r, g) == FieldValue(d, g)
    ensures r.id == d.id && r.createdAt == d.createdAt && r.updatedAt == d.updatedAt
  {
    match f
    case Name => d.(name := value)
    case Email => d.(email := value)
    case Role => d.(role := value)
    case Notes => d.(notes := value)
    case Status => d.(status := value)
  }

  /** Whether the validator records an error for `f`: only name and email are required. */
  predicate RuleFails(d: SupplierData, f: SupplierField) {
    match f
    case Name => IsBlank(d.name)
    case Email => IsBlank(d.email)
    case _ => false
  }

  predicate IsValid(d: SupplierData) {
    forall f: SupplierField :: !RuleFails(d, f)
  }

  /** `if (fails) newErrors[f] = "This field is required"` */
  function Record(errors: Errors, f: SupplierField, fails: bool): Errors {
    if fails then errors[f := Required] else errors
  }

  /** The error map the validator builds. */
  function ErrorsOf(d: SupplierData): Errors {
    Record(Record(map[], Name, IsBlank(d.name)), Email, IsBlank(d.email))
  }

  /** The map built rule by rule holds exactly the failing fields, each with the message. */
  lemma ErrorsOfFields(d: SupplierData, f: SupplierField)
    ensures f in ErrorsOf(d) <==> RuleFails(d, f)
    ensures f in ErrorsOf(d) ==> ErrorsOf(d)[f] == Required
  {
  }

  /** `validateForm` */
  method Validate(d: SupplierData) returns (errors: Errors)
    ensures forall f :: f in errors <==> RuleFails(d, f)
    ensures forall f :: f in errors ==> errors[f] == Required
    ensures errors == map[] <==> IsValid(d)
  {
    errors := map[];
    errors := Record(errors, Name, IsBlank(d.name));
    errors := Record(errors, Email, IsBlank(d.email));
    assert errors == ErrorsOf(d);
    forall f ensures (f in errors <==> RuleFails(d, f)) && (f in errors ==> errors[f] == Required) {
      ErrorsOfFields(d, f);
    }
    EmptyIffNoKeys(errors);
  }

  /**
   * The form passes exactly when its name and its email each hold something
   * other than white space; role, notes and status are free.
   */
  lemma ValidIffNameAndEmail(d: SupplierData)
    ensures IsValid(d) <==> Trim(d.name) != "" && Trim(d.email) != ""
  {
    BlankIffTrimEmpty(d.name);
    BlankIffTrimEmpty(d.email);
    if !IsBlank(d.name) && !IsBlank(d.email) {
      forall f: SupplierField ensures !RuleFails(d, f) {
      }
    } else if IsBlank(d.name) {
      assert RuleFails(d, Name);
    } else {
      assert RuleFails(d, Email);
    }
  }

  /**
   * The payload `handleSubmit` hands on. `freshId` is what the identifier
   * generator gives (`randomUUID()` or `String(Date.now())`), `now` the
   * current time as an ISO string.
   */
  function Payload(d: SupplierData, freshId: string, now: string): (r: SupplierData)
    ensures r.id == (if d.id != "" then d.id else freshId)
    ensures r.createdAt == (if d.createdAt != "" then d.createdAt else now)
    ensures r.updatedAt == now
    ensures r.(id := d.id, createdAt := d.createdAt, updatedAt := d.updatedAt) == d
  {
    d.(id := if d.id != "" then d.id else freshId,
       createdAt := if d.createdAt != "" then d.createdAt else now,
       updatedAt := now)
  }

  /**
   * Saving keeps an identifier and a creation time once they exist, and a
   * second save at the same time changes nothing more; with a non-empty
   * generator result the payload always has an identifier.
   */
  lemma PayloadKeepsIdentity(d: SupplierData, freshId: string, freshId2: string, now: string)
    ensures d.id != "" ==> Payload(d, freshId, now).id == d.id
    ensures d.createdAt != "" ==> Payload(d, freshId, now).createdAt == d.createdAt
    ensures freshId != "" ==> Payload(d, freshId, now).id != ""
    ensures now != "" ==> Payload(d, freshId, now).createdAt != ""
    ensures freshId != "" && now != "" ==>
              Payload(Payload(d, freshId, now), freshId2, now) == Payload(d, freshId, now)
  {
  }

  /** The data a fresh form starts from: the defaults with a new id and both times set. */
  function FreshSupplier(freshId: string, now: string): (r: SupplierData)
    ensures r.id == freshId && r.createdAt == now && r.updatedAt == now
    ensures forall f :: FieldValue(r, f) == ""
  {
    DefaultSupplier.(id := freshId, createdAt := now, updatedAt := now)
  }

  /** The form over a fresh supplier fails both required rules until they are filled. */
  lemma FreshSupplierInvalid(freshId: string, now: string)
    ensures RuleFails(FreshSupplier(freshId, now), Name) && RuleFails(FreshSupplier(freshId, now), Email)
    ensures !IsValid(FreshSupplier(freshId, now))
  {
    assert IsBlank(FreshSupplier(freshId, now).name);
    assert RuleFails(FreshSupplier(freshId, now), Name);
  }

  /** The form's state: the data being edited and the errors on show. */
  class SupplierFormState {
    var formData: SupplierData
    var errors: Errors

    /**
     * The form as its mounting effect leaves it: the initial data when there
     * is some, otherwise a fresh supplier; no errors either way.
     */
    constructor (initialData: Option<SupplierData>, freshId: string, now: string)
      ensures formData == (if initialData.Some? then initialData.value else FreshSupplier(freshId, now))
      ensures errors == map[]
    {
      formData := if initialData.Some? then initialData.value else FreshSupplier(freshId, now);
      errors := map[];
    }

    /** The same effect, re-run when `initialData` changes. */
    method Reset(initialData: Option<SupplierData>, freshId: string, now: string)
      modifies this
      ensures formData == (if initialData.Some? then initialData.value else FreshSupplier(freshId, now))
      ensures errors == map[]
    {
      formData := if initialData.Some? then initialData.value else FreshSupplier(freshId, now);
      errors := map[];
    }

    /** `handleChange`: sets the named field and clears that field's error. */
    method HandleChange(f: SupplierField, value: string)
      modifies this
      ensures formData == WithField(old(formData), f, value)
      ensures errors == old(errors) - {f}
    {
      formData := WithField(formData, f, value);
      if f in errors {
        errors := errors - {f};
      }
    }

    /**
     * `handleSubmit`: validates and, when name and email are given, hands the
     * payload to `onSave`. The form data itself is not replaced by it.
     */
    method HandleSubmit(freshId: string, now: string) returns (saved: Option<SupplierData>)
      modifies this
      ensures formData == old(formData)
      ensures forall f :: f in errors <==> RuleFails(formData, f)
      ensures forall f :: f in errors ==> errors[f] == Required
      ensures saved.Some? <==> IsValid(formData)
      ensures saved.Some? ==> saved.value == Payload(formData, freshId, now)
    {
      errors := Validate(formData);
      saved := if errors == map[] then Some(Payload(formData, freshId, now)) else None;
    }
  }
}
