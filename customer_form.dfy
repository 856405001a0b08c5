/** The create/edit form for a customer
    (`app/dashboard/kunden/components/customer-form.tsx`): seven text fields,
    an error entry per field, validation of the two names and the
    normalisation of the fields into the row that is saved. */
module CustomerForm {
  import opened Base
  import opened Text
  import opened Types
  import opened Toasts

  datatype Field = FirstName | LastName | Email | Phone | DateOfBirth | LocationField | Notes

  /** The form's text values. */
  datatype Fields = Fields(
    first_name: string,
    last_name: string,
    email: string,
    phone: string,
    date_of_birth: string,
    location: string,
    notes: string)

  function Get(f: Fields, field: Field): string
  {
    match field
    case FirstName => f.first_name
    case LastName => f.last_name
    case Email => f.email
    case Phone => f.phone
    case DateOfBirth => f.date_of_birth
    case LocationField => f.location
    case Notes => f.notes
  }

  /** `{ ...prev, [field]: value }`: that field has the new value, every other
      field keeps its own. */
  function With(f: Fields, field: Field, value: string): (g: Fields)
    ensures Get(g, field) == value
    ensures forall other :: other != field ==> Get(g, other) == Get(f, other)
  {
    match field
    case FirstName => f.(first_name := value)
    case LastName => f.(last_name := value)
    case Email => f.(email := value)
    case Phone => f.(phone := value)
    case DateOfBirth => f.(date_of_birth := value)
    case LocationField => f.(location := value)
    case Notes => f.(notes := value)
  }

  /** `value || ''` of an optional string. */
  function OrEmpty(s: Option<string>): (r: string)
    ensures s.None? ==> r == ""
    ensures s.Some? ==> r == s.value
  {
    if s.Some? then s.value else ""
  }

  /** The starting values of the form: empty fields for a new customer; an
      edited one's own values, with `''` for each absent value. */
  function InitialFields(customer: Option<Customer>): (f: Fields)
    ensures customer.None? ==> f == Fields("", "", "", "", "", "", "")
    ensures customer.Some? ==>
      var c := customer.value;
      && f.first_name == c.first_name && f.last_name == c.last_name
      && (c.email.Some? ==> f.email == c.email.value) && (c.email.None? ==> f.email == "")
      && (c.phone.Some? ==> f.phone == c.phone.value) && (c.phone.None? ==> f.phone == "")
      && (c.date_of_birth.Some? ==> f.date_of_birth == c.date_of_birth.value)
      && (c.date_of_birth.None? ==> f.date_of_birth == "")
      && (c.notes.Some? ==> f.notes == c.notes.value) && (c.notes.None? ==> f.notes == "")
      && (c.location.None? ==> f.location == "")
      && (c.location.Some? ==> f.location == LocationName(c.location.value))
  {
    match customer
    case None => Fields("", "", "", "", "", "", "")
    case Some(c) =>
      Fields(c.first_name, c.last_name, OrEmpty(c.email), OrEmpty(c.phone), OrEmpty(c.date_of_birth),
             if c.location.Some? then LocationName(c.location.value) else "", OrEmpty(c.notes))
  }

  /** Setting `payload.id` afterwards gives the payload built with the id. */
  lemma PayloadWithId(f: Fields, editingId: Option<string>)
    ensures (if editingId.Some? then PayloadOf(f, None).(id := editingId) else PayloadOf(f, None))
      == PayloadOf(f, editingId)
  {
  }

  /** `s || null`: an empty string is absent. */
  function NullIfEmpty(s: string): (r: Option<string>)
    ensures r.None? <==> s == ""
    ensures r.Some? ==> r.value == s
  {
    if s == "" then None else Some(s)
  }

  /** The row sent to the upsert function. */
  datatype CustomerPayload = CustomerPayload(
    id: Option<string>,
    first_name: string,
    last_name: string,
    email: Option<string>,
    phone: Option<string>,
    date_of_birth: Option<string>,
    location: Option<string>,
    notes: Option<string>)

  /** `payload` of `handleSubmit`: trimmed names; e-mail, phone and notes
      trimmed and absent when nothing is left; date of birth and location
      absent when empty but not trimmed; the id only when editing. */
  function PayloadOf(f: Fields, editingId: Option<string>): (p: CustomerPayload)
    ensures p.id == editingId
    ensures p.first_name == Trim(f.first_name) && p.last_name == Trim(f.last_name)
    ensures (p.email.None? <==> IsBlank(f.email)) && (p.email.Some? ==> p.email.value == Trim(f.email))
    ensures (p.phone.None? <==> IsBlank(f.phone)) && (p.phone.Some? ==> p.phone.value == Trim(f.phone))
    ensures (p.notes.None? <==> IsBlank(f.notes)) && (p.notes.Some? ==> p.notes.value == Trim(f.notes))
    ensures p.date_of_birth == (if f.date_of_birth == "" then None else Some(f.date_of_birth))
    ensures p.location == (if f.location == "" then None else Some(f.location))
  {
    CustomerPayload(editingId, Trim(f.first_name), Trim(f.last_name), NullIfEmpty(Trim(f.email)),
                    NullIfEmpty(Trim(f.phone)), NullIfEmpty(f.date_of_birth), NullIfEmpty(f.location),
                    NullIfEmpty(Trim(f.notes)))
  }

  /** Trimming leaves the value as it is. */
  predicate IsTrimmed(s: string)
  {
    Trim(s) == s
  }

  /** A stored value is trimmed and, when present, not empty. */
  predicate IsTidy(s: Option<string>)
  {
    s.Some? ==> s.value != "" && IsTrimmed(s.value)
  }

  lemma TidyRoundTrip(s: Option<string>)
    requires IsTidy(s)
    ensures NullIfEmpty(Trim(OrEmpty(s))) == s
  {
  }

  /** Saving a customer's form unchanged writes back the customer's own
      values, provided they are stored tidily: names trimmed, the optional
      values trimmed and never empty. */
  lemma UnchangedFormSavesSameCustomer(c: Customer)
    requires IsTrimmed(c.first_name) && IsTrimmed(c.last_name)
    requires IsTidy(c.email) && IsTidy(c.phone) && IsTidy(c.notes)
    requires c.date_of_birth.Some? ==> c.date_of_birth.value != ""
    ensures var p := PayloadOf(InitialFields(Some(c)), Some(c.id));
      && p.id == Some(c.id)
      && p.first_name == c.first_name && p.last_name == c.last_name
      && p.email == c.email && p.phone == c.phone && p.notes == c.notes
      && p.date_of_birth == c.date_of_birth
      && p.location == (if c.location.Some? then Some(LocationName(c.location.value)) else None)
  {
    UnchangedDetails(c);
    UnchangedNames(c);
    UnchangedContacts(c);
  }

  lemma UnchangedDetails(c: Customer)
    requires c.date_of_birth.Some? ==> c.date_of_birth.value != ""
    ensures var p := PayloadOf(InitialFields(Some(c)), Some(c.id));
      && p.id == Some(c.id) && p.date_of_birth == c.date_of_birth
      && p.location == (if c.location.Some? then Some(LocationName(c.location.value)) else None)
  {
    if c.location.Some? {
      assert |LocationName(c.location.value)| > 0;
    }
  }

  lemma UnchangedNames(c: Customer)
    requires IsTrimmed(c.first_name) && IsTrimmed(c.last_name)
    ensures var p := PayloadOf(InitialFields(Some(c)), Some(c.id));
      p.first_name == c.first_name && p.last_name == c.last_name
  {
  }

  lemma UnchangedContacts(c: Customer)
    requires IsTidy(c.email) && IsTidy(c.phone) && IsTidy(c.notes)
    ensures var p := PayloadOf(InitialFields(Some(c)), Some(c.id));
      p.email == c.email && p.phone == c.phone && p.notes == c.notes
  {
    TidyRoundTrip(c.email);
    TidyRoundTrip(c.phone);
    TidyRoundTrip(c.notes);
  }

  /** The answer of the upsert function: `{ ok, customer?, error? }`. */
  datatype UpsertResponse = UpsertResponse(ok: bool, customer: Option<Customer>, error: Option<string>)

  const FirstNameRequired := "Vorname ist erforderlich"
  const LastNameRequired := "Nachname ist erforderlich"
  const SaveFailed := "Fehler beim Speichern"
  const Updated := "Kundin aktualisiert"
  const Created := "Neue Kundin angelegt"

  /** The error messages of `validate` for given values: exactly the blank
      names get an entry. */
  function ValidationErrors(f: Fields): (errors: map<Field, string>)
    ensures FirstName in errors <==> IsBlank(f.first_name)
    ensures LastName in errors <==> IsBlank(f.last_name)
    ensures forall field :: field in errors ==> field == FirstName || field == LastName
    ensures FirstName in errors ==> errors[FirstName] == FirstNameRequired
    ensures LastName in errors ==> errors[LastName] == LastNameRequired
  {
    var first: map<Field, string> := if Missing(f.first_name) then map[FirstName := FirstNameRequired] else map[];
    if Missing(f.last_name) then first[LastName := LastNameRequired] else first
  }

  /** `!value.trim()`: nothing but white space was entered. */
  predicate Missing(value: string)
  {
    IsBlank(value)
  }

  /** A value is missing exactly when its trim is the empty string. */
  lemma MissingIffTrimEmpty(value: string)
    ensures Missing(value) <==> Trim(value) == ""
  {
  }

  /** The form passes `validate` exactly when both names are given. */
  lemma NoErrorsIffNamesGiven(f: Fields)
    ensures |ValidationErrors(f)| == 0 <==> !IsBlank(f.first_name) && !IsBlank(f.last_name)
    ensures |ValidationErrors(f)| == 0 <==> ValidationErrors(f) == map[]
  {
    var e := ValidationErrors(f);
    if IsBlank(f.first_name) {
      assert FirstName in e;
    } else if IsBlank(f.last_name) {
      assert LastName in e;
    } else {
      assert e == map[];
    }
  }

  class Form {
    var form: Fields
    var errors: map<Field, string>
    /** `customer?.id` when it is set: the form edits an existing customer. */
    var editingId: Option<string>

    constructor (customer: Option<Customer>)
      ensures form == InitialFields(customer) && errors == map[]
      ensures editingId == if customer.Some? && customer.value.id != "" then Some(customer.value.id) else None
    {
      form := InitialFields(customer);
      errors := map[];
      editingId := if customer.Some? && customer.value.id != "" then Some(customer.value.id) else None;
    }

    /** `update(field, value)`: the field takes the value, and that field's
        error, if it shows one, is emptied; no other field or error changes. */
    method Update(field: Field, value: string)
      modifies this
      ensures form == With(old(form), field, value)
      ensures field in old(errors) && old(errors)[field] != "" ==> errors == old(errors)[field := ""]
      ensures !(field in old(errors) && old(errors)[field] != "") ==> errors == old(errors)
      ensures forall other :: other != field ==>
        (other in errors <==> other in old(errors)) && (other in errors ==> errors[other] == old(errors)[other])
      ensures editingId == old(editingId)
    {
      form := With(form, field, value);
      if field in errors && errors[field] != "" {
        errors := errors[field := ""];
      }
    }

    /** `validate`: the error map is rebuilt from scratch, one entry per blank
        name, and the form is valid exactly when it stays empty. */
    method Validate() returns (valid: bool)
      modifies this
      ensures errors == ValidationErrors(form)
      ensures valid <==> !IsBlank(form.first_name) && !IsBlank(form.last_name)
      ensures valid <==> errors == map[]
      ensures form == old(form) && editingId == old(editingId)
    {
      var next: map<Field, string> := map[];
      if Missing(form.first_name) {
        next := next[FirstName := FirstNameRequired];
      }
      if Missing(form.last_name) {
        next := next[LastName := LastNameRequired];
      }
      assert next == ValidationErrors(form);
      errors := next;
      valid := |next| == 0;
      NoErrorsIffNamesGiven(form);
    }

    /** `handleSubmit`: an invalid form only shows its errors and calls
        nothing. Otherwise the payload is built (with the id added when
        editing) and upserted; `upsert` answers with the function's answer
        or fails (`Err`). The outcome is a toast and, on success, the saved
        customer. */
    method Submit(upsert: CustomerPayload -> Result<UpsertResponse>)
      returns (payload: Option<CustomerPayload>, saved: Option<Customer>, toast: Option<(string, ToastVariant)>)
      modifies this
      ensures errors == ValidationErrors(form)
      ensures form == old(form) && editingId == old(editingId)
      ensures IsBlank(form.first_name) || IsBlank(form.last_name) ==>
        payload.None? && saved.None? && toast.None?
      ensures !IsBlank(form.first_name) && !IsBlank(form.last_name) ==>
        && payload == Some(PayloadOf(form, editingId))
        && var answer := upsert(payload.value);
        && (answer.Err? ==> saved.None? && toast == Some((SaveFailed, ToastError)))
        && (answer.Ok? && answer.value.ok && answer.value.customer.Some? ==>
              saved == answer.value.customer
              && toast == Some((if editingId.Some? then Updated else Created, ToastSuccess)))
        && (answer.Ok? && !(answer.value.ok && answer.value.customer.Some?) ==>
              saved.None?
              && toast == Some((if answer.value.error.Some? && answer.value.error.value != ""
                                then answer.value.error.value else SaveFailed, ToastError)))
    {
      var valid := Validate();
      if !valid {
        return None, None, None;
      }
      var p := PayloadOf(form, None);
      if editingId.Some? {
        p := p.(id := editingId);
      }
      PayloadWithId(form, editingId);
      payload := Some(p);
      match upsert(p)
      case Err(_) =>
        saved, toast := None, Some((SaveFailed, ToastError));
      case Ok(r) =>
        if r.ok && r.customer.Some? {
          saved := r.customer;
          toast := Some((if editingId.Some? then Updated else Created, ToastSuccess));
        } else {
          saved := None;
          var message := if r.error.Some? && r.error.value != "" then r.error.value else SaveFailed;
          toast := Some((message, ToastError));
        }
    }
  }
}
