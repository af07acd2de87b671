/**
  The customer form used by the new-customer page, the edit modal of the
  customers list and the customer detail page, and the edit validation the
  last two share.
 */
module CustomerForm {
  import opened Wrappers
  import opened FormErrors
  import opened JsText
  import opened EmailFormat
  import opened Domain

  datatype CustomerField = Name | Email | Phone | Notes

  const AllCustomerFields: set<CustomerField> := {Name, Email, Phone, Notes}

  /** The form's four text inputs. */
  datatype Form = Form(name: string, email: string, phone: string, notes: string) {

    function Get(f: CustomerField): string {
      match f
      case Name => name
      case Email => email
      case Phone => phone
      case Notes => notes
    }

    /** `{ ...prev, [name]: value }`: one field replaced, the others kept. */
    function Set(f: CustomerField, v: string): (r: Form)
      ensures r.Get(f) == v
      ensures forall g :: g != f ==> r.Get(g) == Get(g)
    {
      match f
      case Name => this.(name := v)
      case Email => this.(email := v)
      case Phone => this.(phone := v)
      case Notes => this.(notes := v)
    }
  }

  const EmptyForm := Form("", "", "", "")

  type Errors = map<CustomerField, string>

  /** The form filled from a loaded customer, a missing value becoming "". */
  function FromCustomer(c: Customer): (f: Form)
    ensures f.name == c.name && f.email == c.email && f.phone == c.phone
    ensures f.notes == (if c.notes.Some? then c.notes.value else "")
  {
    Form(c.name, c.email, c.phone, c.notes.GetOr(""))
  }

  /** `{ name: form.name.trim(), … }`: the request with every field trimmed. */
  function TrimmedRequest(f: Form): (r: CustomerRequest)
    ensures Trim(r.name) == r.name && Trim(r.email) == r.email
    ensures Trim(r.phone) == r.phone && Trim(r.notes) == r.notes
    ensures r.name == [] <==> IsBlank(f.name)
    ensures r.name == Trim(f.name) && r.email == Trim(f.email)
    ensures r.phone == Trim(f.phone) && r.notes == Trim(f.notes)
  {
    TrimIdempotent(f.name);
    TrimIdempotent(f.email);
    TrimIdempotent(f.phone);
    TrimIdempotent(f.notes);
    CustomerRequest(Trim(f.name), Trim(f.email), Trim(f.phone), Trim(f.notes))
  }

  /** The request the edit forms send: the form as typed, nothing trimmed. */
  function UntrimmedRequest(f: Form): (r: CustomerRequest)
    ensures r.name == f.name && r.email == f.email && r.phone == f.phone && r.notes == f.notes
  {
    CustomerRequest(f.name, f.email, f.phone, f.notes)
  }

  const NameRequired := "El nombre es obligatorio."
  const EmailInvalid := "Correo electrónico no válido."

  /** The message found for each field; notes never have one. */
  datatype Messages = Messages(name: Option<string>, email: Option<string>, phone: Option<string>)
  {
    function Of(f: CustomerField): Option<string> {
      match f
      case Name => name
      case Email => email
      case Phone => phone
      case Notes => None
    }

    /** The fields that have a message, each mapped to it. */
    function ToMap(): Errors {
      map f | f in AllCustomerFields && Of(f).Some? :: Of(f).value
    }

    predicate NoMessage() {
      name.None? && email.None? && phone.None?
    }
  }

  /** `m` holds exactly the message of `f`, if any. */
  predicate Agrees(msgs: Messages, m: Errors, f: CustomerField) {
    (f in m <==> msgs.Of(f).Some?) && (f in m ==> m[f] == msgs.Of(f).value)
  }

  /** A map that agrees with every field's message is the error map. */
  lemma ErrorsByField(msgs: Messages, m: Errors)
    requires Agrees(msgs, m, Name) && Agrees(msgs, m, Email)
    requires Agrees(msgs, m, Phone) && Agrees(msgs, m, Notes)
    ensures m == msgs.ToMap()
  {
    var e := msgs.ToMap();
    forall f ensures (f in m <==> f in e) && (f in m ==> m[f] == e[f]) {
      match f
      case Name =>
      case Email =>
      case Phone =>
      case Notes =>
    }
  }

  /** The error map is empty iff no field has a message. */
  lemma EmptyIffNoMessage(msgs: Messages)
    ensures msgs.ToMap() == map[] <==> msgs.NoMessage()
  {
    if msgs.ToMap() == map[] {
      assert Name !in msgs.ToMap();
      assert Email !in msgs.ToMap();
      assert Phone !in msgs.ToMap();
    } else {
      var f :| f in msgs.ToMap();
    }
  }

  /** Edit validation, field by field: a non-blank name, and an e-mail that,
      when not empty, passes the format check. */
  function EditMessages(form: Form): Messages {
    Messages(
      if IsBlank(form.name) then Some(NameRequired) else None,
      if form.email != "" && !MatchesEmail(form.email) then Some(EmailInvalid) else None,
      None)
  }

  function EditErrors(form: Form): Errors {
    EditMessages(form).ToMap()
  }

  /** An edit form is valid iff its name is not blank and its e-mail is empty
      or in the language of the e-mail regular expression. */
  lemma EditValidIff(form: Form)
    ensures EditErrors(form) == map[] <==>
      !AllSpace(form.name) && (form.email == "" || InEmailLanguage(form.email))
  {
    MatchesEmailIff(form.email);
    EmptyIffNoMessage(EditMessages(form));
  }

  /** The e-mail is optional when editing, but a non-empty e-mail made only of
      spaces is rejected. */
  lemma EditEmailOnlySpaces(form: Form)
    requires form.email != "" && AllSpace(form.email)
    ensures Email in EditErrors(form)
  {
    assert IsSpace(form.email[0]);
  }
}
