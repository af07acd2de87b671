/**
  The new-customer page: name, e-mail and phone are required, the e-mail
  must match the address pattern, and everything is sent trimmed.
 */
module CustomerNewPage {
  import opened Wrappers
  import opened FormErrors
  import opened JsText
  import opened EmailFormat
  import opened Domain
  import opened QueryKeys
  import opened CustomerForm
  import opened CustomerHooks

  const EmailRequired := "El email es obligatorio."
  const EmailBadFormat := "El email no tiene un formato válido."
  const PhoneRequired := "El teléfono es obligatorio."

  /** Validation field by field. The e-mail pattern is matched against the
      input as typed, so surrounding spaces make it fail. */
  function NewCustomerMessages(form: Form): Messages {
    Messages(
      if IsBlank(form.name) then Some(NameRequired) else None,
      if IsBlank(form.email) then Some(EmailRequired)
      else if !MatchesEmail(form.email) then Some(EmailBadFormat)
      else None,
      if IsBlank(form.phone) then Some(PhoneRequired) else None)
  }

  function NewCustomerErrors(form: Form): Errors {
    NewCustomerMessages(form).ToMap()
  }

  /** A new customer is valid iff name and phone are not blank and the
      e-mail, exactly as typed, is in the language of the address pattern. */
  lemma NewCustomerValidIff(form: Form)
    ensures NewCustomerErrors(form) == map[] <==>
      !AllSpace(form.name) && !AllSpace(form.phone) && InEmailLanguage(form.email)
  {
    MatchesEmailIff(form.email);
    EmptyIffNoMessage(NewCustomerMessages(form));
    if InEmailLanguage(form.email) {
      var at, dot :| SplitsAsEmail(form.email, at, dot);
      assert !IsSpace(form.email[0]);
    }
  }

  /** A well-formed address typed with a leading space is refused, although
      the request would have trimmed the space away. */
  lemma PaddedEmailRejected(form: Form, address: string)
    requires InEmailLanguage(address)
    ensures NewCustomerErrors(form.(email := " " + address))[Email] == EmailBadFormat
  {
    PaddedAddressRejected(address);
    MatchesEmailIff(address);
    var at, dot :| SplitsAsEmail(address, at, dot);
    assert !IsSpace((" " + address)[1]);
  }

  /** The new-customer form is stricter than the edit forms: whatever it
      accepts, they accept too. */
  lemma NewStricterThanEdit(form: Form)
    requires NewCustomerErrors(form) == map[]
    ensures EditErrors(form) == map[]
  {
    NewCustomerValidIff(form);
    EditValidIff(form);
  }

  /** The request a submission sends: the trimmed form, only when valid.
      Name and phone then arrive non-empty, and the e-mail arrives exactly
      as typed, since a matching address has no spaces to trim. */
  function SubmitRequest(form: Form): (r: Option<CustomerRequest>)
    ensures r.Some? <==> NewCustomerErrors(form) == map[]
    ensures r.Some? ==> r.value == TrimmedRequest(form)
    ensures r.Some? ==> r.value.name != [] && r.value.phone != []
    ensures r.Some? ==> r.value.email == form.email && InEmailLanguage(r.value.email)
  {
    if NewCustomerErrors(form) == map[] then
      NewCustomerValidIff(form);
      MatchesEmailIff(form.email);
      TrimNoSpace(form.email);
      Some(TrimmedRequest(form))
    else None
  }

  class CustomerNewPage {
    var form: Form
    var errors: Errors

    constructor()
      ensures form == EmptyForm && errors == map[]
    {
      form := EmptyForm;
      errors := map[];
    }

    /** Typing stores the value and clears that field's error only. */
    method HandleChange(f: CustomerField, value: string)
      modifies this
      ensures form == old(form).Set(f, value)
      ensures errors == ClearError(old(errors), f)
    {
      form := form.Set(f, value);
      errors := ClearError(errors, f);
    }

    /** Collects the messages into a fresh error map and reports whether it is empty. */
    method Validate() returns (ok: bool)
      modifies this
      ensures errors == NewCustomerErrors(form)
      ensures ok <==> errors == map[]
      ensures form == old(form)
    {
      var current := form;
      var newErrors: Errors := map[];
      if IsBlank(current.name) {
        newErrors := newErrors[Name := NameRequired];
      }
      if IsBlank(current.email) {
        newErrors := newErrors[Email := EmailRequired];
      } else if !MatchesEmail(current.email) {
        newErrors := newErrors[Email := EmailBadFormat];
      }
      if IsBlank(current.phone) {
        newErrors := newErrors[Phone := PhoneRequired];
      }
      ErrorsByField(NewCustomerMessages(current), newErrors);
      errors := newErrors;
      ok := |newErrors| == 0;
    }

    /** A valid form is sent trimmed; on success the form is emptied and the
        page moves to the customers list. */
    method HandleSubmit(outcome: Outcome)
      returns (request: Option<CustomerRequest>, invalidated: seq<Key>, navigated: bool)
      modifies this
      ensures errors == NewCustomerErrors(old(form))
      ensures request == SubmitRequest(old(form))
      ensures invalidated == if request.Some? then CreateCustomerInvalidations(outcome) else []
      ensures navigated <==> request.Some? && outcome.Succeeded?
      ensures form == if navigated then EmptyForm else old(form)
    {
      var current := form;
      var ok := Validate();
      if !ok {
        return None, [], false;
      }
      assert NewCustomerErrors(current) == map[];
      request := Some(TrimmedRequest(current));
      invalidated := CreateCustomerInvalidations(outcome);
      navigated := outcome.Succeeded?;
      if navigated {
        form := EmptyForm;
      }
    }
  }
}
