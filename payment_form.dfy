/**
  The new-payment form shared by the payments page and the purchase detail
  page: its fields, its validation, the request it produces, and when the
  form is offered at all.
 */
module PaymentForm {
  import opened Wrappers
  import opened FormErrors
  import opened JsText
  import opened JsNumber
  import opened Domain

  datatype PaymentField = Amount | Method | Note

  const AllPaymentFields: set<PaymentField> := {Amount, Method, Note}

  /** The form's three inputs, as the strings the inputs hold. */
  datatype Form = Form(amount: string, paymentMethod: string, note: string) {

    function Get(f: PaymentField): string {
      match f
      case Amount => amount
      case Method => paymentMethod
      case Note => note
    }

    /** `{ ...prev, [name]: value }`. */
    function Set(f: PaymentField, v: string): (r: Form)
      ensures r.Get(f) == v
      ensures forall g :: g != f ==> r.Get(g) == Get(g)
    {
      match f
      case Amount => this.(amount := v)
      case Method => this.(paymentMethod := v)
      case Note => this.(note := v)
    }
  }

  const EmptyForm := Form("", "", "")

  type Errors = map<PaymentField, string>

  const AmountRequired := "El monto es obligatorio."
  const AmountNotPositive := "El monto debe ser un número mayor a 0."
  const AmountOverRemaining := "El monto no puede ser mayor al restante."
  const MethodRequired := "Selecciona un método de pago."

  /** Validation field by field. The amount checks run in order and stop at
      the first that fails; the ceiling applies only when a remaining amount
      is known. The method is checked on its own; the note is free. */
  function PaymentError(form: Form, remaining: Option<real>, f: PaymentField): Option<string> {
    match f
    case Amount =>
      if IsBlank(form.amount) then Some(AmountRequired)
      else if ParseNumber(form.amount).NaN? || ParseNumber(form.amount).value <= 0.0 then Some(AmountNotPositive)
      else if remaining.Some? && ParseNumber(form.amount).value > remaining.value then Some(AmountOverRemaining)
      else None
    case Method => if form.paymentMethod == "" then Some(MethodRequired) else None
    case Note => None
  }

  function PaymentErrors(form: Form, remaining: Option<real>): Errors {
    map f | f in AllPaymentFields && PaymentError(form, remaining, f).Some? :: PaymentError(form, remaining, f).value
  }

  /** The amount is accepted iff it is a number in (0, remaining], or merely
      positive when no remaining amount is known. */
  lemma AmountAcceptedIff(form: Form, remaining: Option<real>)
    ensures Amount !in PaymentErrors(form, remaining) <==>
      ParseNumber(form.amount).Finite? && ParseNumber(form.amount).value > 0.0 &&
      (remaining.Some? ==> ParseNumber(form.amount).value <= remaining.value)
  {
    if IsBlank(form.amount) {
      BlankIsZero(form.amount);
    }
  }

  /** The message for the amount names the first failing check only: blank
      before non-positive before over the remaining amount. */
  lemma AmountMessagePrecedence(form: Form, remaining: Option<real>)
    ensures AllSpace(form.amount) ==> PaymentErrors(form, remaining)[Amount] == AmountRequired
    ensures !AllSpace(form.amount) && (ParseNumber(form.amount).NaN? || ParseNumber(form.amount).value <= 0.0) ==>
      PaymentErrors(form, remaining)[Amount] == AmountNotPositive
    ensures (remaining.Some? && ParseNumber(form.amount).Finite? && ParseNumber(form.amount).value > remaining.value &&
             ParseNumber(form.amount).value > 0.0) ==>
      PaymentErrors(form, remaining)[Amount] == AmountOverRemaining
  {
    if remaining.Some? && ParseNumber(form.amount).Finite? && ParseNumber(form.amount).value > 0.0 {
      if IsBlank(form.amount) { BlankIsZero(form.amount); }
    }
  }

  /** Whether the method is reported depends on the method alone, never on the amount. */
  lemma MethodIndependentOfAmount(form: Form, remaining: Option<real>, amount: string)
    ensures (Method in PaymentErrors(form, remaining)) <==> form.paymentMethod == ""
    ensures (Method in PaymentErrors(form, remaining)) <==> (Method in PaymentErrors(form.(amount := amount), remaining))
  {
  }

  /** The form is valid iff the amount is accepted and a method is chosen. */
  lemma PaymentValidIff(form: Form, remaining: Option<real>)
    ensures PaymentErrors(form, remaining) == map[] <==>
      ParseNumber(form.amount).Finite? && ParseNumber(form.amount).value > 0.0 &&
      (remaining.Some? ==> ParseNumber(form.amount).value <= remaining.value) &&
      form.paymentMethod != ""
  {
    AmountAcceptedIff(form, remaining);
    if PaymentErrors(form, remaining) == map[] {
      assert Method !in PaymentErrors(form, remaining);
    } else {
      var f :| f in PaymentErrors(form, remaining);
    }
  }

  /** The request built from a validated form: the parsed amount, the
      method as selected, no payment date (the server stamps it), and the
      trimmed note, or null when the note is blank. */
  function Request(form: Form): (r: PaymentCreateRequest)
    requires ParseNumber(form.amount).Finite?
    ensures r.amount == ParseNumber(form.amount).value
    ensures r.paymentMethod == form.paymentMethod
    ensures r.paidAt == None
    ensures r.note.None? <==> AllSpace(form.note)
    ensures r.note.Some? ==> r.note.value != [] && Trim(r.note.value) == r.note.value
    ensures r.note.Some? ==> r.note.value == Trim(form.note)
  {
    TrimIdempotent(form.note);
    var trimmed := Trim(form.note);
    PaymentCreateRequest(ParseNumber(form.amount).value, form.paymentMethod, None,
      if trimmed == [] then None else Some(trimmed))
  }

  /** The new-payment form is offered only for a purchase with something left
      to pay that is not cancelled. */
  predicate FormOffered(p: Purchase) {
    p.remainingAmount > 0.0 && p.status != Cancelado
  }

  /** Whenever the form is offered, paying the whole remaining amount with a
      chosen method passes validation. */
  lemma FullPaymentAccepted(form: Form, p: Purchase)
    requires FormOffered(p)
    requires ParseNumber(form.amount) == Finite(p.remainingAmount)
    requires form.paymentMethod != ""
    ensures PaymentErrors(form, Some(p.remainingAmount)) == map[]
  {
    PaymentValidIff(form, Some(p.remainingAmount));
  }
}
