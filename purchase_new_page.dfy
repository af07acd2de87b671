/**
  The new-purchase page: customer, description, total amount and an
  optional installment plan, validated before sending, with a live
  installment simulation while the numbers make sense.
 */
module PurchaseNewPage {
  import opened Wrappers
  import opened FormErrors
  import opened JsText
  import opened JsNumber
  import opened Domain
  import opened QueryKeys
  import opened PurchaseHooks

  datatype PurchaseField = CustomerId | Description | TotalAmount | InstallmentEnabled | InstallmentCount

  const AllPurchaseFields: set<PurchaseField> :=
    {CustomerId, Description, TotalAmount, InstallmentEnabled, InstallmentCount}

  /** The inputs as they hold them: text for all but the checkbox. */
  datatype Form = Form(
    customerId: string,
    description: string,
    totalAmount: string,
    installmentEnabled: bool,
    installmentCount: string)
  {
    /** `{ ...prev, [name]: value }` for a text input. */
    function SetText(f: PurchaseField, v: string): (r: Form)
      requires f != InstallmentEnabled
      ensures r.installmentEnabled == installmentEnabled
      ensures f == CustomerId ==> r == this.(customerId := v)
      ensures f == Description ==> r == this.(description := v)
      ensures f == TotalAmount ==> r == this.(totalAmount := v)
      ensures f == InstallmentCount ==> r == this.(installmentCount := v)
    {
      match f
      case CustomerId => this.(customerId := v)
      case Description => this.(description := v)
      case TotalAmount => this.(totalAmount := v)
      case InstallmentCount => this.(installmentCount := v)
    }
  }

  const EmptyForm := Form("", "", "", false, "")

  type Errors = map<PurchaseField, string>

  const MaxDescriptionLength := 200

  const CustomerRequired := "Debes seleccionar un cliente."
  const DescriptionRequired := "La descripción es obligatoria."
  const DescriptionTooLong := "La descripción no puede exceder 200 caracteres."
  const TotalRequired := "El monto total es obligatorio."
  const TotalNotPositive := "El monto total debe ser un número mayor a 0."
  const CountRequired := "Ingresa el número de plazos."
  const CountNotPositiveInteger := "El número de plazos debe ser un entero mayor a 0."

  function DescriptionError(description: string): Option<string> {
    if IsBlank(description) then Some(DescriptionRequired)
    else if |Trim(description)| > MaxDescriptionLength then Some(DescriptionTooLong)
    else None
  }

  function TotalError(totalAmount: string): Option<string> {
    if IsBlank(totalAmount) then Some(TotalRequired)
    else if ParseNumber(totalAmount).NaN? || ParseNumber(totalAmount).value <= 0.0 then Some(TotalNotPositive)
    else None
  }

  /** The count is checked only when installments are enabled, and its digit
      pattern is matched against the input as typed, spaces included. */
  function CountError(installmentEnabled: bool, installmentCount: string): Option<string> {
    if !installmentEnabled then None
    else if IsBlank(installmentCount) then Some(CountRequired)
    else if !IsDigitString(installmentCount) || ParseNumber(installmentCount).NaN? ||
            ParseNumber(installmentCount).value <= 0.0 then Some(CountNotPositiveInteger)
    else None
  }

  function CustomerError(customerId: string): Option<string> {
    if customerId == "" then Some(CustomerRequired) else None
  }

  /** The message found for each field, the checkbox never having one. */
  datatype Messages = Messages(
    customerId: Option<string>, description: Option<string>,
    totalAmount: Option<string>, installmentCount: Option<string>)
  {
    function Of(f: PurchaseField): Option<string> {
      match f
      case CustomerId => customerId
      case Description => description
      case TotalAmount => totalAmount
      case InstallmentEnabled => None
      case InstallmentCount => installmentCount
    }

    /** The fields that have a message, each mapped to it. */
    function ToMap(): Errors {
      map f | f in AllPurchaseFields && Of(f).Some? :: Of(f).value
    }
  }

  /** Validation field by field. */
  function FormMessages(form: Form): Messages {
    Messages(
      CustomerError(form.customerId),
      DescriptionError(form.description),
      TotalError(form.totalAmount),
      CountError(form.installmentEnabled, form.installmentCount))
  }

  function PurchaseErrors(form: Form): Errors {
    FormMessages(form).ToMap()
  }

  /** The description is accepted iff, once trimmed, it has between 1 and 200 characters. */
  lemma DescriptionAcceptedIff(description: string)
    ensures DescriptionError(description).None? <==> 0 < |Trim(description)| <= MaxDescriptionLength
  {
  }

  /** The total is accepted iff it reads as a positive number. */
  lemma TotalAcceptedIff(totalAmount: string)
    ensures TotalError(totalAmount).None? <==>
      ParseNumber(totalAmount).Finite? && ParseNumber(totalAmount).value > 0.0
  {
    if IsBlank(totalAmount) {
      BlankIsZero(totalAmount);
    }
  }

  /** A count of installments: decimal digits only, not all of them zero. */
  predicate WholeCount(c: string) {
    IsDigitString(c) && exists k :: 0 <= k < |c| && c[k] != '0'
  }

  /** With installments on, the count is accepted iff it is a whole count,
      and it then reads as that number; with installments off it is never
      looked at. */
  lemma CountAcceptedIff(installmentEnabled: bool, c: string)
    ensures !installmentEnabled ==> CountError(installmentEnabled, c).None?
    ensures installmentEnabled ==> (CountError(installmentEnabled, c).None? <==> WholeCount(c))
    ensures WholeCount(c) ==> ParseNumber(c) == Finite(DigitsValue(c) as real) && DigitsValue(c) >= 1
  {
    if IsDigitString(c) {
      DigitStringValue(c);
      DigitsPositiveIff(c);
      assert !IsBlank(c) by {
        BlankIffAllSpace(c);
        assert !IsSpace(c[0]);
      }
    }
  }

  /** "007" is accepted as seven installments. */
  lemma LeadingZerosAccepted()
    ensures CountError(true, "007").None?
  {
    assert "007"[2] != '0';
    CountAcceptedIff(true, "007");
  }

  /** "0" and "00" are rejected as not positive, " 3" for its space. */
  lemma ZeroOrPaddedCountRejected()
    ensures CountError(true, "0") == Some(CountNotPositiveInteger)
    ensures CountError(true, "00") == Some(CountNotPositiveInteger)
    ensures CountError(true, " 3") == Some(CountNotPositiveInteger)
  {
    CountAcceptedIff(true, "0");
    CountAcceptedIff(true, "00");
    CountAcceptedIff(true, " 3");
    assert !IsDigitString(" 3") by {
      assert !IsDigit(" 3"[0]);
    }
    assert !IsBlank(" 3") by {
      BlankIffAllSpace(" 3");
      assert !IsSpace(" 3"[1]);
    }
  }

  /** `m` holds exactly the message of `f`, if any. */
  predicate Agrees(msgs: Messages, m: Errors, f: PurchaseField) {
    (f in m <==> msgs.Of(f).Some?) && (f in m ==> m[f] == msgs.Of(f).value)
  }

  /** A map that agrees with every field's message is the error map. */
  lemma ErrorsByField(msgs: Messages, m: Errors)
    requires Agrees(msgs, m, CustomerId) && Agrees(msgs, m, Description) && Agrees(msgs, m, TotalAmount)
    requires Agrees(msgs, m, InstallmentEnabled) && Agrees(msgs, m, InstallmentCount)
    ensures m == msgs.ToMap()
  {
    var e := msgs.ToMap();
    forall f ensures (f in m <==> f in e) && (f in m ==> m[f] == e[f]) {
      match f
      case CustomerId =>
      case Description =>
      case TotalAmount =>
      case InstallmentEnabled =>
      case InstallmentCount =>
    }
  }

  /** The error map is empty iff no field has a message. */
  lemma NoErrorsIff(form: Form)
    ensures PurchaseErrors(form) == map[] <==>
      CustomerError(form.customerId).None? && DescriptionError(form.description).None? &&
      TotalError(form.totalAmount).None? &&
      CountError(form.installmentEnabled, form.installmentCount).None?
  {
    var msgs := FormMessages(form);
    if msgs.ToMap() == map[] {
      assert CustomerId !in msgs.ToMap();
      assert Description !in msgs.ToMap();
      assert TotalAmount !in msgs.ToMap();
      assert InstallmentCount !in msgs.ToMap();
    } else {
      var f :| f in msgs.ToMap();
    }
  }

  /** The form is valid iff a customer is chosen, the description and the
      total are accepted, and, with installments on, the count is whole. */
  lemma PurchaseValidIff(form: Form)
    ensures PurchaseErrors(form) == map[] <==>
      form.customerId != "" &&
      0 < |Trim(form.description)| <= MaxDescriptionLength &&
      ParseNumber(form.totalAmount).Finite? && ParseNumber(form.totalAmount).value > 0.0 &&
      (form.installmentEnabled ==> WholeCount(form.installmentCount))
  {
    NoErrorsIff(form);
    DescriptionAcceptedIff(form.description);
    TotalAcceptedIff(form.totalAmount);
    CountAcceptedIff(form.installmentEnabled, form.installmentCount);
  }

  /** The request built from a valid form: the customer id and the total
      as numbers, the description trimmed, and a count only with installments. */
  function Request(form: Form): (r: PurchaseCreateRequest)
    requires ParseNumber(form.totalAmount).Finite?
    requires form.installmentEnabled ==> ParseNumber(form.installmentCount).Finite?
    ensures r.customerId == ParseNumber(form.customerId)
    ensures r.description == Trim(form.description) && Trim(r.description) == r.description
    ensures r.totalAmount == ParseNumber(form.totalAmount).value
    ensures r.installmentEnabled == form.installmentEnabled
    ensures r.installmentCount.Some? <==> form.installmentEnabled
    ensures r.installmentCount.Some? ==> r.installmentCount.value == ParseNumber(form.installmentCount).value
  {
    TrimIdempotent(form.description);
    PurchaseCreateRequest(
      ParseNumber(form.customerId),
      Trim(form.description),
      ParseNumber(form.totalAmount).value,
      form.installmentEnabled,
      if form.installmentEnabled then Some(ParseNumber(form.installmentCount).value) else None)
  }

  /** The request a submission sends: none unless the form is valid; then
      the count is a whole number of installments, at least one. */
  function SubmitRequest(form: Form): (r: Option<PurchaseCreateRequest>)
    ensures r.Some? <==> PurchaseErrors(form) == map[]
    ensures r.Some? ==>
      ParseNumber(form.totalAmount).Finite? &&
      (form.installmentEnabled ==> ParseNumber(form.installmentCount).Finite?) &&
      r.value == Request(form)
    ensures r.Some? ==> r.value.totalAmount > 0.0 && 0 < |r.value.description| <= MaxDescriptionLength
    ensures r.Some? && r.value.installmentCount.Some? ==>
      WholeCount(form.installmentCount) &&
      r.value.installmentCount.value == DigitsValue(form.installmentCount) as real &&
      r.value.installmentCount.value >= 1.0
  {
    PurchaseValidIff(form);
    CountAcceptedIff(form.installmentEnabled, form.installmentCount);
    if PurchaseErrors(form) == map[] then Some(Request(form)) else None
  }

  /** `shouldSimulate`: installments on and both numbers positive. */
  predicate ShouldSimulate(form: Form) {
    form.installmentEnabled &&
    ParseNumber(form.totalAmount).Finite? && ParseNumber(form.totalAmount).value > 0.0 &&
    ParseNumber(form.installmentCount).Finite? && ParseNumber(form.installmentCount).value > 0.0
  }

  /** The simulation query: keyed by the two numbers while it may run, and
      by zeros otherwise. */
  function SimulationQuery(form: Form): (q: Query)
    ensures q.enabled <==> ShouldSimulate(form)
    ensures !q.keepsPreviousData
  {
    var should := ShouldSimulate(form);
    Query([Str("installmentSimulation"),
           SimulationRec(if should then ParseNumber(form.totalAmount).value else 0.0,
                         if should then ParseNumber(form.installmentCount).value else 0.0)],
          should, false)
  }

  /** Every form that may not simulate shares one disabled cache entry, and
      enabled entries are told apart by the two numbers. */
  lemma SimulationKeys(a: Form, b: Form)
    ensures !ShouldSimulate(a) && !ShouldSimulate(b) ==> SimulationQuery(a).key == SimulationQuery(b).key
    ensures ShouldSimulate(a) && ShouldSimulate(b) ==>
      (SimulationQuery(a).key == SimulationQuery(b).key <==>
        ParseNumber(a.totalAmount) == ParseNumber(b.totalAmount) &&
        ParseNumber(a.installmentCount) == ParseNumber(b.installmentCount))
  {
    if ShouldSimulate(a) && ShouldSimulate(b) && SimulationQuery(a).key == SimulationQuery(b).key {
      assert SimulationQuery(a).key[1] == SimulationQuery(b).key[1];
    }
  }

  /** A valid form with installments on is always simulated. */
  lemma ValidFormSimulated(form: Form)
    requires PurchaseErrors(form) == map[] && form.installmentEnabled
    ensures ShouldSimulate(form)
  {
    PurchaseValidIff(form);
    CountAcceptedIff(true, form.installmentCount);
  }

  /** The converse does not hold: a fractional count is simulated although
      validation rejects it. */
  lemma FractionalCountSimulatedButRejected(form: Form)
    requires form.installmentEnabled && form.totalAmount == "100" && form.installmentCount == "2.5"
    ensures ShouldSimulate(form)
    ensures CountError(true, form.installmentCount) == Some(CountNotPositiveInteger)
  {
    TrimNoSpace("2.5");
    TrimNoSpace("100");
    assert PrefixLength("2.5", IsDigit) == 1;
    assert "2.5"[..1] == "2" && "2.5"[2..] == "5";
    assert DigitsValue("2") == 2;
    assert ParseNumber("2.5").Finite? && ParseNumber("2.5").value > 0.0;
    DigitStringValue("100");
    assert "100"[0] != '0';
    DigitsPositiveIff("100");
    assert !IsDigitString("2.5") by {
      assert !IsDigit("2.5"[1]);
    }
    assert !IsBlank("2.5") by {
      BlankIffAllSpace("2.5");
      assert !IsSpace("2.5"[0]);
    }
  }

  /** The customer select: a key of its own under the "customers" tag. */
  function CustomersSelectQuery(): (q: Query)
    ensures q.enabled && !q.keepsPreviousData
    ensures |q.key| == 2 && q.key[0] == Str("customers")
  {
    Plain([Str("customers"), ForRec("purchase-select")])
  }

  class PurchaseNewPage {
    var form: Form
    var errors: Errors

    constructor()
      ensures form == EmptyForm && errors == map[]
    {
      form := EmptyForm;
      errors := map[];
    }

    function Simulation(): Query
      reads this
    {
      SimulationQuery(form)
    }

    /** A text input stores its value and clears its own error. */
    method HandleTextChange(f: PurchaseField, value: string)
      requires f != InstallmentEnabled
      modifies this
      ensures form == old(form).SetText(f, value)
      ensures errors == ClearError(old(errors), f)
    {
      form := form.SetText(f, value);
      errors := ClearError(errors, f);
    }

    /** The checkbox stores its checked state and clears its own error. */
    method HandleCheckboxChange(checked: bool)
      modifies this
      ensures form == old(form).(installmentEnabled := checked)
      ensures errors == ClearError(old(errors), InstallmentEnabled)
    {
      form := form.(installmentEnabled := checked);
      errors := ClearError(errors, InstallmentEnabled);
    }

    /** Collects the messages into a fresh error map and reports whether it is empty. */
    method Validate() returns (ok: bool)
      modifies this
      ensures errors == PurchaseErrors(form)
      ensures ok <==> errors == map[]
      ensures form == old(form)
    {
      var newErrors: Errors := map[];
      var current := form;
      var msgs := FormMessages(current);
      if current.customerId == "" {
        newErrors := newErrors[CustomerId := CustomerRequired];
      }
      var descriptionError := DescriptionError(current.description);
      if descriptionError.Some? {
        newErrors := newErrors[Description := descriptionError.value];
      }
      var totalError := TotalError(current.totalAmount);
      if totalError.Some? {
        newErrors := newErrors[TotalAmount := totalError.value];
      }
      var countError := CountError(current.installmentEnabled, current.installmentCount);
      if countError.Some? {
        newErrors := newErrors[InstallmentCount := countError.value];
      }
      ErrorsByField(msgs, newErrors);
      errors := newErrors;
      ok := |newErrors| == 0;
    }

    /** A valid form is sent; on success the page moves to the purchases list. */
    method HandleSubmit(outcome: Outcome)
      returns (request: Option<PurchaseCreateRequest>, invalidated: seq<Key>, navigated: bool)
      modifies this
      ensures request == SubmitRequest(old(form))
      ensures errors == PurchaseErrors(old(form)) && form == old(form)
      ensures invalidated == if request.Some? then CreatePurchaseInvalidations(outcome) else []
      ensures navigated <==> request.Some? && outcome.Succeeded?
    {
      var ok := Validate();
      if !ok {
        return None, [], false;
      }
      request := SubmitRequest(form);
      invalidated := CreatePurchaseInvalidations(outcome);
      navigated := outcome.Succeeded?;
    }
  }
}
