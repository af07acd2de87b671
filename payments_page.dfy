/**
  The payments page: pick a customer, then one of that customer's
  purchases, see its payments and register a new one.
 */
module PaymentsPage {
  import opened Wrappers
  import opened FormErrors
  import opened JsNumber
  import opened Domain
  import opened QueryKeys
  import opened PaymentHooks
  import opened PaymentForm

  /** The customer dropdown: a key of its own, so it never shares a cache
      entry with the paged customers list. */
  function CustomersFilterQuery(): (q: Query)
    ensures q.enabled && !q.keepsPreviousData
    ensures |q.key| == 2 && q.key[0] == Str("customers")
  {
    Plain([Str("customers"), ForRec("payments-filters")])
  }

  /** The purchase dropdown, keyed by the selected customer id as typed
      and enabled only once a customer is selected. */
  function PurchasesForCustomer(customerId: string): (q: Query)
    ensures q.enabled <==> customerId != ""
    ensures !q.keepsPreviousData
    ensures |q.key| == 2 && q.key[0] == Str("purchases-for-customer") && q.key[1] == Str(customerId)
  {
    Query([Str("purchases-for-customer"), Str(customerId)], customerId != "", false)
  }

  /** `hasSelectedPurchase`: the selection is not empty and reads as a number. */
  predicate HasSelection(selectedPurchaseId: string) {
    selectedPurchaseId != "" && ParseNumber(selectedPurchaseId).Finite?
  }

  /** The id given to the payments query: the selection as a number, or undefined. */
  function PaymentsQueryId(selectedPurchaseId: string): (r: Option<real>)
    ensures r.Some? <==> HasSelection(selectedPurchaseId)
    ensures r.Some? ==> Finite(r.value) == ParseNumber(selectedPurchaseId)
  {
    if HasSelection(selectedPurchaseId) then Some(ParseNumber(selectedPurchaseId).value) else None
  }

  /** `purchases.findIndex(p => p.id === id)`, as an option. */
  function FindIndex(purchases: seq<Purchase>, id: real): (r: Option<nat>)
    ensures r.Some? ==> r.value < |purchases| && purchases[r.value].id as real == id
    ensures r.Some? ==> forall j :: 0 <= j < r.value ==> purchases[j].id as real != id
    ensures r.None? ==> forall j :: 0 <= j < |purchases| ==> purchases[j].id as real != id
  {
    if purchases == [] then None
    else if purchases[0].id as real == id then Some(0)
    else match FindIndex(purchases[1..], id)
      case None => None
      case Some(k) => Some(k + 1)
  }

  /** `selectedPurchase`: the first listed purchase whose id equals the
      selection, and nothing while there is no selection. */
  function SelectedPurchaseOf(selectedPurchaseId: string, purchases: seq<Purchase>): (r: Option<Purchase>)
    ensures r.Some? ==> HasSelection(selectedPurchaseId) && r.value in purchases
    ensures r.Some? ==> r.value.id as real == ParseNumber(selectedPurchaseId).value
    ensures HasSelection(selectedPurchaseId) && r.None? ==>
      forall p :: p in purchases ==> p.id as real != ParseNumber(selectedPurchaseId).value
  {
    if !HasSelection(selectedPurchaseId) then None
    else match FindIndex(purchases, ParseNumber(selectedPurchaseId).value)
      case None => None
      case Some(i) => Some(purchases[i])
  }

  /** The remaining amount validation compares against, when a purchase is selected. */
  function RemainingOf(selected: Option<Purchase>): (r: Option<real>)
    ensures r.Some? <==> selected.Some?
    ensures selected.Some? ==> r.value == selected.value.remainingAmount
  {
    if selected.Some? then Some(selected.value.remainingAmount) else None
  }

  /** Choosing the option rendered for a listed purchase (its value is the
      id written in decimal) selects that purchase, provided no earlier
      entry of the list carries the same id. */
  lemma SelectingListedPurchase(purchases: seq<Purchase>, i: int)
    requires 0 <= i < |purchases|
    requires forall j :: 0 <= j < i ==> purchases[j].id != purchases[i].id
    ensures HasSelection(ShowInt(purchases[i].id))
    ensures SelectedPurchaseOf(ShowInt(purchases[i].id), purchases) == Some(purchases[i])
  {
    var s := ShowInt(purchases[i].id);
    ParseShowInt(purchases[i].id);
    assert |Show(if purchases[i].id < 0 then -purchases[i].id else purchases[i].id)| > 0;
    var k := FindIndex(purchases, purchases[i].id as real);
    assert k.Some? && k.value <= i;
  }

  /** Registering a payment refreshes the payments list and the detail of the
      purchase it was made for, but not the purchase dropdown of this page:
      the remaining amount shown and checked here stays the one loaded before. */
  lemma PaymentLeavesPurchaseOptionsStale(purchaseId: real, outcome: Outcome, customerId: string)
    ensures !Invalidated(CreatePaymentInvalidations(purchaseId, outcome), PurchasesForCustomer(customerId).key)
    ensures outcome.Succeeded? ==>
      Invalidated(CreatePaymentInvalidations(purchaseId, outcome), PaymentsByPurchase(Some(purchaseId)).key)
  {
    CreatePaymentScope(purchaseId, outcome, PurchasesForCustomer(customerId).key);
    CreatePaymentScope(purchaseId, outcome, PaymentsByPurchase(Some(purchaseId)).key);
  }

  /** The request a submission sends: none without a selected purchase or
      with a form that fails validation against its remaining amount. */
  function SubmitRequest(form: Form, selected: Option<Purchase>): (r: Option<PaymentCreateRequest>)
    ensures r.Some? <==> selected.Some? && PaymentErrors(form, Some(selected.value.remainingAmount)) == map[]
    ensures r.Some? ==> ParseNumber(form.amount).Finite? && r.value == Request(form)
    ensures r.Some? ==> 0.0 < r.value.amount <= selected.value.remainingAmount
  {
    if selected.None? then None
    else
      PaymentValidIff(form, Some(selected.value.remainingAmount));
      if PaymentErrors(form, Some(selected.value.remainingAmount)) == map[] then Some(Request(form)) else None
  }

  /** The errors shown after a submission: unchanged when no purchase is
      selected (only a notice is raised), otherwise those of the form. */
  function SubmitErrors(form: Form, selected: Option<Purchase>, shown: Errors): (r: Errors)
    ensures selected.None? ==> r == shown
    ensures selected.Some? ==> r == PaymentErrors(form, Some(selected.value.remainingAmount))
  {
    if selected.None? then shown else PaymentErrors(form, Some(selected.value.remainingAmount))
  }

  /** A sent payment invalidates the caches of the purchase it was sent for. */
  function SubmitInvalidations(request: Option<PaymentCreateRequest>, selected: Option<Purchase>, outcome: Outcome): (r: seq<Key>)
    ensures request.None? || selected.None? ==> r == []
    ensures request.Some? && selected.Some? ==> r == CreatePaymentInvalidations(selected.value.id as real, outcome)
  {
    if request.Some? && selected.Some? then CreatePaymentInvalidations(selected.value.id as real, outcome) else []
  }

  class PaymentsPage {
    var selectedCustomerId: string
    var selectedPurchaseId: string
    var paymentForm: Form
    var paymentErrors: Errors

    constructor()
      ensures selectedCustomerId == "" && selectedPurchaseId == ""
      ensures paymentForm == EmptyForm && paymentErrors == map[]
    {
      selectedCustomerId := "";
      selectedPurchaseId := "";
      paymentForm := EmptyForm;
      paymentErrors := map[];
    }

    function SelectedPurchase(purchases: seq<Purchase>): Option<Purchase>
      reads this
    {
      SelectedPurchaseOf(selectedPurchaseId, purchases)
    }

    function PurchasesQuery(): Query
      reads this
    {
      PurchasesForCustomer(selectedCustomerId)
    }

    function PaymentsQuery(): Query
      reads this
    {
      PaymentsByPurchase(PaymentsQueryId(selectedPurchaseId))
    }

    /** A new customer clears the purchase selection, which switches the
        payments query off. */
    method HandleCustomerChange(value: string)
      modifies this
      ensures selectedCustomerId == value && selectedPurchaseId == ""
      ensures paymentForm == old(paymentForm) && paymentErrors == old(paymentErrors)
      ensures PurchasesQuery().enabled <==> value != ""
      ensures !PaymentsQuery().enabled
    {
      selectedCustomerId := value;
      selectedPurchaseId := "";
    }

    method HandlePurchaseChange(value: string)
      modifies this
      ensures selectedPurchaseId == value
      ensures selectedCustomerId == old(selectedCustomerId)
      ensures paymentForm == old(paymentForm) && paymentErrors == old(paymentErrors)
    {
      selectedPurchaseId := value;
    }

    /** Typing in a field stores the value and clears that field's error only. */
    method HandlePaymentChange(f: PaymentField, value: string)
      modifies this
      ensures paymentForm == old(paymentForm).Set(f, value)
      ensures paymentErrors == ClearError(old(paymentErrors), f)
      ensures selectedCustomerId == old(selectedCustomerId) && selectedPurchaseId == old(selectedPurchaseId)
    {
      paymentForm := paymentForm.Set(f, value);
      paymentErrors := ClearError(paymentErrors, f);
    }

    /** Collects the messages field by field into a fresh error map, replaces
        the shown errors with it, and reports whether it is empty. */
    method ValidatePayment(purchases: seq<Purchase>) returns (ok: bool)
      modifies this
      ensures paymentErrors == PaymentErrors(paymentForm, RemainingOf(SelectedPurchase(purchases)))
      ensures ok <==> paymentErrors == map[]
      ensures paymentForm == old(paymentForm)
      ensures selectedCustomerId == old(selectedCustomerId) && selectedPurchaseId == old(selectedPurchaseId)
    {
      var remaining := RemainingOf(SelectedPurchase(purchases));
      var newErrors: Errors := map[];
      var amountError := PaymentError(paymentForm, remaining, Amount);
      if amountError.Some? {
        newErrors := newErrors[Amount := amountError.value];
      }
      if paymentForm.paymentMethod == "" {
        newErrors := newErrors[Method := MethodRequired];
      }
      paymentErrors := newErrors;
      ok := |newErrors| == 0;
    }

    /** Submitting needs a selected purchase found in the list; then the form
        is validated against that purchase's remaining amount and, when valid,
        the request is sent for that purchase. A success empties the form. */
    method HandlePaymentSubmit(purchases: seq<Purchase>, outcome: Outcome)
      returns (request: Option<PaymentCreateRequest>, invalidated: seq<Key>)
      modifies this
      ensures request == SubmitRequest(old(paymentForm), SelectedPurchaseOf(old(selectedPurchaseId), purchases))
      ensures paymentErrors == SubmitErrors(old(paymentForm), SelectedPurchaseOf(old(selectedPurchaseId), purchases), old(paymentErrors))
      ensures invalidated == SubmitInvalidations(request, SelectedPurchaseOf(old(selectedPurchaseId), purchases), outcome)
      ensures paymentForm == if request.Some? && outcome.Succeeded? then EmptyForm else old(paymentForm)
      ensures selectedCustomerId == old(selectedCustomerId) && selectedPurchaseId == old(selectedPurchaseId)
    {
      var selected := SelectedPurchase(purchases);
      if selected.None? {
        return None, [];
      }
      var ok := ValidatePayment(purchases);
      if !ok {
        return None, [];
      }
      PaymentValidIff(paymentForm, Some(selected.value.remainingAmount));
      request := Some(Request(paymentForm));
      invalidated := CreatePaymentInvalidations(ParseNumber(selectedPurchaseId).value, outcome);
      if outcome.Succeeded? {
        paymentForm := EmptyForm;
      }
    }
  }
}
