/**
  The purchase detail page: one purchase read from the route, its payments,
  and the form to register a new payment.
 */
module PurchaseDetailPage {
  import opened Wrappers
  import opened FormErrors
  import opened JsNumber
  import opened Domain
  import opened QueryKeys
  import opened PaymentHooks
  import opened PurchaseHooks
  import opened PaymentForm
  import opened DetailRoute

  /** The note shown under the payments of a purchase with nothing left to pay. */
  predicate FullyPaidNoteShown(p: Purchase) {
    p.remainingAmount <= 0.0
  }

  /** The note shown under the payments of a cancelled purchase. */
  predicate CancelledNoteShown(p: Purchase) {
    p.status == Cancelado
  }

  /** The page always says why payments can or cannot be added: it shows the
      form exactly when it shows neither note. */
  lemma FormOrNote(p: Purchase)
    ensures FormOffered(p) <==> !FullyPaidNoteShown(p) && !CancelledNoteShown(p)
    ensures FormOffered(p) || FullyPaidNoteShown(p) || CancelledNoteShown(p)
  {
  }

  /** The request a submission sends for a loaded purchase: none when the
      form fails validation against its remaining amount. */
  function DetailRequest(form: Form, p: Purchase): (r: Option<PaymentCreateRequest>)
    ensures r.Some? <==> PaymentErrors(form, Some(p.remainingAmount)) == map[]
    ensures r.Some? ==> ParseNumber(form.amount).Finite? && r.value == Request(form)
    ensures r.Some? ==> 0.0 < r.value.amount <= p.remainingAmount
  {
    PaymentValidIff(form, Some(p.remainingAmount));
    if PaymentErrors(form, Some(p.remainingAmount)) == map[] then Some(Request(form)) else None
  }

  class PurchaseDetailPage {
    /** `Number(id)` of the route parameter. */
    const purchaseId: Num
    var paymentForm: Form
    var paymentErrors: Errors

    constructor(routeId: Option<string>)
      ensures purchaseId == RouteNumber(routeId)
      ensures paymentForm == EmptyForm && paymentErrors == map[]
    {
      purchaseId := RouteNumber(routeId);
      paymentForm := EmptyForm;
      paymentErrors := map[];
    }

    function PurchaseQuery(): Query {
      PurchaseDetail(IdOrUndefined(purchaseId))
    }

    function PaymentsQuery(): Query {
      PaymentsByPurchase(IdOrUndefined(purchaseId))
    }

    function View(isLoading: bool, isError: bool, data: Option<Purchase>): DetailView<Purchase> {
      ViewOf(purchaseId, isLoading, isError, data)
    }

    /** With an id that is not a number, neither query may fetch, and the
        page shows the invalid-id message whatever the queries report. */
    lemma InvalidIdFetchesNothing(isLoading: bool, isError: bool, data: Option<Purchase>)
      requires purchaseId.NaN?
      ensures !PurchaseQuery().enabled && !PaymentsQuery().enabled
      ensures View(isLoading, isError, data) == InvalidId
    {
    }

    /** Both queries of the page name the same purchase, the one the
        payment mutation invalidates on success. */
    lemma QueriesRefreshedByPayment(outcome: Outcome)
      requires purchaseId.Finite? && outcome.Succeeded?
      ensures Invalidated(CreatePaymentInvalidations(purchaseId.value, outcome), PurchaseQuery().key)
      ensures Invalidated(CreatePaymentInvalidations(purchaseId.value, outcome), PaymentsQuery().key)
    {
      CreatePaymentScope(purchaseId.value, outcome, PurchaseQuery().key);
      CreatePaymentScope(purchaseId.value, outcome, PaymentsQuery().key);
    }

    method HandlePaymentChange(f: PaymentField, value: string)
      modifies this
      ensures paymentForm == old(paymentForm).Set(f, value)
      ensures paymentErrors == ClearError(old(paymentErrors), f)
    {
      paymentForm := paymentForm.Set(f, value);
      paymentErrors := ClearError(paymentErrors, f);
    }

    /** Collects the messages into a fresh error map, always checking the
        amount against the loaded purchase's remaining amount. */
    method ValidatePayment(purchase: Purchase) returns (ok: bool)
      modifies this
      ensures paymentErrors == PaymentErrors(paymentForm, Some(purchase.remainingAmount))
      ensures ok <==> paymentErrors == map[]
      ensures paymentForm == old(paymentForm)
    {
      var newErrors: Errors := map[];
      var amountError := PaymentError(paymentForm, Some(purchase.remainingAmount), Amount);
      if amountError.Some? {
        newErrors := newErrors[Amount := amountError.value];
      }
      if paymentForm.paymentMethod == "" {
        newErrors := newErrors[Method := MethodRequired];
      }
      paymentErrors := newErrors;
      ok := |newErrors| == 0;
    }

    /** The submit button exists only once the purchase is loaded, so the
        route id is a number here. A valid form is sent for this purchase;
        a success empties the form. */
    method HandlePaymentSubmit(purchase: Purchase, outcome: Outcome)
      returns (request: Option<PaymentCreateRequest>, invalidated: seq<Key>)
      requires purchaseId.Finite?
      modifies this
      ensures request == DetailRequest(old(paymentForm), purchase)
      ensures paymentErrors == PaymentErrors(old(paymentForm), Some(purchase.remainingAmount))
      ensures invalidated == if request.Some? then CreatePaymentInvalidations(purchaseId.value, outcome) else []
      ensures paymentForm == if request.Some? && outcome.Succeeded? then EmptyForm else old(paymentForm)
    {
      var ok := ValidatePayment(purchase);
      if !ok {
        return None, [];
      }
      PaymentValidIff(paymentForm, Some(purchase.remainingAmount));
      request := Some(Request(paymentForm));
      invalidated := CreatePaymentInvalidations(purchaseId.value, outcome);
      if outcome.Succeeded? {
        paymentForm := EmptyForm;
      }
    }
  }
}
