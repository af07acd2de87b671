/** The payment queries and the payment creation mutation. */
module PaymentHooks {
  import opened Wrappers
  import opened QueryKeys

  /** `usePaymentsByPurchase(purchaseId)`: keyed by the purchase id, disabled
      while the id is undefined or 0. */
  function PaymentsByPurchase(purchaseId: Option<real>): (q: Query)
    ensures q.enabled <==> purchaseId.Some? && purchaseId.value != 0.0
    ensures !q.keepsPreviousData
  {
    Query([Str("payments"), NumberOrUndefined(purchaseId)], Truthy(purchaseId), false)
  }

  /** `usePaymentMethods()`: one constant key, always enabled, so every view shares one entry. */
  function PaymentMethods(): (q: Query)
    ensures q.key == [Str("payment-methods")]
    ensures q.enabled && !q.keepsPreviousData
  {
    Plain([Str("payment-methods")])
  }

  /** The `onSuccess` rule of `useCreatePayment(purchaseId)`. */
  function CreatePaymentRule(purchaseId: real): seq<Key> {
    [[Str("payments"), Number(purchaseId)], [Str("purchase"), Number(purchaseId)]]
  }

  /** What creating a payment for `purchaseId` invalidates, given the server's answer. */
  function CreatePaymentInvalidations(purchaseId: real, outcome: Outcome): seq<Key> {
    Settle(CreatePaymentRule(purchaseId), outcome)
  }

  /** Two payment-list keys coincide exactly when their purchase ids do. */
  lemma PaymentsKeyInjective(a: Option<real>, b: Option<real>)
    ensures PaymentsByPurchase(a).key == PaymentsByPurchase(b).key <==> a == b
  {
    if PaymentsByPurchase(a).key == PaymentsByPurchase(b).key {
      assert PaymentsByPurchase(a).key[1] == PaymentsByPurchase(b).key[1];
    }
  }

  /** A successful payment creation for P invalidates exactly the keys that
      start with `["payments", P]` or `["purchase", P]`; a failed one invalidates nothing. */
  lemma CreatePaymentScope(purchaseId: real, outcome: Outcome, key: Key)
    ensures Invalidated(CreatePaymentInvalidations(purchaseId, outcome), key) <==>
      outcome.Succeeded? && |key| >= 2 && key[1] == Number(purchaseId) &&
      (key[0] == Str("payments") || key[0] == Str("purchase"))
  {
    var rule := CreatePaymentRule(purchaseId);
    PairPrefix("payments", Number(purchaseId), key);
    PairPrefix("purchase", Number(purchaseId), key);
    if outcome.Succeeded? && |key| >= 2 && key[1] == Number(purchaseId) {
      if key[0] == Str("payments") {
        assert IsPrefix(rule[0], key);
      } else if key[0] == Str("purchase") {
        assert IsPrefix(rule[1], key);
      }
    }
  }
}
