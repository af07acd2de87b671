/** The purchase queries and the purchase creation mutation. */
module PurchaseHooks {
  import opened Wrappers
  import opened QueryKeys

  /** `usePurchasesList(params)`: keyed by the whole record, always enabled,
      keeps the previous page while the next one loads. */
  function PurchasesList(params: PurchasesListParams): (q: Query)
    ensures q.enabled && q.keepsPreviousData
  {
    Query([Str("purchases"), PurchasesListRec(params)], true, true)
  }

  /** `usePurchase(id)`: disabled while the id is undefined or 0. */
  function PurchaseDetail(id: Option<real>): (q: Query)
    ensures q.enabled <==> id.Some? && id.value != 0.0
    ensures !q.keepsPreviousData
  {
    Query([Str("purchase"), NumberOrUndefined(id)], Truthy(id), false)
  }

  /** The `onSuccess` rule of `useCreatePurchase()`. */
  function CreatePurchaseRule(): seq<Key> {
    [[Str("purchases")]]
  }

  function CreatePurchaseInvalidations(outcome: Outcome): seq<Key> {
    Settle(CreatePurchaseRule(), outcome)
  }

  /** Lists that differ in page, size, sort, customerId or status have distinct keys. */
  lemma PurchasesListKeyInjective(a: PurchasesListParams, b: PurchasesListParams)
    ensures PurchasesList(a).key == PurchasesList(b).key <==> a == b
  {
    if PurchasesList(a).key == PurchasesList(b).key {
      assert PurchasesList(a).key[1] == PurchasesList(b).key[1];
    }
  }

  /** Creating a purchase invalidates, on success, exactly the keys tagged
      "purchases"; tags are compared whole, so "purchase", "customerPurchases"
      and "purchases-for-customer" keys are not touched. */
  lemma CreatePurchaseScope(outcome: Outcome, key: Key)
    ensures Invalidated(CreatePurchaseInvalidations(outcome), key) <==>
      outcome.Succeeded? && |key| >= 1 && key[0] == Str("purchases")
  {
    TagPrefix("purchases", key);
    if outcome.Succeeded? && |key| >= 1 && key[0] == Str("purchases") {
      assert IsPrefix(CreatePurchaseRule()[0], key);
    }
  }
}
