/** The customer queries and the create, update and delete mutations. */
module CustomerHooks {
  import opened Wrappers
  import opened QueryKeys

  /** `useCustomersList(params)`: the whole parameter record is part of the
      key, and the previous page stays visible while a new key loads. */
  function CustomersList(params: CustomersListParams): (q: Query)
    ensures q.enabled && q.keepsPreviousData
  {
    Query([Str("customers"), CustomersListRec(params)], true, true)
  }

  /** `useCustomer(id)`: disabled while the id is undefined or 0; no placeholder data. */
  function CustomerDetail(id: Option<real>): (q: Query)
    ensures q.enabled <==> id.Some? && id.value != 0.0
    ensures !q.keepsPreviousData
  {
    Query([Str("customer"), NumberOrUndefined(id)], Truthy(id), false)
  }

  /** `useCustomerPurchases(params)`: the whole record, page included, is part
      of the key; disabled unless `customerId` is truthy; keeps previous data. */
  function CustomerPurchases(params: CustomerPurchasesParams): (q: Query)
    ensures q.enabled <==> params.customerId.Some? && params.customerId.value != 0.0
    ensures q.keepsPreviousData
  {
    Query([Str("customerPurchases"), CustomerPurchasesRec(params)], Truthy(params.customerId), true)
  }

  /** The `onSuccess` rule shared by `useCreateCustomer` and `useDeleteCustomer`. */
  function CustomersPrefixRule(): seq<Key> {
    [[Str("customers")]]
  }

  function CreateCustomerInvalidations(outcome: Outcome): seq<Key> {
    Settle(CustomersPrefixRule(), outcome)
  }

  /** The `onSuccess` rule of `useUpdateCustomer(id)`. */
  function UpdateCustomerRule(id: real): seq<Key> {
    [[Str("customer"), Number(id)], [Str("customers")]]
  }

  function UpdateCustomerInvalidations(id: real, outcome: Outcome): seq<Key> {
    Settle(UpdateCustomerRule(id), outcome)
  }

  /** Deleting customer `id`: the rule does not mention the id at all. */
  function DeleteCustomerInvalidations(id: real, outcome: Outcome): seq<Key> {
    Settle(CustomersPrefixRule(), outcome)
  }

  /** Lists that differ in any of q, page, size or sort have distinct keys. */
  lemma CustomersListKeyInjective(a: CustomersListParams, b: CustomersListParams)
    ensures CustomersList(a).key == CustomersList(b).key <==> a == b
  {
    if CustomersList(a).key == CustomersList(b).key {
      assert CustomersList(a).key[1] == CustomersList(b).key[1];
    }
  }

  /** Two pages of one customer's purchases have distinct keys. */
  lemma CustomerPurchasesKeyInjective(a: CustomerPurchasesParams, b: CustomerPurchasesParams)
    ensures CustomerPurchases(a).key == CustomerPurchases(b).key <==> a == b
  {
    if CustomerPurchases(a).key == CustomerPurchases(b).key {
      assert CustomerPurchases(a).key[1] == CustomerPurchases(b).key[1];
    }
  }

  /** Creating or deleting a customer invalidates, on success, exactly the keys
      whose tag is "customers": every list page and every dropdown keyed
      `["customers", {for: …}]`. */
  lemma CustomersPrefixScope(outcome: Outcome, key: Key)
    ensures Invalidated(Settle(CustomersPrefixRule(), outcome), key) <==>
      outcome.Succeeded? && |key| >= 1 && key[0] == Str("customers")
  {
    TagPrefix("customers", key);
    if outcome.Succeeded? && |key| >= 1 && key[0] == Str("customers") {
      assert IsPrefix(CustomersPrefixRule()[0], key);
    }
  }

  /** Updating customer `id` invalidates, on success, exactly that customer's
      detail and every "customers" key; no other customer's detail. */
  lemma UpdateCustomerScope(id: real, outcome: Outcome, key: Key)
    ensures Invalidated(UpdateCustomerInvalidations(id, outcome), key) <==>
      outcome.Succeeded? && |key| >= 1 &&
      (key[0] == Str("customers") || (|key| >= 2 && key[0] == Str("customer") && key[1] == Number(id)))
  {
    var rule := UpdateCustomerRule(id);
    TagPrefix("customers", key);
    PairPrefix("customer", Number(id), key);
    if outcome.Succeeded? && |key| >= 1 {
      if key[0] == Str("customers") {
        assert IsPrefix(rule[1], key);
      } else if |key| >= 2 && key[0] == Str("customer") && key[1] == Number(id) {
        assert IsPrefix(rule[0], key);
      }
    }
  }

  /** Deleting a customer leaves its own detail entry and every
      customer-purchases list valid. */
  lemma DeleteKeepsDetailAndPurchases(id: real, outcome: Outcome, params: CustomerPurchasesParams)
    ensures !Invalidated(DeleteCustomerInvalidations(id, outcome), CustomerDetail(Some(id)).key)
    ensures !Invalidated(DeleteCustomerInvalidations(id, outcome), CustomerPurchases(params).key)
  {
    CustomersPrefixScope(outcome, CustomerDetail(Some(id)).key);
    CustomersPrefixScope(outcome, CustomerPurchases(params).key);
  }
}
