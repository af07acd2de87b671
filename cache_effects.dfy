/**
  How the invalidation rules of the three hooks files meet the keys that the
  pages declare: which views a mutation refreshes and which it leaves as
  they were.
 */
module CacheEffects {
  import opened Wrappers
  import opened QueryKeys
  import opened CustomerHooks
  import opened PurchaseHooks
  import opened PaymentHooks
  import PaymentsPage
  import PurchaseNewPage

  /** Creating a payment refreshes no list of purchases: not the global list,
      not a customer's purchases, not the purchase dropdown of the payments
      page. Their remaining amounts stay as they were loaded. */
  lemma PaymentLeavesListsValid(purchaseId: real, outcome: Outcome,
                                lp: PurchasesListParams, cp: CustomerPurchasesParams, customerId: string)
    ensures !Invalidated(CreatePaymentInvalidations(purchaseId, outcome), PurchasesList(lp).key)
    ensures !Invalidated(CreatePaymentInvalidations(purchaseId, outcome), CustomerPurchases(cp).key)
    ensures !Invalidated(CreatePaymentInvalidations(purchaseId, outcome),
                         PaymentsPage.PurchasesForCustomer(customerId).key)
  {
    CreatePaymentScope(purchaseId, outcome, PurchasesList(lp).key);
    CreatePaymentScope(purchaseId, outcome, CustomerPurchases(cp).key);
    CreatePaymentScope(purchaseId, outcome, PaymentsPage.PurchasesForCustomer(customerId).key);
  }

  /** A payment for one purchase leaves the payments and the detail of every
      other purchase untouched. */
  lemma PaymentLeavesOtherPurchases(p: real, q: real, outcome: Outcome)
    requires p != q
    ensures !Invalidated(CreatePaymentInvalidations(p, outcome), PaymentsByPurchase(Some(q)).key)
    ensures !Invalidated(CreatePaymentInvalidations(p, outcome), PurchaseDetail(Some(q)).key)
  {
    CreatePaymentScope(p, outcome, PaymentsByPurchase(Some(q)).key);
    CreatePaymentScope(p, outcome, PurchaseDetail(Some(q)).key);
  }

  /** A successful payment refreshes exactly what the purchase detail page
      of that purchase shows: its payments and the purchase itself. */
  lemma PaymentRefreshesItsPurchase(p: real)
    ensures Invalidated(CreatePaymentInvalidations(p, Succeeded), PaymentsByPurchase(Some(p)).key)
    ensures Invalidated(CreatePaymentInvalidations(p, Succeeded), PurchaseDetail(Some(p)).key)
  {
    CreatePaymentScope(p, Succeeded, PaymentsByPurchase(Some(p)).key);
    CreatePaymentScope(p, Succeeded, PurchaseDetail(Some(p)).key);
  }

  /** A new purchase refreshes every page of the global list, and nothing
      that lists one customer's purchases nor any purchase detail. */
  lemma PurchaseCreationScope(outcome: Outcome, lp: PurchasesListParams, id: Option<real>,
                              cp: CustomerPurchasesParams, customerId: string)
    ensures Invalidated(CreatePurchaseInvalidations(outcome), PurchasesList(lp).key) <==> outcome.Succeeded?
    ensures !Invalidated(CreatePurchaseInvalidations(outcome), PurchaseDetail(id).key)
    ensures !Invalidated(CreatePurchaseInvalidations(outcome), CustomerPurchases(cp).key)
    ensures !Invalidated(CreatePurchaseInvalidations(outcome), PaymentsPage.PurchasesForCustomer(customerId).key)
  {
    CreatePurchaseScope(outcome, PurchasesList(lp).key);
    CreatePurchaseScope(outcome, PurchaseDetail(id).key);
    CreatePurchaseScope(outcome, CustomerPurchases(cp).key);
    CreatePurchaseScope(outcome, PaymentsPage.PurchasesForCustomer(customerId).key);
  }

  /** The customer dropdowns of the payments page and of the new-purchase
      page sit under the "customers" tag, so creating, updating or deleting
      a customer refreshes both. */
  lemma CustomerChangesRefreshDropdowns(id: real)
    ensures Invalidated(CreateCustomerInvalidations(Succeeded), PaymentsPage.CustomersFilterQuery().key)
    ensures Invalidated(CreateCustomerInvalidations(Succeeded), PurchaseNewPage.CustomersSelectQuery().key)
    ensures Invalidated(UpdateCustomerInvalidations(id, Succeeded), PaymentsPage.CustomersFilterQuery().key)
    ensures Invalidated(UpdateCustomerInvalidations(id, Succeeded), PurchaseNewPage.CustomersSelectQuery().key)
    ensures Invalidated(DeleteCustomerInvalidations(id, Succeeded), PaymentsPage.CustomersFilterQuery().key)
    ensures Invalidated(DeleteCustomerInvalidations(id, Succeeded), PurchaseNewPage.CustomersSelectQuery().key)
  {
    CustomersPrefixScope(Succeeded, PaymentsPage.CustomersFilterQuery().key);
    CustomersPrefixScope(Succeeded, PurchaseNewPage.CustomersSelectQuery().key);
    UpdateCustomerScope(id, Succeeded, PaymentsPage.CustomersFilterQuery().key);
    UpdateCustomerScope(id, Succeeded, PurchaseNewPage.CustomersSelectQuery().key);
  }

  /** Updating one customer leaves the detail of every other customer valid. */
  lemma UpdateLeavesOtherCustomers(id: real, other: real, outcome: Outcome)
    requires id != other
    ensures !Invalidated(UpdateCustomerInvalidations(id, outcome), CustomerDetail(Some(other)).key)
  {
    UpdateCustomerScope(id, outcome, CustomerDetail(Some(other)).key);
  }

  /** The payment methods are cached under their own tag, which no mutation
      of the console names: they are fetched once and never refreshed. */
  lemma NoMutationRefreshesPaymentMethods(purchaseId: real, customerId: real, outcome: Outcome)
    ensures !Invalidated(CreatePaymentInvalidations(purchaseId, outcome), PaymentMethods().key)
    ensures !Invalidated(CreatePurchaseInvalidations(outcome), PaymentMethods().key)
    ensures !Invalidated(CreateCustomerInvalidations(outcome), PaymentMethods().key)
    ensures !Invalidated(UpdateCustomerInvalidations(customerId, outcome), PaymentMethods().key)
    ensures !Invalidated(DeleteCustomerInvalidations(customerId, outcome), PaymentMethods().key)
  {
    CreatePaymentScope(purchaseId, outcome, PaymentMethods().key);
    CreatePurchaseScope(outcome, PaymentMethods().key);
    CustomersPrefixScope(outcome, PaymentMethods().key);
    UpdateCustomerScope(customerId, outcome, PaymentMethods().key);
  }
}
