/**
  The customer detail page: one customer read from the route, a paged list
  of that customer's purchases, an inline edit form and a delete button.
 */
module CustomerDetailPage {
  import opened Wrappers
  import opened FormErrors
  import opened JsText
  import opened JsNumber
  import opened EmailFormat
  import opened Domain
  import opened QueryKeys
  import opened CustomerHooks
  import opened CustomerForm
  import opened Pagination
  import opened DetailRoute

  const PurchasesPageSize := 5

  /** The parameters of the purchases list: this customer (or undefined),
      the page, five per page, by creation date. */
  function PurchasesParams(customerId: Num, page: int): (p: CustomerPurchasesParams)
    ensures p.customerId == IdOrUndefined(customerId)
    ensures p.page == Some(page) && p.size == Some(PurchasesPageSize) && p.sort == Some("createdAt")
  {
    CustomerPurchasesParams(IdOrUndefined(customerId), Some(page), Some(PurchasesPageSize), Some("createdAt"))
  }

  /** The request the edit form sends for a valid form: the form as typed. */
  function EditRequest(form: Form): (r: Option<CustomerRequest>)
    ensures r.Some? <==> EditErrors(form) == map[]
    ensures r.Some? ==> r.value == UntrimmedRequest(form)
    ensures r.Some? ==> !AllSpace(r.value.name) && (r.value.email == "" || InEmailLanguage(r.value.email))
  {
    EditValidIff(form);
    if EditErrors(form) == map[] then Some(UntrimmedRequest(form)) else None
  }

  /** A route id of "0" (or an empty one, which `Number` also reads as 0)
      passes the NaN guard but is never fetched: both queries are disabled. */
  lemma ZeroIdNeverFetched(page: int)
    ensures !CustomerDetail(IdOrUndefined(Finite(0.0))).enabled
    ensures !CustomerPurchases(PurchasesParams(Finite(0.0), page)).enabled
  {
  }

  class CustomerDetailPage {
    /** `Number(id)` of the route parameter. */
    const customerId: Num
    var page: int
    var isEditing: bool
    var form: Form
    var errors: Errors

    ghost predicate Valid()
      reads this
    {
      page >= 0
    }

    constructor(routeId: Option<string>)
      ensures Valid()
      ensures customerId == RouteNumber(routeId)
      ensures page == 0 && !isEditing && form == EmptyForm && errors == map[]
    {
      customerId := RouteNumber(routeId);
      page := 0;
      isEditing := false;
      form := EmptyForm;
      errors := map[];
    }

    function CustomerQuery(): Query {
      CustomerDetail(IdOrUndefined(customerId))
    }

    function PurchasesQuery(): Query
      reads this
    {
      CustomerPurchases(PurchasesParams(customerId, page))
    }

    function View(isLoading: bool, isError: bool, data: Option<Customer>): DetailView<Customer> {
      ViewOf(customerId, isLoading, isError, data)
    }

    /** With an id that is not a number, neither query may fetch and the page
        shows the invalid-id message whatever the queries report. */
    lemma InvalidIdFetchesNothing(isLoading: bool, isError: bool, data: Option<Customer>)
      requires customerId.NaN?
      ensures !CustomerQuery().enabled && !PurchasesQuery().enabled
      ensures View(isLoading, isError, data) == InvalidId
    {
    }

    /** A successful edit refreshes this customer's detail but not the
        purchases listed under it. */
    lemma EditRefreshesCustomerOnly()
      requires customerId.Finite?
      ensures Invalidated(UpdateCustomerInvalidations(customerId.value, Succeeded), CustomerQuery().key)
      ensures !Invalidated(UpdateCustomerInvalidations(customerId.value, Succeeded), PurchasesQuery().key)
    {
      UpdateCustomerScope(customerId.value, Succeeded, CustomerQuery().key);
      UpdateCustomerScope(customerId.value, Succeeded, PurchasesQuery().key);
    }

    /** Every time the query delivers a customer, the form is refilled from
        it; the errors are left as they are. */
    method OnCustomerLoaded(customer: Customer)
      requires Valid()
      modifies this
      ensures Valid()
      ensures form == FromCustomer(customer)
      ensures errors == old(errors) && isEditing == old(isEditing) && page == old(page)
    {
      form := FromCustomer(customer);
    }

    /** Refills the form from the loaded customer, if any, and clears the errors. */
    method ResetForm(customer: Option<Customer>)
      requires Valid()
      modifies this
      ensures Valid()
      ensures form == if customer.Some? then FromCustomer(customer.value) else old(form)
      ensures errors == map[]
      ensures isEditing == old(isEditing) && page == old(page)
    {
      if customer.Some? {
        form := FromCustomer(customer.value);
      }
      errors := map[];
    }

    /** "Editar cliente" / "Cancelar edición": entering edit mode first
        resets the form from the customer; leaving it keeps the form. */
    method ToggleEdit(customer: Customer)
      requires Valid()
      modifies this
      ensures Valid()
      ensures isEditing == !old(isEditing)
      ensures !old(isEditing) ==> form == FromCustomer(customer) && errors == map[]
      ensures old(isEditing) ==> form == old(form) && errors == old(errors)
      ensures page == old(page)
    {
      if !isEditing {
        ResetForm(Some(customer));
      }
      isEditing := !isEditing;
    }

    /** "Cancelar" inside the form: reset, then leave edit mode. */
    method CancelEdit(customer: Customer)
      requires Valid()
      modifies this
      ensures Valid()
      ensures !isEditing && form == FromCustomer(customer) && errors == map[]
      ensures page == old(page)
    {
      ResetForm(Some(customer));
      isEditing := false;
    }

    method HandleChange(f: CustomerField, value: string)
      requires Valid()
      modifies this
      ensures Valid()
      ensures form == old(form).Set(f, value)
      ensures errors == ClearError(old(errors), f)
      ensures isEditing == old(isEditing) && page == old(page)
    {
      form := form.Set(f, value);
      errors := ClearError(errors, f);
    }

    /** The edit validation, its messages collected into a fresh error map. */
    method Validate() returns (ok: bool)
      requires Valid()
      modifies this
      ensures Valid()
      ensures errors == EditErrors(form)
      ensures ok <==> errors == map[]
      ensures form == old(form) && isEditing == old(isEditing) && page == old(page)
    {
      var current := form;
      var newErrors: Errors := map[];
      if IsBlank(current.name) {
        newErrors := newErrors[Name := NameRequired];
      }
      if current.email != "" && !MatchesEmail(current.email) {
        newErrors := newErrors[Email := EmailInvalid];
      }
      ErrorsByField(EditMessages(current), newErrors);
      errors := newErrors;
      ok := |newErrors| == 0;
    }

    /** The form is only rendered once the customer has loaded, so the route
        id is a number here. A valid form is sent as typed; a success leaves
        edit mode. */
    method HandleSubmit(outcome: Outcome)
      returns (request: Option<CustomerRequest>, invalidated: seq<Key>)
      requires Valid() && customerId.Finite?
      modifies this
      ensures Valid()
      ensures errors == EditErrors(old(form))
      ensures request == EditRequest(old(form))
      ensures invalidated == if request.Some? then UpdateCustomerInvalidations(customerId.value, outcome) else []
      ensures isEditing == if request.Some? && outcome.Succeeded? then false else old(isEditing)
      ensures form == old(form) && page == old(page)
    {
      var current := form;
      var ok := Validate();
      if !ok {
        return None, [];
      }
      request := Some(UntrimmedRequest(current));
      invalidated := UpdateCustomerInvalidations(customerId.value, outcome);
      if outcome.Succeeded? {
        isEditing := false;
      }
    }

    /** "Eliminar", after the confirmation dialog answered `confirmed`: the
        customer of the route is deleted, and a success moves to the list. */
    method HandleDelete(confirmed: bool, outcome: Outcome)
      returns (deletedId: Option<real>, invalidated: seq<Key>, navigated: bool)
      requires customerId.Finite?
      ensures deletedId.Some? <==> confirmed
      ensures confirmed ==> deletedId.value == customerId.value
      ensures invalidated == if confirmed then DeleteCustomerInvalidations(customerId.value, outcome) else []
      ensures navigated <==> confirmed && outcome.Succeeded?
    {
      if !confirmed {
        return None, [], false;
      }
      deletedId := Some(customerId.value);
      invalidated := DeleteCustomerInvalidations(customerId.value, outcome);
      navigated := outcome.Succeeded?;
    }

    /** "Anterior", shown only once the purchases have loaded without error
        and list some purchase, and disabled on the first page; the page
        never goes below 0, so a click moves back exactly one page. */
    method PreviousPage(isLoading: bool, isError: bool, data: Option<PageEnvelope<Purchase>>)
      requires Valid() && !isLoading && !isError && Content(data) != []
      modifies this
      ensures Valid()
      ensures page == Previous(old(page))
      ensures page == old(page) <==> PreviousDisabled(old(page))
      ensures !PreviousDisabled(old(page)) ==> page == old(page) - 1
      ensures isEditing == old(isEditing) && form == old(form) && errors == old(errors)
    {
      page := Previous(page);
    }

    /** "Siguiente", shown under the same condition as "Anterior". */
    method NextPage(isLoading: bool, isError: bool, data: Option<PageEnvelope<Purchase>>)
      requires Valid() && !isLoading && !isError && Content(data) != []
      modifies this
      ensures Valid()
      ensures page == Next(old(page), IsLast(data))
      ensures isEditing == old(isEditing) && form == old(form) && errors == old(errors)
    {
      if !IsLast(data) {
        page := page + 1;
      }
    }
  }
}
