/**
  The customers list page: a searchable, paged list of customers with an
  edit modal and a delete confirmation.
 */
module CustomersPage {
  import opened Wrappers
  import opened FormErrors
  import opened JsText
  import opened EmailFormat
  import opened Domain
  import opened QueryKeys
  import opened CustomerHooks
  import opened CustomerForm
  import opened Pagination

  const PageSize := 9

  /** The list parameters: the search text, the page, nine per page, by name. */
  function ListParams(q: string, page: int): (p: CustomersListParams)
    ensures p.q == Some(q) && p.page == Some(page)
    ensures p.size == Some(PageSize) && p.sort == Some("name")
  {
    CustomersListParams(Some(q), Some(page), Some(PageSize), Some("name"))
  }

  /** Every search text and page has its own cache entry. */
  lemma ListKeysDistinct(q1: string, page1: int, q2: string, page2: int)
    ensures CustomersList(ListParams(q1, page1)).key == CustomersList(ListParams(q2, page2)).key <==>
      q1 == q2 && page1 == page2
  {
    CustomersListKeyInjective(ListParams(q1, page1), ListParams(q2, page2));
  }

  /** A successful edit of any customer refreshes every page of the list,
      whatever the search text. */
  lemma EditRefreshesList(id: real, q: string, page: int)
    ensures Invalidated(UpdateCustomerInvalidations(id, Succeeded), CustomersList(ListParams(q, page)).key)
  {
    UpdateCustomerScope(id, Succeeded, CustomersList(ListParams(q, page)).key);
  }

  class CustomersPage {
    var page: int
    var q: string
    var editingCustomer: Option<Customer>
    var deletingCustomer: Option<Customer>
    var form: Form
    var errors: Errors

    ghost predicate Valid()
      reads this
    {
      page >= 0
    }

    constructor()
      ensures Valid()
      ensures page == 0 && q == ""
      ensures editingCustomer.None? && deletingCustomer.None?
      ensures form == EmptyForm && errors == map[]
    {
      page := 0;
      q := "";
      editingCustomer := None;
      deletingCustomer := None;
      form := EmptyForm;
      errors := map[];
    }

    function ListQuery(): Query
      reads this
    {
      CustomersList(ListParams(q, page))
    }

    /** The id the update mutation is bound to: the customer being edited, or 0. */
    function UpdateTarget(): real
      reads this
    {
      if editingCustomer.Some? then editingCustomer.value.id as real else 0.0
    }

    /** A new search text (once the 400 ms debounce fires) goes back to the first page. */
    method UpdateQuery(value: string)
      requires Valid()
      modifies this
      ensures Valid()
      ensures q == value && page == 0
      ensures editingCustomer == old(editingCustomer) && deletingCustomer == old(deletingCustomer)
      ensures form == old(form) && errors == old(errors)
    {
      page := 0;
      q := value;
    }

    /** "Anterior", shown only while the page lists some customer and
        disabled on the first page; the page never goes below 0, so a click
        moves back exactly one page. */
    method PreviousPage(data: Option<PageEnvelope<Customer>>)
      requires Valid() && Content(data) != []
      modifies this
      ensures Valid()
      ensures page == Previous(old(page)) && q == old(q)
      ensures page == old(page) <==> PreviousDisabled(old(page))
      ensures !PreviousDisabled(old(page)) ==> page == old(page) - 1
      ensures editingCustomer == old(editingCustomer) && deletingCustomer == old(deletingCustomer)
      ensures form == old(form) && errors == old(errors)
    {
      page := Previous(page);
    }

    /** "Siguiente", shown only while the page lists some customer, reading
        `isLast` from the page currently shown. */
    method NextPage(data: Option<PageEnvelope<Customer>>)
      requires Valid() && Content(data) != []
      modifies this
      ensures Valid()
      ensures page == Next(old(page), IsLast(data)) && q == old(q)
      ensures editingCustomer == old(editingCustomer) && deletingCustomer == old(deletingCustomer)
      ensures form == old(form) && errors == old(errors)
    {
      if !IsLast(data) {
        page := page + 1;
      }
    }

    /** Opening the edit modal fills the form from the customer and clears the errors. */
    method OpenEditModal(customer: Customer)
      requires Valid()
      modifies this
      ensures Valid()
      ensures editingCustomer == Some(customer) && form == FromCustomer(customer) && errors == map[]
      ensures page == old(page) && q == old(q) && deletingCustomer == old(deletingCustomer)
    {
      editingCustomer := Some(customer);
      form := FromCustomer(customer);
      errors := map[];
    }

    /** Closing the modal forgets the customer and the errors; the form keeps its text. */
    method CloseEditModal()
      requires Valid()
      modifies this
      ensures Valid()
      ensures editingCustomer.None? && errors == map[]
      ensures form == old(form) && page == old(page) && q == old(q) && deletingCustomer == old(deletingCustomer)
    {
      editingCustomer := None;
      errors := map[];
    }

    method HandleFormChange(f: CustomerField, value: string)
      requires Valid()
      modifies this
      ensures Valid()
      ensures form == old(form).Set(f, value)
      ensures errors == ClearError(old(errors), f)
      ensures editingCustomer == old(editingCustomer) && deletingCustomer == old(deletingCustomer)
      ensures page == old(page) && q == old(q)
    {
      form := form.Set(f, value);
      errors := ClearError(errors, f);
    }

    /** The edit validation, its messages collected into a fresh error map. */
    method Validate() returns (ok: bool)
      requires Valid()
      modifies this
      ensures Valid()
      ensures errors == EditErrors(form)
      ensures ok <==> errors == map[]
      ensures form == old(form) && editingCustomer == old(editingCustomer)
      ensures deletingCustomer == old(deletingCustomer) && page == old(page) && q == old(q)
    {
      var current := form;
      var newErrors: Errors := map[];
      if IsBlank(current.name) {
        newErrors := newErrors[Name := NameRequired];
      }
      if current.email != "" && !MatchesEmail(current.email) {
        newErrors := newErrors[Email := EmailInvalid];
      }
      ErrorsByField(EditMessages(current), newErrors);
      errors := newErrors;
      ok := |newErrors| == 0;
    }

    /** Without a customer being edited nothing happens. Otherwise a valid
        form is sent as typed, untrimmed, to update that customer, and a
        success closes the modal. */
    method HandleEditSubmit(outcome: Outcome)
      returns (request: Option<CustomerRequest>, invalidated: seq<Key>)
      requires Valid()
      modifies this
      ensures Valid()
      ensures old(editingCustomer).None? ==> request.None? && errors == old(errors)
      ensures old(editingCustomer).Some? ==> errors == EditErrors(old(form))
      ensures request.Some? <==> old(editingCustomer).Some? && EditErrors(old(form)) == map[]
      ensures request.Some? ==>
        request.value == UntrimmedRequest(old(form)) &&
        invalidated == UpdateCustomerInvalidations(old(editingCustomer).value.id as real, outcome)
      ensures request.None? ==> invalidated == []
      ensures editingCustomer == if request.Some? && outcome.Succeeded? then None else old(editingCustomer)
      ensures form == old(form) && deletingCustomer == old(deletingCustomer)
      ensures page == old(page) && q == old(q)
    {
      if editingCustomer.None? {
        return None, [];
      }
      var current := form;
      var target := UpdateTarget();
      var ok := Validate();
      if !ok {
        return None, [];
      }
      request := Some(UntrimmedRequest(current));
      invalidated := UpdateCustomerInvalidations(target, outcome);
      if outcome.Succeeded? {
        CloseEditModal();
      }
    }

    method OpenDeleteModal(customer: Customer)
      requires Valid()
      modifies this
      ensures Valid()
      ensures deletingCustomer == Some(customer)
      ensures editingCustomer == old(editingCustomer) && form == old(form) && errors == old(errors)
      ensures page == old(page) && q == old(q)
    {
      deletingCustomer := Some(customer);
    }

    method CloseDeleteModal()
      requires Valid()
      modifies this
      ensures Valid()
      ensures deletingCustomer.None?
      ensures editingCustomer == old(editingCustomer) && form == old(form) && errors == old(errors)
      ensures page == old(page) && q == old(q)
    {
      deletingCustomer := None;
    }

    /** Deletes the customer of the confirmation modal, if any; a success
        closes the modal. */
    method ConfirmDelete(outcome: Outcome)
      returns (deletedId: Option<int>, invalidated: seq<Key>)
      requires Valid()
      modifies this
      ensures Valid()
      ensures old(deletingCustomer).None? ==> deletedId.None? && invalidated == []
      ensures old(deletingCustomer).Some? ==>
        deletedId == Some(old(deletingCustomer).value.id) &&
        invalidated == DeleteCustomerInvalidations(old(deletingCustomer).value.id as real, outcome)
      ensures deletingCustomer == if deletedId.Some? && outcome.Succeeded? then None else old(deletingCustomer)
      ensures editingCustomer == old(editingCustomer) && form == old(form) && errors == old(errors)
      ensures page == old(page) && q == old(q)
    {
      if deletingCustomer.None? {
        return None, [];
      }
      deletedId := Some(deletingCustomer.value.id);
      invalidated := DeleteCustomerInvalidations(deletingCustomer.value.id as real, outcome);
      if outcome.Succeeded? {
        CloseDeleteModal();
      }
    }
  }
}
