# payments-frontend in Dafny

A model of the rules that the payments-frontend admin console (a React
application for customers, purchases and payments) writes itself, with
proofs about them. There are three groups of rules:

- **Query keys and invalidation.** The three hooks files say which cache
  key each query uses, when the query may fetch (`enabled: !!id`), and
  whether the previous page stays on screen while the next one loads. They
  also say which key prefixes each mutation invalidates once the server
  accepts it.
  - `QueryKeys` models a key as a sequence of elements. It models the
    query cache's partial matching as a sequence-prefix test, which is
    what that matching reduces to for the string and number filters used
    here.
  - `PaymentHooks`, `CustomerHooks` and `PurchaseHooks` give each hook's
    key, flags and invalidation list.
  - `CacheEffects` proves which views each mutation refreshes and which
    ones it leaves stale.
- **Form validators and request builders.** Every page validates a form of
  strings into a map from field to message. The form counts as valid when
  that map is empty, and the request is built only from a valid form.
  - `JsText` models JavaScript's `trim`, `toLowerCase` and `includes` over
    ASCII.
  - `JsNumber` models `Number(s)` as a decimal parser that returns a
    finite number or NaN.
  - `EmailFormat` models the e-mail regular expression and proves it equal
    to a description of the language it accepts.
  - `CustomerForm`, `PaymentForm` and the page modules hold the
    validators. Each is proved equivalent to a plain statement of what it
    accepts.
- **Page state.** Each page is a class whose fields are the page's React
  state. Its methods are the event handlers, and each method states the
  complete new state.
  - Pagination is zero-based. "Anterior" stops at page 0. "Siguiente"
    moves only when the page shown is not the last one, and with no data
    the page counts as the last.
  - A new search text returns to page 0.
  - Choosing another customer on the payments page clears the selected
    purchase.
  - The purchases page filters the page it fetched by a case-insensitive
    substring of the description.

Some inputs are outside the model and are passed in as parameters:

- the server's answer to a mutation (`Outcome`);
- the data a query has delivered (`Option<PageEnvelope<T>>`, `Purchase`,
  `Customer`);
- the route parameter;
- the user's answer to the delete confirmation.

Numbers are JavaScript numbers, modelled as `real` without rounding.

Creating a payment changes the purchase's paid and remaining amounts, yet
`useCreatePayment` invalidates only `["payments", id]` and
`["purchase", id]` (`src/hooks/usePayments.ts:30-33`).
`CacheEffects.PaymentLeavesListsValid` proves that no list of purchases is
refreshed, so the lists keep showing the amounts they were loaded with.

## Model

| member | source | states |
|---|---|---|
| JsText.Trim | src/pages/CustomerNewPage.tsx:32 | the trimmed text is empty exactly when the input is all white space, and otherwise starts and ends with a non-space |
| JsText.TrimIsSlice | src/pages/CustomerNewPage.tsx:57-62 | the trimmed text is a slice of the input with only white space cut from either end |
| JsText.BlankIffAllSpace | src/pages/CustomerNewPage.tsx:32-46 | `!s.trim()` holds exactly when the text is all white space |
| JsText.TrimIdempotent | src/pages/CustomerNewPage.tsx:57-62 | trimming a trimmed text changes nothing |
| JsText.TrimNoSpace | src/pages/CustomerNewPage.tsx:38 | a text without white space is its own trim |
| JsText.LowerChar | src/pages/PurchasesPage.tsx:24 | A to Z map to a to z; every other character is kept |
| JsText.ToLower | src/pages/PurchasesPage.tsx:24 | lower-casing keeps the length and lower-cases each character |
| JsText.ToLowerIdempotent | src/pages/PurchasesPage.tsx:24 | lower-casing twice is lower-casing once |
| JsText.IncludesIff | src/pages/PurchasesPage.tsx:24 | `includes` holds exactly when the needle occurs at some position of the text |
| JsText.IncludesEmpty | src/pages/PurchasesPage.tsx:24 | every text includes the empty text |
| JsNumber.BlankIsZero | src/pages/PaymentsPage.tsx:121-127 | `Number` of a blank text is 0, which is why the blank check comes first |
| JsNumber.DigitStringValue | src/pages/PurchaseNewPage.tsx:87-90 | a text of decimal digits reads as its decimal value |
| JsNumber.DigitsPositiveIff | src/pages/PurchaseNewPage.tsx:87-90 | a digit string is positive exactly when some digit is not 0 |
| JsNumber.Show | src/pages/PaymentsPage.tsx:292 | a natural number is written as a non-empty digit string |
| JsNumber.ShowValue | src/pages/PaymentsPage.tsx:292 | the written digits read back as the number |
| JsNumber.ParseShowInt | src/pages/PaymentsPage.tsx:34 | `Number` of an id written as an option value is that id |
| EmailFormat.MatchesEmailIff | src/pages/CustomerNewPage.tsx:38 | the regex check holds exactly when the text is a non-empty run without `@` or spaces, then `@`, then a domain with an inner dot and no `@` or spaces |
| EmailFormat.PaddedAddressRejected | src/pages/CustomerNewPage.tsx:36-38 | an address with a leading space never matches |
| QueryKeys.Plain | src/hooks/usePayments.ts:17-22 | a query declared without options is enabled and keeps no previous data |
| QueryKeys.Settle | src/hooks/usePayments.ts:30-33 | a failed mutation invalidates nothing; a successful one invalidates exactly what its rule names |
| QueryKeys.NumberOrUndefined | src/hooks/usePayments.ts:11 | an absent id stays `undefined` in the key, and a present one is the number |
| QueryKeys.TagPrefix | src/hooks/useCustomers.ts:30 | the filter `[tag]` matches exactly the keys whose first element is that tag |
| QueryKeys.PairPrefix | src/hooks/useCustomers.ts:74 | the filter `[tag, x]` matches exactly the keys that begin with tag and then x |
| PaymentHooks.PaymentsByPurchase | src/hooks/usePayments.ts:9-15 | the query is enabled exactly when the purchase id is present and not 0, and keeps no previous data |
| PaymentHooks.PaymentMethods | src/hooks/usePayments.ts:17-22 | the key is the constant `["payment-methods"]`, and the query is always enabled with no placeholder data |
| PaymentHooks.PaymentsKeyInjective | src/hooks/usePayments.ts:11 | two payment keys are equal exactly when their purchase ids are |
| PaymentHooks.CreatePaymentScope | src/hooks/usePayments.ts:24-35 | a payment for P invalidates a key exactly when it succeeded and the key starts with `["payments", P]` or `["purchase", P]` |
| CustomerHooks.CustomersList | src/hooks/useCustomers.ts:14-20 | the list is always enabled and keeps the previous page while loading |
| CustomerHooks.CustomerDetail | src/hooks/useCustomers.ts:34-40 | the detail is enabled exactly when the id is present and not 0, and keeps no previous data |
| CustomerHooks.CustomerPurchases | src/hooks/useCustomers.ts:50-64 | enabled exactly when `customerId` is present and not 0; keeps previous data |
| CustomerHooks.CustomersListKeyInjective | src/hooks/useCustomers.ts:16 | two list keys are equal exactly when all four parameters are |
| CustomerHooks.CustomerPurchasesKeyInjective | src/hooks/useCustomers.ts:53 | two customer-purchases keys are equal exactly when the parameter records are, page included |
| CustomerHooks.CustomersPrefixScope | src/hooks/useCustomers.ts:22-33 | creating (or deleting) a customer invalidates a key exactly when it succeeded and the key's tag is "customers" |
| CustomerHooks.UpdateCustomerScope | src/hooks/useCustomers.ts:67-78 | updating customer id invalidates a key exactly when it succeeded and the key is tagged "customers" or starts with `["customer", id]` |
| CustomerHooks.DeleteKeepsDetailAndPurchases | src/hooks/useCustomers.ts:81-90 | deleting a customer leaves its detail and every customer-purchases list valid |
| PurchaseHooks.PurchasesList | src/hooks/usePurchases.ts:14-20 | the list is always enabled and keeps the previous page while loading |
| PurchaseHooks.PurchaseDetail | src/hooks/usePurchases.ts:34-40 | the detail is enabled exactly when the id is present and not 0 |
| PurchaseHooks.PurchasesListKeyInjective | src/hooks/usePurchases.ts:16 | two list keys are equal exactly when all five parameters are |
| PurchaseHooks.CreatePurchaseScope | src/hooks/usePurchases.ts:22-32 | creating a purchase invalidates a key exactly when it succeeded and the key's tag is "purchases" |
| CacheEffects.PaymentLeavesListsValid | src/hooks/usePayments.ts:30-33 | a payment invalidates no purchases list, no customer-purchases list and no purchase dropdown |
| CacheEffects.PaymentLeavesOtherPurchases | src/hooks/usePayments.ts:31-32 | a payment for P leaves the payments and the detail of every other purchase valid |
| CacheEffects.PaymentRefreshesItsPurchase | src/hooks/usePayments.ts:30-33 | a successful payment for P invalidates P's payments and P's detail |
| CacheEffects.PurchaseCreationScope | src/hooks/usePurchases.ts:28-30 | a new purchase refreshes every purchases-list page exactly on success, and never a detail, a customer's purchases or the purchase dropdown |
| CacheEffects.CustomerChangesRefreshDropdowns | src/pages/PaymentsPage.tsx:44 | creating, updating or deleting a customer refreshes both customer dropdowns |
| CacheEffects.UpdateLeavesOtherCustomers | src/hooks/useCustomers.ts:74-75 | updating one customer leaves every other customer's detail valid |
| CacheEffects.NoMutationRefreshesPaymentMethods | src/hooks/usePayments.ts:17-33 | no payment, purchase or customer mutation invalidates the payment-methods key |
| Pagination.Content | src/pages/CustomersPages.tsx:69 | no data means no rows; otherwise the envelope's `content` |
| Pagination.TotalPages | src/pages/CustomersPages.tsx:70 | no data means one page; otherwise the envelope's `totalPages` |
| Pagination.IsLast | src/pages/CustomersPages.tsx:71 | no data counts as the last page; otherwise the envelope's `last` |
| Pagination.Previous | src/pages/CustomersPages.tsx:323-324 | "Anterior" never goes below 0 and otherwise goes back one page |
| Pagination.Next | src/pages/CustomersPages.tsx:336-337 | "Siguiente" advances one page exactly when the page shown is not the last |
| Pagination.RunNonNegative | src/pages/CustomersPages.tsx:323-337 | no sequence of clicks makes the page negative |
| Pagination.PreviousRun | src/pages/CustomersPages.tsx:323-324 | n clicks on "Anterior" reach max(page - n, 0) |
| Pagination.PreviousButton | src/pages/CustomersPages.tsx:323-324 | on a page of 0 or more, "Anterior" does nothing exactly when `page === 0` disables it, and otherwise goes back one page |
| Pagination.NextWithoutData | src/pages/CustomersPages.tsx:336-337 | "Siguiente" does nothing while no page has been received |
| DetailRoute.RouteNumber | src/pages/PurchaseDetailPage.tsx:16 | a missing route parameter is NaN |
| DetailRoute.IdOrUndefined | src/pages/PurchaseDetailPage.tsx:22 | NaN reaches the queries as undefined, and a number as itself |
| DetailRoute.ViewOf | src/pages/PurchaseDetailPage.tsx:47-77 | the invalid-id screen is shown exactly for NaN, and the record exactly when it is loaded without error |
| DetailRoute.NonNumericRoute | src/pages/PurchaseDetailPage.tsx:47-53 | a route id of digits and the signs `:;<=>?@[\]^_` or backquote, with at least one sign, is NaN: it is reported invalid and reaches the queries as undefined |
| CustomerForm.Form.Set | src/pages/CustomerNewPage.tsx:24 | one field gets the value and the others are kept |
| FormErrors.ClearError | src/pages/CustomerNewPage.tsx:26 | that field's error is gone and every other error is kept |
| CustomerForm.FromCustomer | src/pages/CustomersPages.tsx:76-85 | the form copies the customer, and missing notes become "" |
| CustomerForm.TrimmedRequest | src/pages/CustomerNewPage.tsx:57-62 | each field sent is the trim of the matching input field; the name is empty exactly when it was blank |
| CustomerForm.UntrimmedRequest | src/pages/CustomersPages.tsx:119 | the edit forms send the fields exactly as typed |
| CustomerForm.EditValidIff | src/pages/CustomersPages.tsx:100-112 | an edit is valid exactly when the name is not blank and the e-mail is empty or a valid address |
| CustomerForm.EditEmailOnlySpaces | src/pages/CustomersPages.tsx:106 | an e-mail made only of spaces is rejected |
| PaymentForm.Form.Set | src/pages/PaymentsPage.tsx:114 | one field gets the value and the others are kept |
| PaymentForm.AmountAcceptedIff | src/pages/PaymentsPage.tsx:121-133 | the amount is accepted exactly when it is a number above 0 and, with a purchase selected, not above its remaining amount |
| PaymentForm.AmountMessagePrecedence | src/pages/PaymentsPage.tsx:121-133 | blank is reported before not-positive, and not-positive before over-remaining |
| PaymentForm.MethodIndependentOfAmount | src/pages/PaymentsPage.tsx:135-137 | the method is reported exactly when it is empty, whatever the amount |
| PaymentForm.PaymentValidIff | src/pages/PaymentsPage.tsx:118-141 | the form is valid exactly when the amount is accepted and a method is chosen |
| PaymentForm.Request | src/pages/PaymentsPage.tsx:151-156 | the request carries the parsed amount, the method, no date, and the trim of the note, or null exactly when the note is blank |
| PaymentForm.FullPaymentAccepted | src/pages/PaymentsPage.tsx:406-407 | whenever the form is offered, paying the whole remaining amount with a method is accepted |
| PaymentsPage.CustomersFilterQuery | src/pages/PaymentsPage.tsx:39-52 | the customer dropdown has its own always-enabled key under "customers" |
| PaymentsPage.PurchasesForCustomer | src/pages/PaymentsPage.tsx:57-71 | the purchase dropdown is keyed by the customer id as typed, and is enabled exactly when one is chosen |
| PaymentsPage.PaymentsQueryId | src/pages/PaymentsPage.tsx:34-36 | the payments query gets a number exactly when the selection is non-empty and numeric |
| PaymentsPage.FindIndex | src/pages/PaymentsPage.tsx:75-77 | the index found is the first one with that id, and none is found when no entry has it |
| PaymentsPage.SelectedPurchaseOf | src/pages/PaymentsPage.tsx:75-77 | the selected purchase is a listed purchase with the parsed id, and there is none only when no listed purchase has that id |
| PaymentsPage.RemainingOf | src/pages/PaymentsPage.tsx:128-133 | the ceiling is the selected purchase's remaining amount, and there is none without a selection |
| PaymentsPage.SelectingListedPurchase | src/pages/PaymentsPage.tsx:292 | choosing the option of a listed purchase selects that purchase |
| PaymentsPage.PaymentLeavesPurchaseOptionsStale | src/pages/PaymentsPage.tsx:96 | a payment refreshes that purchase's payments but not the purchase dropdown |
| PaymentsPage.SubmitRequest | src/pages/PaymentsPage.tsx:143-156 | a request is sent exactly when a purchase is selected and the form is valid for it; its amount is in (0, remaining] |
| PaymentsPage.SubmitErrors | src/pages/PaymentsPage.tsx:143-149 | without a selection the shown errors are kept, and otherwise replaced by the form's errors |
| PaymentsPage.SubmitInvalidations | src/pages/PaymentsPage.tsx:158-166 | only a sent payment invalidates, and it invalidates the selected purchase's keys |
| PaymentsPage.PaymentsPage.constructor | src/pages/PaymentsPage.tsx:21-32 | nothing is selected and the form and errors are empty |
| PaymentsPage.PaymentsPage.HandleCustomerChange | src/pages/PaymentsPage.tsx:98-102 | a new customer clears the purchase selection, which disables the payments query |
| PaymentsPage.PaymentsPage.HandlePurchaseChange | src/pages/PaymentsPage.tsx:104-106 | only the purchase selection changes |
| PaymentsPage.PaymentsPage.HandlePaymentChange | src/pages/PaymentsPage.tsx:108-116 | the field is stored and only its error is cleared |
| PaymentsPage.PaymentsPage.ValidatePayment | src/pages/PaymentsPage.tsx:118-141 | the shown errors become the form's errors against the selected purchase, and the result says whether there are none |
| PaymentsPage.PaymentsPage.HandlePaymentSubmit | src/pages/PaymentsPage.tsx:143-175 | request, errors and invalidations are those of the submission rules; a success empties the form |
| PurchaseDetailPage.FormOrNote | src/pages/PurchaseDetailPage.tsx:264 | the form is shown exactly when neither the fully-paid nor the cancelled note is |
| PurchaseDetailPage.DetailRequest | src/pages/PurchaseDetailPage.tsx:106-115 | a request is sent exactly when the form is valid against the purchase; its amount is in (0, remaining] |
| PurchaseDetailPage.PurchaseDetailPage.constructor | src/pages/PurchaseDetailPage.tsx:16 | the id is `Number` of the route parameter and the form starts empty |
| PurchaseDetailPage.PurchaseDetailPage.InvalidIdFetchesNothing | src/pages/PurchaseDetailPage.tsx:47-53 | with a NaN id neither query may fetch and the invalid-id screen is shown |
| PurchaseDetailPage.PurchaseDetailPage.QueriesRefreshedByPayment | src/pages/PurchaseDetailPage.tsx:36 | a successful payment refreshes both queries of the page |
| PurchaseDetailPage.PurchaseDetailPage.HandlePaymentChange | src/pages/PurchaseDetailPage.tsx:79-85 | the field is stored and only its error is cleared |
| PurchaseDetailPage.PurchaseDetailPage.ValidatePayment | src/pages/PurchaseDetailPage.tsx:87-104 | the errors become the form's errors against the purchase's remaining amount |
| PurchaseDetailPage.PurchaseDetailPage.HandlePaymentSubmit | src/pages/PurchaseDetailPage.tsx:106-134 | an invalid form sends nothing; a valid one is sent for this purchase, and a success empties the form |
| PurchaseNewPage.Form.SetText | src/pages/PurchaseNewPage.tsx:46-63 | a text input replaces its own field only |
| PurchaseNewPage.DescriptionAcceptedIff | src/pages/PurchaseNewPage.tsx:72-76 | the description is accepted exactly when its trim has 1 to 200 characters |
| PurchaseNewPage.TotalAcceptedIff | src/pages/PurchaseNewPage.tsx:78-82 | the total is accepted exactly when it reads as a number above 0 |
| PurchaseNewPage.CountAcceptedIff | src/pages/PurchaseNewPage.tsx:84-94 | with installments on, the count is accepted exactly when it is digits only and not all zeros; with them off it is never checked |
| PurchaseNewPage.LeadingZerosAccepted | src/pages/PurchaseNewPage.tsx:87-90 | "007" is accepted |
| PurchaseNewPage.ZeroOrPaddedCountRejected | src/pages/PurchaseNewPage.tsx:85-94 | "0", "00" and " 3" are rejected |
| PurchaseNewPage.NoErrorsIff | src/pages/PurchaseNewPage.tsx:96-97 | the form is valid exactly when no field has a message |
| PurchaseNewPage.PurchaseValidIff | src/pages/PurchaseNewPage.tsx:65-98 | valid exactly when a customer is chosen, the description and total are accepted, and with installments the count is whole |
| PurchaseNewPage.Request | src/pages/PurchaseNewPage.tsx:104-112 | the description is trimmed, the numbers are parsed, and a count is sent exactly when installments are on |
| PurchaseNewPage.SubmitRequest | src/pages/PurchaseNewPage.tsx:100-112 | a request is sent exactly when the form is valid, and its count is then a whole number of at least 1 |
| PurchaseNewPage.SimulationQuery | src/pages/PurchaseNewPage.tsx:140-158 | the simulation is enabled exactly when installments are on and both numbers are above 0 |
| PurchaseNewPage.SimulationKeys | src/pages/PurchaseNewPage.tsx:145-153 | every disabled simulation shares one key, and enabled ones are told apart by the two numbers |
| PurchaseNewPage.ValidFormSimulated | src/pages/PurchaseNewPage.tsx:133-138 | a valid form with installments is always simulated |
| PurchaseNewPage.FractionalCountSimulatedButRejected | src/pages/PurchaseNewPage.tsx:133-138 | a count of "2.5" is simulated although validation rejects it |
| PurchaseNewPage.CustomersSelectQuery | src/pages/PurchaseNewPage.tsx:29-42 | the customer select has its own always-enabled key under "customers" |
| PurchaseNewPage.PurchaseNewPage.constructor | src/pages/PurchaseNewPage.tsx:18-26 | the form and errors start empty |
| PurchaseNewPage.PurchaseNewPage.HandleTextChange | src/pages/PurchaseNewPage.tsx:46-63 | a text input stores its value and clears its own error |
| PurchaseNewPage.PurchaseNewPage.HandleCheckboxChange | src/pages/PurchaseNewPage.tsx:46-63 | the checkbox stores `checked` and clears its own error |
| PurchaseNewPage.PurchaseNewPage.Validate | src/pages/PurchaseNewPage.tsx:65-98 | the errors become the form's errors, and the result says whether there are none |
| PurchaseNewPage.PurchaseNewPage.HandleSubmit | src/pages/PurchaseNewPage.tsx:100-127 | a valid form is sent, and a success invalidates the purchases lists and navigates |
| CustomerNewPage.NewCustomerValidIff | src/pages/CustomerNewPage.tsx:29-50 | valid exactly when name and phone are not blank and the e-mail, as typed, is a valid address |
| CustomerNewPage.PaddedEmailRejected | src/pages/CustomerNewPage.tsx:36-40 | a valid address typed with a leading space gets the format error |
| CustomerNewPage.NewStricterThanEdit | src/pages/CustomerNewPage.tsx:29-50 | whatever the new-customer form accepts, the edit forms accept |
| CustomerNewPage.SubmitRequest | src/pages/CustomerNewPage.tsx:52-62 | a request is sent exactly when the form is valid; it is trimmed, with non-empty name and phone and the e-mail as typed |
| CustomerNewPage.CustomerNewPage.constructor | src/pages/CustomerNewPage.tsx:11-18 | the form and errors start empty |
| CustomerNewPage.CustomerNewPage.HandleChange | src/pages/CustomerNewPage.tsx:20-27 | the field is stored and only its error is cleared |
| CustomerNewPage.CustomerNewPage.Validate | src/pages/CustomerNewPage.tsx:29-50 | the errors become the form's errors, and the result says whether there are none |
| CustomerNewPage.CustomerNewPage.HandleSubmit | src/pages/CustomerNewPage.tsx:52-85 | a valid form is sent trimmed; a success empties the form and navigates |
| CustomersPage.ListParams | src/pages/CustomersPages.tsx:62-67 | the list asks for the search text, the page, 9 per page, by name |
| CustomersPage.ListKeysDistinct | src/pages/CustomersPages.tsx:62-67 | every search text and page has its own key |
| CustomersPage.EditRefreshesList | src/pages/CustomersPages.tsx:51 | a successful edit refreshes every page of the list |
| CustomersPage.CustomersPage.constructor | src/pages/CustomersPages.tsx:25-47 | page 0, empty search, no modal open, empty form and errors |
| CustomersPage.CustomersPage.UpdateQuery | src/pages/CustomersPages.tsx:54-60 | a new search text goes back to page 0 |
| CustomersPage.CustomersPage.PreviousPage | src/pages/CustomersPages.tsx:271-327 | clickable only while the page lists some customer; the page goes back one, not below 0, and the click changes nothing exactly when the button is disabled at page 0 |
| CustomersPage.CustomersPage.NextPage | src/pages/CustomersPages.tsx:271-340 | clickable only while the page lists some customer; the page advances only when not on the last page |
| CustomersPage.CustomersPage.OpenEditModal | src/pages/CustomersPages.tsx:76-85 | the modal edits that customer, the form is filled from it, and the errors are cleared |
| CustomersPage.CustomersPage.CloseEditModal | src/pages/CustomersPages.tsx:87-90 | no customer is edited and the errors are cleared |
| CustomersPage.CustomersPage.HandleFormChange | src/pages/CustomersPages.tsx:92-98 | the field is stored and only its error is cleared |
| CustomersPage.CustomersPage.Validate | src/pages/CustomersPages.tsx:100-112 | the errors become the edit errors of the form |
| CustomersPage.CustomersPage.HandleEditSubmit | src/pages/CustomersPages.tsx:114-131 | nothing is sent without an edited customer or with errors; otherwise the form is sent as typed for that customer, and a success closes the modal |
| CustomersPage.CustomersPage.OpenDeleteModal | src/pages/CustomersPages.tsx:136-138 | the delete modal holds that customer |
| CustomersPage.CustomersPage.CloseDeleteModal | src/pages/CustomersPages.tsx:140-142 | the delete modal is closed |
| CustomersPage.CustomersPage.ConfirmDelete | src/pages/CustomersPages.tsx:144-159 | the customer of the modal is deleted, if any; a success closes the modal |
| CustomerDetailPage.PurchasesParams | src/pages/CustomerDetailPage.tsx:27-36 | the purchases list asks for this customer, the page, 5 per page, by creation date |
| CustomerDetailPage.EditRequest | src/pages/CustomerDetailPage.tsx:127-132 | a request is sent exactly when the edit is valid, as typed |
| CustomerDetailPage.ZeroIdNeverFetched | src/pages/CustomerDetailPage.tsx:21-36 | a route id read as 0 passes the NaN guard, but both queries stay disabled |
| CustomerDetailPage.CustomerDetailPage.constructor | src/pages/CustomerDetailPage.tsx:14-54 | the id is `Number` of the route parameter; page 0, not editing, empty form |
| CustomerDetailPage.CustomerDetailPage.InvalidIdFetchesNothing | src/pages/CustomerDetailPage.tsx:68-74 | with a NaN id neither query may fetch and the invalid-id screen is shown |
| CustomerDetailPage.CustomerDetailPage.EditRefreshesCustomerOnly | src/pages/CustomerDetailPage.tsx:39 | a successful edit refreshes the customer but not the purchases below it |
| CustomerDetailPage.CustomerDetailPage.OnCustomerLoaded | src/pages/CustomerDetailPage.tsx:57-66 | a delivered customer refills the form |
| CustomerDetailPage.CustomerDetailPage.ResetForm | src/pages/CustomerDetailPage.tsx:165-175 | the form is refilled from the customer, if loaded, and the errors are cleared |
| CustomerDetailPage.CustomerDetailPage.ToggleEdit | src/pages/CustomerDetailPage.tsx:194-197 | edit mode flips, and entering it resets the form first |
| CustomerDetailPage.CustomerDetailPage.CancelEdit | src/pages/CustomerDetailPage.tsx:341-344 | the form is reset and edit mode is left |
| CustomerDetailPage.CustomerDetailPage.HandleChange | src/pages/CustomerDetailPage.tsx:105-111 | the field is stored and only its error is cleared |
| CustomerDetailPage.CustomerDetailPage.Validate | src/pages/CustomerDetailPage.tsx:113-125 | the errors become the edit errors of the form |
| CustomerDetailPage.CustomerDetailPage.HandleSubmit | src/pages/CustomerDetailPage.tsx:127-143 | a valid form is sent as typed for this customer, and a success leaves edit mode |
| CustomerDetailPage.CustomerDetailPage.HandleDelete | src/pages/CustomerDetailPage.tsx:145-163 | the customer is deleted exactly when confirmed, and the page navigates exactly on success |
| CustomerDetailPage.CustomerDetailPage.PreviousPage | src/pages/CustomerDetailPage.tsx:389-447 | clickable only once the purchases loaded without error and list some purchase; the page goes back one, not below 0, and the click changes nothing exactly when the button is disabled at page 0 |
| CustomerDetailPage.CustomerDetailPage.NextPage | src/pages/CustomerDetailPage.tsx:389-457 | clickable under the same condition; the page advances only when not on the last page |
| PurchasesPage.ListParams | src/pages/PurchasesPage.tsx:14-18 | the list asks for the page, 9 per page, by creation date, with no search text |
| PurchasesPage.Filter | src/pages/PurchasesPage.tsx:23-25 | the shown purchases are those of the page whose lower-cased description includes the lower-cased search, and never more than the page |
| PurchasesPage.FilterCounts | src/pages/PurchasesPage.tsx:23-25 | a matching purchase is kept as often as it occurs, and a non-matching one is dropped |
| PurchasesPage.FilterKeepsOrder | src/pages/PurchasesPage.tsx:23-25 | the shown purchases keep the server's order |
| PurchasesPage.EmptySearchKeepsAll | src/pages/PurchasesPage.tsx:23-25 | an empty search shows the whole page |
| PurchasesPage.SearchIgnoresCase | src/pages/PurchasesPage.tsx:24 | the search ignores the case of what is typed |
| PurchasesPage.FilterIdempotent | src/pages/PurchasesPage.tsx:23-25 | filtering twice by the same text changes nothing |
| PurchasesPage.PurchasesPage.constructor | src/pages/PurchasesPage.tsx:9-10 | page 0 and an empty search |
| PurchasesPage.PurchasesPage.UpdateSearch | src/pages/PurchasesPage.tsx:30-36 | a new search goes back to page 0, and the query asks for page 0 whatever the text |
| PurchasesPage.PurchasesPage.PreviousPage | src/pages/PurchasesPage.tsx:104-166 | clickable only while the filtered list is not empty; the page goes back one, not below 0, and the click changes nothing exactly when the button is disabled at page 0 |
| PurchasesPage.PurchasesPage.NextPage | src/pages/PurchasesPage.tsx:104-179 | clickable only while the filtered list is not empty; the page advances only when the fetched page is not the last |
| PurchasesPage.PurchasesPage.PaginationHiddenIff | src/pages/PurchasesPage.tsx:23-104 | the pagination buttons disappear exactly when no purchase of the fetched page matches the search |

## Left out

- The query cache itself is not modelled: entry storage, subscriptions, notification order, request coalescing, stale and refetch timing, and the `placeholderData` mechanics. The model keeps only each query's key, its `enabled` flag, whether it keeps previous data, and the prefixes a mutation invalidates.
- The partial key matching is a sequence-prefix test with element equality. The query cache also matches object filters by subset, but no filter in this code contains an object.
- The debounce helper is not part of this model. The handlers model only what the debounced callback does when it fires: set the search text and go back to page 0.
- The HTTP wrappers in `src/api/` and their parameter defaults are not modelled. A request is modelled as the value the page hands to the mutation, and the server's answer as an `Outcome` parameter.
- Routing, animation and markup are not modelled: `src/App.tsx`, `src/pages/MenuPage.tsx`, `src/components/Card.tsx` and the JSX.
- Toasts, `console` output and the text of error messages from the server are not modelled. Navigation and `window.confirm` appear only as a boolean result or a boolean parameter.
- `Number(s)` is a decimal parser with an optional sign, digits and an optional fraction, after ASCII trimming. It does not model exponents, hexadecimal, "Infinity", floating-point rounding or `toFixed`.
- DetailRoute.NonNumericRoute: is stated only for route ids without letters, because with letters JavaScript's `Number` accepts forms ("1e5", "0x1F", "Infinity") that the parser above does not model.
- `trim`, `toLowerCase` and the regular expression's `\s` use ASCII white space and ASCII letters only. Unicode white space and case mappings are not modelled.
- Text lengths count characters, not UTF-16 code units.
- Setting an error to `undefined` is modelled as removing the field from the error map. This is what `Object.keys(newErrors).length` observes for the fresh maps that `validate` builds.
- Each handler takes, as parameters, the query data it reads on the render where the event happens: the purchases list, the loaded purchase or customer, and the page envelope.
- The loading and error flags of the queries are parameters of `ViewOf`. They are not derived from the cache.
- `PaymentsPage.PaymentsPage.HandlePaymentSubmit` and `PurchaseDetailPage.PurchaseDetailPage.HandlePaymentSubmit` do not model the `method` value being cast to the `PaymentMethod` type. The value of the select is sent as it is, which is also what the code does at run time.
- `PurchaseDetailPage.PurchaseDetailPage.HandlePaymentSubmit`, `CustomerDetailPage.CustomerDetailPage.HandleSubmit` and `CustomerDetailPage.CustomerDetailPage.HandleDelete` require a numeric route id. Their buttons are rendered only after the NaN check.
- Each submit handler models sending the request and applying the server's answer as one step: `PaymentsPage.PaymentsPage.HandlePaymentSubmit`, `PurchaseDetailPage.PurchaseDetailPage.HandlePaymentSubmit`, `PurchaseNewPage.PurchaseNewPage.HandleSubmit`, `CustomerNewPage.CustomerNewPage.HandleSubmit`, `CustomersPage.CustomersPage.HandleEditSubmit`, `CustomersPage.CustomersPage.ConfirmDelete`, `CustomerDetailPage.CustomerDetailPage.HandleSubmit` and `CustomerDetailPage.CustomerDetailPage.HandleDelete`. In the code `onSuccess` runs later, after any events fired while the request is pending, so interleavings are not captured. For example, closing the edit modal and opening another customer's before an update returns lets the late `onSuccess` close the new modal (`src/pages/CustomersPages.tsx:120-122`), and text typed into the payment form during the request is wiped by the reset (`src/pages/PaymentsPage.tsx:158-161`).
