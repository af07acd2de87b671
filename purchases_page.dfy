/**
  The purchases list page: one page of purchases from the server, filtered
  on the client by a case-insensitive search in the description.
 */
module PurchasesPage {
  import opened Wrappers
  import opened JsText
  import opened Domain
  import opened QueryKeys
  import opened PurchaseHooks
  import opened Pagination

  const PageSize := 9

  /** The list parameters: no customer or status filter, the page, nine per
      page, by creation date. The search text is not among them. */
  function ListParams(page: int): (p: PurchasesListParams)
    ensures p.customerId.None? && p.status.None?
    ensures p.page == Some(page) && p.size == Some(PageSize) && p.sort == Some("createdAt")
  {
    PurchasesListParams(None, None, Some(page), Some(PageSize), Some("createdAt"))
  }

  /** `p.description.toLowerCase().includes(search.toLowerCase())`. */
  predicate Matches(p: Purchase, search: string) {
    Includes(ToLower(p.description), ToLower(search))
  }

  /** `allPurchases.filter(…)`: the purchases that match, in their order. */
  function Filter(all: seq<Purchase>, search: string): (r: seq<Purchase>)
    ensures |r| <= |all|
    ensures forall p :: p in r <==> p in all && Matches(p, search)
  {
    if all == [] then []
    else if Matches(all[0], search) then [all[0]] + Filter(all[1..], search)
    else Filter(all[1..], search)
  }

  /** Each purchase occurs in the result as often as in the page when it
      matches, and not at all otherwise. */
  lemma {:induction false} FilterCounts(all: seq<Purchase>, search: string, p: Purchase)
    ensures multiset(Filter(all, search))[p] == if Matches(p, search) then multiset(all)[p] else 0
  {
    if all != [] {
      FilterCounts(all[1..], search, p);
      assert all == [all[0]] + all[1..];
    }
  }

  /** `r` lists some of the entries of `s`, in the order of `s`. */
  predicate IsSubsequence(r: seq<Purchase>, s: seq<Purchase>)
    decreases |s|
  {
    if r == [] then true
    else if s == [] then false
    else if r[0] == s[0] then IsSubsequence(r[1..], s[1..])
    else IsSubsequence(r, s[1..])
  }

  /** Filtering keeps the server's order. */
  lemma {:induction false} FilterKeepsOrder(all: seq<Purchase>, search: string)
    ensures IsSubsequence(Filter(all, search), all)
  {
    if all != [] {
      FilterKeepsOrder(all[1..], search);
    }
  }

  /** An empty search shows the whole page. */
  lemma {:induction false} EmptySearchKeepsAll(all: seq<Purchase>)
    ensures Filter(all, "") == all
  {
    if all != [] {
      IncludesEmpty(ToLower(all[0].description));
      assert ToLower("") == "";
      EmptySearchKeepsAll(all[1..]);
    }
  }

  /** The search ignores the case of the letters A to Z in what is typed. */
  lemma {:induction false} SearchIgnoresCase(all: seq<Purchase>, search: string)
    ensures Filter(all, search) == Filter(all, ToLower(search))
  {
    ToLowerIdempotent(search);
    if all != [] {
      SearchIgnoresCase(all[1..], search);
    }
  }

  /** Filtering twice by the same text changes nothing. */
  lemma {:induction false} FilterIdempotent(all: seq<Purchase>, search: string)
    ensures Filter(Filter(all, search), search) == Filter(all, search)
  {
    if all != [] {
      FilterIdempotent(all[1..], search);
    }
  }

  class PurchasesPage {
    var page: int
    var search: string

    ghost predicate Valid()
      reads this
    {
      page >= 0
    }

    constructor()
      ensures Valid()
      ensures page == 0 && search == ""
    {
      page := 0;
      search := "";
    }

    function ListQuery(): Query
      reads this
    {
      PurchasesList(ListParams(page))
    }

    /** The purchases shown: the current page filtered by the search text. */
    function Shown(data: Option<PageEnvelope<Purchase>>): seq<Purchase>
      reads this
    {
      Filter(Content(data), search)
    }

    /** The pagination buttons are rendered only below a non-empty list of
        filtered purchases. */
    predicate PaginationShown(data: Option<PageEnvelope<Purchase>>)
      reads this
    {
      Shown(data) != []
    }

    /** The buttons disappear exactly when no purchase of the fetched page
        matches the search. The search also returns to page 0, so then only
        a new search text can move the list: matches on later pages cannot
        be reached. */
    lemma PaginationHiddenIff(data: Option<PageEnvelope<Purchase>>)
      ensures !PaginationShown(data) <==> forall p :: p in Content(data) ==> !Matches(p, search)
    {
      if PaginationShown(data) {
        assert Shown(data)[0] in Shown(data);
      }
    }

    /** A new search text (once the 400 ms debounce fires) goes back to the
        first page; the server is asked for the first page, whatever the text. */
    method UpdateSearch(value: string)
      requires Valid()
      modifies this
      ensures Valid()
      ensures search == value && page == 0
      ensures ListQuery() == PurchasesList(ListParams(0))
    {
      page := 0;
      search := value;
    }

    /** "Anterior", shown only while the filtered list is not empty and
        disabled on the first page; the page never goes below 0, so a click
        moves back exactly one page. */
    method PreviousPage(data: Option<PageEnvelope<Purchase>>)
      requires Valid() && PaginationShown(data)
      modifies this
      ensures Valid()
      ensures page == Previous(old(page)) && search == old(search)
      ensures page == old(page) <==> PreviousDisabled(old(page))
      ensures !PreviousDisabled(old(page)) ==> page == old(page) - 1
    {
      page := Previous(page);
    }

    /** "Siguiente", shown only while the filtered list is not empty; its
        `isLast` is read from the page as fetched, not from the filtered list. */
    method NextPage(data: Option<PageEnvelope<Purchase>>)
      requires Valid() && PaginationShown(data)
      modifies this
      ensures Valid()
      ensures page == Next(old(page), IsLast(data)) && search == old(search)
    {
      if !IsLast(data) {
        page := page + 1;
      }
    }
  }
}
