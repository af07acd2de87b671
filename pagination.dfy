/**
  Zero-based page navigation shared by the list pages: the derived values
  read from the current page envelope and the two buttons' updates.
 */
module Pagination {
  import opened Wrappers
  import opened Domain

  /** `data?.content ?? []`. */
  function Content<T>(data: Option<PageEnvelope<T>>): (s: seq<T>)
    ensures data.None? ==> s == []
    ensures data.Some? ==> s == data.value.content
  {
    if data.Some? then data.value.content else []
  }

  /** `data?.totalPages ?? 1`. */
  function TotalPages<T>(data: Option<PageEnvelope<T>>): (n: int)
    ensures data.None? ==> n == 1
    ensures data.Some? ==> n == data.value.totalPages
  {
    if data.Some? then data.value.totalPages else 1
  }

  /** `data?.last ?? true`: with no data the list counts as being on its last page. */
  function IsLast<T>(data: Option<PageEnvelope<T>>): (b: bool)
    ensures data.None? ==> b
    ensures data.Some? ==> b == data.value.last
  {
    if data.Some? then data.value.last else true
  }

  /** "Anterior": `setPage(p => Math.max(p - 1, 0))`. */
  function Previous(page: int): (p: int)
    ensures p >= 0
    ensures page >= 1 ==> p == page - 1
    ensures page <= 1 ==> p == 0
  {
    if page - 1 > 0 then page - 1 else 0
  }

  /** "Siguiente": `!isLast && setPage(p => p + 1)`. */
  function Next(page: int, isLast: bool): (p: int)
    ensures isLast ==> p == page
    ensures !isLast ==> p == page + 1
  {
    if isLast then page else page + 1
  }

  /** "Anterior" is disabled exactly on the first page. */
  predicate PreviousDisabled(page: int) {
    page == 0
  }

  /** On a valid page "Anterior" does nothing exactly when it is disabled,
      and otherwise goes back exactly one page. */
  lemma PreviousButton(page: int)
    requires page >= 0
    ensures Previous(page) == page <==> PreviousDisabled(page)
    ensures !PreviousDisabled(page) ==> Previous(page) == page - 1
  {
  }

  /** One click on a pagination button, with the `isLast` flag shown when it was clicked. */
  datatype Click = PreviousClick | NextClick(isLast: bool)

  function Step(page: int, c: Click): int {
    match c
    case PreviousClick => Previous(page)
    case NextClick(isLast) => Next(page, isLast)
  }

  /** The page reached after a sequence of clicks. */
  function Run(page: int, clicks: seq<Click>): int
    decreases |clicks|
  {
    if clicks == [] then page else Run(Step(page, clicks[0]), clicks[1..])
  }

  /** Starting from a valid page, no sequence of clicks makes the page negative. */
  lemma {:induction false} RunNonNegative(page: int, clicks: seq<Click>)
    requires page >= 0
    ensures Run(page, clicks) >= 0
    decreases |clicks|
  {
    if clicks != [] {
      RunNonNegative(Step(page, clicks[0]), clicks[1..]);
    }
  }

  /** `n` clicks on "Anterior" lead to `max(page - n, 0)`. */
  lemma {:induction false} PreviousRun(page: int, clicks: seq<Click>)
    requires page >= 0
    requires forall k :: 0 <= k < |clicks| ==> clicks[k] == PreviousClick
    ensures Run(page, clicks) == if page >= |clicks| then page - |clicks| else 0
    decreases |clicks|
  {
    if clicks != [] {
      PreviousRun(Previous(page), clicks[1..]);
    }
  }

  /** While no page has been received, "Siguiente" does nothing. */
  lemma NextWithoutData<T>(page: int, data: Option<PageEnvelope<T>>)
    requires data.None?
    ensures Next(page, IsLast(data)) == page
  {
  }
}
