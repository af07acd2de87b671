/**
  The guard both detail pages apply to their route parameter: `Number(id)`,
  NaN passed to the queries as `undefined`, and the order in which the page
  chooses what to show.
 */
module DetailRoute {
  import opened Wrappers
  import opened JsNumber

  /** `Number(id)` of the route parameter; a missing parameter is NaN. */
  function RouteNumber(id: Option<string>): (n: Num)
    ensures id.None? ==> n.NaN?
  {
    if id.Some? then ParseNumber(id.value) else NaN
  }

  /** `Number.isNaN(x) ? undefined : x`. */
  function IdOrUndefined(n: Num): (r: Option<real>)
    ensures r.None? <==> n.NaN?
    ensures n.Finite? ==> r == Some(n.value)
  {
    if n.NaN? then None else Some(n.value)
  }

  /** What a detail page renders. */
  datatype DetailView<T> = InvalidId | Loading | LoadFailed | Loaded(value: T)

  /** The page's early returns, in order: an invalid id, then loading, then an
      error or missing data; only past all of them is the record shown. */
  function ViewOf<T>(id: Num, isLoading: bool, isError: bool, data: Option<T>): (v: DetailView<T>)
    ensures v.InvalidId? <==> id.NaN?
    ensures v.Loaded? <==> id.Finite? && !isLoading && !isError && data.Some?
    ensures v.Loaded? ==> data == Some(v.value)
  {
    if id.NaN? then InvalidId
    else if isLoading then Loading
    else if isError || data.None? then LoadFailed
    else Loaded(data.value)
  }

  /** A route id made of digits and the signs `:;<=>?@[\]^_` and backquote,
      at least one of them a sign, is not a number: it is reported as invalid
      and reaches the queries as `undefined`. Letters are excluded, since
      `Number` reads "1e5", "0x1F" and "Infinity" as numbers. */
  lemma NonNumericRoute(id: string)
    requires !AllDigits(id)
    requires forall k :: 0 <= k < |id| ==> '0' <= id[k] <= 'z'
    requires forall k :: 0 <= k < |id| ==> !('a' <= id[k] <= 'z') && !('A' <= id[k] <= 'Z')
    ensures RouteNumber(Some(id)).NaN?
    ensures IdOrUndefined(RouteNumber(Some(id))).None?
  {
    var k :| 0 <= k < |id| && !IsDigit(id[k]);
    JsText.TrimNoSpace(id);
    var n := JsText.PrefixLength(id, IsDigit);
    assert n <= k;
  }
}
