/**
  Query keys, the declarations a view makes to the query cache, and the
  partial key matching that `invalidateQueries` uses.

  A key is a list whose first element is a resource tag, followed by ids or
  parameter records. A parameter record is a value, so two records are equal
  exactly when all their fields are, whatever order they were written in.
 */
module QueryKeys {
  import opened Wrappers
  import opened Domain

  /** Parameters of the customers list (`q`, `page`, `size`, `sort`, each optional). */
  datatype CustomersListParams = CustomersListParams(
    q: Option<string>, page: Option<int>, size: Option<int>, sort: Option<string>)

  /** Parameters of one customer's purchases list. */
  datatype CustomerPurchasesParams = CustomerPurchasesParams(
    customerId: Option<real>, page: Option<int>, size: Option<int>, sort: Option<string>)

  /** Parameters of the global purchases list. */
  datatype PurchasesListParams = PurchasesListParams(
    customerId: Option<real>, status: Option<PurchaseStatus>,
    page: Option<int>, size: Option<int>, sort: Option<string>)

  datatype KeyElem =
    | Str(s: string)
    | Number(n: real)
    | Undefined
    | CustomersListRec(customers: CustomersListParams)
    | CustomerPurchasesRec(customerPurchases: CustomerPurchasesParams)
    | PurchasesListRec(purchases: PurchasesListParams)
    | ForRec(purpose: string)                       // `{ for: "…" }`
    | SimulationRec(totalAmount: real, installmentCount: real)

  type Key = seq<KeyElem>

  /** What one `useQuery` call declares: its key, whether it may fetch, and
      whether the previous key's data stays visible while a new key loads
      (`placeholderData: (previous) => previous`). */
  datatype Query = Query(key: Key, enabled: bool, keepsPreviousData: bool)

  /** A query declared without `enabled` and without `placeholderData`. */
  function Plain(key: Key): (q: Query)
    ensures q.key == key && q.enabled && !q.keepsPreviousData
  {
    Query(key, true, false)
  }

  /** The query cache's partial matching, for filters made of strings and
      numbers only (every filter in this console): the filter is a prefix of
      the key, element by element. */
  predicate IsPrefix(prefix: Key, key: Key) {
    |prefix| <= |key| && key[..|prefix|] == prefix
  }

  /** `key` is marked stale by `invalidateQueries({ queryKey: p })` for some `p` in `prefixes`. */
  predicate Invalidated(prefixes: seq<Key>, key: Key) {
    exists i :: 0 <= i < |prefixes| && IsPrefix(prefixes[i], key)
  }

  /** How the server answered a mutation. */
  datatype Outcome = Succeeded | Failed(message: string)

  /** The prefixes a mutation invalidates: its `onSuccess` rule when the server
      accepted it, and nothing at all when it failed. */
  function Settle(rule: seq<Key>, outcome: Outcome): (r: seq<Key>)
    ensures outcome.Failed? ==> forall key :: !Invalidated(r, key)
    ensures outcome.Succeeded? ==> forall key :: Invalidated(r, key) <==> Invalidated(rule, key)
  {
    if outcome.Succeeded? then rule else []
  }

  /** JavaScript's `!!x` for an optional number: present and not zero. */
  predicate Truthy(x: Option<real>) {
    x.Some? && x.value != 0.0
  }

  /** An optional number as a key element; `undefined` is kept as such. */
  function NumberOrUndefined(x: Option<real>): (e: KeyElem)
    ensures e.Undefined? <==> x.None?
    ensures x.Some? ==> e == Number(x.value)
  {
    if x.Some? then Number(x.value) else Undefined
  }

  /** A one-element prefix `[tag]` matches exactly the keys whose first element is that tag. */
  lemma TagPrefix(tag: string, key: Key)
    ensures IsPrefix([Str(tag)], key) <==> |key| >= 1 && key[0] == Str(tag)
  {
    if |key| >= 1 && key[0] == Str(tag) {
      assert key[..1] == [Str(tag)];
    }
  }

  /** A two-element prefix `[tag, x]` matches exactly the keys that begin with `tag` then `x`. */
  lemma PairPrefix(tag: string, x: KeyElem, key: Key)
    ensures IsPrefix([Str(tag), x], key) <==> |key| >= 2 && key[0] == Str(tag) && key[1] == x
  {
    if |key| >= 2 && key[0] == Str(tag) && key[1] == x {
      assert key[..2] == [Str(tag), x];
    }
  }
}
