/** The dashboard's derived state: the status flip, the search filter over the loaded
    page, the list request's parameters, the pager state taken from a list response, the
    tab switch and the step back after deleting the last item of a page. */
module Dashboard {
  import opened Common
  import opened Text

  /** A task as the client receives it. */
  datatype Item = Item(id: TaskId, title: string, description: Option<string>, status: string)

  // ---------------------------------------------------------------------------
  // flipStatus

  /** The status `flipStatus` sends: pending becomes completed, anything else pending. */
  function FlipStatus(status: string): (flipped: string)
    ensures status == "pending" ==> flipped == "completed"
    ensures status != "pending" ==> flipped == "pending"
  {
    if status == "pending" then "completed" else "pending"
  }

  /** Flipping twice gives the status back exactly when it is one of the two statuses. */
  lemma FlipTwice(status: string)
    ensures FlipStatus(FlipStatus(status)) == status <==> status == "pending" || status == "completed"
  {
  }

  // ---------------------------------------------------------------------------
  // renderedList

  /** An item matches the lower-cased term in its lower-cased title or in a present,
      non-empty description. */
  predicate Matches(c: Item, term: string) {
    || Includes(ToLower(c.title), ToLower(term))
    || (Truthy(c.description) && Includes(ToLower(c.description.value), ToLower(term)))
  }

  function Filtered(xs: seq<Item>, term: string): (r: seq<Item>)
    ensures |r| <= |xs|
  {
    if xs == [] then []
    else Filtered(xs[..|xs| - 1], term) + (if Matches(xs[|xs| - 1], term) then [xs[|xs| - 1]] else [])
  }

  /** The positions in `xs` of the items `Filtered` keeps. */
  function KeptIndices(xs: seq<Item>, term: string): (ix: seq<nat>)
    ensures forall k :: 0 <= k < |ix| ==> ix[k] < |xs|
  {
    if xs == [] then []
    else KeptIndices(xs[..|xs| - 1], term) + (if Matches(xs[|xs| - 1], term) then [|xs| - 1] else [])
  }

  /** The kept positions pick out the filtered items, one for one. */
  lemma {:induction false} KeptIndicesPick(xs: seq<Item>, term: string)
    ensures |KeptIndices(xs, term)| == |Filtered(xs, term)|
    ensures forall k :: 0 <= k < |KeptIndices(xs, term)| ==> Filtered(xs, term)[k] == xs[KeptIndices(xs, term)[k]]
  {
    if xs != [] {
      var init := xs[..|xs| - 1];
      KeptIndicesPick(init, term);
      var rest := KeptIndices(init, term);
      assert forall k :: 0 <= k < |rest| ==> rest[k] < |init| && init[rest[k]] == xs[rest[k]];
    }
  }

  /** The list shown: the whole collection for an empty term, otherwise the matching items. */
  function RenderedList(collection: seq<Item>, queryTerm: string): seq<Item> {
    if queryTerm == "" then collection else Filtered(collection, queryTerm)
  }

  lemma EmptyTermShowsAll(collection: seq<Item>)
    ensures RenderedList(collection, "") == collection
  {
  }

  /** An item is shown iff it is loaded and matches the term. */
  lemma {:induction false} FilteredMembers(xs: seq<Item>, term: string, x: Item)
    ensures x in Filtered(xs, term) <==> x in xs && Matches(x, term)
  {
    if xs != [] {
      var init := xs[..|xs| - 1];
      FilteredMembers(init, term, x);
      assert xs == init + [xs[|xs| - 1]];
    }
  }

  lemma ShownIffMatches(collection: seq<Item>, queryTerm: string, x: Item)
    requires queryTerm != ""
    ensures x in RenderedList(collection, queryTerm) <==> x in collection && Matches(x, queryTerm)
  {
    FilteredMembers(collection, queryTerm, x);
  }

  /** `KeptIndices` of a non-empty sequence extends that of its prefix. */
  lemma KeptIndicesStep(xs: seq<Item>, term: string)
    requires xs != []
    ensures KeptIndices(xs, term) ==
      KeptIndices(xs[..|xs| - 1], term) + (if Matches(xs[|xs| - 1], term) then [|xs| - 1] else [])
  {
  }

  /** The shown list keeps the collection's order: the kept positions ascend strictly. */
  lemma {:induction false} KeptIndicesAscend(xs: seq<Item>, term: string)
    ensures var ix := KeptIndices(xs, term);
      forall k, l :: 0 <= k < l < |ix| ==> ix[k] < ix[l]
  {
    if xs != [] {
      var init := xs[..|xs| - 1];
      KeptIndicesAscend(init, term);
      KeptIndicesStep(xs, term);
      var rest := KeptIndices(init, term);
      var ix := KeptIndices(xs, term);
      assert forall k :: 0 <= k < |rest| ==> rest[k] < |init| && ix[k] == rest[k];
    }
  }

  /** The shown list leaves out no matching item: every matching position is kept. */
  lemma {:induction false} KeptIndicesComplete(xs: seq<Item>, term: string)
    ensures forall i :: 0 <= i < |xs| && Matches(xs[i], term) ==> i in KeptIndices(xs, term)
  {
    if xs != [] {
      var init := xs[..|xs| - 1];
      KeptIndicesComplete(init, term);
      KeptIndicesStep(xs, term);
      var rest := KeptIndices(init, term);
      forall i | 0 <= i < |xs| && Matches(xs[i], term) ensures i in KeptIndices(xs, term) {
        if i < |init| {
          assert init[i] == xs[i];
          assert i in rest;
        }
      }
    }
  }

  /** The shown list is an order-preserving subsequence of the collection, leaving out
      exactly the items that do not match: its `k`-th item is the collection's item at the
      `k`-th kept position, the kept positions ascend, and every matching position is kept. */
  lemma RenderedListIsSubsequence(xs: seq<Item>, term: string)
    ensures var ix := KeptIndices(xs, term);
      && |ix| == |Filtered(xs, term)|
      && (forall k :: 0 <= k < |ix| ==> Filtered(xs, term)[k] == xs[ix[k]])
      && (forall k, l :: 0 <= k < l < |ix| ==> ix[k] < ix[l])
      && (forall i :: 0 <= i < |xs| && Matches(xs[i], term) ==> i in ix)
  {
    KeptIndicesPick(xs, term);
    KeptIndicesAscend(xs, term);
    KeptIndicesComplete(xs, term);
  }

  // ---------------------------------------------------------------------------
  // Requests and responses

  const PAGE_LIMIT: int := 4

  /** The query of a list request; `status` is absent on the "all" tab. */
  datatype QueryParams = QueryParams(page: int, limit: int, status: Option<string>)

  /** `{ page: pager.current, limit: 4 }`, plus `status` unless the tab is "all". */
  function LoadParams(current: int, activeTab: string): (q: QueryParams)
    ensures q.page == current && q.limit == PAGE_LIMIT
    ensures q.status.Some? <==> activeTab != "all"
    ensures q.status.Some? ==> q.status.value == activeTab
  {
    QueryParams(current, PAGE_LIMIT, if activeTab != "all" then Some(activeTab) else None)
  }

  /** A list response body: a bare array, or a listing whose fields may be absent. */
  datatype ListResponse =
    | ArrayPayload(items: seq<Item>)
    | Listing(tasks: Option<seq<Item>>, page: Option<int>, totalPages: Option<int>, total: Option<int>)

  /** JavaScript `n || fallback` on a number: absent and 0 give the fallback. */
  function NumberOr(n: Option<int>, fallback: int): (r: int)
    ensures n.Some? && n.value != 0 ==> r == n.value
    ensures n.None? || n == Some(0) ==> r == fallback
  {
    if n.Some? && n.value != 0 then n.value else fallback
  }

  datatype Pager = Pager(current: int, max: int, totalItems: int)

  const INITIAL_PAGER: Pager := Pager(1, 1, 0)

  /** The collection a response sets. */
  function CollectionOf(resp: ListResponse): (c: seq<Item>)
    ensures resp.ArrayPayload? ==> c == resp.items
    ensures resp.Listing? && resp.tasks.Some? ==> c == resp.tasks.value
    ensures resp.Listing? && resp.tasks.None? ==> c == []
  {
    match resp
    case ArrayPayload(items) => items
    case Listing(tasks, _, _, _) => if tasks.Some? then tasks.value else []
  }

  /** The pager state a response sets. */
  function PagerOf(resp: ListResponse): (p: Pager)
    ensures resp.ArrayPayload? ==> p == Pager(1, 1, |resp.items|)
    ensures resp.Listing? ==> p == Pager(NumberOr(resp.page, 1), NumberOr(resp.totalPages, 1), NumberOr(resp.total, 0))
  {
    match resp
    case ArrayPayload(items) => Pager(1, 1, |items|)
    case Listing(_, page, totalPages, total) => Pager(NumberOr(page, 1), NumberOr(totalPages, 1), NumberOr(total, 0))
  }

  /** `extCount`: the length of an array payload, otherwise `total || 0`. */
  function ExtCount(resp: ListResponse): (n: int)
    ensures resp.ArrayPayload? ==> n == |resp.items|
    ensures resp.Listing? ==> n == NumberOr(resp.total, 0)
  {
    if resp.ArrayPayload? then |resp.items| else NumberOr(resp.total, 0)
  }

  /** The stats cards and the pager count a response alike. */
  lemma ExtCountIsPagerTotal(resp: ListResponse)
    ensures ExtCount(resp) == PagerOf(resp).totalItems
  {
  }

  /** The page `initiateDelete` settles on: one back when the deleted task was the only one
      loaded on a page after the first, otherwise the same page. */
  function PageAfterDelete(loaded: nat, current: int): (p: int)
    ensures loaded == 1 && current > 1 ==> p == current - 1
    ensures !(loaded == 1 && current > 1) ==> p == current
  {
    if loaded == 1 && current > 1 then current - 1 else current
  }

  /** Stepping back never leaves the valid pages. */
  lemma PageAfterDeleteStaysValid(loaded: nat, current: int)
    requires current >= 1
    ensures 1 <= PageAfterDelete(loaded, current) <= current
  {
  }

  // ---------------------------------------------------------------------------
  // The page's state

  class DashboardState {
    var collection: seq<Item>
    var activeTab: string
    var queryTerm: string
    var pager: Pager

    constructor ()
      ensures collection == [] && activeTab == "all" && queryTerm == "" && pager == INITIAL_PAGER
    {
      collection, activeTab, queryTerm, pager := [], "all", "", INITIAL_PAGER;
    }

    /** The parameters of the next list request. */
    function Params(): QueryParams
      reads this
    {
      LoadParams(pager.current, activeTab)
    }

    /** The list currently shown. */
    function Shown(): seq<Item>
      reads this
    {
      RenderedList(collection, queryTerm)
    }

    /** `loadCollection` once the request settles: `answer` is the response body, or
        `None` when the request failed, which leaves the collection and pager alone. */
    method LoadCollection(answer: Option<ListResponse>)
      modifies this
      ensures activeTab == old(activeTab) && queryTerm == old(queryTerm)
      ensures answer.None? ==> collection == old(collection) && pager == old(pager)
      ensures answer.Some? ==> collection == CollectionOf(answer.value) && pager == PagerOf(answer.value)
    {
      if answer.None? {
        return;
      }
      var payload := answer.value;
      if payload.ArrayPayload? {
        collection := payload.items;
        pager := Pager(1, 1, |payload.items|);
      } else {
        collection := if payload.tasks.Some? then payload.tasks.value else [];
        pager := Pager(NumberOr(payload.page, 1), NumberOr(payload.totalPages, 1), NumberOr(payload.total, 0));
      }
    }

    /** A tab click: the tab changes and the pager returns to page 1. */
    method SelectTab(tab: string)
      modifies this
      ensures activeTab == tab && pager == old(pager).(current := 1)
      ensures collection == old(collection) && queryTerm == old(queryTerm)
    {
      activeTab := tab;
      pager := pager.(current := 1);
    }

    /** `onPageChange(val)`. */
    method ChangePage(val: int)
      modifies this
      ensures pager == old(pager).(current := val)
      ensures collection == old(collection) && activeTab == old(activeTab) && queryTerm == old(queryTerm)
    {
      pager := pager.(current := val);
    }

    /** Typing in the search box. */
    method SetQuery(term: string)
      modifies this
      ensures queryTerm == term
      ensures collection == old(collection) && activeTab == old(activeTab) && pager == old(pager)
    {
      queryTerm := term;
    }

    /** `initiateDelete` after the delete request succeeded: either step the pager back
        (whose change triggers the reload) or ask for a reload of the same page. */
    method AfterDelete() returns (reloadNow: bool)
      modifies this
      ensures pager == old(pager).(current := PageAfterDelete(|old(collection)|, old(pager.current)))
      ensures reloadNow <==> pager.current == old(pager.current)
      ensures collection == old(collection) && activeTab == old(activeTab) && queryTerm == old(queryTerm)
    {
      if |collection| == 1 && pager.current > 1 {
        pager := pager.(current := pager.current - 1);
        reloadNow := false;
      } else {
        reloadNow := true;
      }
    }
  }
}
