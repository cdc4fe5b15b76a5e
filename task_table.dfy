/** The task table's logic: the sequence of pager buttons, the row-menu toggle, when the
    empty state replaces the table, and when the pager and its arrows are shown. */
module TaskTable {
  import opened Common

  /** A pager entry: a page number button or the "..." marker. */
  datatype PageButton = Number(n: int) | Gap

  function Max(a: int, b: int): int { if a < b then b else a }
  function Min(a: int, b: int): int { if a < b then a else b }

  /** The buttons `lo, lo+1, …, hi`. */
  function Range(lo: int, hi: int): (r: seq<PageButton>)
    ensures |r| == if hi < lo then 0 else hi - lo + 1
    ensures forall k :: 0 <= k < |r| ==> r[k] == Number(lo + k)
    decreases hi - lo
  {
    if hi < lo then [] else Range(lo, hi - 1) + [Number(hi)]
  }

  function LeadingGap(currentPage: int): seq<PageButton> {
    if currentPage > 3 then [Gap] else []
  }

  function TrailingGap(currentPage: int, pageCount: int): seq<PageButton> {
    if currentPage < pageCount - 2 then [Gap] else []
  }

  /** The neighbours of the current page, kept clear of the first and last page. */
  function Neighbours(currentPage: int, pageCount: int): seq<PageButton> {
    Range(Max(2, currentPage - 1), Min(pageCount - 1, currentPage + 1))
  }

  /** The pager's entries: every page when there are at most five, otherwise the first
      page, the current page's neighbours and the last page, with "..." where pages are
      skipped. */
  function PageSeq(currentPage: int, pageCount: int): seq<PageButton> {
    if pageCount <= 5 then Range(1, pageCount)
    else [Number(1)] + LeadingGap(currentPage) + Neighbours(currentPage, pageCount)
         + TrailingGap(currentPage, pageCount) + [Number(pageCount)]
  }

  /** `computePageSeq`, pushing onto the sequence in two loops. */
  method ComputePageSeq(currentPage: int, pageCount: int) returns (r: seq<PageButton>)
    ensures r == PageSeq(currentPage, pageCount)
  {
    r := [];
    if pageCount <= 5 {
      var i := 1;
      while i <= pageCount
        invariant 1 <= i <= Max(1, pageCount + 1)
        invariant r == Range(1, i - 1)
      {
        r := r + [Number(i)];
        i := i + 1;
      }
    } else {
      r := r + [Number(1)];
      if currentPage > 3 {
        r := r + [Gap];
      }
      var startPoint := Max(2, currentPage - 1);
      var endPoint := Min(pageCount - 1, currentPage + 1);
      var j := startPoint;
      while j <= endPoint
        invariant startPoint <= j <= Max(startPoint, endPoint + 1)
        invariant r == [Number(1)] + LeadingGap(currentPage) + Range(startPoint, j - 1)
      {
        r := r + [Number(j)];
        j := j + 1;
      }
      if currentPage < pageCount - 2 {
        r := r + [Gap];
      }
      r := r + [Number(pageCount)];
    }
  }

  // ---------------------------------------------------------------------------
  // Properties of the page sequence

  /** With at most five pages every page has a button, in order, and there is no "...". */
  lemma FewPagesAllShown(currentPage: int, pageCount: int)
    requires pageCount <= 5
    ensures |PageSeq(currentPage, pageCount)| == Max(0, pageCount)
    ensures forall k :: 0 <= k < |PageSeq(currentPage, pageCount)| ==> PageSeq(currentPage, pageCount)[k] == Number(k + 1)
    ensures Gap !in PageSeq(currentPage, pageCount)
  {
  }

  /** Where each entry of a long pager sits: the first page, an optional "...", the
      neighbours, an optional "...", the last page. */
  lemma {:induction false} LongLayout(currentPage: int, pageCount: int)
    requires pageCount > 5
    ensures var r := PageSeq(currentPage, pageCount);
      var lead := |LeadingGap(currentPage)|;
      var mid := Neighbours(currentPage, pageCount);
      && |r| == 2 + lead + |mid| + |TrailingGap(currentPage, pageCount)|
      && r[0] == Number(1) && r[|r| - 1] == Number(pageCount)
      && (forall k :: 0 <= k < |mid| ==> r[1 + lead + k] == mid[k])
      && (forall i :: 0 < i < 1 + lead ==> r[i] == Gap)
      && (forall i :: 1 + lead + |mid| <= i < |r| - 1 ==> r[i] == Gap)
  {
    LongLayoutMiddle(currentPage, pageCount);
    LongLayoutGaps(currentPage, pageCount);
  }

  /** Indexing into the parts of a three-part concatenation. */
  lemma ConcatParts<T>(a: seq<T>, m: seq<T>, b: seq<T>)
    ensures |a + m + b| == |a| + |m| + |b|
    ensures forall k :: 0 <= k < |a| ==> (a + m + b)[k] == a[k]
    ensures forall k :: 0 <= k < |m| ==> (a + m + b)[|a| + k] == m[k]
    ensures forall k :: 0 <= k < |b| ==> (a + m + b)[|a| + |m| + k] == b[k]
  {
  }

  /** A long pager is its first page and optional "...", the neighbours, and its optional
      "..." and last page. */
  lemma LongParts(currentPage: int, pageCount: int)
    requires pageCount > 5
    ensures PageSeq(currentPage, pageCount) ==
      ([Number(1)] + LeadingGap(currentPage)) + Neighbours(currentPage, pageCount)
      + (TrailingGap(currentPage, pageCount) + [Number(pageCount)])
  {
  }

  lemma {:induction false} LongLayoutMiddle(currentPage: int, pageCount: int)
    requires pageCount > 5
    ensures var r := PageSeq(currentPage, pageCount);
      var lead := |LeadingGap(currentPage)|;
      var mid := Neighbours(currentPage, pageCount);
      && |r| == 2 + lead + |mid| + |TrailingGap(currentPage, pageCount)|
      && r[0] == Number(1) && r[|r| - 1] == Number(pageCount)
      && forall k :: 0 <= k < |mid| ==> r[1 + lead + k] == mid[k]
  {
    var front := [Number(1)] + LeadingGap(currentPage);
    var back := TrailingGap(currentPage, pageCount) + [Number(pageCount)];
    LongParts(currentPage, pageCount);
    ConcatParts(front, Neighbours(currentPage, pageCount), back);
    assert back[|back| - 1] == Number(pageCount);
  }

  lemma {:induction false} LongLayoutGaps(currentPage: int, pageCount: int)
    requires pageCount > 5
    ensures var r := PageSeq(currentPage, pageCount);
      var lead := |LeadingGap(currentPage)|;
      var mid := |Neighbours(currentPage, pageCount)|;
      && (forall i :: 0 < i < 1 + lead ==> r[i] == Gap)
      && (forall i :: 1 + lead + mid <= i < |r| - 1 ==> r[i] == Gap)
  {
    var front := [Number(1)] + LeadingGap(currentPage);
    var mid := Neighbours(currentPage, pageCount);
    var back := TrailingGap(currentPage, pageCount) + [Number(pageCount)];
    LongParts(currentPage, pageCount);
    ConcatParts(front, mid, back);
    var r := PageSeq(currentPage, pageCount);
    forall i | |front| + |mid| <= i < |r| - 1 ensures r[i] == Gap {
      assert r[i] == back[i - |front| - |mid|];
    }
  }

  /** A long pager starts with page 1 and ends with the last page. */
  lemma LongPagerEnds(currentPage: int, pageCount: int)
    requires pageCount > 5
    ensures PageSeq(currentPage, pageCount)[0] == Number(1)
    ensures PageSeq(currentPage, pageCount)[|PageSeq(currentPage, pageCount)| - 1] == Number(pageCount)
  {
    LongLayout(currentPage, pageCount);
  }

  /** Between them, a long pager shows exactly the pages `max(2, cp-1) .. min(pc-1, cp+1)`,
      ascending, after the optional leading "...". */
  lemma LongPagerMiddle(currentPage: int, pageCount: int)
    requires pageCount > 5
    ensures var r := PageSeq(currentPage, pageCount);
      var lo, hi := Max(2, currentPage - 1), Min(pageCount - 1, currentPage + 1);
      var at := 1 + |LeadingGap(currentPage)|;
      at + |Range(lo, hi)| <= |r| && r[at..at + |Range(lo, hi)|] == Range(lo, hi)
  {
    LongLayout(currentPage, pageCount);
    var r := PageSeq(currentPage, pageCount);
    var at := 1 + |LeadingGap(currentPage)|;
    var mid := Neighbours(currentPage, pageCount);
    assert r[at..at + |mid|] == mid;
  }

  /** The number of "..." markers is one for `cp > 3` plus one for `cp < pc - 2`. */
  lemma GapCount(currentPage: int, pageCount: int)
    requires pageCount > 5
    ensures multiset(PageSeq(currentPage, pageCount))[Gap] ==
      (if currentPage > 3 then 1 else 0) + (if currentPage < pageCount - 2 then 1 else 0)
  {
    var mid := Neighbours(currentPage, pageCount);
    assert Gap !in mid;
    assert multiset(mid)[Gap] == 0;
  }

  /** For a current page within range, the second entry is "..." iff `cp > 3` and the
      second to last is "..." iff `cp < pc - 2`. */
  lemma GapPositions(currentPage: int, pageCount: int)
    requires pageCount > 5 && 1 <= currentPage <= pageCount
    ensures var r := PageSeq(currentPage, pageCount);
      |r| >= 3 && (r[1] == Gap <==> currentPage > 3) && (r[|r| - 2] == Gap <==> currentPage < pageCount - 2)
  {
    LongLayout(currentPage, pageCount);
    var mid := Neighbours(currentPage, pageCount);
    assert |mid| >= 1;
  }

  /** The page numbers of a sequence ascend strictly. */
  predicate Ascending(r: seq<PageButton>) {
    forall i, j :: 0 <= i < j < |r| && r[i].Number? && r[j].Number? ==> r[i].n < r[j].n
  }

  /** In a long pager with the current page within range, each number's value is fixed by
      its position: 1 first, the last page last, the neighbours in between. */
  lemma {:induction false} LongNumberPositions(currentPage: int, pageCount: int)
    requires pageCount > 5 && 1 <= currentPage <= pageCount
    ensures var r := PageSeq(currentPage, pageCount);
      var lead := |LeadingGap(currentPage)|;
      var lo := Max(2, currentPage - 1);
      var mid := Neighbours(currentPage, pageCount);
      && 1 <= |mid| <= 3 && lo + |mid| - 1 == Min(pageCount - 1, currentPage + 1)
      && forall i :: 0 <= i < |r| && r[i].Number? ==>
           (i == 0 && r[i].n == 1) || (i == |r| - 1 && r[i].n == pageCount) ||
           (1 + lead <= i < 1 + lead + |mid| && r[i].n == lo + i - 1 - lead)
  {
    LongLayout(currentPage, pageCount);
  }

  /** For a current page within range the pager has at most seven entries. */
  lemma PagerLength(currentPage: int, pageCount: int)
    requires 1 <= currentPage <= pageCount
    ensures |PageSeq(currentPage, pageCount)| <= 7
  {
    if pageCount > 5 {
      LongLayout(currentPage, pageCount);
      LongNumberPositions(currentPage, pageCount);
    }
  }

  /** For a current page within range the page numbers ascend strictly and lie within
      `1 .. pageCount`. */
  lemma PagerAscending(currentPage: int, pageCount: int)
    requires 1 <= currentPage <= pageCount
    ensures Ascending(PageSeq(currentPage, pageCount))
    ensures var r := PageSeq(currentPage, pageCount);
      forall i :: 0 <= i < |r| && r[i].Number? ==> 1 <= r[i].n <= pageCount
  {
    if pageCount > 5 {
      LongLayout(currentPage, pageCount);
      LongNumberPositions(currentPage, pageCount);
    }
  }

  /** The current page always has a button. */
  lemma PagerShowsCurrentPage(currentPage: int, pageCount: int)
    requires 1 <= currentPage <= pageCount
    ensures Number(currentPage) in PageSeq(currentPage, pageCount)
  {
    var r := PageSeq(currentPage, pageCount);
    if pageCount <= 5 {
      assert r[currentPage - 1] == Number(currentPage);
    } else {
      LongLayout(currentPage, pageCount);
      LongNumberPositions(currentPage, pageCount);
      var lead := |LeadingGap(currentPage)|;
      var lo := Max(2, currentPage - 1);
      if currentPage == 1 {
        assert r[0] == Number(currentPage);
      } else if currentPage == pageCount {
        assert r[|r| - 1] == Number(currentPage);
      } else {
        assert r[1 + lead + (currentPage - lo)] == Neighbours(currentPage, pageCount)[currentPage - lo];
      }
    }
  }

  /** Every "..." stands between two page numbers that skip at least one page. */
  lemma GapsSkipPages(currentPage: int, pageCount: int)
    requires 1 <= currentPage <= pageCount
    ensures var r := PageSeq(currentPage, pageCount);
      forall i :: 0 <= i < |r| && r[i] == Gap ==>
        0 < i < |r| - 1 && r[i - 1].Number? && r[i + 1].Number? && r[i + 1].n > r[i - 1].n + 1
  {
    if pageCount > 5 {
      LongLayout(currentPage, pageCount);
      LongNumberPositions(currentPage, pageCount);
    }
  }

  // ---------------------------------------------------------------------------
  // Row menu, empty state and pager arrows

  /** The open row menu after a click on the menu of task `id`. */
  function MenuAfterClick(active: Option<TaskId>, id: TaskId): (next: Option<TaskId>)
    ensures active == Some(id) ==> next.None?
    ensures active != Some(id) ==> next == Some(id)
  {
    if active == Some(id) then None else Some(id)
  }

  /** Clicking the same menu twice returns to a closed menu when it started closed or on
      that task, and otherwise ends closed too: a second click never opens another menu. */
  lemma MenuClickTwice(active: Option<TaskId>, id: TaskId)
    ensures MenuAfterClick(MenuAfterClick(active, id), id) == if active == Some(id) then active else None
  {
  }

  /** The table's `activeMenuId` state. */
  class MenuState {
    var activeMenuId: Option<TaskId>

    constructor ()
      ensures activeMenuId.None?
    {
      activeMenuId := None;
    }

    /** `handleMenuClick(itemId)`. */
    method HandleMenuClick(itemId: TaskId)
      modifies this
      ensures activeMenuId == MenuAfterClick(old(activeMenuId), itemId)
    {
      activeMenuId := if activeMenuId == Some(itemId) then None else Some(itemId);
    }

    /** Each item in an open menu closes the menu after its action. */
    method CloseMenu()
      modifies this
      ensures activeMenuId.None?
    {
      activeMenuId := None;
    }
  }

  /** `!itemsList || (!itemsList.length && !totalCount)`; `total` is the count sent by the
      server, `None` when absent. */
  predicate ShowEmptyState<T>(items: Option<seq<T>>, total: Option<int>) {
    items.None? || (items.value == [] && (total.None? || total.value == 0))
  }

  /** The empty state never hides tasks, and an empty page of a non-empty listing still
      renders the table and so its pager. */
  lemma EmptyStateOnlyWithoutTasks<T>(items: Option<seq<T>>, total: Option<int>)
    ensures items.Some? && items.value != [] ==> !ShowEmptyState(items, total)
    ensures items == Some([]) && total.Some? && total.value != 0 ==> !ShowEmptyState(items, total)
    ensures items.None? ==> ShowEmptyState(items, total)
  {
  }

  predicate PagerShown(pageCount: int) { pageCount > 1 }
  predicate PrevDisabled(currentPage: int) { currentPage == 1 }
  predicate NextDisabled(currentPage: int, pageCount: int) { currentPage == pageCount }

  /** With the pager shown and the current page within range, an enabled arrow always
      requests a page within range, and at least one arrow is enabled. */
  lemma ArrowsStayInRange(currentPage: int, pageCount: int)
    requires PagerShown(pageCount) && 1 <= currentPage <= pageCount
    ensures !PrevDisabled(currentPage) ==> 1 <= currentPage - 1 <= pageCount
    ensures !NextDisabled(currentPage, pageCount) ==> 1 <= currentPage + 1 <= pageCount
    ensures !PrevDisabled(currentPage) || !NextDisabled(currentPage, pageCount)
  {
  }
}
