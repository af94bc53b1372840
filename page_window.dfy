/** The row of page buttons under a paginated list (src/components/pagination.tsx, lines
    22-35): every page when there are at most seven, otherwise the first and last page, the
    current page with its neighbours, and an ellipsis for each skipped stretch. */
module PageWindow {
  import opened Results
  import Pagination

  const MaxFullList: int := 7

  /** One entry of the row: a page number or "...". */
  datatype Entry = PageLink(n: int) | Ellipsis

  /** The page links lo, lo + 1, ..., hi - 1, pushed one by one (empty when hi <= lo). */
  function Range(lo: int, hi: int): (r: seq<Entry>)
    ensures |r| == if hi <= lo then 0 else hi - lo
    ensures forall k :: 0 <= k < |r| ==> r[k] == PageLink(lo + k)
    decreases hi - lo
  {
    if hi <= lo then [] else Range(lo, hi - 1) + [PageLink(hi - 1)]
  }

  /** The first page of the middle stretch, `Math.max(2, page - 1)`. */
  function MiddleFrom(page: int): int {
    Pagination.Max(2, page - 1)
  }

  /** The last page of the middle stretch, `Math.min(totalPages - 1, page + 1)`. */
  function MiddleTo(page: int, totalPages: int): int {
    Pagination.Min(totalPages - 1, page + 1)
  }

  /** `pageNumbers`, or `None` when the component renders nothing (at most one page). */
  function Window(page: int, totalPages: int): (r: Option<seq<Entry>>)
    ensures r.None? <==> totalPages <= 1
    ensures r.Some? ==> |r.value| >= 2 && r.value[0] == PageLink(1) && r.value[|r.value| - 1] == PageLink(totalPages)
  {
    if totalPages <= 1 then None
    else if totalPages <= MaxFullList then Some(Range(1, totalPages + 1))
    else Some([PageLink(1)]
              + (if page > 3 then [Ellipsis] else [])
              + Range(MiddleFrom(page), MiddleTo(page, totalPages) + 1)
              + (if page < totalPages - 2 then [Ellipsis] else [])
              + [PageLink(totalPages)])
  }

  /** Page numbers lie in 1..totalPages and strictly increase along the row. */
  predicate NumbersIncreasing(w: seq<Entry>, totalPages: int) {
    && (forall k :: 0 <= k < |w| && w[k].PageLink? ==> 1 <= w[k].n <= totalPages)
    && (forall i, j :: 0 <= i < j < |w| && w[i].PageLink? && w[j].PageLink? ==> w[i].n < w[j].n)
  }

  /** Two page links side by side are consecutive pages, and an ellipsis sits between two page
      links that skip at least one page: no page goes missing without a mark. */
  predicate GapsMarked(w: seq<Entry>) {
    && (forall k :: 0 <= k < |w| - 1 && w[k].PageLink? && w[k + 1].PageLink? ==> w[k + 1].n == w[k].n + 1)
    && (forall k :: 0 <= k < |w| && w[k].Ellipsis? ==>
          0 < k < |w| - 1 && w[k - 1].PageLink? && w[k + 1].PageLink? && w[k - 1].n + 1 < w[k + 1].n)
  }

  /** Some entry links to page `p`. */
  predicate Shows(w: seq<Entry>, p: int) {
    exists k :: 0 <= k < |w| && w[k] == PageLink(p)
  }

  /** The row for at most seven pages is every page in order. */
  lemma SmallWindow(page: int, totalPages: int)
    requires 1 < totalPages <= MaxFullList
    ensures var w := Window(page, totalPages).value;
      |w| == totalPages && forall k :: 0 <= k < |w| ==> w[k] == PageLink(k + 1)
  {
  }

  /** Beyond seven pages the row begins with page 1 and ends with the last page, shows the
      current page's neighbourhood, and puts "..." after page 1 exactly when the page is past 3
      and before the last page exactly when the page is more than two before it. */
  lemma LargeWindow(page: int, totalPages: int)
    requires totalPages > MaxFullList
    ensures var w := Window(page, totalPages).value;
      && w[0] == PageLink(1) && w[|w| - 1] == PageLink(totalPages)
      && (1 <= page <= totalPages ==>
            (w[1] == Ellipsis <==> page > 3) && (w[|w| - 2] == Ellipsis <==> page < totalPages - 2))
      && (forall p :: MiddleFrom(page) <= p <= MiddleTo(page, totalPages) ==> Shows(w, p))
  {
    var w := Window(page, totalPages).value;
    var lo := MiddleFrom(page);
    var hi := MiddleTo(page, totalPages);
    var lead := if page > 3 then [Ellipsis] else [];
    var mid := Range(lo, hi + 1);
    var trail := if page < totalPages - 2 then [Ellipsis] else [];
    assert w == [PageLink(1)] + lead + mid + trail + [PageLink(totalPages)];
    WindowAt(page, totalPages);
    assert w[1] == LargeAt(page, totalPages, 1);
    assert w[|w| - 2] == LargeAt(page, totalPages, |w| - 2);
    forall p | lo <= p <= hi ensures Shows(w, p) {
      assert w[1 + |lead| + (p - lo)] == PageLink(p);
    }
  }

  /** The entry at each position of a row of more than seven pages, by position. */
  function LargeAt(page: int, totalPages: int, k: int): Entry {
    var lead := if page > 3 then 1 else 0;
    var lo := MiddleFrom(page);
    var midLen := if MiddleTo(page, totalPages) < lo then 0 else MiddleTo(page, totalPages) + 1 - lo;
    var trail := if page < totalPages - 2 then 1 else 0;
    if k == 0 then PageLink(1)
    else if k < 1 + lead then Ellipsis
    else if k < 1 + lead + midLen then PageLink(lo + k - 1 - lead)
    else if k < 1 + lead + midLen + trail then Ellipsis
    else PageLink(totalPages)
  }

  /** Each entry of a row of more than seven pages is the one `LargeAt` names. */
  lemma WindowAt(page: int, totalPages: int)
    requires totalPages > MaxFullList
    ensures var w := Window(page, totalPages).value;
      && |w| == 2 + (if page > 3 then 1 else 0) + (if page < totalPages - 2 then 1 else 0)
                  + (if MiddleTo(page, totalPages) < MiddleFrom(page) then 0
                     else MiddleTo(page, totalPages) + 1 - MiddleFrom(page))
      && forall k :: 0 <= k < |w| ==> w[k] == LargeAt(page, totalPages, k)
  {
    var lo := MiddleFrom(page);
    var hi := MiddleTo(page, totalPages);
    var lead := if page > 3 then [Ellipsis] else [];
    var mid := Range(lo, hi + 1);
    var trail := if page < totalPages - 2 then [Ellipsis] else [];
    var w := [PageLink(1)] + lead + mid + trail + [PageLink(totalPages)];
    assert Window(page, totalPages).value == w;
    forall k | 0 <= k < |w| ensures w[k] == LargeAt(page, totalPages, k) {
      if k == 0 {
      } else if k < 1 + |lead| {
        assert w[k] == lead[k - 1];
      } else if k < 1 + |lead| + |mid| {
        assert w[k] == mid[k - 1 - |lead|];
      } else if k < 1 + |lead| + |mid| + |trail| {
        assert w[k] == trail[k - 1 - |lead| - |mid|];
      }
    }
  }

  /** In a row of more than seven pages the numbers increase within 1..totalPages. */
  lemma LargeIncreasing(page: int, totalPages: int)
    requires totalPages > MaxFullList
    ensures NumbersIncreasing(Window(page, totalPages).value, totalPages)
  {
    WindowAt(page, totalPages);
  }

  /** In a row of more than seven pages every gap is marked. */
  lemma LargeGapsMarked(page: int, totalPages: int)
    requires totalPages > MaxFullList
    ensures GapsMarked(Window(page, totalPages).value)
  {
    WindowAt(page, totalPages);
  }

  /** Every row is in increasing page order with its gaps marked, holds at most seven entries,
      and shows the current page whenever that page exists. */
  lemma WindowWellFormed(page: int, totalPages: int)
    requires totalPages > 1
    ensures var w := Window(page, totalPages).value;
      && NumbersIncreasing(w, totalPages)
      && GapsMarked(w)
      && |w| <= MaxFullList
      && (1 <= page <= totalPages ==> Shows(w, page))
  {
    var w := Window(page, totalPages).value;
    if totalPages <= MaxFullList {
      SmallWindow(page, totalPages);
      if 1 <= page <= totalPages {
        assert w[page - 1] == PageLink(page);
      }
    } else {
      WindowAt(page, totalPages);
      LargeWindow(page, totalPages);
      LargeIncreasing(page, totalPages);
      LargeGapsMarked(page, totalPages);
      if page == 1 {
        assert w[0] == PageLink(1);
      } else if page == totalPages {
        assert w[|w| - 1] == PageLink(totalPages);
      }
    }
  }

  /** The row of the list page: its meta always carries a page in range, so for two or more
      pages the current page is among the buttons. */
  lemma CurrentPageShown(totalCount: nat, params: Pagination.PaginationParams)
    requires params.pageSize >= 1 && params.page >= 1
    ensures var m := Pagination.CalculatePaginationMeta(totalCount, params);
      m.totalPages > 1 ==> Shows(Window(m.page, m.totalPages).value, m.page)
  {
    var m := Pagination.CalculatePaginationMeta(totalCount, params);
    if m.totalPages > 1 {
      WindowWellFormed(m.page, m.totalPages);
    }
  }

  /** The loops that build `pageNumbers`. */
  method PageNumbers(page: int, totalPages: int) returns (r: Option<seq<Entry>>)
    ensures r == Window(page, totalPages)
    ensures r.None? <==> totalPages <= 1
  {
    if totalPages <= 1 {
      return None;
    }
    var pageNumbers: seq<Entry> := [];
    if totalPages <= 7 {
      var i := 1;
      while i <= totalPages
        invariant 1 <= i <= totalPages + 1
        invariant pageNumbers == Range(1, i)
      {
        pageNumbers := pageNumbers + [PageLink(i)];
        i := i + 1;
      }
    } else {
      pageNumbers := pageNumbers + [PageLink(1)];
      if page > 3 {
        pageNumbers := pageNumbers + [Ellipsis];
      }
      ghost var before := pageNumbers;
      assert before == [PageLink(1)] + (if page > 3 then [Ellipsis] else []);
      var lo := Pagination.Max(2, page - 1);
      var hi := Pagination.Min(totalPages - 1, page + 1);
      var i := lo;
      while i <= hi
        invariant lo <= i && (i <= hi + 1 || i == lo)
        invariant pageNumbers == before + Range(lo, i)
      {
        pageNumbers := pageNumbers + [PageLink(i)];
        i := i + 1;
      }
      assert pageNumbers == before + Range(lo, hi + 1);
      ghost var trail: seq<Entry> := [];
      if page < totalPages - 2 {
        pageNumbers := pageNumbers + [Ellipsis];
        trail := [Ellipsis];
      }
      pageNumbers := pageNumbers + [PageLink(totalPages)];
      assert pageNumbers == before + Range(lo, hi + 1) + trail + [PageLink(totalPages)];
    }
    return Some(pageNumbers);
  }
}
