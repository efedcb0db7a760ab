/**
 * The page selector (src/components/Pagination/Pagination.tsx): the list
 * of page buttons around the current page, with -1 and -2 standing for
 * the ellipses, the guard that renders nothing for a single page, and the
 * previous/next buttons.
 */
module Pagination {
  import opened Common

  /** The integers a, a+1, ..., b (empty when b < a). */
  function Range(a: int, b: int): (r: seq<int>)
    ensures |r| == if b < a then 0 else b - a + 1
    ensures forall k :: 0 <= k < |r| ==> r[k] == a + k
    decreases b - a
  {
    if b < a then [] else Range(a, b - 1) + [b]
  }

  const ELIPSIS_INICIO := -1
  const ELIPSIS_FIN := -2

  function Start(current: int): int
  {
    Max(1, current - 1)
  }

  function End(current: int, total: int): int
  {
    Min(total - 2, current + 1)
  }

  /** The entries getPageNumbers produces: page 0, an ellipsis when the
      window starts after page 1, the window around the current page, an
      ellipsis when the window ends before the second-to-last page, and the
      last page when there is more than one. */
  function PageWindow(current: int, total: int): seq<int>
  {
    var start, end := Start(current), End(current, total);
    [0]
    + (if start > 1 then [ELIPSIS_INICIO] else [])
    + Range(start, end)
    + (if end < total - 2 then [ELIPSIS_FIN] else [])
    + (if total > 1 then [total - 1] else [])
  }

  /** getPageNumbers, built by pushing onto a list as the component does. */
  method GetPageNumbers(current: int, total: int) returns (pages: seq<int>)
    ensures pages == PageWindow(current, total)
  {
    var start := Max(1, current - 1);
    var end := Min(total - 2, current + 1);
    pages := [0];
    if start > 1 {
      pages := pages + [ELIPSIS_INICIO];
    }
    pages := PushRange(pages, start, end);
    if end < total - 2 {
      pages := pages + [ELIPSIS_FIN];
    }
    if total > 1 {
      pages := pages + [total - 1];
    }
  }

  /** The loop `for (let i = start; i <= end; i++) pages.push(i)`. */
  method PushRange(pages: seq<int>, start: int, end: int) returns (out: seq<int>)
    ensures out == pages + Range(start, end)
  {
    out := pages;
    var i := start;
    while i <= end
      invariant start <= i <= Max(start, end + 1)
      invariant out == pages + Range(start, i - 1)
      decreases end - i
    {
      assert Range(start, i) == Range(start, i - 1) + [i];
      out := out + [i];
      i := i + 1;
    }
  }

  /** The first entry is always page 0, and with more than one page the
      last entry is the last page. */
  lemma FirstAndLast(current: int, total: int)
    ensures PageWindow(current, total)[0] == 0
    ensures total > 1 ==> PageWindow(current, total)[|PageWindow(current, total)| - 1] == total - 1
  {
  }

  /** The window never has more than seven entries. */
  lemma AtMostSeven(current: int, total: int)
    ensures |PageWindow(current, total)| <= 7
  {
    assert |Range(Start(current), End(current, total))| <= 3;
  }

  /** The current page, when it exists, has a button. */
  lemma ContainsCurrent(current: int, total: int)
    requires 0 <= current < total
    ensures current in PageWindow(current, total)
  {
    var w := PageWindow(current, total);
    var start, end := Start(current), End(current, total);
    var head := [0] + (if start > 1 then [ELIPSIS_INICIO] else []);
    if current == 0 {
      assert w[0] == 0;
    } else if current == total - 1 {
      assert w[|w| - 1] == total - 1;
    } else {
      assert start <= current <= end;
      var r := Range(start, end);
      assert r[current - start] == current;
      assert w[|head| + (current - start)] == current;
    }
  }

  /** Page entries are strictly increasing and lie in [0, total - 1]. */
  lemma PagesIncreasingAndInRange(current: int, total: int)
    requires 0 <= current < total
    ensures var w := PageWindow(current, total);
      forall i :: 0 <= i < |w| && w[i] >= 0 ==> w[i] <= total - 1
    ensures var w := PageWindow(current, total);
      forall i, j :: 0 <= i < j < |w| && w[i] >= 0 && w[j] >= 0 ==> w[i] < w[j]
  {
    var w := PageWindow(current, total);
    var start, end := Start(current), End(current, total);
    var head := [0] + (if start > 1 then [ELIPSIS_INICIO] else []);
    var r := Range(start, end);
    var mark := if end < total - 2 then [ELIPSIS_FIN] else [];
    var last := if total > 1 then [total - 1] else [];
    assert w == head + r + mark + last;
    // The position of an entry tells which part of the window it comes from.
    forall i | 0 <= i < |w|
      ensures (i == 0 && w[i] == 0)
              || (0 < i < |head| && w[i] < 0)
              || (|head| <= i < |head| + |r| && w[i] == start + (i - |head|) && 1 <= w[i] <= total - 2)
              || (|head| + |r| <= i < |head| + |r| + |mark| && w[i] < 0)
              || (|head| + |r| + |mark| <= i && w[i] == total - 1 && total > 1)
    {
      if i < |head| {
        assert w[i] == head[i];
      } else if i < |head| + |r| {
        assert w[i] == r[i - |head|];
      } else if i < |head| + |r| + |mark| {
        assert w[i] == mark[i - |head| - |r|];
      } else {
        assert w[i] == last[i - |head| - |r| - |mark|];
      }
    }
  }

  /** Ellipsis markers appear exactly when the window leaves a gap. */
  lemma Markers(current: int, total: int)
    ensures ELIPSIS_INICIO in PageWindow(current, total) <==> Start(current) > 1
    ensures ELIPSIS_FIN in PageWindow(current, total) <==> End(current, total) < total - 2
  {
    var w := PageWindow(current, total);
    var start, end := Start(current), End(current, total);
    var head := [0] + (if start > 1 then [ELIPSIS_INICIO] else []);
    var r := Range(start, end);
    var mark := if end < total - 2 then [ELIPSIS_FIN] else [];
    var last := if total > 1 then [total - 1] else [];
    assert w == head + r + mark + last;
    assert forall x :: x in r ==> x >= 1;
    assert ELIPSIS_INICIO in w <==> ELIPSIS_INICIO in head;
    assert ELIPSIS_FIN in w <==> ELIPSIS_FIN in mark;
  }

  /** What the component renders: nothing for a single page; otherwise the
      previous button, the page entries and the next button. Each button
      carries whether it is disabled and the page it requests. */
  datatype Vista = Vista(
    prevDisabled: bool, prevTarget: int,
    pages: seq<int>,
    nextDisabled: bool, nextTarget: int)

  function Render(current: int, total: int): (v: Option<Vista>)
    ensures v.None? <==> total <= 1
    ensures v.Some? ==> v.value.pages == PageWindow(current, total)
  {
    if total <= 1 then None
    else Some(Vista(current == 0, current - 1, PageWindow(current, total),
                    current == total - 1, current + 1))
  }

  /** An enabled previous or next button requests an existing page. */
  lemma ButtonsStayInRange(current: int, total: int)
    requires 0 <= current < total
    ensures var v := Render(current, total);
      v.Some? ==>
        && (v.value.prevDisabled <==> current == 0)
        && (!v.value.prevDisabled ==> 0 <= v.value.prevTarget < total)
        && (v.value.nextDisabled <==> current == total - 1)
        && (!v.value.nextDisabled ==> 0 <= v.value.nextTarget < total)
  {
  }
}
