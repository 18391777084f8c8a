/** The page navigator under the catalog: at most five numbered buttons around
    the current page, a leading "1" and a trailing last-page button with ellipses
    when the window does not reach the ends, and previous / next buttons. */
module Pagination {
  import opened Common

  /** What the navigator shows. `visible` are the numbered buttons, in order. */
  datatype View = View(
    visible: seq<int>,
    prevDisabled: bool, prevTarget: int,
    firstButton: bool, startEllipsis: bool,
    endEllipsis: bool, lastButton: bool,
    nextDisabled: bool, nextTarget: int)

  /** `[1, 2, ..., n]`. */
  function Pages(n: nat): (r: seq<int>)
    ensures |r| == n && forall i :: 0 <= i < n ==> r[i] == i + 1
  {
    seq(n, i => i + 1)
  }

  const MaxButtons := 5

  function WindowStart(current: int): int { Max(1, current - 2) }
  function WindowEnd(current: int, total: int): int { Min(total, WindowStart(current) + 4) }

  function VisiblePages(current: int, total: nat): seq<int> {
    if total > MaxButtons then Slice(Pages(total), WindowStart(current) - 1, WindowEnd(current, total))
    else Pages(total)
  }

  /** The navigator, or `None` when there is at most one page. An empty window
      (a current page far past the last) shows neither end button, since the
      source then compares `undefined`. */
  function Navigator(current: int, total: nat): (r: Option<View>)
    ensures r.None? <==> total <= 1
    ensures r.Some? ==> (r.value.prevDisabled <==> current == 1) && (r.value.nextDisabled <==> current == total)
  {
    if total <= 1 then None
    else
      var v := VisiblePages(current, total);
      var first := if |v| > 0 then v[0] > 1 else false;
      var last := if |v| > 0 then v[|v| - 1] < total else false;
      Some(View(v,
        current == 1, current - 1,
        first, first && v[0] > 2,
        last && v[|v| - 1] < total - 1, last,
        current == total, current + 1))
  }

  // ---- lemmas ------------------------------------------------------------------------

  /** Up to five pages, all of them are buttons and neither end button appears. */
  lemma FewPages(current: int, total: nat)
    requires 2 <= total <= MaxButtons
    ensures var v := Navigator(current, total).value;
            && v.visible == Pages(total)
            && !v.firstButton && !v.startEllipsis && !v.lastButton && !v.endEllipsis
  {
  }

  /** With more than five pages and the current page in range, the buttons are the
      consecutive pages from `max(1, c - 2)` to `min(T, start + 4)`: at most five,
      the current one among them. */
  lemma Window(current: int, total: nat)
    requires total > MaxButtons && 1 <= current <= total
    ensures var v := Navigator(current, total).value.visible;
            var start := WindowStart(current);
            var end := WindowEnd(current, total);
            && |v| == end - start + 1 && 3 <= |v| <= MaxButtons
            && (forall i :: 0 <= i < |v| ==> v[i] == start + i)
            && current in v
  {
    var v := Navigator(current, total).value.visible;
    var start := WindowStart(current);
    assert v == Pages(total)[start - 1..WindowEnd(current, total)];
    assert v[current - start] == current;
  }

  /** Where the end buttons and ellipses appear, in terms of the current page. */
  lemma EndButtons(current: int, total: nat)
    requires total > MaxButtons && 1 <= current <= total
    ensures var v := Navigator(current, total).value;
            var end := WindowEnd(current, total);
            && (v.firstButton <==> current > 3)
            && (v.startEllipsis <==> current > 4)
            && (v.lastButton <==> end < total)
            && (v.endEllipsis <==> end < total - 1)
            && (v.firstButton <==> v.visible[0] > 1)
            && (v.lastButton <==> v.visible[|v.visible| - 1] < total)
  {
    Window(current, total);
  }

  /** A current page three or more past the last leaves no numbered button. */
  lemma EmptyWindow(current: int, total: nat)
    requires total > MaxButtons && current >= total + 3
    ensures var v := Navigator(current, total).value;
            v.visible == [] && !v.firstButton && !v.lastButton
  {
  }

  /** On a page within range, an enabled previous or next button leads to an
      existing page on its side of the current one, so neither can leave the range. */
  lemma PrevNext(current: int, total: nat)
    requires total > 1 && 1 <= current <= total
    ensures var v := Navigator(current, total).value;
            && (!v.prevDisabled ==> 1 <= v.prevTarget < current)
            && (!v.nextDisabled ==> current < v.nextTarget <= total)
  {
  }
}
