/** The page window of the pagination bar: page 1, an optional left ellipsis, the pages around the
    current one, an optional right ellipsis and the last page. */
module Pagination {
  import opened Wrappers

  /** One button of the bar: a numbered page or the ellipsis "…". */
  datatype Entry = Page(n: int) | Ellipsis

  /** How many pages are shown on each side of the current one. */
  const Delta := 2

  function Max(a: int, b: int): int { if a < b then b else a }
  function Min(a: int, b: int): int { if a < b then a else b }

  /** The consecutive pages lo, lo + 1, ..., hi (empty when lo > hi). */
  function PageRun(lo: int, hi: int): (r: seq<Entry>)
    ensures |r| == if lo <= hi then hi - lo + 1 else 0
    ensures forall k :: 0 <= k < |r| ==> r[k] == Page(lo + k)
  {
    seq(if lo <= hi then hi - lo + 1 else 0, k => Page(lo + k))
  }

  predicate HasLeftEllipsis(current: int) { current - Delta > 2 }
  predicate HasRightEllipsis(current: int, total: int) { current + Delta < total - 1 }

  /** First page of the middle run. */
  function MidLow(current: int): int { Max(2, current - Delta) }
  /** Last page of the middle run. */
  function MidHigh(current: int, total: int): int { Min(total - 1, current + Delta) }

  /** The window `getVisiblePages(current, total)` returns. */
  function VisiblePages(current: int, total: int): seq<Entry>
  {
    [Page(1)]
    + (if HasLeftEllipsis(current) then [Ellipsis] else [])
    + PageRun(MidLow(current), MidHigh(current, total))
    + (if HasRightEllipsis(current, total) then [Ellipsis] else [])
    + (if total > 1 then [Page(total)] else [])
  }

  /** `getVisiblePages`: pushes page 1, the left ellipsis, the middle pages one by one, the right
      ellipsis and the last page onto `range`. */
  method GetVisiblePages(current: int, total: int) returns (range: seq<Entry>)
    ensures range == VisiblePages(current, total)
    ensures |range| <= 9
  {
    range := [Page(1)];
    if current - Delta > 2 {
      range := range + [Ellipsis];
    }
    ghost var prefix := range;
    var lo := Max(2, current - Delta);
    var i := lo;
    while i <= Min(total - 1, current + Delta)
      invariant lo <= i
      invariant i <= Max(lo, MidHigh(current, total) + 1)
      invariant range == prefix + PageRun(lo, i - 1)
      decreases MidHigh(current, total) - i + 1
    {
      assert PageRun(lo, i) == PageRun(lo, i - 1) + [Page(i)];
      range := range + [Page(i)];
      i := i + 1;
    }
    assert PageRun(lo, i - 1) == PageRun(MidLow(current), MidHigh(current, total));
    if current + Delta < total - 1 {
      range := range + [Ellipsis];
    }
    if total > 1 {
      range := range + [Page(total)];
    }
  }

  // --- Properties of the window, for 1 <= current <= total ---

  /** Where each part of the window sits: `left` is the index of the first middle page. */
  lemma Layout(current: int, total: int)
    requires 1 <= current <= total
    ensures var r := VisiblePages(current, total);
      var left := if HasLeftEllipsis(current) then 2 else 1;
      var mid := |PageRun(MidLow(current), MidHigh(current, total))|;
      var right := if HasRightEllipsis(current, total) then 1 else 0;
      && |r| == left + mid + right + (if total > 1 then 1 else 0)
      && r[0] == Page(1)
      && (HasLeftEllipsis(current) ==> r[1] == Ellipsis)
      && (forall i :: left <= i < left + mid ==> r[i] == Page(MidLow(current) + i - left))
      && (HasRightEllipsis(current, total) ==> r[left + mid] == Ellipsis)
      && (total > 1 ==> r[|r| - 1] == Page(total))
  {
  }

  /** The window opens with page 1; it closes with `total` when there is more than one page, and is
      exactly [1] when there is one. */
  lemma Ends(current: int, total: int)
    requires 1 <= current <= total
    ensures VisiblePages(current, total)[0] == Page(1)
    ensures total > 1 ==> VisiblePages(current, total)[|VisiblePages(current, total)| - 1] == Page(total)
    ensures total == 1 ==> VisiblePages(current, total) == [Page(1)]
  {
    Layout(current, total);
  }

  predicate StrictlyIncreasing(r: seq<Entry>)
  {
    forall i, j :: 0 <= i < j < |r| && r[i].Page? && r[j].Page? ==> r[i].n < r[j].n
  }

  predicate WithinBounds(r: seq<Entry>, total: int)
  {
    forall i :: 0 <= i < |r| && r[i].Page? ==> 1 <= r[i].n <= total
  }

  /** The numbered entries increase strictly and stay within 1..total. */
  lemma Sorted(current: int, total: int)
    requires 1 <= current <= total
    ensures StrictlyIncreasing(VisiblePages(current, total))
    ensures WithinBounds(VisiblePages(current, total), total)
  {
    var r := VisiblePages(current, total);
    Layout(current, total);
    var left := if HasLeftEllipsis(current) then 2 else 1;
    var mid := |PageRun(MidLow(current), MidHigh(current, total))|;
    // Every numbered entry's number is tied to its index by one of three rules.
    forall i | 0 <= i < |r| && r[i].Page?
      ensures (i == 0 && r[i].n == 1)
        || (left <= i < left + mid && r[i].n == MidLow(current) + i - left)
        || (i == |r| - 1 && total > 1 && r[i].n == total && i >= left + mid)
    {
    }
  }

  /** The current page appears, and only once. */
  lemma CurrentOnce(current: int, total: int)
    requires 1 <= current <= total
    ensures Page(current) in VisiblePages(current, total)
    ensures forall i, j ::
      (0 <= i < |VisiblePages(current, total)| && 0 <= j < |VisiblePages(current, total)|
      && VisiblePages(current, total)[i] == Page(current) && VisiblePages(current, total)[j] == Page(current)) ==> i == j
  {
    NeighboursShown(current, total);
    Sorted(current, total);
  }

  /** Every page within two of the current one, and within 1..total, is shown. */
  lemma NeighboursShown(current: int, total: int)
    requires 1 <= current <= total
    ensures forall p :: 1 <= p <= total && current - Delta <= p <= current + Delta ==>
      Page(p) in VisiblePages(current, total)
  {
    var r := VisiblePages(current, total);
    Layout(current, total);
    var left := if HasLeftEllipsis(current) then 2 else 1;
    forall p | 1 <= p <= total && current - Delta <= p <= current + Delta
      ensures Page(p) in r
    {
      if p == 1 {
        assert r[0] == Page(p);
      } else if p == total {
        assert r[|r| - 1] == Page(p);
      } else {
        assert r[left + (p - MidLow(current))] == Page(p);
      }
    }
  }

  /** The left ellipsis is shown exactly when current - 2 > 2 and the right one exactly when
      current + 2 < total - 1; no ellipsis appears anywhere else. */
  lemma EllipsisPlacement(current: int, total: int)
    requires 1 <= current <= total
    ensures var r := VisiblePages(current, total);
      && ((|r| >= 2) <==> total > 1)
      && (total > 1 ==> (r[1] == Ellipsis <==> HasLeftEllipsis(current)))
      && (total > 1 ==> (r[|r| - 2] == Ellipsis <==> HasRightEllipsis(current, total)))
      && (forall i :: 0 <= i < |r| && r[i] == Ellipsis ==>
            (i == 1 && HasLeftEllipsis(current)) || (i == |r| - 2 && HasRightEllipsis(current, total)))
  {
    Layout(current, total);
  }

  /** An ellipsis stands for at least one hidden page: its neighbours are pages at least two apart. */
  lemma EllipsisHidesPages(current: int, total: int)
    requires 1 <= current <= total
    ensures var r := VisiblePages(current, total);
      forall i :: 0 < i < |r| - 1 && r[i] == Ellipsis ==>
        r[i - 1].Page? && r[i + 1].Page? && r[i + 1].n - r[i - 1].n >= 2
  {
    var r := VisiblePages(current, total);
    Layout(current, total);
    EllipsisPlacement(current, total);
    var left := if HasLeftEllipsis(current) then 2 else 1;
    var mid := |PageRun(MidLow(current), MidHigh(current, total))|;
    forall i | 0 < i < |r| - 1 && r[i] == Ellipsis
      ensures r[i - 1].Page? && r[i + 1].Page? && r[i + 1].n - r[i - 1].n >= 2
    {
      if i == 1 && HasLeftEllipsis(current) {
        assert r[2] == Page(MidLow(current));
      } else {
        assert i == left + mid;
        assert r[i - 1] == Page(MidHigh(current, total));
      }
    }
  }

  /** Two neighbouring numbered entries are consecutive pages: nothing is hidden without an ellipsis. */
  lemma NoSilentGaps(current: int, total: int)
    requires 1 <= current <= total
    ensures var r := VisiblePages(current, total);
      forall i :: 0 <= i < |r| - 1 && r[i].Page? && r[i + 1].Page? ==> r[i + 1].n == r[i].n + 1
  {
    var r := VisiblePages(current, total);
    Layout(current, total);
    EllipsisPlacement(current, total);
    var left := if HasLeftEllipsis(current) then 2 else 1;
    var mid := |PageRun(MidLow(current), MidHigh(current, total))|;
    forall i | 0 <= i < |r| - 1 && r[i].Page? && r[i + 1].Page?
      ensures r[i + 1].n == r[i].n + 1
    {
      if i == 0 {
        assert !HasLeftEllipsis(current);
        if mid > 0 {
          assert r[1] == Page(MidLow(current));
        }
      } else if i + 1 < left + mid {
        assert r[i] == Page(MidLow(current) + i - left);
      } else {
        assert i + 1 == |r| - 1 && !HasRightEllipsis(current, total);
        assert r[i] == Page(MidHigh(current, total));
      }
    }
  }

  // --- Buttons ---

  /** The three looks a button can take. */
  datatype Style = Highlighted | Muted | Plain

  /** A button is disabled exactly when it is the ellipsis. */
  predicate Disabled(e: Entry) { e == Ellipsis }

  /** The page a click passes to `onPageChange`; an ellipsis click passes nothing. */
  function ClickTarget(e: Entry): (r: Option<int>)
    ensures r.Some? <==> e.Page?
    ensures r.Some? ==> r.value == e.n
    ensures r.None? ==> Disabled(e)
  {
    if e.Page? then Some(e.n) else None
  }

  /** The highlighted look goes to the current page, the muted one to the ellipsis. */
  function ButtonStyle(e: Entry, currentPage: int): (s: Style)
    ensures s == Highlighted <==> e == Page(currentPage)
    ensures s == Muted <==> e == Ellipsis
  {
    if e == Page(currentPage) then Highlighted else if e == Ellipsis then Muted else Plain
  }

  /** Exactly one button of the bar is highlighted. */
  lemma OneHighlighted(current: int, total: int)
    requires 1 <= current <= total
    ensures exists i :: (0 <= i < |VisiblePages(current, total)|
      && ButtonStyle(VisiblePages(current, total)[i], current) == Highlighted)
    ensures forall i, j ::
      (0 <= i < |VisiblePages(current, total)| && 0 <= j < |VisiblePages(current, total)|
      && ButtonStyle(VisiblePages(current, total)[i], current) == Highlighted
      && ButtonStyle(VisiblePages(current, total)[j], current) == Highlighted) ==> i == j
  {
    CurrentOnce(current, total);
  }
}
