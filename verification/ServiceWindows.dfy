/**
 Merging service windows: the union of half-open integer intervals
 (content/scenario-drafts/service-windows/reference.py).

 `MergeWindows` returns the one sorted, strictly separated list that covers exactly what
 the input covers; that list is unique, so input order does not matter and merging twice
 changes nothing.
 */
module ServiceWindows {

  type Window = (int, int)

  ghost predicate Covers(windows: seq<Window>, x: int) {
    exists w :: w in windows && w.0 <= x < w.1
  }

  ghost predicate SameCoverage(a: seq<Window>, b: seq<Window>) {
    forall x :: Covers(a, x) <==> Covers(b, x)
  }

  /** Non-empty windows in order, with a gap between neighbours. */
  ghost predicate IsCanonical(windows: seq<Window>) {
    && (forall i :: 0 <= i < |windows| ==> windows[i].0 < windows[i].1)
    && (forall i, j :: 0 <= i < j < |windows| ==> windows[i].1 < windows[j].0)
  }

  ghost predicate IsMergeOf(windows: seq<Window>, result: seq<Window>) {
    IsCanonical(result) && SameCoverage(windows, result)
  }

  // ----- Uniqueness -----

  /** A canonical list starts at its least covered point and stops right before the next uncovered one. */
  lemma FirstWindow(windows: seq<Window>)
    requires IsCanonical(windows) && windows != []
    ensures Covers(windows, windows[0].0)
    ensures forall x :: windows[0].0 <= x < windows[0].1 ==> Covers(windows, x)
    ensures forall x :: x < windows[0].0 ==> !Covers(windows, x)
    ensures !Covers(windows, windows[0].1)
    ensures forall x :: Covers(windows[1..], x) <==> Covers(windows, x) && x > windows[0].1
  {
    assert windows[0] in windows;
    assert windows == [windows[0]] + windows[1..];
  }

  lemma {:induction false} CanonicalIsUnique(a: seq<Window>, b: seq<Window>)
    requires IsCanonical(a) && IsCanonical(b) && SameCoverage(a, b)
    ensures a == b
  {
    if a != [] { FirstWindow(a); }
    if b != [] { FirstWindow(b); }
    if a != [] && b != [] {
      CanonicalIsUnique(a[1..], b[1..]);
    }
  }

  /** Reordering, duplicating or re-cutting the input cannot change the answer. */
  lemma ResultDependsOnCoverageOnly(windows: seq<Window>, others: seq<Window>, result: seq<Window>, other: seq<Window>)
    requires SameCoverage(windows, others)
    requires IsMergeOf(windows, result) && IsMergeOf(others, other)
    ensures result == other
  {
    CanonicalIsUnique(result, other);
  }

  lemma OrderDoesNotMatter(windows: seq<Window>, others: seq<Window>, result: seq<Window>, other: seq<Window>)
    requires multiset(windows) == multiset(others)
    requires IsMergeOf(windows, result) && IsMergeOf(others, other)
    ensures result == other
  {
    forall w ensures w in windows <==> w in others {
      assert w in windows <==> w in multiset(windows);
      assert w in others <==> w in multiset(others);
    }
    ResultDependsOnCoverageOnly(windows, others, result, other);
  }

  lemma MergingAgainChangesNothing(windows: seq<Window>, result: seq<Window>, again: seq<Window>)
    requires IsMergeOf(windows, result) && IsMergeOf(result, again)
    ensures again == result
  {
    CanonicalIsUnique(again, result);
  }

  // ----- The algorithm -----

  predicate TupleLe(a: Window, b: Window) {
    a.0 < b.0 || (a.0 == b.0 && a.1 <= b.1)
  }

  ghost predicate IsSorted(windows: seq<Window>) {
    forall i, j :: 0 <= i < j < |windows| ==> TupleLe(windows[i], windows[j])
  }

  lemma InsertSorted(sorted: seq<Window>, w: Window, k: nat)
    requires IsSorted(sorted) && k <= |sorted|
    requires forall j :: 0 <= j < k ==> TupleLe(sorted[j], w)
    requires forall j :: k <= j < |sorted| ==> TupleLe(w, sorted[j])
    ensures IsSorted(sorted[..k] + [w] + sorted[k..])
    ensures forall v :: v in sorted[..k] + [w] + sorted[k..] <==> v in sorted || v == w
  {
    assert sorted == sorted[..k] + sorted[k..];
  }

  /** Puts one window in its place. */
  method Insert(sorted: seq<Window>, w: Window) returns (longer: seq<Window>)
    requires IsSorted(sorted)
    ensures IsSorted(longer) && forall v :: v in longer <==> v in sorted || v == w
  {
    var k := |sorted|;
    while k > 0 && TupleLe(w, sorted[k - 1])
      invariant 0 <= k <= |sorted|
      invariant forall j :: k <= j < |sorted| ==> TupleLe(w, sorted[j])
    {
      k := k - 1;
    }
    InsertSorted(sorted, w, k);
    longer := sorted[..k] + [w] + sorted[k..];
  }

  /** The language's `sorted` over the windows that are not empty, by insertion. */
  method SortedNonEmpty(windows: seq<Window>) returns (sorted: seq<Window>)
    ensures IsSorted(sorted)
    ensures forall w :: w in sorted <==> w in windows && w.0 < w.1
  {
    sorted := [];
    for i := 0 to |windows|
      invariant IsSorted(sorted)
      invariant forall w :: w in sorted <==> w in windows[..i] && w.0 < w.1
    {
      assert windows[..i + 1] == windows[..i] + [windows[i]];
      if windows[i].0 < windows[i].1 {
        sorted := Insert(sorted, windows[i]);
      }
    }
    assert windows[..|windows|] == windows;
  }

  function Max(a: int, b: int): int {
    if a < b then b else a
  }

  /** Stretching the last window over one that starts inside or right after it. */
  lemma Stretch(init: seq<Window>, last: Window, w: Window)
    requires IsCanonical(init + [last]) && last.0 <= w.0 <= last.1 && w.0 < w.1
    ensures IsCanonical(init + [(last.0, Max(last.1, w.1))])
    ensures SameCoverage(init + [(last.0, Max(last.1, w.1))], init + [last] + [w])
  {
    var merged := (last.0, Max(last.1, w.1));
    forall x ensures Covers(init + [merged], x) <==> Covers(init + [last] + [w], x) {
      CoversSplit(init, [merged], x);
      CoversSplit(init, [last], x);
      CoversSplit(init + [last], [w], x);
      CoversOne(merged, x);
      CoversOne(last, x);
      CoversOne(w, x);
    }
    CanonicalEnd(init, last);
    CanonicalEnd(init, merged);
  }

  lemma CanonicalEnd(init: seq<Window>, last: Window)
    ensures IsCanonical(init + [last]) <==>
      IsCanonical(init) && last.0 < last.1 && forall i :: 0 <= i < |init| ==> init[i].1 < last.0
  {
    var all := init + [last];
    assert all[|init|] == last && forall i :: 0 <= i < |init| ==> all[i] == init[i];
  }

  lemma CoversOne(w: Window, x: int)
    ensures Covers([w], x) <==> w.0 <= x < w.1
  {
    assert w in [w];
  }

  lemma CoversSplit(a: seq<Window>, b: seq<Window>, x: int)
    ensures Covers(a + b, x) <==> Covers(a, x) || Covers(b, x)
  {
    if Covers(a, x) {
      var w :| w in a && w.0 <= x < w.1;
      assert w in a + b;
    }
    if Covers(b, x) {
      var w :| w in b && w.0 <= x < w.1;
      assert w in a + b;
    }
  }

  lemma CoverageGrows(a: seq<Window>, b: seq<Window>, w: Window)
    requires SameCoverage(a, b)
    ensures SameCoverage(a + [w], b + [w])
  {
    forall x ensures Covers(a + [w], x) <==> Covers(b + [w], x) {
      CoversSplit(a, [w], x);
      CoversSplit(b, [w], x);
    }
  }

  method MergeWindows(windows: seq<Window>) returns (result: seq<Window>)
    ensures IsMergeOf(windows, result)
  {
    var sorted := SortedNonEmpty(windows);
    result := [];
    for i := 0 to |sorted|
      invariant IsCanonical(result)
      invariant SameCoverage(sorted[..i], result)
      invariant result != [] && i < |sorted| ==> result[|result| - 1].0 <= sorted[i].0
    {
      var w := sorted[i];
      assert w in sorted && sorted[..i + 1] == sorted[..i] + [w];
      ghost var before := result;
      if |result| > 0 && w.0 <= result[|result| - 1].1 {
        var last := result[|result| - 1];
        result := result[|result| - 1 := (last.0, Max(last.1, w.1))];
        assert before == before[..|before| - 1] + [last];
        assert result == before[..|before| - 1] + [(last.0, Max(last.1, w.1))];
        Stretch(before[..|before| - 1], last, w);
      } else {
        result := result + [w];
        CanonicalEnd(before, w);
      }
      CoverageGrows(sorted[..i], before, w);
    }
    assert sorted[..|sorted|] == sorted;
    assert SameCoverage(windows, sorted);
  }
}
