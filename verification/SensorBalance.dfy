/**
 Longest calibration block: prefix sums in a dictionary
 (content/scenario-drafts/sensor-balance/reference.py).
 */
module SensorBalance {

  ghost function Sum(s: seq<int>): int {
    if s == [] then 0 else Sum(s[..|s| - 1]) + s[|s| - 1]
  }

  /** `[start, end)` is a non-empty block whose adjustments add up to `target`. */
  ghost predicate IsBlock(adjustments: seq<int>, target: int, start: nat, end: nat) {
    start < end <= |adjustments| && Sum(adjustments[start..end]) == target
  }

  /** Longer is better; between equally long blocks the earlier start is. */
  ghost predicate NoWorse(start: int, end: int, otherStart: int, otherEnd: int) {
    || end - start > otherEnd - otherStart
    || (end - start == otherEnd - otherStart && start <= otherStart)
  }

  /** A block's sum is the difference of two running totals. */
  lemma {:induction false} SumOfBlock(s: seq<int>, start: nat, end: nat)
    requires start <= end <= |s|
    ensures Sum(s[start..end]) == Sum(s[..end]) - Sum(s[..start])
  {
    if start < end {
      SumOfBlock(s, start, end - 1);
      assert s[start..end][..end - start - 1] == s[start..end - 1];
      assert s[..end][..end - 1] == s[..end - 1];
    } else {
      assert s[start..end] == [];
    }
  }

  /** `first` maps each running total seen so far to the earliest position that has it. */
  ghost predicate RemembersFirst(adjustments: seq<int>, upTo: nat, first: map<int, nat>) {
    && upTo <= |adjustments|
    && (forall t :: t in first ==> first[t] <= upTo && Sum(adjustments[..first[t]]) == t)
    && (forall k: nat :: k <= upTo ==> Sum(adjustments[..k]) in first && first[Sum(adjustments[..k])] <= k)
  }

  ghost predicate IsBestUpTo(adjustments: seq<int>, target: int, upTo: nat, best: (int, int)) {
    && (best == (-1, -1) || (0 <= best.0 <= best.1 <= upTo && IsBlock(adjustments, target, best.0, best.1)))
    && (forall start: nat, end: nat :: end <= upTo && IsBlock(adjustments, target, start, end) ==>
          best != (-1, -1) && NoWorse(best.0, best.1, start, end))
  }

  method CalibrationBlock(adjustments: seq<int>, target: int) returns (best: (int, int))
    ensures best == (-1, -1) <==> !exists start: nat, end: nat :: IsBlock(adjustments, target, start, end)
    ensures best != (-1, -1) ==> best.0 >= 0 && best.1 >= 0 && IsBlock(adjustments, target, best.0, best.1)
    ensures forall start: nat, end: nat :: IsBlock(adjustments, target, start, end) ==>
      NoWorse(best.0, best.1, start, end)
  {
    var first: map<int, nat> := map[0 := 0];
    var total := 0;
    best := (-1, -1);
    var length := 0;
    assert Sum(adjustments[..0]) == 0;
    for end := 1 to |adjustments| + 1
      invariant total == Sum(adjustments[..end - 1])
      invariant RemembersFirst(adjustments, end - 1, first)
      invariant IsBestUpTo(adjustments, target, end - 1, best)
      invariant length == best.1 - best.0
    {
      ghost var bestBefore, firstBefore := best, first;
      total := total + adjustments[end - 1];
      assert adjustments[..end][..end - 1] == adjustments[..end - 1];
      if total - target in first {
        var start := first[total - target];
        SumOfBlock(adjustments, start, end);
        var size := end - start;
        if size > length || (size == length && size > 0 && start < best.0) {
          best, length := (start, end), size;
        }
      }
      NoBetterEndsHere(adjustments, target, end, first, bestBefore, best);
      if total !in first {
        first := first[total := end];
      }
      RememberOne(adjustments, end, firstBefore);
    }
  }

  /** Only a running total not seen before is recorded. */
  lemma RememberOne(adjustments: seq<int>, end: nat, first: map<int, nat>)
    requires 1 <= end <= |adjustments| && RemembersFirst(adjustments, end - 1, first)
    ensures var total := Sum(adjustments[..end]);
            RemembersFirst(adjustments, end, if total in first then first else first[total := end])
  {
  }

  /** Of all blocks ending at `end`, the remembered position gives the longest. */
  lemma NoBetterEndsHere(adjustments: seq<int>, target: int, end: nat, first: map<int, nat>,
                         before: (int, int), best: (int, int))
    requires 1 <= end <= |adjustments|
    requires RemembersFirst(adjustments, end - 1, first) && IsBestUpTo(adjustments, target, end - 1, before)
    requires var want := Sum(adjustments[..end]) - target;
             if want in first && end - first[want] > before.1 - before.0 then best == (first[want], end)
             else best == before
    ensures IsBestUpTo(adjustments, target, end, best)
  {
    var want := Sum(adjustments[..end]) - target;
    forall start: nat, e: nat | e <= end && IsBlock(adjustments, target, start, e)
      ensures best != (-1, -1) && NoWorse(best.0, best.1, start, e)
    {
      if e == end {
        SumOfBlock(adjustments, start, end);
        assert first[Sum(adjustments[..start])] <= start;
      }
    }
    if best != before {
      SumOfBlock(adjustments, first[want], end);
    }
  }
}
