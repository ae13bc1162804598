/**
 Word accuracy of a transcript: longest common subsequence over two rolling rows
 (apps/api/scripts/live-transcription-probe.ts, `accuracy`). The words are given; how a
 text is cut into lower-case words is not part of this model.
 */
module Accuracy {

  import opened Reals

  type Word = string

  /** `part` can be read off `whole` from left to right, skipping words. */
  ghost predicate IsSubsequence(part: seq<Word>, whole: seq<Word>)
    decreases |whole|
  {
    if part == [] then true
    else if whole == [] then false
    else
      || IsSubsequence(part, Init(whole))
      || (Last(part) == Last(whole) && IsSubsequence(Init(part), Init(whole)))
  }

  ghost predicate IsCommon(part: seq<Word>, a: seq<Word>, b: seq<Word>) {
    IsSubsequence(part, a) && IsSubsequence(part, b)
  }

  ghost function Init(s: seq<Word>): seq<Word>
    requires s != []
  {
    s[..|s| - 1]
  }

  ghost function Last(s: seq<Word>): Word
    requires s != []
  {
    s[|s| - 1]
  }

  /** The recurrence the rows compute. */
  ghost function Table(a: seq<Word>, b: seq<Word>): nat
    decreases |a| + |b|
  {
    if a == [] || b == [] then 0
    else if Last(a) == Last(b) then Table(Init(a), Init(b)) + 1
    else if Table(Init(a), b) >= Table(a, Init(b)) then Table(Init(a), b) else Table(a, Init(b))
  }

  lemma {:induction false} Longer(part: seq<Word>, whole: seq<Word>)
    requires IsSubsequence(part, whole)
    ensures |part| <= |whole|
    decreases |whole|
  {
    if part != [] {
      if IsSubsequence(part, Init(whole)) {
        Longer(part, Init(whole));
      } else {
        Longer(Init(part), Init(whole));
      }
    }
  }

  /** Dropping the last word of a subsequence leaves a subsequence. */
  lemma {:induction false} Shorten(part: seq<Word>, whole: seq<Word>)
    requires part != [] && IsSubsequence(part, whole)
    ensures IsSubsequence(Init(part), Init(whole)) && IsSubsequence(Init(part), whole)
    decreases |whole|
  {
    if IsSubsequence(part, Init(whole)) {
      Shorten(part, Init(whole));
    }
  }

  /** No common subsequence is longer than the table says. */
  lemma {:induction false} TableIsUpperBound(a: seq<Word>, b: seq<Word>, part: seq<Word>)
    requires IsCommon(part, a, b)
    ensures |part| <= Table(a, b)
    decreases |a| + |b|
  {
    if part != [] {
      if Last(a) == Last(b) {
        Shorten(part, a);
        Shorten(part, b);
        TableIsUpperBound(Init(a), Init(b), Init(part));
      } else if IsSubsequence(part, Init(a)) {
        TableIsUpperBound(Init(a), b, part);
      } else {
        TableIsUpperBound(a, Init(b), part);
      }
    }
  }

  /** Some common subsequence is as long as the table says. */
  lemma {:induction false} TableIsReached(a: seq<Word>, b: seq<Word>) returns (part: seq<Word>)
    ensures IsCommon(part, a, b) && |part| == Table(a, b)
    decreases |a| + |b|
  {
    if a == [] || b == [] {
      part := [];
    } else if Last(a) == Last(b) {
      var shorter := TableIsReached(Init(a), Init(b));
      part := shorter + [Last(a)];
      assert Init(part) == shorter;
    } else if Table(Init(a), b) >= Table(a, Init(b)) {
      part := TableIsReached(Init(a), b);
    } else {
      part := TableIsReached(a, Init(b));
    }
  }

  lemma {:induction false} SubsequenceOfItself(a: seq<Word>)
    ensures IsSubsequence(a, a)
  {
    if a != [] {
      SubsequenceOfItself(Init(a));
    }
  }

  /** The table reaches the full length exactly for subsequences. */
  lemma FullLengthMeansSubsequence(a: seq<Word>, b: seq<Word>)
    ensures Table(a, b) <= |a|
    ensures Table(a, b) == |a| <==> IsSubsequence(a, b)
  {
    var part := TableIsReached(a, b);
    Longer(part, a);
    if Table(a, b) == |a| {
      SameLengthIsSame(part, a);
    }
    if IsSubsequence(a, b) {
      SubsequenceOfItself(a);
      TableIsUpperBound(a, b, a);
    }
  }

  lemma {:induction false} SameLengthIsSame(part: seq<Word>, whole: seq<Word>)
    requires IsSubsequence(part, whole) && |part| == |whole|
    ensures part == whole
    decreases |whole|
  {
    if part != [] {
      if IsSubsequence(part, Init(whole)) {
        Longer(part, Init(whole));
      } else {
        SameLengthIsSame(Init(part), Init(whole));
        assert part == Init(part) + [Last(part)] && whole == Init(whole) + [Last(whole)];
      }
    }
  }

  /** One row from the one before it. */
  method NextRow(a: seq<Word>, i: nat, b: seq<Word>, prior: array<nat>) returns (next: array<nat>)
    requires i < |a| && prior.Length == |b| + 1
    requires forall j :: 0 <= j <= |b| ==> prior[j] == Table(a[..i], b[..j])
    ensures fresh(next) && next.Length == |b| + 1
    ensures forall j :: 0 <= j <= |b| ==> next[j] == Table(a[..i + 1], b[..j])
  {
    next := new nat[|b| + 1](_ => 0);
    assert Init(a[..i + 1]) == a[..i];
    for j := 1 to |b| + 1
      invariant forall k :: 0 <= k < j ==> next[k] == Table(a[..i + 1], b[..k])
      invariant forall k :: 0 <= k <= |b| ==> prior[k] == Table(a[..i], b[..k])
    {
      assert Init(b[..j]) == b[..j - 1];
      next[j] := if a[i] == b[j - 1] then prior[j - 1] + 1
                 else if prior[j] >= next[j - 1] then prior[j] else next[j - 1];
    }
  }

  /** Two rolling rows, one per expected word. */
  method Rows(a: seq<Word>, b: seq<Word>) returns (length: nat)
    ensures length == Table(a, b)
  {
    var prior := new nat[|b| + 1](_ => 0);
    for i := 0 to |a|
      invariant prior.Length == |b| + 1
      invariant forall j :: 0 <= j <= |b| ==> prior[j] == Table(a[..i], b[..j])
    {
      prior := NextRow(a, i, b, prior);
    }
    assert a[..|a|] == a && b[..|b|] == b;
    length := prior[|b|];
  }

  ghost function ShareOf(length: nat, whole: nat): real
    requires whole > 0
  {
    length as real / whole as real
  }

  /** The share of the expected words that survives, in order, in the actual ones. */
  method Ratio(a: seq<Word>, b: seq<Word>) returns (ratio: real)
    ensures 0.0 <= ratio <= 1.0
    ensures a == [] ==> ratio == 0.0
    ensures a != [] ==> (ratio == 1.0 <==> IsSubsequence(a, b))
    ensures a != [] ==> exists part :: IsCommon(part, a, b) && ratio == ShareOf(|part|, |a|)
    ensures a != [] ==> forall part :: IsCommon(part, a, b) ==> ShareOf(|part|, |a|) <= ratio
  {
    if |a| == 0 {
      return 0.0;
    }
    var length := Rows(a, b);
    ratio := length as real / |a| as real;
    ghost var best := TableIsReached(a, b);
    assert ratio == ShareOf(|best|, |a|);
    FullLengthMeansSubsequence(a, b);
    forall part | IsCommon(part, a, b) ensures ShareOf(|part|, |a|) <= ratio {
      TableIsUpperBound(a, b, part);
      Share(|part|, length, |a|);
    }
    Share(0, length, |a|);
    Share(length, |a|, |a|);
  }

  lemma Share(small: nat, large: nat, whole: nat)
    requires small <= large && whole > 0
    ensures ShareOf(small, whole) <= ShareOf(large, whole)
    ensures ShareOf(small, whole) == 1.0 <==> small == whole
    ensures ShareOf(0, whole) == 0.0 && ShareOf(whole, whole) == 1.0
  {
    var w := whole as real;
    DivLess(large as real, small as real, w);
    DivAtLeast(small as real, w, 1.0);
    DivAtLeast(w, w, 1.0);
  }
}
