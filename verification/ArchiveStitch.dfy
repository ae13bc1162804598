/**
 Fewest labels that stitch a message together: a forward segmentation table
 (content/scenario-drafts/archive-stitch/reference.py).
 */
module ArchiveStitch {

  ghost function Concat(words: seq<string>): string {
    if words == [] then "" else Concat(words[..|words| - 1]) + words[|words| - 1]
  }

  /** `words` are labels, with reuse, whose concatenation is `text`. */
  ghost predicate Stitches(words: seq<string>, labels: set<string>, text: string) {
    (forall i :: 0 <= i < |words| ==> words[i] in labels) && Concat(words) == text
  }

  predicate StartsWith(message: string, piece: string, index: nat)
    requires index <= |message|
  {
    index + |piece| <= |message| && message[index..index + |piece|] == piece
  }

  /** `text` can be stitched from exactly `count` labels. */
  ghost predicate Reachable(labels: set<string>, text: string, count: nat) {
    exists words :: |words| == count && Stitches(words, labels, text)
  }

  /** Every finite entry is reached by that many labels; `n + 1` stands for "not reached". */
  ghost predicate EntriesAreReached(message: string, labels: set<string>, table: seq<nat>) {
    && |table| == |message| + 1
    && (forall e :: 0 <= e <= |message| ==> table[e] <= |message| + 1)
    && (forall e :: 0 <= e <= |message| && table[e] != |message| + 1 ==> Reachable(labels, message[..e], table[e]))
  }

  /** No label starting at `index` offers its end anything better than what the table has. */
  ghost predicate Settled(message: string, piece: string, table: seq<nat>, index: nat)
    requires |table| == |message| + 1 && index <= |message|
  {
    StartsWith(message, piece, index) ==> table[index + |piece|] <= table[index] + 1
  }

  ghost predicate SettledAt(message: string, labels: set<string>, table: seq<nat>, index: nat)
    requires |table| == |message| + 1 && index <= |message|
  {
    forall piece :: piece in labels ==> Settled(message, piece, table, index)
  }

  ghost predicate SettledBelow(message: string, labels: set<string>, table: seq<nat>, bound: nat)
    requires |table| == |message| + 1 && bound <= |message|
  {
    forall index :: 0 <= index < bound ==> SettledAt(message, labels, table, index)
  }

  /** A settled table is a lower bound for every stitching of every prefix. */
  lemma {:induction false} NoShorterStitching(message: string, labels: set<string>, table: seq<nat>, words: seq<string>, e: nat)
    requires |table| == |message| + 1 && table[0] == 0
    requires SettledBelow(message, labels, table, |message|)
    requires e <= |message| && Stitches(words, labels, message[..e])
    ensures table[e] <= |words|
  {
    if words != [] {
      var init, piece := words[..|words| - 1], words[|words| - 1];
      var index := e - |piece|;
      assert Concat(init) == Concat(words)[..index];
      assert message[..e][..index] == message[..index];
      assert message[index..e] == piece by {
        assert message[..e][index..] == message[index..e];
      }
      NoShorterStitching(message, labels, table, init, index);
      if index < |message| {
        assert SettledAt(message, labels, table, index) && Settled(message, piece, table, index);
      }
    }
  }

  /** Labels that are empty never help, so a stitching needs no more labels than it has characters. */
  lemma {:induction false} AtMostOneLabelPerCharacter(labels: set<string>, words: seq<string>, text: string) returns (fewer: seq<string>)
    requires Stitches(words, labels, text)
    ensures Stitches(fewer, labels, text) && |fewer| <= |text|
  {
    if words == [] {
      fewer := [];
    } else {
      var init, piece := words[..|words| - 1], words[|words| - 1];
      fewer := AtMostOneLabelPerCharacter(labels, init, Concat(init));
      if piece != "" {
        assert (fewer + [piece])[..|fewer|] == fewer;
        fewer := fewer + [piece];
      } else {
        assert Concat(init) + piece == Concat(init);
      }
    }
  }

  /** Appending a label that matches at `index` stitches the longer prefix. */
  lemma AppendLabel(message: string, labels: set<string>, words: seq<string>, index: nat, piece: string)
    requires index <= |message| && StartsWith(message, piece, index)
    requires piece in labels && Stitches(words, labels, message[..index])
    ensures Stitches(words + [piece], labels, message[..index + |piece|])
  {
    assert (words + [piece])[..|words|] == words;
    assert message[..index + |piece|] == message[..index] + message[index..index + |piece|];
  }

  function Unique(labels: seq<string>): set<string> {
    set l | l in labels
  }

  method MinimumLabels(message: string, labels: seq<string>) returns (result: int)
    ensures result >= 0 ==> Reachable(Unique(labels), message, result)
    ensures result >= 0 ==> forall words :: Stitches(words, Unique(labels), message) ==> result <= |words|
    ensures result < 0 ==> result == -1 && forall count :: !Reachable(Unique(labels), message, count)
  {
    var unique := Unique(labels);
    var n := |message|;
    var dp := new nat[n + 1](_ => n + 1);
    dp[0] := 0;
    assert Stitches([], unique, message[..0]);
    for index := 0 to n
      invariant dp[0] == 0
      invariant EntriesAreReached(message, unique, dp[..])
      invariant SettledBelow(message, unique, dp[..], index)
    {
      if dp[index] != n + 1 {
        RelaxAll(message, unique, dp, index);
      }
      ghost var table := dp[..];
      assert table[index] == dp[index] && table[0] == dp[0];
      OneMoreSettled(message, unique, table, index);
    }
    assert dp[..][n] == dp[n] && dp[..][0] == dp[0];
    SettledTableIsExact(message, unique, dp[..]);
    return if dp[n] == n + 1 then -1 else dp[n];
  }

  /** An index from which nothing was reached is settled as it is. */
  lemma OneMoreSettled(message: string, labels: set<string>, table: seq<nat>, index: nat)
    requires EntriesAreReached(message, labels, table) && index < |message|
    requires SettledBelow(message, labels, table, index)
    requires table[index] == |message| + 1 || SettledAt(message, labels, table, index)
    ensures SettledBelow(message, labels, table, index + 1)
  {
  }

  lemma SettledTableIsExact(message: string, labels: set<string>, table: seq<nat>)
    requires EntriesAreReached(message, labels, table) && table[0] == 0
    requires SettledBelow(message, labels, table, |message|)
    ensures table[|message|] != |message| + 1 ==> Reachable(labels, message, table[|message|])
    ensures table[|message|] == |message| + 1 ==> forall count :: !Reachable(labels, message, count)
    ensures forall words :: Stitches(words, labels, message) ==> table[|message|] <= |words|
  {
    assert message[..|message|] == message;
    forall words | Stitches(words, labels, message)
      ensures table[|message|] <= |message| && table[|message|] <= |words|
    {
      var fewer := AtMostOneLabelPerCharacter(labels, words, message);
      NoShorterStitching(message, labels, table, fewer, |message|);
      NoShorterStitching(message, labels, table, words, |message|);
    }
  }

  /** One column of the table: tries every label at `index`, in whatever order the set yields them. */
  method RelaxAll(message: string, unique: set<string>, dp: array<nat>, index: nat)
    requires dp.Length == |message| + 1 && index < |message| && dp[index] != |message| + 1
    requires EntriesAreReached(message, unique, dp[..]) && SettledBelow(message, unique, dp[..], index)
    modifies dp
    ensures EntriesAreReached(message, unique, dp[..]) && SettledBelow(message, unique, dp[..], index)
    ensures SettledAt(message, unique, dp[..], index)
    ensures forall i :: 0 <= i <= index ==> dp[i] == old(dp[i])
  {
    var rest := unique;
    while rest != {}
      invariant rest <= unique
      invariant EntriesAreReached(message, unique, dp[..]) && SettledBelow(message, unique, dp[..], index)
      invariant SettledAt(message, unique - rest, dp[..], index)
      invariant forall i :: 0 <= i <= index ==> dp[i] == old(dp[i])
      decreases rest
    {
      var piece :| piece in rest;
      ghost var table := dp[..];
      if StartsWith(message, piece, index) {
        var end := index + |piece|;
        dp[end] := if dp[end] <= dp[index] + 1 then dp[end] else dp[index] + 1;
        assert dp[..] == table[end := dp[end]];
        ReachedByLabel(message, unique, table, index, piece, dp[end]);
        StaysSettled(message, unique, unique - rest, table, index, end, dp[end]);
      }
      assert unique - (rest - {piece}) == unique - rest + {piece};
      rest := rest - {piece};
    }
    assert unique - rest == unique;
  }

  lemma ReachedByLabel(message: string, labels: set<string>, table: seq<nat>, index: nat, piece: string, value: nat)
    requires EntriesAreReached(message, labels, table) && index < |message| && table[index] != |message| + 1
    requires piece in labels && StartsWith(message, piece, index)
    requires value == table[index + |piece|] || (value == table[index] + 1 && value <= table[index + |piece|])
    ensures EntriesAreReached(message, labels, table[index + |piece| := value])
  {
    var words :| |words| == table[index] && Stitches(words, labels, message[..index]);
    AppendLabel(message, labels, words, index, piece);
    assert |words + [piece]| == table[index] + 1;
  }

  /** Lowering an entry at or after `index` unsettles nothing that was settled. */
  lemma StaysSettled(message: string, labels: set<string>, tried: set<string>, table: seq<nat>,
                     index: nat, end: nat, value: nat)
    requires |table| == |message| + 1 && index <= end <= |message|
    requires value <= table[end] && (end == index ==> value == table[end])
    requires SettledBelow(message, labels, table, index) && SettledAt(message, tried, table, index)
    ensures SettledBelow(message, labels, table[end := value], index)
    ensures SettledAt(message, tried, table[end := value], index)
  {
    var lowered := table[end := value];
    forall i | 0 <= i < index
      ensures SettledAt(message, labels, lowered, i)
    {
      assert SettledAt(message, labels, table, i);
    }
  }
}
