/**
 Least packing capacity: binary search over a greedy check
 (content/scenario-drafts/packing-capacity/reference.py).
 */
module PackingCapacity {

  ghost function Sum(weights: seq<nat>): nat {
    if weights == [] then 0 else weights[0] + Sum(weights[1..])
  }

  ghost function Concat(groups: seq<seq<nat>>): seq<nat> {
    if groups == [] then [] else groups[0] + Concat(groups[1..])
  }

  /** `groups` splits the weights, in order, into at most `days` runs that each fit. */
  ghost predicate IsPlan(weights: seq<nat>, days: nat, capacity: int, groups: seq<seq<nat>>) {
    && Concat(groups) == weights
    && |groups| <= days
    && (forall i :: 0 <= i < |groups| ==> Sum(groups[i]) <= capacity)
  }

  ghost predicate Fits(weights: seq<nat>, days: nat, capacity: int) {
    exists groups :: IsPlan(weights, days, capacity, groups)
  }

  // ----- The greedy check -----

  /** How many more groups the greedy opens when the current one already holds `load`. */
  ghost function Opened(load: nat, weights: seq<nat>, capacity: int): nat
    decreases |weights|
  {
    if weights == [] then 0
    else if load + weights[0] > capacity then 1 + Opened(weights[0], weights[1..], capacity)
    else Opened(load + weights[0], weights[1..], capacity)
  }

  /** More load never opens fewer groups, and any two loads differ by at most one group. */
  lemma {:induction false} LoadMatters(load: nat, other: nat, weights: seq<nat>, capacity: int)
    ensures load <= other ==> Opened(load, weights, capacity) <= Opened(other, weights, capacity)
    ensures Opened(load, weights, capacity) <= 1 + Opened(other, weights, capacity)
    decreases |weights|
  {
    if weights != [] {
      var w, rest := weights[0], weights[1..];
      LoadMatters(load + w, other + w, rest, capacity);
      LoadMatters(load + w, w, rest, capacity);
      LoadMatters(w, other + w, rest, capacity);
    }
  }

  /** Weights that fit on top of the load open nothing. */
  lemma {:induction false} FillsUp(load: nat, group: seq<nat>, rest: seq<nat>, capacity: int)
    requires load + Sum(group) <= capacity
    ensures Opened(load, group + rest, capacity) == Opened(load + Sum(group), rest, capacity)
    decreases |group|
  {
    if group == [] {
      assert group + rest == rest;
    } else {
      assert (group + rest)[1..] == group[1..] + rest;
      FillsUp(load + group[0], group[1..], rest, capacity);
    }
  }

  /** No plan uses fewer groups than the greedy does. */
  lemma {:induction false} GreedyIsOptimal(groups: seq<seq<nat>>, capacity: int)
    requires groups != [] && forall i :: 0 <= i < |groups| ==> Sum(groups[i]) <= capacity
    ensures 1 + Opened(0, Concat(groups), capacity) <= |groups|
  {
    var rest := groups[1..];
    FillsUp(0, groups[0], Concat(rest), capacity);
    LoadMatters(Sum(groups[0]), 0, Concat(rest), capacity);
    if rest != [] {
      GreedyIsOptimal(rest, capacity);
    }
  }

  lemma {:induction false} SumSplits(a: seq<nat>, b: seq<nat>)
    ensures Sum(a + b) == Sum(a) + Sum(b)
  {
    if a == [] {
      assert a + b == b;
    } else {
      assert (a + b)[1..] == a[1..] + b;
      SumSplits(a[1..], b);
    }
  }

  /** The groups the greedy makes: they hold `current + weights`, and each fits. */
  lemma {:induction false} GreedyPlan(current: seq<nat>, weights: seq<nat>, capacity: int) returns (groups: seq<seq<nat>>)
    requires Sum(current) <= capacity && forall i :: 0 <= i < |weights| ==> weights[i] <= capacity
    ensures Concat(groups) == current + weights
    ensures |groups| == 1 + Opened(Sum(current), weights, capacity)
    ensures forall i :: 0 <= i < |groups| ==> Sum(groups[i]) <= capacity
    decreases |weights|
  {
    if weights == [] {
      groups := [current];
    } else {
      var w, rest := weights[0], weights[1..];
      assert w in weights && weights == [w] + rest;
      if Sum(current) + w > capacity {
        assert Sum([w]) == w;
        groups := GreedyPlan([w], rest, capacity);
        groups := [current] + groups;
      } else {
        SumSplits(current, [w]);
        assert Sum([w]) == w;
        groups := GreedyPlan(current + [w], rest, capacity);
        assert current + [w] + rest == current + weights;
      }
    }
  }

  /** For a capacity no single weight exceeds, the greedy count decides whether it is enough. */
  lemma GreedyDecides(weights: seq<nat>, days: nat, capacity: int)
    requires weights != [] && forall w :: w in weights ==> w <= capacity
    ensures 1 + Opened(0, weights, capacity) <= days <==> Fits(weights, days, capacity)
  {
    assert Sum([]) == 0 <= weights[0] && weights[0] in weights;
    forall i | 0 <= i < |weights| ensures weights[i] <= capacity {
      assert weights[i] in weights;
    }
    var greedy := GreedyPlan([], weights, capacity);
    assert [] + weights == weights;
    if 1 + Opened(0, weights, capacity) <= days {
      assert IsPlan(weights, days, capacity, greedy);
    }
    if Fits(weights, days, capacity) {
      var groups :| IsPlan(weights, days, capacity, groups);
      assert Concat([]) != weights;
      GreedyIsOptimal(groups, capacity);
    }
  }

  // ----- The search interval -----

  /** A capacity that is enough stays enough when raised. */
  lemma Monotone(weights: seq<nat>, days: nat, small: int, large: int)
    requires small <= large && Fits(weights, days, small)
    ensures Fits(weights, days, large)
  {
    var groups :| IsPlan(weights, days, small, groups);
    assert IsPlan(weights, days, large, groups);
  }

  lemma {:induction false} PartOfSum(s: seq<nat>, x: nat)
    requires x in s
    ensures x <= Sum(s)
  {
    if x != s[0] {
      PartOfSum(s[1..], x);
    }
  }

  lemma {:induction false} PartOfGroup(groups: seq<seq<nat>>, x: nat)
    requires x in Concat(groups)
    ensures exists i :: 0 <= i < |groups| && x in groups[i]
  {
    if x !in groups[0] {
      PartOfGroup(groups[1..], x);
      var i :| 0 <= i < |groups[1..]| && x in groups[1..][i];
      assert x in groups[i + 1];
    }
  }

  lemma NothingBelowTheHeaviest(weights: seq<nat>, days: nat, capacity: int, heaviest: nat)
    requires heaviest in weights && capacity < heaviest
    ensures !Fits(weights, days, capacity)
  {
    if Fits(weights, days, capacity) {
      var groups :| IsPlan(weights, days, capacity, groups);
      PartOfGroup(groups, heaviest);
      var i :| 0 <= i < |groups| && heaviest in groups[i];
      PartOfSum(groups[i], heaviest);
    }
  }

  method MaxAndSum(weights: seq<nat>) returns (heaviest: nat, total: nat)
    requires weights != []
    ensures heaviest in weights && forall w :: w in weights ==> w <= heaviest
    ensures total == Sum(weights)
  {
    heaviest, total := weights[0], 0;
    for i := 0 to |weights|
      invariant heaviest in weights && forall w :: w in weights[..i] ==> w <= heaviest
      invariant total + Sum(weights[i..]) == Sum(weights)
    {
      assert weights[..i + 1] == weights[..i] + [weights[i]];
      assert weights[i..][1..] == weights[i + 1..];
      if weights[i] > heaviest { heaviest := weights[i]; }
      total := total + weights[i];
    }
    assert weights[..|weights|] == weights;
  }

  lemma NothingBelow(weights: seq<nat>, days: nat, capacity: int)
    requires !Fits(weights, days, capacity)
    ensures forall c :: c <= capacity ==> !Fits(weights, days, c)
  {
    forall c | c <= capacity ensures !Fits(weights, days, c) {
      if Fits(weights, days, c) { Monotone(weights, days, c, capacity); }
    }
  }

  /** The greedy pass: a weight that does not fit any more opens the next group. */
  method GroupsUsed(weights: seq<nat>, capacity: int) returns (used: nat)
    ensures used == 1 + Opened(0, weights, capacity)
  {
    var load := 0;
    used := 1;
    for i := 0 to |weights|
      invariant load >= 0
      invariant used + Opened(load, weights[i..], capacity) == 1 + Opened(0, weights, capacity)
    {
      assert weights[i..][1..] == weights[i + 1..];
      if load + weights[i] > capacity {
        used, load := used + 1, 0;
      }
      load := load + weights[i];
    }
  }

  /** The least capacity with which the packages, in order, leave within `days` days. */
  method MinimumCapacity(weights: seq<nat>, days: nat) returns (capacity: nat)
    requires days >= 1
    ensures Fits(weights, days, capacity)
    ensures forall c: nat :: c < capacity ==> !Fits(weights, days, c)
  {
    if weights == [] {
      assert IsPlan(weights, days, 0, []);
      return 0;
    }
    var low, high := MaxAndSum(weights);
    ghost var heaviest := low;
    forall c | c < low ensures !Fits(weights, days, c) {
      NothingBelowTheHeaviest(weights, days, c, heaviest);
    }
    assert Concat([weights]) == weights;
    assert IsPlan(weights, days, high, [weights]);
    PartOfSum(weights, low);
    while low < high
      invariant heaviest <= low <= high
      invariant Fits(weights, days, high)
      invariant forall c :: c < low ==> !Fits(weights, days, c)
    {
      var middle := (low + high) / 2;
      var used := GroupsUsed(weights, middle);
      GreedyDecides(weights, days, middle);
      if used <= days {
        high := middle;
      } else {
        NothingBelow(weights, days, middle);
        low := middle + 1;
      }
    }
    capacity := low;
  }
}
