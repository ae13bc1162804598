/**
 Job ordering: Kahn's algorithm over a min-heap
 (content/scenario-drafts/batch-prerequisites/reference.py).

 `JobOrder` is proved to return the lexicographically smallest order that respects every
 prerequisite, and an empty list exactly when there is a dependency cycle.
 */
module JobOrder {

  type Pairs = set<(nat, nat)>

  ghost predicate InRange(count: nat, pairs: Pairs) {
    forall p :: p in pairs ==> p.0 < count && p.1 < count
  }

  // ----- What an answer has to be -----

  ghost predicate Distinct(s: seq<nat>) {
    forall i, j :: 0 <= i < j < |s| ==> s[i] != s[j]
  }

  ghost predicate IsPermutation(count: nat, order: seq<nat>) {
    && |order| == count
    && (forall i :: 0 <= i < |order| ==> order[i] < count)
    && Distinct(order)
  }

  /** Wherever both jobs of a pair occur, the first occurs strictly earlier (never so for a self-loop). */
  ghost predicate Respects(order: seq<nat>, pairs: Pairs) {
    forall i, j :: 0 <= i < |order| && 0 <= j < |order| && (order[i], order[j]) in pairs ==> i < j
  }

  ghost predicate ValidOrder(count: nat, pairs: Pairs, order: seq<nat>) {
    IsPermutation(count, order) && Respects(order, pairs)
  }

  ghost predicate DivergesBelow(a: seq<nat>, b: seq<nat>, k: nat) {
    k < |a| && k < |b| && a[..k] == b[..k] && a[k] < b[k]
  }

  /** Lexicographic order: `a` is a prefix of `b`, or smaller at the first difference. */
  ghost predicate LexLe(a: seq<nat>, b: seq<nat>) {
    a <= b || exists k: nat :: DivergesBelow(a, b, k)
  }

  /** A closed walk: each job must precede the next one, and the last must precede the first. */
  ghost predicate IsCycle(pairs: Pairs, cycle: seq<nat>) {
    && |cycle| > 0
    && (forall i :: 0 <= i < |cycle| - 1 ==> (cycle[i], cycle[i + 1]) in pairs)
    && (cycle[|cycle| - 1], cycle[0]) in pairs
  }

  // ----- Counting -----

  ghost function Elements(s: seq<nat>): set<nat> {
    set x | x in s
  }

  lemma {:induction false} DistinctSize(s: seq<nat>)
    requires Distinct(s)
    ensures |Elements(s)| == |s|
  {
    if s != [] {
      var last := |s| - 1;
      DistinctSize(s[..last]);
      assert Elements(s) == Elements(s[..last]) + {s[last]};
    }
  }

  lemma {:induction false} BoundedSize(s: set<nat>, n: nat)
    requires forall x :: x in s ==> x < n
    ensures |s| <= n
    ensures |s| == n ==> forall x :: 0 <= x < n ==> x in s
  {
    if n > 0 {
      BoundedSize(s - {n - 1}, n - 1);
      if n - 1 in s {
        assert |s - {n - 1}| == |s| - 1;
      } else {
        assert s - {n - 1} == s;
      }
    }
  }

  lemma PermutationIsOnto(count: nat, order: seq<nat>, x: nat)
    requires IsPermutation(count, order) && x < count
    ensures x in order
  {
    DistinctSize(order);
    BoundedSize(Elements(order), count);
    assert x in Elements(order);
  }

  // ----- The state of the algorithm -----

  /** The distinct prerequisites of `job` that have not been done yet. */
  ghost function Waiting(pairs: Pairs, done: set<nat>, job: nat): Pairs {
    set p | p in pairs && p.1 == job && p.0 !in done
  }

  ghost predicate IsReady(count: nat, pairs: Pairs, done: set<nat>, job: nat) {
    job < count && job !in done && Waiting(pairs, done, job) == {}
  }

  /** The heap holds each ready job exactly once. */
  ghost predicate HeapHoldsReady(count: nat, pairs: Pairs, done: set<nat>, heap: multiset<nat>) {
    forall j: nat :: heap[j] == if IsReady(count, pairs, done, j) then 1 else 0
  }

  ghost predicate CountsWaiting(pairs: Pairs, done: set<nat>, incoming: seq<int>) {
    forall j :: 0 <= j < |incoming| ==> incoming[j] == |Waiting(pairs, done, j)|
  }

  /** A legal beginning: distinct jobs, each after all of its prerequisites. */
  ghost predicate IsBeginning(count: nat, pairs: Pairs, order: seq<nat>) {
    && (forall i :: 0 <= i < |order| ==> order[i] < count)
    && Distinct(order)
    && (forall k, p :: 0 <= k < |order| && p in pairs && p.1 == order[k] ==> p.0 in order[..k])
  }

  /** No valid order is lexicographically below `order`. */
  ghost predicate LeadsAll(count: nat, pairs: Pairs, order: seq<nat>) {
    forall s :: ValidOrder(count, pairs, s) ==> LexLe(order, s)
  }

  ghost predicate Lists(pairs: Pairs, outgoing: seq<seq<nat>>) {
    && (forall p :: p in pairs ==> p.0 < |outgoing|)
    && (forall a, b :: 0 <= a < |outgoing| ==> (b in outgoing[a] <==> (a, b) in pairs))
    && (forall a :: 0 <= a < |outgoing| ==> Distinct(outgoing[a]))
  }

  // ----- Greedy choice -----

  /** The job a valid order puts right after the common beginning is in the heap. */
  lemma NextIsReady(count: nat, pairs: Pairs, s: seq<nat>, k: nat, done: set<nat>)
    requires InRange(count, pairs) && ValidOrder(count, pairs, s)
    requires k < |s| && s[k] !in done && Elements(s[..k]) <= done
    ensures IsReady(count, pairs, done, s[k])
  {
    forall p | p in pairs && p.1 == s[k]
      ensures p.0 in done
    {
      PermutationIsOnto(count, s, p.0);
      var i :| 0 <= i < |s| && s[i] == p.0;
      assert (s[i], s[k]) == p;
      assert s[i] == s[..k][i];
      assert p.0 in Elements(s[..k]);
    }
  }

  lemma SmallestReadyLeads(count: nat, pairs: Pairs, order: seq<nat>, job: nat, s: seq<nat>)
    requires InRange(count, pairs) && IsBeginning(count, pairs, order)
    requires IsReady(count, pairs, Elements(order), job)
    requires forall x :: IsReady(count, pairs, Elements(order), x) ==> job <= x
    requires ValidOrder(count, pairs, s) && LexLe(order, s)
    ensures LexLe(order + [job], s)
  {
    var longer := order + [job];
    if order <= s {
      if |order| == |s| {
        PermutationIsOnto(count, s, job);
        assert false;
      }
      var next := s[|order|];
      assert s[..|order|] == order;
      NextIsReady(count, pairs, s, |order|, Elements(order));
      if job == next {
        assert longer == s[..|order| + 1];
      } else {
        assert longer[..|order|] == s[..|order|];
        assert DivergesBelow(longer, s, |order|);
      }
    } else {
      var k: nat :| DivergesBelow(order, s, k);
      assert longer[..k] == order[..k];
      assert DivergesBelow(longer, s, k);
    }
  }

  lemma BeginningGrows(count: nat, pairs: Pairs, order: seq<nat>, job: nat)
    requires IsBeginning(count, pairs, order) && IsReady(count, pairs, Elements(order), job)
    ensures IsBeginning(count, pairs, order + [job])
  {
    var longer := order + [job];
    forall k, p | 0 <= k < |longer| && p in pairs && p.1 == longer[k]
      ensures p.0 in longer[..k]
    {
      if k < |order| {
        assert longer[..k] == order[..k];
      } else {
        assert longer[..k] == order;
        assert p !in Waiting(pairs, Elements(order), job);
      }
    }
  }

  lemma FullBeginningIsValid(count: nat, pairs: Pairs, order: seq<nat>)
    requires IsBeginning(count, pairs, order) && |order| == count
    ensures ValidOrder(count, pairs, order)
  {
    forall i, j | 0 <= i < |order| && 0 <= j < |order| && (order[i], order[j]) in pairs
      ensures i < j
    {
      assert (order[i], order[j]).1 == order[j];
      assert order[i] in order[..j];
    }
  }

  /** When the heap runs dry early, no valid order exists. */
  lemma StuckMeansImpossible(count: nat, pairs: Pairs, order: seq<nat>, s: seq<nat>)
    requires InRange(count, pairs) && IsBeginning(count, pairs, order) && |order| < count
    requires forall x :: !IsReady(count, pairs, Elements(order), x)
    ensures !ValidOrder(count, pairs, s)
  {
    if ValidOrder(count, pairs, s) {
      var k := 0;
      while k < |s| && s[k] in order
        invariant k <= |s|
        invariant Elements(s[..k]) <= Elements(order)
      {
        assert s[..k + 1] == s[..k] + [s[k]];
        k := k + 1;
      }
      if k == |s| {
        assert s[..k] == s;
        DistinctSize(s);
        DistinctSize(order);
        SubsetSize(Elements(s), Elements(order));
        assert false;
      }
      NextIsReady(count, pairs, s, k, Elements(order));
    }
  }

  lemma {:induction false} SubsetSize(a: set<nat>, b: set<nat>)
    requires a <= b
    ensures |a| <= |b|
  {
    if a != {} {
      var x :| x in a;
      SubsetSize(a - {x}, b - {x});
    }
  }

  // ----- Cycles -----

  /** A cycle rules out every valid order: along it some step does not go forward. */
  lemma CycleMeansImpossible(count: nat, pairs: Pairs, cycle: seq<nat>, s: seq<nat>)
    requires InRange(count, pairs) && IsCycle(pairs, cycle)
    ensures !ValidOrder(count, pairs, s)
  {
    if IsPermutation(count, s) {
      var first := PositionOf(count, pairs, cycle, s, 0);
      var at, i := first, 0;
      while i < |cycle| - 1
        invariant 0 <= i < |cycle| && first <= at < |s| && s[at] == cycle[i]
      {
        var next := PositionOf(count, pairs, cycle, s, i + 1);
        assert (s[at], s[next]) in pairs;
        if next <= at { return; }
        at, i := next, i + 1;
      }
      assert (s[at], s[first]) in pairs;
    }
  }

  lemma PositionOf(count: nat, pairs: Pairs, cycle: seq<nat>, s: seq<nat>, i: nat) returns (at: nat)
    requires InRange(count, pairs) && IsCycle(pairs, cycle) && IsPermutation(count, s) && i < |cycle|
    ensures at < |s| && s[at] == cycle[i]
  {
    var p := if i < |cycle| - 1 then (cycle[i], cycle[i + 1]) else (cycle[i], cycle[0]);
    assert p in pairs;
    PermutationIsOnto(count, s, cycle[i]);
    at :| 0 <= at < |s| && s[at] == cycle[i];
  }

  /** Jobs that all wait on one another: walking back along prerequisites never leaves the set. */
  ghost predicate IsKnot(pairs: Pairs, knot: set<nat>) {
    && knot != {}
    && (forall j {:trigger Holding(pairs, knot, j)} :: j in knot ==> Holding(pairs, knot, j) != {})
  }

  ghost function Holding(pairs: Pairs, knot: set<nat>, job: nat): Pairs {
    set p | p in pairs && p.1 == job && p.0 in knot
  }

  ghost predicate IsWalk(pairs: Pairs, knot: set<nat>, walk: seq<nat>) {
    && |walk| > 0
    && Elements(walk) <= knot
    && (forall i :: 0 <= i < |walk| - 1 ==> (walk[i], walk[i + 1]) in pairs)
  }

  lemma WalkGrows(pairs: Pairs, knot: set<nat>, walk: seq<nat>, before: nat)
    requires IsWalk(pairs, knot, walk) && Distinct(walk)
    requires before in knot && before !in walk && (before, walk[0]) in pairs
    ensures IsWalk(pairs, knot, [before] + walk) && Distinct([before] + walk)
  {
    assert Elements([before] + walk) == Elements(walk) + {before};
  }

  lemma WalkCloses(pairs: Pairs, knot: set<nat>, walk: seq<nat>, k: nat)
    requires IsWalk(pairs, knot, walk) && k < |walk| && (walk[k], walk[0]) in pairs
    ensures IsCycle(pairs, walk[..k + 1])
  {
  }

  /** Walk back through a knot until a job repeats; the stretch between is a cycle. */
  lemma {:induction false} KnotHasCycle(pairs: Pairs, knot: set<nat>, walk: seq<nat>) returns (cycle: seq<nat>)
    requires IsKnot(pairs, knot) && IsWalk(pairs, knot, walk) && Distinct(walk)
    ensures IsCycle(pairs, cycle)
    decreases |knot| - |walk|
  {
    assert walk[0] in Elements(walk);
    assert Holding(pairs, knot, walk[0]) != {};
    var p :| p in Holding(pairs, knot, walk[0]);
    if p.0 in walk {
      var k :| 0 <= k < |walk| && walk[k] == p.0;
      cycle := walk[..k + 1];
      WalkCloses(pairs, knot, walk, k);
    } else {
      WalkGrows(pairs, knot, walk, p.0);
      DistinctSize([p.0] + walk);
      SubsetSize(Elements([p.0] + walk), knot);
      cycle := KnotHasCycle(pairs, knot, [p.0] + walk);
    }
  }

  /** The jobs left over when the heap runs dry contain a cycle. */
  lemma StuckMeansCycle(count: nat, pairs: Pairs, order: seq<nat>)
    requires InRange(count, pairs) && IsBeginning(count, pairs, order) && |order| < count
    requires forall x :: !IsReady(count, pairs, Elements(order), x)
    ensures exists cycle :: IsCycle(pairs, cycle)
  {
    var done := Elements(order);
    var knot := set x: nat | 0 <= x < count && x !in done;
    DistinctSize(order);
    if forall x: nat :: x < count ==> x in done {
      RangeSize(done, count);
      assert false;
    }
    var start: nat :| start < count && start !in done;
    assert start in knot;
    forall j | j in knot
      ensures Holding(pairs, knot, j) != {}
    {
      assert !IsReady(count, pairs, done, j);
      var p :| p in Waiting(pairs, done, j);
      assert p in Holding(pairs, knot, j);
    }
    assert Elements([start]) == {start};
    var cycle := KnotHasCycle(pairs, knot, [start]);
  }

  lemma {:induction false} RangeSize(s: set<nat>, n: nat)
    requires forall x: nat :: x < n ==> x in s
    ensures |s| >= n
  {
    if n > 0 {
      RangeSize(s - {n - 1}, n - 1);
    }
  }

  // ----- The algorithm -----

  /** The priority queue's pop: removes one copy of the least element. */
  method HeapPop(heap: multiset<nat>) returns (least: nat, rest: multiset<nat>)
    requires |heap| > 0
    ensures least in heap && rest == heap - multiset{least}
    ensures forall x :: x in heap ==> least <= x
  {
    least :| least in heap;
    var unseen := heap - multiset{least};
    while |unseen| > 0
      invariant least in heap && unseen <= heap
      invariant forall x :: x in heap ==> x in unseen || least <= x
      decreases |unseen|
    {
      var x :| x in unseen;
      if x < least { least := x; }
      unseen := unseen - multiset{x};
    }
    rest := heap - multiset{least};
  }

  /** Fills the successor lists and the counts of prerequisites, one distinct pair at a time. */
  method CountPrerequisites(count: nat, pairs: Pairs) returns (outgoing: array<seq<nat>>, incoming: array<int>)
    requires InRange(count, pairs)
    ensures fresh(outgoing) && fresh(incoming) && outgoing.Length == incoming.Length == count
    ensures Lists(pairs, outgoing[..])
    ensures CountsWaiting(pairs, {}, incoming[..])
  {
    outgoing := new seq<nat>[count](_ => []);
    incoming := new int[count](_ => 0);
    var rest := pairs;
    while rest != {}
      invariant rest <= pairs
      invariant Lists(pairs - rest, outgoing[..])
      invariant CountsWaiting(pairs - rest, {}, incoming[..])
      decreases rest
    {
      var p :| p in rest;
      ghost var before := pairs - rest;
      ghost var outgoingBefore, incomingBefore := outgoing[..], incoming[..];
      outgoing[p.0] := outgoing[p.0] + [p.1];
      incoming[p.1] := incoming[p.1] + 1;
      rest := rest - {p};
      assert pairs - rest == before + {p};
      assert outgoing[..] == outgoingBefore[p.0 := outgoingBefore[p.0] + [p.1]];
      assert incoming[..] == incomingBefore[p.1 := incomingBefore[p.1] + 1];
      PairListed(before, p, outgoingBefore);
      PairCounted(before, p, incomingBefore);
    }
    assert pairs - rest == pairs;
  }

  lemma PairListed(pairs: Pairs, p: (nat, nat), outgoing: seq<seq<nat>>)
    requires p !in pairs && p.0 < |outgoing| && Lists(pairs, outgoing)
    ensures Lists(pairs + {p}, outgoing[p.0 := outgoing[p.0] + [p.1]])
  {
    var outgoing' := outgoing[p.0 := outgoing[p.0] + [p.1]];
    forall a, b | 0 <= a < |outgoing'|
      ensures b in outgoing'[a] <==> (a, b) in pairs + {p}
    {
      assert b in outgoing[a] <==> (a, b) in pairs;
      assert (a, b) == p <==> a == p.0 && b == p.1;
    }
    assert p.1 !in outgoing[p.0] by { assert (p.0, p.1) == p; }
  }

  lemma PairCounted(pairs: Pairs, p: (nat, nat), incoming: seq<int>)
    requires p !in pairs && p.1 < |incoming| && CountsWaiting(pairs, {}, incoming)
    ensures CountsWaiting(pairs + {p}, {}, incoming[p.1 := incoming[p.1] + 1])
  {
    var incoming' := incoming[p.1 := incoming[p.1] + 1];
    forall j | 0 <= j < |incoming'|
      ensures incoming'[j] == |Waiting(pairs + {p}, {}, j)|
    {
      assert Waiting(pairs + {p}, {}, j) == Waiting(pairs, {}, j) + if j == p.1 then {p} else {};
    }
  }

  /** What `job`'s completion changes: exactly its successors wait for one thing less. */
  lemma WaitingShrinks(count: nat, pairs: Pairs, done: set<nat>, job: nat, j: nat)
    requires job !in done && IsReady(count, pairs, done, job)
    requires forall p :: p in pairs && p.1 in done ==> p.0 in done
    ensures (job, j) !in pairs ==> Waiting(pairs, done + {job}, j) == Waiting(pairs, done, j)
    ensures (job, j) in pairs ==>
      && j != job && j !in done && !IsReady(count, pairs, done, j)
      && |Waiting(pairs, done + {job}, j)| == |Waiting(pairs, done, j)| - 1
  {
    assert Waiting(pairs, done + {job}, j) == Waiting(pairs, done, j) - {(job, j)};
    if (job, j) in pairs {
      assert (job, j).1 == j && (job, j) in Waiting(pairs, done, j);
    }
  }

  /** How many jobs `job` must still wait for once the successors in `told` know that `job` is done. */
  ghost function CountWith(pairs: Pairs, done: set<nat>, job: nat, told: seq<nat>, j: nat): nat {
    |Waiting(pairs, if j in told then done + {job} else done, j)|
  }

  ghost function HeapWith(count: nat, pairs: Pairs, done: set<nat>, job: nat, told: seq<nat>, j: nat): nat {
    if j != job && IsReady(count, pairs, if j in told then done + {job} else done, j) then 1 else 0
  }

  /** Marks `job` as done: the counts of its successors drop, and those reaching zero join the heap. */
  method Release(count: nat, ghost pairs: Pairs, ghost done: set<nat>, job: nat, after: seq<nat>,
                 incoming: array<int>, heap: multiset<nat>)
    returns (ready: multiset<nat>)
    requires InRange(count, pairs) && incoming.Length == count
    requires IsReady(count, pairs, done, job)
    requires forall b :: b in after <==> (job, b) in pairs
    requires Distinct(after)
    requires forall p :: p in pairs && p.1 in done ==> p.0 in done
    requires CountsWaiting(pairs, done, incoming[..])
    requires forall j: nat :: heap[j] == HeapWith(count, pairs, done, job, [], j)
    modifies incoming
    ensures CountsWaiting(pairs, done + {job}, incoming[..])
    ensures HeapHoldsReady(count, pairs, done + {job}, ready)
  {
    ready := heap;
    for i := 0 to |after|
      invariant forall j: nat :: j < count ==> incoming[j] == CountWith(pairs, done, job, after[..i], j)
      invariant forall j: nat :: ready[j] == HeapWith(count, pairs, done, job, after[..i], j)
    {
      var other := after[i];
      assert other in after && (job, other) in pairs;
      assert (job, other).1 == other;
      WaitingShrinks(count, pairs, done, job, other);
      assert after[..i + 1] == after[..i] + [other];
      incoming[other] := incoming[other] - 1;
      if incoming[other] == 0 {
        ready := ready + multiset{other};
      }
    }
    assert after[..|after|] == after;
    forall j: nat
      ensures j < count ==> incoming[j] == |Waiting(pairs, done + {job}, j)|
      ensures ready[j] == if IsReady(count, pairs, done + {job}, j) then 1 else 0
    {
      WaitingShrinks(count, pairs, done, job, j);
    }
  }

  method JobOrder(count: nat, prerequisites: seq<(nat, nat)>) returns (result: seq<nat>)
    requires forall p :: p in prerequisites ==> p.0 < count && p.1 < count
    ensures var pairs := set p | p in prerequisites;
            (exists s :: ValidOrder(count, pairs, s)) ==> ValidOrder(count, pairs, result) && LeadsAll(count, pairs, result)
    ensures var pairs := set p | p in prerequisites;
            count > 0 ==> (result == [] <==> !exists s :: ValidOrder(count, pairs, s))
    ensures var pairs := set p | p in prerequisites;
            count > 0 ==> (result == [] <==> exists cycle :: IsCycle(pairs, cycle))
  {
    var pairs := set p | p in prerequisites;
    var outgoing, incoming := CountPrerequisites(count, pairs);
    var ready := InitialHeap(count, pairs, incoming);
    result := [];
    assert Elements(result) == {};
    while |ready| > 0
      invariant outgoing.Length == incoming.Length == count && outgoing != incoming as object
      invariant Lists(pairs, outgoing[..])
      invariant CountsWaiting(pairs, Elements(result), incoming[..])
      invariant HeapHoldsReady(count, pairs, Elements(result), ready)
      invariant IsBeginning(count, pairs, result) && LeadsAll(count, pairs, result)
      invariant |result| <= count
      decreases count - |result|
    {
      ghost var done := Elements(result);
      var job, rest := HeapPop(ready);
      HeapLeast(count, pairs, done, ready, job);
      Extend(count, pairs, result, job);
      result := result + [job];
      assert outgoing[..][job] == outgoing[job];
      ready := Release(count, pairs, done, job, outgoing[job], incoming, rest);
    }
    assert forall x :: IsReady(count, pairs, Elements(result), x) ==> ready[x] == 1;
    Conclude(count, pairs, result);
    if |result| != count {
      result := [];
    }
  }

  /** The jobs that wait for nothing. */
  method InitialHeap(count: nat, ghost pairs: Pairs, incoming: array<int>) returns (ready: multiset<nat>)
    requires incoming.Length == count && CountsWaiting(pairs, {}, incoming[..])
    ensures HeapHoldsReady(count, pairs, {}, ready)
  {
    ready := multiset{};
    for job := 0 to count
      invariant forall j: nat :: ready[j] == (if j < job && IsReady(count, pairs, {}, j) then 1 else 0)
    {
      assert incoming[job] == incoming[..][job];
      if incoming[job] == 0 {
        ready := ready + multiset{job};
      }
    }
  }

  lemma HeapLeast(count: nat, pairs: Pairs, done: set<nat>, heap: multiset<nat>, job: nat)
    requires HeapHoldsReady(count, pairs, done, heap)
    requires job in heap && forall x :: x in heap ==> job <= x
    ensures IsReady(count, pairs, done, job)
    ensures forall x :: IsReady(count, pairs, done, x) ==> job <= x
    ensures forall j: nat :: (heap - multiset{job})[j] == HeapWith(count, pairs, done, job, [], j)
  {
    assert heap[job] == 1;
    forall x | IsReady(count, pairs, done, x) ensures job <= x { assert heap[x] == 1; }
  }

  /** One turn of the main loop: the least ready job keeps the order legal and smallest. */
  lemma Extend(count: nat, pairs: Pairs, order: seq<nat>, job: nat)
    requires InRange(count, pairs) && IsBeginning(count, pairs, order) && LeadsAll(count, pairs, order)
    requires IsReady(count, pairs, Elements(order), job)
    requires forall x :: IsReady(count, pairs, Elements(order), x) ==> job <= x
    ensures IsBeginning(count, pairs, order + [job]) && LeadsAll(count, pairs, order + [job])
    ensures |order + [job]| <= count && Elements(order + [job]) == Elements(order) + {job}
    ensures forall p :: p in pairs && p.1 in Elements(order) ==> p.0 in Elements(order)
  {
    forall s | ValidOrder(count, pairs, s) ensures LexLe(order + [job], s) {
      SmallestReadyLeads(count, pairs, order, job, s);
    }
    BeginningGrows(count, pairs, order, job);
    DistinctSize(order + [job]);
    BoundedSize(Elements(order + [job]), count);
    BeginningIsClosed(count, pairs, order);
  }

  lemma BeginningIsClosed(count: nat, pairs: Pairs, order: seq<nat>)
    requires IsBeginning(count, pairs, order)
    ensures forall p :: p in pairs && p.1 in Elements(order) ==> p.0 in Elements(order)
  {
    forall p | p in pairs && p.1 in Elements(order)
      ensures p.0 in Elements(order)
    {
      var k :| 0 <= k < |order| && order[k] == p.1;
      assert p.0 in order[..k];
    }
  }

  /** With the heap empty, the order found is valid, or no order is and there is a cycle. */
  lemma Conclude(count: nat, pairs: Pairs, order: seq<nat>)
    requires InRange(count, pairs) && IsBeginning(count, pairs, order) && |order| <= count
    requires forall x :: !IsReady(count, pairs, Elements(order), x)
    ensures |order| == count ==> ValidOrder(count, pairs, order) && !exists cycle :: IsCycle(pairs, cycle)
    ensures |order| < count ==> (!exists s :: ValidOrder(count, pairs, s)) && exists cycle :: IsCycle(pairs, cycle)
  {
    if |order| == count {
      FullBeginningIsValid(count, pairs, order);
      forall cycle | IsCycle(pairs, cycle) ensures false {
        CycleMeansImpossible(count, pairs, cycle, order);
      }
    } else {
      forall s ensures !ValidOrder(count, pairs, s) { StuckMeansImpossible(count, pairs, order, s); }
      StuckMeansCycle(count, pairs, order);
    }
  }
}
