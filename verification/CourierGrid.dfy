/**
 Fewest moves across a grid: breadth-first search
 (content/scenario-drafts/courier-grid/reference.py).
 */
module CourierGrid {

  type Cell = (int, int)
  type Floor = seq<seq<int>>

  /** A non-empty rectangle, as the question promises. */
  ghost predicate IsRectangle(floor: Floor) {
    |floor| > 0 && forall r :: 0 <= r < |floor| ==> |floor[r]| == |floor[0]|
  }

  predicate IsOpen(floor: Floor, cell: Cell)
    requires IsRectangle(floor)
  {
    0 <= cell.0 < |floor| && 0 <= cell.1 < |floor[0]| && floor[cell.0][cell.1] == 0
  }

  predicate Adjacent(a: Cell, b: Cell) {
    || (a.1 == b.1 && (b.0 == a.0 + 1 || b.0 == a.0 - 1))
    || (a.0 == b.0 && (b.1 == a.1 + 1 || b.1 == a.1 - 1))
  }

  /** The cells visited from `source` to `goal`; the start itself need not be open. */
  ghost predicate IsPath(floor: Floor, source: Cell, goal: Cell, path: seq<Cell>)
    requires IsRectangle(floor)
    decreases |path|
  {
    && |path| > 0 && path[|path| - 1] == goal
    && if |path| == 1 then goal == source
       else IsOpen(floor, goal) && Adjacent(path[|path| - 2], goal)
            && IsPath(floor, source, path[|path| - 2], path[..|path| - 1])
  }

  ghost predicate ReachedIn(floor: Floor, source: Cell, goal: Cell, moves: nat)
    requires IsRectangle(floor)
  {
    exists path :: IsPath(floor, source, goal, path) && |path| == moves + 1
  }

  // ----- The search state -----

  /** Cells seen so far with the distance they were queued at. */
  type Distances = map<Cell, nat>

  /** Every recorded distance is the length of some path. */
  ghost predicate AreAchieved(floor: Floor, source: Cell, distances: Distances)
    requires IsRectangle(floor)
  {
    forall c :: c in distances ==> ReachedIn(floor, source, c, distances[c])
  }

  /** The queue is in distance order and spans at most two layers. */
  ghost predicate IsLayered(queue: seq<(Cell, nat)>, distances: Distances) {
    && (forall i :: 0 <= i < |queue| ==> queue[i].0 in distances && distances[queue[i].0] == queue[i].1)
    && (forall i, j :: 0 <= i < j < |queue| ==> queue[i].1 <= queue[j].1)
    && (forall i :: 0 <= i < |queue| ==> queue[i].1 <= queue[0].1 + 1)
  }

  ghost function Queued(queue: seq<(Cell, nat)>): set<Cell> {
    set i | 0 <= i < |queue| :: queue[i].0
  }

  /** An open neighbour of `c` has been seen, at most one move further out. */
  ghost predicate Expanded(floor: Floor, distances: Distances, c: Cell)
    requires IsRectangle(floor) && c in distances
  {
    forall b :: Adjacent(c, b) && IsOpen(floor, b) ==> b in distances && distances[b] <= distances[c] + 1
  }

  /** Whatever has been seen and is no longer queued has been expanded, and is not the goal. */
  ghost predicate RestIsExpanded(floor: Floor, goal: Cell, queue: seq<(Cell, nat)>, distances: Distances)
    requires IsRectangle(floor)
  {
    forall c :: c in distances && c !in Queued(queue) ==> c != goal && Expanded(floor, distances, c)
  }

  /** A path shorter than the queue's front ends among the cells seen, no further out than its length. */
  lemma {:induction false} ShortPathIsSeen(floor: Floor, source: Cell, goal: Cell, queue: seq<(Cell, nat)>,
                                           distances: Distances, path: seq<Cell>, end: Cell)
    requires IsRectangle(floor) && IsLayered(queue, distances) && RestIsExpanded(floor, goal, queue, distances)
    requires source in distances && distances[source] == 0
    requires IsPath(floor, source, end, path)
    requires queue != [] ==> |path| <= queue[0].1 + 1
    ensures end in distances && distances[end] < |path|
    decreases |path|
  {
    if |path| > 1 {
      var c := path[|path| - 2];
      ShortPathIsSeen(floor, source, goal, queue, distances, path[..|path| - 1], c);
      assert Expanded(floor, distances, c) && Adjacent(c, end);
    }
  }

  /** When the goal is at the front of the queue, no path to it is shorter. */
  lemma FrontIsNearest(floor: Floor, source: Cell, goal: Cell, queue: seq<(Cell, nat)>, distances: Distances, path: seq<Cell>)
    requires IsRectangle(floor) && IsLayered(queue, distances) && RestIsExpanded(floor, goal, queue, distances)
    requires source in distances && distances[source] == 0
    requires queue != [] && queue[0].0 == goal && IsPath(floor, source, goal, path)
    ensures queue[0].1 + 1 <= |path|
  {
    if |path| <= queue[0].1 {
      ShortPathIsSeen(floor, source, goal, queue, distances, path, goal);
    }
  }

  /** With the queue empty, everything reachable has been expanded, so the goal is not reachable. */
  lemma ExhaustedMeansUnreachable(floor: Floor, source: Cell, goal: Cell, distances: Distances, path: seq<Cell>)
    requires IsRectangle(floor) && RestIsExpanded(floor, goal, [], distances)
    requires source in distances && distances[source] == 0
    ensures !IsPath(floor, source, goal, path)
  {
    if IsPath(floor, source, goal, path) {
      ShortPathIsSeen(floor, source, goal, [], distances, path, goal);
    }
  }

  lemma OneMoveFurther(floor: Floor, source: Cell, c: Cell, b: Cell, moves: nat)
    requires IsRectangle(floor) && ReachedIn(floor, source, c, moves)
    requires Adjacent(c, b) && IsOpen(floor, b)
    ensures ReachedIn(floor, source, b, moves + 1)
  {
    var path :| IsPath(floor, source, c, path) && |path| == moves + 1;
    assert (path + [b])[..|path|] == path;
    assert IsPath(floor, source, b, path + [b]);
  }

  // ----- The algorithm -----

  /** A finite set of cells the search cannot leave. */
  ghost predicate Confines(floor: Floor, source: Cell, cells: set<Cell>)
    requires IsRectangle(floor)
  {
    source in cells && forall c :: IsOpen(floor, c) ==> c in cells
  }

  lemma GridConfines(floor: Floor, source: Cell) returns (cells: set<Cell>)
    requires IsRectangle(floor)
    ensures Confines(floor, source, cells)
  {
    cells := {source} + set r, c | 0 <= r < |floor| && 0 <= c < |floor[0]| :: (r, c);
  }

  ghost predicate AllWithin(distances: Distances, bound: nat) {
    forall c :: c in distances ==> distances[c] <= bound
  }

  function Neighbour(cell: Cell, step: Cell): Cell {
    (cell.0 + step.0, cell.1 + step.1)
  }

  /** In the middle of expanding `from`, which is off the queue already. */
  ghost predicate Expanding(floor: Floor, source: Cell, goal: Cell, from: Cell, queue: seq<(Cell, nat)>, distances: Distances)
    requires IsRectangle(floor)
  {
    && source in distances && distances[source] == 0 && from in distances
    && AreAchieved(floor, source, distances)
    && IsLayered([(from, distances[from])] + queue, distances)
    && (forall c :: c in distances && c != from && c !in Queued(queue) ==> c != goal && Expanded(floor, distances, c))
    && AllWithin(distances, distances[from] + 1)
  }

  /** Taking the front off the queue starts an expansion. */
  lemma TakeFront(floor: Floor, source: Cell, goal: Cell, queue: seq<(Cell, nat)>, distances: Distances)
    requires IsRectangle(floor) && source in distances && distances[source] == 0
    requires AreAchieved(floor, source, distances)
    requires IsLayered(queue, distances) && RestIsExpanded(floor, goal, queue, distances) && queue != []
    requires AllWithin(distances, queue[0].1 + 1)
    ensures Expanding(floor, source, goal, queue[0].0, queue[1..], distances)
    ensures queue[0].0 in distances && distances[queue[0].0] == queue[0].1 && ReachedIn(floor, source, queue[0].0, queue[0].1)
  {
    assert [(queue[0].0, distances[queue[0].0])] + queue[1..] == queue;
    assert Queued(queue) == Queued(queue[1..]) + {queue[0].0} by {
      forall i | 0 < i < |queue| ensures queue[i].0 in Queued(queue[1..]) { assert queue[i] == queue[1..][i - 1]; }
    }
  }

  lemma LayersGrow(line: seq<(Cell, nat)>, distances: Distances, b: Cell)
    requires line != [] && IsLayered(line, distances) && b !in distances
    ensures IsLayered(line + [(b, line[0].1 + 1)], distances[b := line[0].1 + 1])
  {
  }

  lemma QueueGrows(queue: seq<(Cell, nat)>, b: Cell, d: nat)
    ensures Queued(queue + [(b, d)]) == Queued(queue) + {b}
  {
    var queue' := queue + [(b, d)];
    forall i | 0 <= i < |queue'| ensures queue'[i].0 in Queued(queue) + {b} {}
    forall i | 0 <= i < |queue| ensures queue[i].0 in Queued(queue') { assert queue'[i] == queue[i]; }
    assert queue'[|queue|].0 == b;
  }

  /** Recording one more cell leaves what was achieved and expanded as it was. */
  lemma RecordCell(floor: Floor, source: Cell, distances: Distances, b: Cell, d: nat)
    requires IsRectangle(floor) && AreAchieved(floor, source, distances)
    requires b !in distances && ReachedIn(floor, source, b, d)
    ensures AreAchieved(floor, source, distances[b := d])
    ensures forall c :: c in distances && Expanded(floor, distances, c) ==> Expanded(floor, distances[b := d], c)
  {
  }

  /** Queueing an unseen open neighbour keeps the search state. */
  lemma Enqueue(floor: Floor, source: Cell, goal: Cell, from: Cell, queue: seq<(Cell, nat)>, distances: Distances, b: Cell)
    requires IsRectangle(floor) && Expanding(floor, source, goal, from, queue, distances)
    requires Adjacent(from, b) && IsOpen(floor, b) && b !in distances
    ensures Expanding(floor, source, goal, from, queue + [(b, distances[from] + 1)], distances[b := distances[from] + 1])
  {
    var d := distances[from] + 1;
    OneMoveFurther(floor, source, from, b, distances[from]);
    RecordCell(floor, source, distances, b, d);
    QueueGrows(queue, b, d);
    var line := [(from, distances[from])] + queue;
    LayersGrow(line, distances, b);
    assert [(from, distances[from])] + (queue + [(b, d)]) == line + [(b, d)];
  }

  /** Once all four neighbours have been looked at, the cell counts as expanded. */
  lemma FinishExpansion(floor: Floor, source: Cell, goal: Cell, from: Cell, queue: seq<(Cell, nat)>, distances: Distances)
    requires IsRectangle(floor) && Expanding(floor, source, goal, from, queue, distances)
    requires from != goal && Expanded(floor, distances, from)
    ensures IsLayered(queue, distances) && RestIsExpanded(floor, goal, queue, distances)
    ensures queue != [] ==> AllWithin(distances, queue[0].1 + 1)
  {
    var line := [(from, distances[from])] + queue;
    forall i | 0 <= i < |queue| ensures queue[i] == line[i + 1] {}
  }

  const STEPS: seq<Cell> := [(1, 0), (-1, 0), (0, 1), (0, -1)]

  ghost predicate Looked(floor: Floor, seen: set<Cell>, b: Cell)
    requires IsRectangle(floor)
  {
    IsOpen(floor, b) ==> b in seen
  }

  ghost predicate LookedAtFirst(floor: Floor, seen: set<Cell>, cell: Cell, k: nat)
    requires IsRectangle(floor) && k <= |STEPS|
  {
    forall i :: 0 <= i < k ==> Looked(floor, seen, Neighbour(cell, STEPS[i]))
  }

  lemma LookedAtOneMore(floor: Floor, seen: set<Cell>, seen': set<Cell>, cell: Cell, k: nat)
    requires IsRectangle(floor) && k < |STEPS| && seen <= seen'
    requires LookedAtFirst(floor, seen, cell, k) && Looked(floor, seen', Neighbour(cell, STEPS[k]))
    ensures LookedAtFirst(floor, seen', cell, k + 1)
  {
    forall i | 0 <= i < k ensures Looked(floor, seen', Neighbour(cell, STEPS[i])) {
      assert Looked(floor, seen, Neighbour(cell, STEPS[i]));
    }
  }

  /** The four steps lead to all neighbours. */
  lemma LookedAtAll(floor: Floor, seen: set<Cell>, cell: Cell)
    requires IsRectangle(floor) && LookedAtFirst(floor, seen, cell, |STEPS|)
    ensures forall b :: Adjacent(cell, b) && IsOpen(floor, b) ==> b in seen
  {
    forall b | Adjacent(cell, b) && IsOpen(floor, b) ensures b in seen {
      var k := if b.0 == cell.0 + 1 then 0 else if b.0 == cell.0 - 1 then 1 else if b.1 == cell.1 + 1 then 2 else 3;
      assert b == Neighbour(cell, STEPS[k]);
    }
  }

  /** Looks at one neighbour: exactly if it is open and not seen before, it alone is queued, one move further out. */
  method LookAt(floor: Floor, ghost source: Cell, ghost goal: Cell, cell: Cell, distance: nat, next: Cell,
                seen: set<Cell>, queue: seq<(Cell, nat)>, ghost distances: Distances, ghost cells: set<Cell>)
    returns (seen': set<Cell>, queue': seq<(Cell, nat)>, ghost distances': Distances)
    requires IsRectangle(floor) && Expanding(floor, source, goal, cell, queue, distances) && Adjacent(cell, next)
    requires distances[cell] == distance && seen == distances.Keys
    requires Confines(floor, source, cells) && seen <= cells
    ensures Expanding(floor, source, goal, cell, queue', distances') && distances'[cell] == distance
    ensures Looked(floor, seen', next)
    ensures queue' == queue + if IsOpen(floor, next) && next !in seen then [(next, distance + 1)] else []
    ensures seen' == seen + if IsOpen(floor, next) then {next} else {}
    ensures seen' == distances'.Keys && seen <= seen' <= cells
    ensures forall c :: c in seen ==> distances'[c] == distances[c]
  {
    seen', queue', distances' := seen, queue, distances;
    if IsOpen(floor, next) && next !in seen {
      Enqueue(floor, source, goal, cell, queue, distances, next);
      seen' := seen + {next};
      queue' := queue + [(next, distance + 1)];
      distances' := distances[next := distance + 1];
    }
  }

  /** Looks at the four neighbours of the cell just taken off the queue. */
  method Expand(floor: Floor, ghost source: Cell, ghost goal: Cell, cell: Cell, distance: nat,
                seen: set<Cell>, queue: seq<(Cell, nat)>, ghost distances: Distances, ghost cells: set<Cell>)
    returns (seen': set<Cell>, queue': seq<(Cell, nat)>, ghost distances': Distances)
    requires IsRectangle(floor) && Expanding(floor, source, goal, cell, queue, distances)
    requires distances[cell] == distance && seen == distances.Keys
    requires Confines(floor, source, cells) && seen <= cells
    ensures Expanding(floor, source, goal, cell, queue', distances') && distances'[cell] == distance
    ensures Expanded(floor, distances', cell)
    ensures seen' == distances'.Keys && seen <= seen' <= cells && (seen' == seen ==> queue' == queue)
  {
    seen', queue', distances' := seen, queue, distances;
    for k := 0 to |STEPS|
      invariant Expanding(floor, source, goal, cell, queue', distances') && distances'[cell] == distance
      invariant seen' == distances'.Keys && seen <= seen' <= cells && (seen' == seen ==> queue' == queue)
      invariant LookedAtFirst(floor, seen', cell, k)
    {
      ghost var seenBefore := seen';
      seen', queue', distances' :=
        LookAt(floor, source, goal, cell, distance, Neighbour(cell, STEPS[k]), seen', queue', distances', cells);
      LookedAtOneMore(floor, seenBefore, seen', cell, k);
    }
    LookedAtAll(floor, seen', cell);
  }

  lemma AtTheStart(floor: Floor, source: Cell, goal: Cell)
    requires IsRectangle(floor)
    ensures var queue, distances: Distances := [(source, 0)], map[source := 0];
            && AreAchieved(floor, source, distances) && IsLayered(queue, distances)
            && RestIsExpanded(floor, goal, queue, distances) && AllWithin(distances, 1)
  {
    assert IsPath(floor, source, source, [source]);
    assert [(source, 0)][0].0 == source;
  }

  method FewestMoves(floor: Floor, source: Cell, goal: Cell) returns (moves: int)
    requires IsRectangle(floor)
    ensures moves >= 0 ==> ReachedIn(floor, source, goal, moves)
    ensures moves >= 0 ==> forall path :: IsPath(floor, source, goal, path) ==> moves + 1 <= |path|
    ensures moves < 0 ==> moves == -1 && forall path :: !IsPath(floor, source, goal, path)
  {
    hide AreAchieved, IsLayered, RestIsExpanded, AllWithin;
    var queue: seq<(Cell, nat)> := [(source, 0)];
    var seen := {source};
    ghost var distances: Distances := map[source := 0];
    ghost var cells := GridConfines(floor, source);
    AtTheStart(floor, source, goal);
    while |queue| > 0
      invariant source in distances && distances[source] == 0
      invariant seen == distances.Keys && seen <= cells
      invariant AreAchieved(floor, source, distances)
      invariant IsLayered(queue, distances) && RestIsExpanded(floor, goal, queue, distances)
      invariant queue != [] ==> AllWithin(distances, queue[0].1 + 1)
      decreases cells - seen, |queue|
    {
      TakeFront(floor, source, goal, queue, distances);
      var (cell, distance) := queue[0];
      if cell == goal {
        forall path | IsPath(floor, source, goal, path) ensures distance + 1 <= |path| {
          FrontIsNearest(floor, source, goal, queue, distances, path);
        }
        return distance;
      }
      seen, queue, distances := Expand(floor, source, goal, cell, distance, seen, queue[1..], distances, cells);
      FinishExpansion(floor, source, goal, cell, queue, distances);
    }
    forall path ensures !IsPath(floor, source, goal, path) {
      ExhaustedMeansUnreachable(floor, source, goal, distances, path);
    }
    return -1;
  }
}
