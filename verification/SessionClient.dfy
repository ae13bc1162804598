/**
 The browser's session client: edits become numbered events that stay in an outbox until
 the server acknowledges them (apps/web/lib/session-client.ts).

 The clock, JSON and the pending-count callback are left out. Fresh idempotency keys are
 supplied by the environment. An outbox is the list of a JavaScript map's values in
 insertion order; `sent` is what has been handed to the transport.
 */
module SessionClient {
  import opened Wrappers

  datatype Payload =
    | CodeDelta(revision: int, text: string)
    | NoteDelta(text: string)
    | RunRequested(revision: int, input: string)
    | Speech(description: string)

  datatype ClientEvent = ClientEvent(clientSeq: int, key: string, payload: Payload)

  datatype ServerMessage = Ack(clientSeq: int, serverSeq: int) | ReplayFrom(expected: int)

  datatype State = State(
    clientSeq: int, codeRevision: int, lastAckedSeq: int, lastAckedClientSeq: int,
    outbox: seq<ClientEvent>, pendingCode: Option<string>, pendingNotes: Option<string>,
    waiters: seq<int>, connected: bool,
    sent: seq<ClientEvent>, enqueued: seq<ClientEvent>, resolved: seq<int>)

  function Fresh(initialClientSeq: int, initialCodeRevision: int): State {
    State(initialClientSeq, initialCodeRevision, -1, -1, [], None, None, [], false, [], [], [])
  }

  // ----- Operations on the outbox -----

  function Without(outbox: seq<ClientEvent>, clientSeq: int): seq<ClientEvent> {
    if outbox == [] then []
    else
      var rest := Without(outbox[..|outbox| - 1], clientSeq);
      if outbox[|outbox| - 1].clientSeq == clientSeq then rest else rest + [outbox[|outbox| - 1]]
  }

  predicate HasPendingThrough(outbox: seq<ClientEvent>, target: int) {
    exists i :: 0 <= i < |outbox| && outbox[i].clientSeq <= target
  }

  /** Inserts an event into a list sorted by sequence number, after its equals. */
  function InsertSorted(sorted: seq<ClientEvent>, e: ClientEvent): seq<ClientEvent> {
    if sorted == [] || sorted[|sorted| - 1].clientSeq <= e.clientSeq then sorted + [e]
    else InsertSorted(sorted[..|sorted| - 1], e) + [sorted[|sorted| - 1]]
  }

  function Sorted(events: seq<ClientEvent>): seq<ClientEvent> {
    if events == [] then [] else InsertSorted(Sorted(events[..|events| - 1]), events[|events| - 1])
  }

  function From(events: seq<ClientEvent>, clientSeq: int): seq<ClientEvent> {
    if events == [] then []
    else
      var rest := From(events[..|events| - 1], clientSeq);
      if events[|events| - 1].clientSeq >= clientSeq then rest + [events[|events| - 1]] else rest
  }

  // ----- Operations -----

  function Send(c: State, events: seq<ClientEvent>): State {
    if c.connected then c.(sent := c.sent + events) else c
  }

  function Enqueue(c: State, payload: Payload, key: string): State {
    var e := ClientEvent(c.clientSeq, key, payload);
    Send(c.(clientSeq := c.clientSeq + 1, outbox := c.outbox + [e], enqueued := c.enqueued + [e]), [e])
  }

  /** Ships a pending edit under the next revision. */
  function FlushCode(c: State, key: string): State {
    if c.pendingCode.None? then c
    else
      var revision := c.codeRevision + 1;
      Enqueue(c.(codeRevision := revision), CodeDelta(revision, c.pendingCode.value), key).(pendingCode := None)
  }

  function FlushNotes(c: State, key: string): State {
    if c.pendingNotes.None? then c
    else Enqueue(c, NoteDelta(c.pendingNotes.value), key).(pendingNotes := None)
  }

  function Flush(c: State, codeKey: string, notesKey: string): State {
    FlushNotes(FlushCode(c, codeKey), notesKey)
  }

  function RequestRun(c: State, input: string, codeKey: string, notesKey: string, runKey: string): State {
    var flushed := Flush(c, codeKey, notesKey);
    Enqueue(flushed, RunRequested(flushed.codeRevision, input), runKey)
  }

  /** Everything up to `target` is known to have arrived. */
  predicate IsSettled(c: State, target: int) {
    target <= c.lastAckedClientSeq || !HasPendingThrough(c.outbox, target)
  }

  /** The returned cursor, if the promise resolves at once; otherwise it joins the waiters. */
  function FlushAndWait(c: State, codeKey: string, notesKey: string): State {
    var flushed := Flush(c, codeKey, notesKey);
    var target := flushed.clientSeq - 1;
    if IsSettled(flushed, target) then flushed.(resolved := flushed.resolved + [target])
    else flushed.(waiters := flushed.waiters + [target])
  }

  function StillWaiting(outbox: seq<ClientEvent>, waiters: seq<int>): seq<int> {
    if waiters == [] then []
    else
      var rest := StillWaiting(outbox, waiters[..|waiters| - 1]);
      if HasPendingThrough(outbox, waiters[|waiters| - 1]) then rest + [waiters[|waiters| - 1]] else rest
  }

  function DoneWaiting(outbox: seq<ClientEvent>, waiters: seq<int>): seq<int> {
    if waiters == [] then []
    else
      var rest := DoneWaiting(outbox, waiters[..|waiters| - 1]);
      if HasPendingThrough(outbox, waiters[|waiters| - 1]) then rest else rest + [waiters[|waiters| - 1]]
  }

  function Max(a: int, b: int): int {
    if a >= b then a else b
  }

  function Handle(c: State, message: ServerMessage): State {
    match message
    case Ack(clientSeq, serverSeq) =>
      var outbox := Without(c.outbox, clientSeq);
      c.(lastAckedSeq := Max(c.lastAckedSeq, serverSeq), lastAckedClientSeq := Max(c.lastAckedClientSeq, clientSeq),
         outbox := outbox, waiters := StillWaiting(outbox, c.waiters),
         resolved := c.resolved + DoneWaiting(outbox, c.waiters))
    case ReplayFrom(expected) => Send(c, From(Sorted(c.outbox), expected))
  }

  /** The transport opened: everything unacknowledged goes out again, oldest first. */
  function Opened(c: State): State {
    Send(c.(connected := true), Sorted(c.outbox))
  }

  /** A waiter gives up after its timeout. */
  function TimedOut(c: State, i: nat): State {
    if i < |c.waiters| then c.(waiters := c.waiters[..i] + c.waiters[i + 1..]) else c
  }

  // ----- The client as the page holds it -----

  class Client {
    var clientSeq: int
    var codeRevision: int
    var lastAckedSeq: int
    var lastAckedClientSeq: int
    var outbox: seq<ClientEvent>
    var pendingCode: Option<string>
    var pendingNotes: Option<string>
    var waiters: seq<int>
    var connected: bool
    ghost var sent: seq<ClientEvent>
    ghost var enqueued: seq<ClientEvent>
    ghost var resolved: seq<int>

    ghost function View(): State
      reads this
    {
      State(clientSeq, codeRevision, lastAckedSeq, lastAckedClientSeq, outbox, pendingCode, pendingNotes,
            waiters, connected, sent, enqueued, resolved)
    }

    constructor (initialClientSeq: int, initialCodeRevision: int)
      ensures View() == Fresh(initialClientSeq, initialCodeRevision)
    {
      clientSeq, codeRevision, lastAckedSeq, lastAckedClientSeq := initialClientSeq, initialCodeRevision, -1, -1;
      outbox, pendingCode, pendingNotes, waiters, connected := [], None, None, [], false;
      sent, enqueued, resolved := [], [], [];
    }

    method CodeChanged(text: string)
      modifies this
      ensures View() == old(View()).(pendingCode := Some(text))
    {
      pendingCode := Some(text);
    }

    method NotesChanged(text: string)
      modifies this
      ensures View() == old(View()).(pendingNotes := Some(text))
    {
      pendingNotes := Some(text);
    }

    method TrySend(e: ClientEvent)
      modifies this
      ensures View() == Send(old(View()), [e])
    {
      if connected { sent := sent + [e]; }
    }

    method EnqueueEvent(payload: Payload, key: string)
      modifies this
      ensures View() == Enqueue(old(View()), payload, key)
    {
      var e := ClientEvent(clientSeq, key, payload);
      clientSeq := clientSeq + 1;
      outbox := outbox + [e];
      enqueued := enqueued + [e];
      TrySend(e);
    }

    method FlushEdits(codeKey: string, notesKey: string)
      modifies this
      ensures View() == Flush(old(View()), codeKey, notesKey)
    {
      if pendingCode.Some? {
        codeRevision := codeRevision + 1;
        EnqueueEvent(CodeDelta(codeRevision, pendingCode.value), codeKey);
        pendingCode := None;
      }
      if pendingNotes.Some? {
        EnqueueEvent(NoteDelta(pendingNotes.value), notesKey);
        pendingNotes := None;
      }
    }

    method RequestARun(input: string, codeKey: string, notesKey: string, runKey: string) returns (revision: int)
      modifies this
      ensures View() == RequestRun(old(View()), input, codeKey, notesKey, runKey)
      ensures revision == codeRevision
    {
      FlushEdits(codeKey, notesKey);
      revision := codeRevision;
      EnqueueEvent(RunRequested(revision, input), runKey);
    }

    method PendingThrough(target: int) returns (pending: bool)
      ensures pending == HasPendingThrough(outbox, target)
    {
      for i := 0 to |outbox|
        invariant forall k :: 0 <= k < i ==> outbox[k].clientSeq > target
      {
        if outbox[i].clientSeq <= target { return true; }
      }
      return false;
    }

    method FlushAndWaitForAcknowledgement(codeKey: string, notesKey: string) returns (cursor: Option<int>)
      modifies this
      ensures View() == FlushAndWait(old(View()), codeKey, notesKey)
      ensures cursor.Some? ==> cursor.value == clientSeq - 1 && resolved == old(resolved) + [cursor.value]
    {
      FlushEdits(codeKey, notesKey);
      var target := clientSeq - 1;
      var pending := PendingThrough(target);
      if target <= lastAckedClientSeq || !pending {
        resolved := resolved + [target];
        return Some(target);
      }
      waiters := waiters + [target];
      return None;
    }

    method OnAck(ackedClientSeq: int, serverSeq: int)
      modifies this
      ensures View() == Handle(old(View()), Ack(ackedClientSeq, serverSeq))
    {
      lastAckedSeq := Max(lastAckedSeq, serverSeq);
      lastAckedClientSeq := Max(lastAckedClientSeq, ackedClientSeq);
      outbox := Without(outbox, ackedClientSeq);
      ResolveWaiters();
    }

    method ResolveWaiters()
      modifies this
      ensures View() == old(View()).(waiters := StillWaiting(outbox, old(waiters)),
                                     resolved := old(resolved) + DoneWaiting(outbox, old(waiters)))
    {
      var before, rest := waiters, [];
      for i := 0 to |before|
        invariant rest == StillWaiting(outbox, before[..i])
        invariant View() == old(View()).(resolved := old(resolved) + DoneWaiting(outbox, before[..i]))
      {
        assert before[..i + 1][..i] == before[..i];
        var pending := PendingThrough(before[i]);
        if pending {
          rest := rest + [before[i]];
        } else {
          resolved := resolved + [before[i]];
        }
      }
      assert before[..|before|] == before;
      waiters := rest;
    }

    method SendAll(events: seq<ClientEvent>)
      modifies this
      ensures View() == Send(old(View()), events)
    {
      for i := 0 to |events|
        invariant View() == Send(old(View()), events[..i])
      {
        assert events[..i + 1] == events[..i] + [events[i]];
        TrySend(events[i]);
      }
      assert events[..|events|] == events;
    }

    method OnReplayFrom(expected: int)
      modifies this
      ensures View() == Handle(old(View()), ReplayFrom(expected))
    {
      SendAll(From(Sorted(outbox), expected));
    }

    method OnOpen()
      modifies this
      ensures View() == Opened(old(View()))
    {
      connected := true;
      SendAll(Sorted(outbox));
    }
  }

  // ----- What the outbox operations mean -----

  ghost predicate IsAscending(events: seq<ClientEvent>) {
    forall i, j :: 0 <= i < j < |events| ==> events[i].clientSeq < events[j].clientSeq
  }

  lemma SortsLast(sorted: seq<ClientEvent>, e: ClientEvent)
    requires sorted != [] ==> sorted[|sorted| - 1].clientSeq <= e.clientSeq
    ensures InsertSorted(sorted, e) == sorted + [e]
  {
  }

  /** An outbox that is in order already is sent as it is. */
  lemma {:induction false} SortedIsIdentity(events: seq<ClientEvent>)
    requires IsAscending(events)
    ensures Sorted(events) == events
  {
    if events != [] {
      hide InsertSorted;
      var init, last := events[..|events| - 1], events[|events| - 1];
      SortedIsIdentity(init);
      SortsLast(init, last);
      assert init + [last] == events;
    }
  }

  ghost predicate NeverDescends(events: seq<ClientEvent>) {
    forall i, j :: 0 <= i < j < |events| ==> events[i].clientSeq <= events[j].clientSeq
  }

  lemma {:induction false} InsertAdds(sorted: seq<ClientEvent>, e: ClientEvent)
    ensures multiset(InsertSorted(sorted, e)) == multiset(sorted) + multiset{e}
  {
    if sorted != [] {
      InsertAdds(sorted[..|sorted| - 1], e);
      assert sorted == sorted[..|sorted| - 1] + [sorted[|sorted| - 1]];
    }
  }

  lemma InOrderWith(init: seq<ClientEvent>, last: ClientEvent)
    requires NeverDescends(init) && forall x :: x in init ==> x.clientSeq <= last.clientSeq
    ensures NeverDescends(init + [last])
  {
  }

  lemma {:induction false} InsertKeepsOrder(sorted: seq<ClientEvent>, e: ClientEvent)
    requires NeverDescends(sorted)
    ensures NeverDescends(InsertSorted(sorted, e))
  {
    if sorted == [] || sorted[|sorted| - 1].clientSeq <= e.clientSeq {
      InOrderWith(sorted, e);
    } else {
      var init, last := sorted[..|sorted| - 1], sorted[|sorted| - 1];
      InsertKeepsOrder(init, e);
      InsertAdds(init, e);
      forall x | x in InsertSorted(init, e) ensures x.clientSeq <= last.clientSeq {
        assert x in multiset(init) + multiset{e};
      }
      hide NeverDescends;
      InOrderWith(InsertSorted(init, e), last);
    }
  }

  /** Sorting any outbox loses, adds and repeats nothing, and puts older numbers first. */
  lemma {:induction false} SortedIsInOrder(events: seq<ClientEvent>)
    ensures NeverDescends(Sorted(events)) && multiset(Sorted(events)) == multiset(events)
  {
    if events != [] {
      hide NeverDescends, InsertSorted;
      var init, last := events[..|events| - 1], events[|events| - 1];
      SortedIsInOrder(init);
      InsertKeepsOrder(Sorted(init), last);
      InsertAdds(Sorted(init), last);
      assert events == init + [last];
    }
  }

  lemma {:induction false} WithoutRemovesExactly(outbox: seq<ClientEvent>, clientSeq: int)
    ensures forall e :: e in Without(outbox, clientSeq) <==> e in outbox && e.clientSeq != clientSeq
    ensures IsAscending(outbox) ==> IsAscending(Without(outbox, clientSeq))
  {
    if outbox != [] {
      var init, last := outbox[..|outbox| - 1], outbox[|outbox| - 1];
      WithoutRemovesExactly(init, clientSeq);
      assert outbox == init + [last];
      forall i | 0 <= i < |Without(init, clientSeq)| && IsAscending(outbox)
        ensures Without(init, clientSeq)[i].clientSeq < last.clientSeq
      {
        assert Without(init, clientSeq)[i] in init;
      }
    }
  }

  lemma {:induction false} FromKeepsExactly(events: seq<ClientEvent>, clientSeq: int)
    ensures forall e :: e in From(events, clientSeq) <==> e in events && e.clientSeq >= clientSeq
  {
    if events != [] {
      FromKeepsExactly(events[..|events| - 1], clientSeq);
      assert events == events[..|events| - 1] + [events[|events| - 1]];
    }
  }

  lemma {:induction false} WaitersSplit(outbox: seq<ClientEvent>, waiters: seq<int>)
    ensures forall t :: t in StillWaiting(outbox, waiters) <==> t in waiters && HasPendingThrough(outbox, t)
    ensures forall t :: t in DoneWaiting(outbox, waiters) <==> t in waiters && !HasPendingThrough(outbox, t)
    ensures |StillWaiting(outbox, waiters)| + |DoneWaiting(outbox, waiters)| == |waiters|
  {
    if waiters != [] {
      WaitersSplit(outbox, waiters[..|waiters| - 1]);
      assert waiters == waiters[..|waiters| - 1] + [waiters[|waiters| - 1]];
    }
  }
}
