/**
 The client's promises and edits over every run of the outbox protocol: what is still pending,
 when a wait for acknowledgement resolves, and what a flush ships
 (apps/web/lib/session-client.ts).
 */
module Waiting {
  import opened SessionClient
  import opened Outbox
  import opened Wrappers

  // ----- What has been acknowledged -----

  /** The acknowledgement that step `i` delivers, if it does. */
  ghost function AckAt(h: History, i: nat): Option<ServerMessage>
    requires i < |h.steps| && |h.states| == |h.steps| + 1
    ensures AckAt(h, i).Some? ==> AckAt(h, i).value.Ack?
  {
    var replies := h.states[i].server.replies;
    if h.steps[i].ToClient? && h.steps[i].reply < |replies| && replies[h.steps[i].reply].Ack? then Some(replies[h.steps[i].reply])
    else None
  }

  /** Event number `clientSeq` was acknowledged among the first `n` steps. */
  ghost predicate IsAcked(h: History, n: nat, clientSeq: int)
    requires n <= |h.steps| && |h.states| == |h.steps| + 1
  {
    exists i: nat :: i < n && AckAt(h, i).Some? && AckAt(h, i).value.clientSeq == clientSeq
  }

  /** The highest event number, and the highest place in the log, that was acknowledged; -1 before any was. */
  ghost function Highest(h: History, n: nat): (int, int)
    requires n <= |h.steps| && |h.states| == |h.steps| + 1
  {
    if n == 0 then (-1, -1)
    else
      var (c, s) := Highest(h, n - 1);
      match AckAt(h, n - 1)
      case None => (c, s)
      case Some(m) => (if m.clientSeq > c then m.clientSeq else c, if m.serverSeq > s then m.serverSeq else s)
  }

  lemma AckedOneMore(h: History, n: nat, clientSeq: int)
    requires n < |h.steps| && |h.states| == |h.steps| + 1
    ensures IsAcked(h, n + 1, clientSeq) <==> IsAcked(h, n, clientSeq) || (AckAt(h, n).Some? && AckAt(h, n).value.clientSeq == clientSeq)
  {
    if IsAcked(h, n, clientSeq) {
      var i: nat :| i < n && AckAt(h, i).Some? && AckAt(h, i).value.clientSeq == clientSeq;
      assert i < n + 1;
    }
  }

  lemma CursorsStep(s: System, step: Step)
    ensures var t := Next(s, step);
            if step.ToClient? && step.reply < |s.server.replies| && s.server.replies[step.reply].Ack? then
              var m := s.server.replies[step.reply];
              && t.client.lastAckedClientSeq == Max(s.client.lastAckedClientSeq, m.clientSeq)
              && t.client.lastAckedSeq == Max(s.client.lastAckedSeq, m.serverSeq)
            else t.client.lastAckedClientSeq == s.client.lastAckedClientSeq && t.client.lastAckedSeq == s.client.lastAckedSeq
  {
  }

  /** The cursors are the highest numbers acknowledged. */
  lemma {:induction false} CursorsAreHighest(h: History, n: nat)
    requires IsRun(h) && n <= |h.steps|
    ensures Highest(h, n) == (h.states[n].client.lastAckedClientSeq, h.states[n].client.lastAckedSeq)
  {
    hide Next;
    if n > 0 {
      CursorsAreHighest(h, n - 1);
      assert IsStep(h, n - 1);
      CursorsStep(h.states[n - 1], h.steps[n - 1]);
    }
  }

  lemma {:induction false} HighestIsAcked(h: History, n: nat, target: int)
    requires n <= |h.steps| && |h.states| == |h.steps| + 1 && target >= 0
    ensures target <= Highest(h, n).0 <==> exists i: nat :: i < n && AckAt(h, i).Some? && AckAt(h, i).value.clientSeq >= target
  {
    if n > 0 {
      HighestIsAcked(h, n - 1, target);
      if target <= Highest(h, n - 1).0 {
        var i: nat :| i < n - 1 && AckAt(h, i).Some? && AckAt(h, i).value.clientSeq >= target;
        assert i < n;
      }
    }
  }

  /** How a step changes what is pending: events join it as they are enqueued, and leave it by their acknowledgement alone. */
  lemma PendingStep(s: System, step: Step)
    ensures var t := Next(s, step);
            && s.client.enqueued <= t.client.enqueued
            && if step.ToClient? && step.reply < |s.server.replies| && s.server.replies[step.reply].Ack? then
                 && t.client.enqueued == s.client.enqueued
                 && forall e :: e in t.client.outbox <==> e in s.client.outbox && e.clientSeq != s.server.replies[step.reply].clientSeq
               else t.client.outbox == s.client.outbox + t.client.enqueued[|s.client.enqueued|..]
  {
    hide Flush, Without, Receive, StillWaiting, DoneWaiting, Sorted, From;
    match step {
      case FlushEdits(k, l) => FlushPends(s.client, k, l);
      case Wait(k, l) => FlushPends(s.client, k, l);
      case Run(input, k, l, r) => FlushPends(s.client, k, l);
      case ToClient(j) =>
        if j < |s.server.replies| && s.server.replies[j].Ack? {
          WithoutRemovesExactly(s.client.outbox, s.server.replies[j].clientSeq);
        }
      case _ =>
    }
  }

  lemma FlushPends(c: State, codeKey: string, notesKey: string)
    ensures var d := Flush(c, codeKey, notesKey);
            c.enqueued <= d.enqueued && d.outbox == c.outbox + d.enqueued[|c.enqueued|..]
  {
  }

  /** Only what was enqueued before can have been acknowledged. */
  lemma {:induction false} AckedIsOld(h: History, n: nat, clientSeq: int)
    requires IsRun(h) && n <= |h.steps| && IsAcked(h, n, clientSeq)
    ensures clientSeq < h.states[n].client.clientSeq
  {
    hide Next, Inv;
    var m := n - 1;
    AckedOneMore(h, m, clientSeq);
    assert IsStep(h, m);
    PendingStep(h.states[m], h.steps[m]);
    InvHolds(h, m);
    InvHolds(h, n);
    NumbersCount(h.states[m], h.log0, h.first);
    NumbersCount(h.states[n], h.log0, h.first);
    if IsAcked(h, m, clientSeq) {
      AckedIsOld(h, m, clientSeq);
    } else {
      AckIsEnqueued(h.states[m], h.log0, h.first, AckAt(h, m).value);
    }
  }

  lemma NumbersCount(s: System, log0: seq<ClientEvent>, first: nat)
    requires Inv(s, log0, first)
    ensures s.client.clientSeq == first + |s.client.enqueued|
    ensures IsNumberedFrom(s.client.enqueued, first)
    ensures forall e :: e in s.client.outbox ==> e in s.client.enqueued
  {
  }

  lemma AckIsEnqueued(s: System, log0: seq<ClientEvent>, first: nat, m: ServerMessage)
    requires Inv(s, log0, first) && m in s.server.replies && m.Ack?
    ensures m.clientSeq < s.client.clientSeq
  {
    assert IsAckOf(s.server.log, |log0|, m);
  }

  /** In every run what is pending is exactly what was enqueued and not acknowledged. */
  lemma {:induction false} PendingIsUnacknowledged(h: History, n: nat, e: ClientEvent)
    requires IsRun(h) && n <= |h.steps|
    ensures e in h.states[n].client.outbox <==> e in h.states[n].client.enqueued && !IsAcked(h, n, e.clientSeq)
  {
    hide Next, Inv;
    if n > 0 {
      var m := n - 1;
      PendingIsUnacknowledged(h, m, e);
      assert IsStep(h, m);
      PendingStep(h.states[m], h.steps[m]);
      AckedOneMore(h, m, e.clientSeq);
      InvHolds(h, m);
      InvHolds(h, n);
      NumbersCount(h.states[m], h.log0, h.first);
      NumbersCount(h.states[n], h.log0, h.first);
      NewIsUnacknowledged(h, m, e);
      SplitEnqueued(h.states[m].client.enqueued, h.states[n].client.enqueued, e);
    }
  }

  lemma SplitEnqueued(before: seq<ClientEvent>, after: seq<ClientEvent>, e: ClientEvent)
    requires before <= after
    ensures e in after <==> e in before || e in after[|before|..]
  {
    assert after == before + after[|before|..];
  }

  lemma NewIsUnacknowledged(h: History, m: nat, e: ClientEvent)
    requires IsRun(h) && m < |h.steps| && h.states[m].client.enqueued <= h.states[m + 1].client.enqueued
    requires IsNumberedFrom(h.states[m + 1].client.enqueued, h.first)
    requires h.states[m].client.clientSeq == h.first + |h.states[m].client.enqueued|
    ensures e in h.states[m + 1].client.enqueued[|h.states[m].client.enqueued|..] ==> !IsAcked(h, m, e.clientSeq)
  {
    if IsAcked(h, m, e.clientSeq) { AckedIsOld(h, m, e.clientSeq); }
  }

  // ----- Waits -----

  /** The cursor of the wait made by step `i`: the number of the last event enqueued by then. */
  ghost function CursorOf(h: History, i: nat): int
    requires i < |h.steps| && |h.states| == |h.steps| + 1
  {
    h.first + |h.states[i + 1].client.enqueued| - 1
  }

  function Count(cursors: seq<int>, cursor: int): nat {
    if cursors == [] then 0
    else Count(cursors[..|cursors| - 1], cursor) + if cursors[|cursors| - 1] == cursor then 1 else 0
  }

  lemma {:induction false} CountAppends(a: seq<int>, b: seq<int>, cursor: int)
    ensures Count(a + b, cursor) == Count(a, cursor) + Count(b, cursor)
  {
    if b == [] {
      assert a + b == a;
    } else {
      CountAppends(a, b[..|b| - 1], cursor);
      assert (a + b)[..|a + b| - 1] == a + b[..|b| - 1];
    }
  }

  /** How many waits were made for a cursor and have not given up: a wait adds one, and giving up takes one away. */
  ghost function Waits(h: History, n: nat, cursor: int): int
    requires n <= |h.steps| && |h.states| == |h.steps| + 1
  {
    if n == 0 then 0
    else Waits(h, n - 1, cursor) + Change(h.steps[n - 1], h.states[n - 1].client.waiters, CursorOf(h, n - 1), cursor)
  }

  ghost function Change(step: Step, waiters: seq<int>, made: int, cursor: int): int {
    match step
    case Wait(_, _) => if made == cursor then 1 else 0
    case GiveUp(i) => if i < |waiters| && waiters[i] == cursor then -1 else 0
    case _ => 0
  }

  /** How many promises for a cursor have resolved or still wait. */
  ghost function Promises(c: State, cursor: int): int {
    Count(c.resolved, cursor) + Count(c.waiters, cursor)
  }

  lemma {:induction false} WaitersAreKept(outbox: seq<ClientEvent>, waiters: seq<int>, cursor: int)
    ensures Count(StillWaiting(outbox, waiters), cursor) + Count(DoneWaiting(outbox, waiters), cursor) == Count(waiters, cursor)
  {
    if waiters != [] {
      var init, last := waiters[..|waiters| - 1], waiters[|waiters| - 1];
      WaitersAreKept(outbox, init, cursor);
      CountAppends(StillWaiting(outbox, init), [last], cursor);
      CountAppends(DoneWaiting(outbox, init), [last], cursor);
      assert [last][..0] == [];
    }
  }

  /** A step keeps every promise but for what a wait or giving up says. */
  ghost predicate KeepsPromises(c: State, step: Step, d: State, cursor: int) {
    c.resolved <= d.resolved && Promises(d, cursor) == Promises(c, cursor) + Change(step, c.waiters, d.clientSeq - 1, cursor)
  }

  lemma AckPromises(c: State, m: ServerMessage, cursor: int)
    requires m.Ack?
    ensures Promises(Handle(c, m), cursor) == Promises(c, cursor) && c.resolved <= Handle(c, m).resolved
  {
    var outbox := Without(c.outbox, m.clientSeq);
    WaitersAreKept(outbox, c.waiters, cursor);
    CountAppends(c.resolved, DoneWaiting(outbox, c.waiters), cursor);
  }

  lemma GiveUpPromises(c: State, i: nat, cursor: int)
    ensures Promises(TimedOut(c, i), cursor) ==
      Promises(c, cursor) - (if i < |c.waiters| && c.waiters[i] == cursor then 1 else 0)
  {
    if i < |c.waiters| {
      var before, after := c.waiters[..i], c.waiters[i + 1..];
      assert c.waiters == before + ([c.waiters[i]] + after);
      CountAppends(before, [c.waiters[i]] + after, cursor);
      CountAppends([c.waiters[i]], after, cursor);
      CountAppends(before, after, cursor);
      assert [c.waiters[i]][..0] == [];
    }
  }

  lemma WaitIsSettled(c: State, codeKey: string, notesKey: string)
    ensures var d := FlushAndWait(c, codeKey, notesKey); var target := d.clientSeq - 1;
            && d.pendingCode.None? && d.pendingNotes.None?
            && if target <= c.lastAckedClientSeq || !HasPendingThrough(d.outbox, target)
               then d.resolved == c.resolved + [target] && d.waiters == c.waiters
               else d.resolved == c.resolved && d.waiters == c.waiters + [target]
  {
  }

  lemma CountOneMore(cursors: seq<int>, last: int, cursor: int)
    ensures Count(cursors + [last], cursor) == Count(cursors, cursor) + if last == cursor then 1 else 0
  {
    assert (cursors + [last])[..|cursors|] == cursors;
  }

  lemma WaitPromises(c: State, codeKey: string, notesKey: string, cursor: int)
    ensures var d := FlushAndWait(c, codeKey, notesKey); var target := d.clientSeq - 1;
            c.resolved <= d.resolved && Promises(d, cursor) == Promises(c, cursor) + if target == cursor then 1 else 0
  {
    hide FlushAndWait, Count, HasPendingThrough;
    WaitIsSettled(c, codeKey, notesKey);
    var target := FlushAndWait(c, codeKey, notesKey).clientSeq - 1;
    CountOneMore(c.resolved, target, cursor);
    CountOneMore(c.waiters, target, cursor);
  }

  lemma PromisesStep(s: System, step: Step, cursor: int)
    ensures KeepsPromises(s.client, step, Next(s, step).client, cursor)
  {
    match step {
      case Wait(k, l) => WaitPromises(s.client, k, l, cursor);
      case GiveUp(i) => GiveUpPromises(s.client, i, cursor);
      case ToClient(j) =>
        if j < |s.server.replies| && s.server.replies[j].Ack? { AckPromises(s.client, s.server.replies[j], cursor); }
      case _ =>
    }
  }

  lemma CursorIsLast(h: History, i: nat)
    requires IsRun(h) && i < |h.steps|
    ensures CursorOf(h, i) == h.states[i + 1].client.clientSeq - 1
  {
    InvHolds(h, i + 1);
    NumbersCount(h.states[i + 1], h.log0, h.first);
  }

  /** In every run each wait is resolved or still waiting, under the number of the last event enqueued by then, unless it gave up. */
  lemma {:induction false} EveryWaitIsAccountedFor(h: History, n: nat, cursor: int)
    requires IsRun(h) && n <= |h.steps|
    ensures Promises(h.states[n].client, cursor) == Waits(h, n, cursor)
  {
    hide Next, CursorOf, Change;
    if n > 0 {
      hide Promises;
      EveryWaitIsAccountedFor(h, n - 1, cursor);
      CursorIsLast(h, n - 1);
      assert IsStep(h, n - 1);
      PromisesStep(h.states[n - 1], h.steps[n - 1], cursor);
    }
  }

  /** Something up to every waiting cursor is still pending. */
  ghost predicate NobodyIsDue(c: State) {
    forall t :: t in c.waiters ==> HasPendingThrough(c.outbox, t)
  }

  lemma StillPending(outbox: seq<ClientEvent>, more: seq<ClientEvent>, target: int)
    requires HasPendingThrough(outbox, target)
    ensures HasPendingThrough(outbox + more, target)
  {
    var i :| 0 <= i < |outbox| && outbox[i].clientSeq <= target;
    assert (outbox + more)[i] == outbox[i];
  }

  lemma DueStep(s: System, step: Step)
    requires NobodyIsDue(s.client)
    ensures NobodyIsDue(Next(s, step).client)
  {
    var c, d := s.client, Next(s, step).client;
    PendingStep(s, step);
    if step.ToClient? && step.reply < |s.server.replies| && s.server.replies[step.reply].Ack? {
      WaitersSplit(Without(c.outbox, s.server.replies[step.reply].clientSeq), c.waiters);
    } else {
      forall t | t in c.waiters ensures HasPendingThrough(d.outbox, t) {
        StillPending(c.outbox, d.enqueued[|c.enqueued|..], t);
      }
      WaitersStep(s, step);
    }
  }

  lemma WaitersStep(s: System, step: Step)
    requires !(step.ToClient? && step.reply < |s.server.replies| && s.server.replies[step.reply].Ack?)
    ensures var c, d := s.client, Next(s, step).client;
            forall t :: t in d.waiters ==> t in c.waiters || HasPendingThrough(d.outbox, t)
  {
  }

  /** In every run no waiter is overdue: a wait that has not resolved waits for something. */
  lemma {:induction false} NoWaiterIsOverdue(h: History, n: nat)
    requires IsRun(h) && n <= |h.steps|
    ensures NobodyIsDue(h.states[n].client)
  {
    hide Next, NobodyIsDue;
    if n == 0 {
      assert NobodyIsDue(Fresh(h.first, h.codeRevision)) by { NothingIsDue(h.first, h.codeRevision); }
    } else {
      NoWaiterIsOverdue(h, n - 1);
      assert IsStep(h, n - 1);
      DueStep(h.states[n - 1], h.steps[n - 1]);
    }
  }

  lemma NothingIsDue(first: int, revision: int)
    ensures NobodyIsDue(Fresh(first, revision))
  {
  }

  /**
   In every run a wait ships all edits and covers everything enqueued; it resolves at once if and
   only if nothing is pending then, or an acknowledgement of that event or a later one has come.
   */
  lemma WaitResolvesAtOnceExactly(h: History, n: nat)
    requires IsRun(h) && n < |h.steps| && h.steps[n].Wait?
    ensures var c, d, target := h.states[n].client, h.states[n + 1].client, CursorOf(h, n);
            && d.pendingCode.None? && d.pendingNotes.None?
            && if d.outbox == [] || (exists i: nat :: i < n && AckAt(h, i).Some? && AckAt(h, i).value.clientSeq >= target)
               then d.resolved == c.resolved + [target] && d.waiters == c.waiters
               else d.resolved == c.resolved && d.waiters == c.waiters + [target]
  {
    hide Inv;
    assert IsStep(h, n);
    InvHolds(h, n + 1);
    NumbersCount(h.states[n + 1], h.log0, h.first);
    var c, d, target := h.states[n].client, h.states[n + 1].client, CursorOf(h, n);
    WaitIsSettled(c, h.steps[n].codeKey, h.steps[n].notesKey);
    PendingIsBelow(d, target);
    CursorsAreHighest(h, n);
    if target >= 0 {
      HighestIsAcked(h, n, target);
    } else {
      NothingEnqueuedYet(h, n + 1);
    }
  }

  lemma PendingIsBelow(d: State, target: int)
    requires forall e :: e in d.outbox ==> e in d.enqueued
    requires forall e :: e in d.enqueued ==> e.clientSeq <= target
    ensures HasPendingThrough(d.outbox, target) <==> d.outbox != []
  {
    if d.outbox != [] { assert d.outbox[0] in d.outbox; }
  }

  lemma NothingEnqueuedYet(h: History, n: nat)
    requires IsRun(h) && n <= |h.steps| && |h.states[n].client.enqueued| == 0
    ensures h.states[n].client.outbox == []
  {
    InvHolds(h, n);
    EmptyOrNot(h.states[n].client.outbox);
  }

  // ----- What a flush ships -----

  ghost function Payloads(events: seq<ClientEvent>): seq<Payload> {
    seq(|events|, i requires 0 <= i < |events| => events[i].payload)
  }

  /** The edits a flush ships: the code first, under the next revision, then the notes. */
  ghost function Edits(c: State): seq<Payload> {
    (if c.pendingCode.Some? then [CodeDelta(c.codeRevision + 1, c.pendingCode.value)] else []) +
    (if c.pendingNotes.Some? then [NoteDelta(c.pendingNotes.value)] else [])
  }

  lemma FlushShips(c: State, codeKey: string, notesKey: string)
    ensures var d := Flush(c, codeKey, notesKey);
            && c.enqueued <= d.enqueued && Payloads(d.enqueued[|c.enqueued|..]) == Edits(c)
            && d.pendingCode.None? && d.pendingNotes.None?
            && d.codeRevision == c.codeRevision + if c.pendingCode.Some? then 1 else 0
  {
    var d := Flush(c, codeKey, notesKey);
    assert Payloads(d.enqueued[|c.enqueued|..]) == Edits(c);
  }

  /**
   In every run a flush, a wait and a run request each ship exactly the edits that are pending,
   each of them once, and leave none; the run request follows them and names their revision.
   */
  lemma EachEditIsShippedOnce(h: History, n: nat)
    requires IsRun(h) && n < |h.steps| && (h.steps[n].FlushEdits? || h.steps[n].Wait? || h.steps[n].Run?)
    ensures var c, d := h.states[n].client, h.states[n + 1].client;
            && c.enqueued <= d.enqueued && d.pendingCode.None? && d.pendingNotes.None?
            && d.codeRevision == c.codeRevision + (if c.pendingCode.Some? then 1 else 0)
            && Payloads(d.enqueued[|c.enqueued|..]) ==
                 Edits(c) + if h.steps[n].Run? then [RunRequested(d.codeRevision, h.steps[n].input)] else []
  {
    assert IsStep(h, n);
    var c, step := h.states[n].client, h.steps[n];
    FlushShips(c, step.codeKey, step.notesKey);
    var flushed := Flush(c, step.codeKey, step.notesKey);
    if step.Run? {
      var e := ClientEvent(flushed.clientSeq, step.runKey, RunRequested(flushed.codeRevision, step.input));
      assert (flushed.enqueued + [e])[|c.enqueued|..] == flushed.enqueued[|c.enqueued|..] + [e];
      assert Payloads(flushed.enqueued[|c.enqueued|..] + [e]) == Edits(c) + [e.payload];
    }
  }

  /** The text of the last note delta. */
  ghost function NotesOf(events: seq<ClientEvent>): Option<string> {
    if events == [] then None
    else if events[|events| - 1].payload.NoteDelta? then Some(events[|events| - 1].payload.text)
    else NotesOf(events[..|events| - 1])
  }

  /** What the candidate's notes said last, since the page was loaded. */
  ghost function LastNotes(h: History, n: nat): Option<string>
    requires n <= |h.steps|
  {
    if n == 0 then None else if h.steps[n - 1].Note? then Some(h.steps[n - 1].text) else LastNotes(h, n - 1)
  }

  ghost function NotesHeld(c: State): Option<string> {
    if c.pendingNotes.Some? then c.pendingNotes else NotesOf(c.enqueued)
  }

  lemma EnqueueHoldsNotes(c: State, payload: Payload, key: string)
    requires !payload.NoteDelta?
    ensures NotesHeld(Enqueue(c, payload, key)) == NotesHeld(c)
  {
    var e := ClientEvent(c.clientSeq, key, payload);
    assert (c.enqueued + [e])[..|c.enqueued|] == c.enqueued;
  }

  lemma FlushHoldsNotes(c: State, codeKey: string, notesKey: string)
    ensures NotesHeld(Flush(c, codeKey, notesKey)) == NotesHeld(c)
  {
    var d := FlushCode(c, codeKey);
    if c.pendingCode.Some? {
      EnqueueHoldsNotes(c.(codeRevision := c.codeRevision + 1), CodeDelta(c.codeRevision + 1, c.pendingCode.value), codeKey);
    }
  }

  lemma NotesStep(s: System, step: Step)
    ensures NotesHeld(Next(s, step).client) == if step.Note? then Some(step.text) else NotesHeld(s.client)
  {
    var c := s.client;
    match step {
      case Say(description, key) => EnqueueHoldsNotes(c, Speech(description), key);
      case FlushEdits(k, l) => FlushHoldsNotes(c, k, l);
      case Wait(k, l) => FlushHoldsNotes(c, k, l);
      case Run(input, k, l, r) =>
        FlushHoldsNotes(c, k, l);
        var flushed := Flush(c, k, l);
        EnqueueHoldsNotes(flushed, RunRequested(flushed.codeRevision, input), r);
      case _ =>
    }
  }

  /** In every run the last notes are pending, or are the last ones shipped. */
  lemma {:induction false} LastNotesAreKept(h: History, n: nat)
    requires IsRun(h) && n <= |h.steps|
    ensures NotesHeld(h.states[n].client) == LastNotes(h, n)
  {
    hide Next;
    if n > 0 {
      LastNotesAreKept(h, n - 1);
      assert IsStep(h, n - 1);
      NotesStep(h.states[n - 1], h.steps[n - 1]);
    }
  }
}
