/**
 The outbox protocol: the session client and the server's channel over a connection that
 may lose, repeat and reorder what is sent
 (apps/web/lib/session-client.ts, apps/api/src/modules/session/channel.ts, event-log.ts).

 The server handles one client event at a time, as its socket does. Everything ever handed
 to the transport may be delivered any number of times, or never.
 */
module Outbox {
  import opened Wrappers
  import opened SessionClient

  // ----- The server's side -----

  /** The session's accepted client events, the channel's cached watermark, and its replies. */
  datatype Server = Server(log: seq<ClientEvent>, watermark: Option<int>, replies: seq<ServerMessage>, ended: bool)

  function Latest(log: seq<ClientEvent>): int {
    if log == [] then -1 else Max(Latest(log[..|log| - 1]), log[|log| - 1].clientSeq)
  }

  predicate HasKey(log: seq<ClientEvent>, key: string) {
    exists i :: 0 <= i < |log| && log[i].key == key
  }

  predicate HasSeq(log: seq<ClientEvent>, clientSeq: int) {
    exists i :: 0 <= i < |log| && log[i].clientSeq == clientSeq
  }

  /** Where the event with this key is in the log; the log's length if it is new. */
  function PositionOf(log: seq<ClientEvent>, key: string): (k: nat)
    ensures HasKey(log, key) <==> k < |log|
    ensures k <= |log| && (k < |log| ==> log[k].key == key)
  {
    if log == [] then 0
    else
      var init := log[..|log| - 1];
      var k := PositionOf(init, key);
      if k < |init| || log[|init|].key == key then k else |log|
  }

  function LastContiguous(v: Server): int {
    if v.watermark.Some? then v.watermark.value else Latest(v.log)
  }

  function Reply(v: Server, message: ServerMessage): Server {
    v.(replies := v.replies + [message])
  }

  /** A gap is refused, a known key is acknowledged as it was the first time, a taken number is a conflict, the rest is appended. */
  function Receive(v: Server, e: ClientEvent): Server {
    if v.ended || e.clientSeq < 0 then v
    else
      var last := LastContiguous(v);
      var mark := Some(Max(last, e.clientSeq));
      if e.clientSeq > last + 1 then Reply(v.(watermark := Some(last)), ReplayFrom(last + 1))
      else if HasKey(v.log, e.key) then Reply(v.(watermark := mark), Ack(e.clientSeq, PositionOf(v.log, e.key)))
      else if HasSeq(v.log, e.clientSeq) then Reply(v.(watermark := Some(Latest(v.log))), ReplayFrom(Latest(v.log) + 1))
      else Reply(v.(log := v.log + [e], watermark := mark), Ack(e.clientSeq, |v.log|))
  }

  class SessionChannel {
    var log: seq<ClientEvent>
    var lastClientSeq: Option<int>
    var ended: bool
    ghost var replies: seq<ServerMessage>

    ghost function View(): Server
      reads this
    {
      Server(log, lastClientSeq, replies, ended)
    }

    constructor (log: seq<ClientEvent>)
      ensures View() == Server(log, None, [], false)
    {
      this.log, lastClientSeq, ended, replies := log, None, false, [];
    }

    method LatestClientSeq() returns (latest: int)
      ensures latest == Latest(log)
    {
      latest := -1;
      for i := 0 to |log|
        invariant latest == Latest(log[..i])
      {
        assert log[..i + 1][..i] == log[..i];
        latest := Max(latest, log[i].clientSeq);
      }
      assert log[..|log|] == log;
    }

    /** What the event log says about a key and a number. */
    method Lookup(key: string, clientSeq: int) returns (position: nat, taken: bool)
      ensures position == PositionOf(log, key) && taken == HasSeq(log, clientSeq)
    {
      position, taken := 0, false;
      for i := 0 to |log|
        invariant position == PositionOf(log[..i], key) && taken == HasSeq(log[..i], clientSeq)
      {
        ghost var before, after := log[..i], log[..i + 1];
        assert after == before + [log[i]] && after[i] == log[i] && after[..i] == before;
        assert forall k :: 0 <= k < i ==> after[k] == before[k];
        if position == i && log[i].key != key { position := i + 1; }
        taken := taken || log[i].clientSeq == clientSeq;
      }
      assert log[..|log|] == log;
    }

    method HandleClientEvent(e: ClientEvent) returns (reply: Option<ServerMessage>)
      modifies this
      ensures View() == Receive(old(View()), e)
      ensures replies == old(replies) + if reply.Some? then [reply.value] else []
    {
      if ended || e.clientSeq < 0 { return None; }
      if lastClientSeq.None? {
        var latest := LatestClientSeq();
        lastClientSeq := Some(latest);
      }
      var expected := lastClientSeq.value + 1;
      if e.clientSeq > expected {
        reply := Some(ReplayFrom(expected));
      } else {
        var position, taken := Lookup(e.key, e.clientSeq);
        if position == |log| && taken {
          var latest := LatestClientSeq();
          lastClientSeq := Some(latest);
          reply := Some(ReplayFrom(latest + 1));
        } else {
          reply := Some(Ack(e.clientSeq, position));
          if position == |log| { log := log + [e]; }
          if e.clientSeq >= expected { lastClientSeq := Some(e.clientSeq); }
        }
      }
      replies := replies + [reply.value];
    }

    /** The socket closed: the cached watermark is dropped. */
    method Forget()
      modifies this
      ensures View() == old(View()).(watermark := None)
    {
      lastClientSeq := None;
    }
  }

  // ----- Client and server together -----

  datatype System = System(client: State, server: Server)

  datatype Step =
    | Edit(text: string)
    | Note(text: string)
    | Say(description: string, key: string)
    | FlushEdits(codeKey: string, notesKey: string)
    | Run(input: string, codeKey: string, notesKey: string, runKey: string)
    | Wait(codeKey: string, notesKey: string)
    | GiveUp(waiter: nat)
    | Open
    | Lose
    | ToServer(sent: nat)
    | ToClient(reply: nat)
    | Forget
    | End

  function Next(s: System, step: Step): System {
    match step
    case Edit(text) => s.(client := s.client.(pendingCode := Some(text)))
    case Note(text) => s.(client := s.client.(pendingNotes := Some(text)))
    case Say(description, key) => s.(client := Enqueue(s.client, Speech(description), key))
    case FlushEdits(k, l) => s.(client := Flush(s.client, k, l))
    case Run(input, k, l, r) => s.(client := RequestRun(s.client, input, k, l, r))
    case Wait(k, l) => s.(client := FlushAndWait(s.client, k, l))
    case GiveUp(i) => s.(client := TimedOut(s.client, i))
    case Open => s.(client := Opened(s.client))
    case Lose => s.(client := s.client.(connected := false))
    case ToServer(i) => if i < |s.client.sent| then s.(server := Receive(s.server, s.client.sent[i])) else s
    case ToClient(j) => if j < |s.server.replies| then s.(client := Handle(s.client, s.server.replies[j])) else s
    case Forget => s.(server := s.server.(watermark := None))
    case End => s.(server := s.server.(ended := true))
  }

  function Keys(step: Step): seq<string> {
    match step
    case Say(_, key) => [key]
    case FlushEdits(k, l) => [k, l]
    case Run(_, k, l, r) => [k, l, r]
    case Wait(k, l) => [k, l]
    case _ => []
  }

  /** The client's key generator does not repeat itself. */
  ghost predicate KeysAreNew(s: System, log0: seq<ClientEvent>, keys: seq<string>) {
    && (forall i, j :: 0 <= i < j < |keys| ==> keys[i] != keys[j])
    && (forall i :: 0 <= i < |keys| ==> !HasKey(log0 + s.client.enqueued, keys[i]))
  }

  /** A page load: the client numbers its events from `first`, which is 0 when it could not resume. */
  ghost function Start(log0: seq<ClientEvent>, first: nat, codeRevision: int): System {
    System(Fresh(first, codeRevision), Server(log0, None, [], false))
  }

  /** A run of the protocol: the steps taken and the states they lead through. */
  datatype History = History(log0: seq<ClientEvent>, first: nat, codeRevision: int, steps: seq<Step>, states: seq<System>)

  ghost predicate IsStep(h: History, i: nat)
    requires i < |h.steps| && |h.states| == |h.steps| + 1
  {
    KeysAreNew(h.states[i], h.log0, Keys(h.steps[i])) && h.states[i + 1] == Next(h.states[i], h.steps[i])
  }

  ghost predicate IsRun(h: History) {
    && IsNumbered(h.log0) && KeysDiffer(h.log0)
    && |h.states| == |h.steps| + 1 && h.states[0] == Start(h.log0, h.first, h.codeRevision)
    && (forall i: nat :: i < |h.steps| ==> IsStep(h, i))
  }

  /** A run of a page that resumed: it numbers on from where the server's log of the session ended. */
  ghost predicate Resumes(h: History) {
    IsRun(h) && h.first == |h.log0|
  }

  ghost function Last(h: History): System
    requires h.states != []
  {
    h.states[|h.states| - 1]
  }

  /** Every run can go on with any step whose keys are new. */
  lemma Longer(h: History, step: Step) returns (longer: History)
    requires IsRun(h) && KeysAreNew(Last(h), h.log0, Keys(step))
    ensures longer == h.(steps := h.steps + [step], states := h.states + [Next(Last(h), step)])
    ensures IsRun(longer) && Last(longer) == Next(Last(h), step)
  {
    hide Next, KeysAreNew;
    longer := h.(steps := h.steps + [step], states := h.states + [Next(Last(h), step)]);
    forall i: nat | i < |longer.steps| ensures IsStep(longer, i) {
      assert i < |h.steps| ==> IsStep(h, i);
    }
  }

  // ----- What every run keeps -----

  ghost predicate IsNumbered(log: seq<ClientEvent>) {
    forall i :: 0 <= i < |log| ==> log[i].clientSeq == i
  }

  ghost predicate KeysDiffer(log: seq<ClientEvent>) {
    forall i, j :: 0 <= i < j < |log| ==> log[i].key != log[j].key
  }

  ghost predicate IsNumberedFrom(events: seq<ClientEvent>, first: nat) {
    forall i :: 0 <= i < |events| ==> events[i].clientSeq == first + i
  }

  /** The client's bookkeeping, with `first` its first number and `log` what the server has. */
  ghost predicate ClientInv(c: State, first: nat, log: seq<ClientEvent>) {
    && IsNumberedFrom(c.enqueued, first) && c.clientSeq == first + |c.enqueued|
    && IsAscending(c.outbox) && (forall e :: e in c.outbox ==> e in c.enqueued)
    && (forall e :: e in c.sent ==> e in c.enqueued)
    && (forall e :: e in c.enqueued ==> e in log || e in c.outbox)
    && c.lastAckedClientSeq < |log|
    && (forall t :: t in c.waiters ==> t < c.clientSeq)
    && (forall t :: t in c.resolved ==> t < |log| || t < first)
  }

  /** The acknowledgement names an event of this page and its place in the log. */
  ghost predicate IsAckOf(log: seq<ClientEvent>, from: nat, m: ServerMessage)
    requires m.Ack?
  {
    from <= m.serverSeq < |log| && log[m.serverSeq].clientSeq == m.clientSeq
  }

  /** The log starts with `log0` and goes on with what was enqueued, from the number that is due. */
  ghost predicate GoesOn(log: seq<ClientEvent>, log0: seq<ClientEvent>, first: nat, enqueued: seq<ClientEvent>) {
    && log0 <= log
    && (|log| > |log0| ==> first <= |log0| && |log| <= first + |enqueued|)
    && forall i :: |log0| <= i < |log| ==> log[i] == enqueued[i - first]
  }

  /** The log goes on with what this page enqueued, only that is acknowledged, and nothing the log lacks is skipped. */
  ghost predicate ServerInv(v: Server, log0: seq<ClientEvent>, first: nat, enqueued: seq<ClientEvent>) {
    && IsNumbered(v.log) && GoesOn(v.log, log0, first, enqueued)
    && (v.watermark.Some? ==> v.watermark.value == |v.log| - 1)
    && (forall m :: m in v.replies && m.Ack? ==> IsAckOf(v.log, |log0|, m))
    && (forall m :: m in v.replies && m.ReplayFrom? ==> m.expected <= |v.log|)
  }

  ghost predicate Inv(s: System, log0: seq<ClientEvent>, first: nat) {
    && KeysDiffer(log0 + s.client.enqueued)
    && ServerInv(s.server, log0, first, s.client.enqueued) && ClientInv(s.client, first, s.server.log)
  }

  lemma {:induction false} LatestOfNumbered(log: seq<ClientEvent>)
    requires IsNumbered(log)
    ensures Latest(log) == |log| - 1
  {
    if log != [] {
      LatestOfNumbered(log[..|log| - 1]);
    }
  }

  /** An enqueued event gets the next number; it is in the outbox until it is acknowledged. */
  lemma EnqueueKeeps(c: State, first: nat, log: seq<ClientEvent>, payload: Payload, key: string)
    requires ClientInv(c, first, log)
    ensures ClientInv(Enqueue(c, payload, key), first, log)
  {
    var e := ClientEvent(c.clientSeq, key, payload);
    var outbox' := c.outbox + [e];
    forall i, j | 0 <= i < j < |outbox'| ensures outbox'[i].clientSeq < outbox'[j].clientSeq {
      assert c.outbox[i] in c.enqueued;
    }
  }

  lemma KeysStillDiffer(all: seq<ClientEvent>, e: ClientEvent)
    requires KeysDiffer(all) && !HasKey(all, e.key)
    ensures KeysDiffer(all + [e])
  {
    forall i, j | 0 <= i < j < |all + [e]| ensures (all + [e])[i].key != (all + [e])[j].key {
      if j == |all| { assert all[i].key != e.key; }
    }
  }

  /** From `c` to `c'` more was enqueued, under keys that differ, and the books were kept. */
  ghost predicate Extends(c: State, c': State, log0: seq<ClientEvent>, first: nat, log: seq<ClientEvent>) {
    c.enqueued <= c'.enqueued && ClientInv(c', first, log) && KeysDiffer(log0 + c'.enqueued)
  }

  lemma EnqueueExtends(c: State, log0: seq<ClientEvent>, first: nat, log: seq<ClientEvent>, payload: Payload, key: string)
    requires ClientInv(c, first, log) && KeysDiffer(log0 + c.enqueued) && !HasKey(log0 + c.enqueued, key)
    ensures Extends(c, Enqueue(c, payload, key), log0, first, log)
    ensures forall k :: HasKey(log0 + Enqueue(c, payload, key).enqueued, k) ==> k == key || HasKey(log0 + c.enqueued, k)
  {
    EnqueueKeeps(c, first, log, payload, key);
    var e := ClientEvent(c.clientSeq, key, payload);
    KeysStillDiffer(log0 + c.enqueued, e);
    assert log0 + (c.enqueued + [e]) == log0 + c.enqueued + [e];
  }

  lemma FlushExtends(c: State, log0: seq<ClientEvent>, first: nat, log: seq<ClientEvent>, codeKey: string, notesKey: string)
    requires ClientInv(c, first, log) && KeysDiffer(log0 + c.enqueued)
    requires codeKey != notesKey && !HasKey(log0 + c.enqueued, codeKey) && !HasKey(log0 + c.enqueued, notesKey)
    ensures Extends(c, Flush(c, codeKey, notesKey), log0, first, log)
    ensures forall k :: HasKey(log0 + Flush(c, codeKey, notesKey).enqueued, k) ==>
      k == codeKey || k == notesKey || HasKey(log0 + c.enqueued, k)
  {
    var d := FlushCode(c, codeKey);
    if c.pendingCode.Some? {
      var revision := c.codeRevision + 1;
      EnqueueExtends(c.(codeRevision := revision), log0, first, log, CodeDelta(revision, c.pendingCode.value), codeKey);
    }
    if d.pendingNotes.Some? {
      EnqueueExtends(d, log0, first, log, NoteDelta(d.pendingNotes.value), notesKey);
    }
  }

  /** An event of this page that nothing pending stands for has been accepted, under its own number. */
  lemma NotPendingMeansAccepted(c: State, first: nat, log: seq<ClientEvent>, outbox: seq<ClientEvent>, target: int)
    requires IsNumberedFrom(c.enqueued, first) && IsNumbered(log) && (forall e :: e in c.enqueued ==> e in log || e in outbox)
    requires first <= target < first + |c.enqueued| && !HasPendingThrough(outbox, target)
    ensures target < |log|
  {
    var e := c.enqueued[target - first];
    assert e in c.enqueued && e.clientSeq == target;
    assert e !in outbox;
  }

  /** Whatever the outbox does not hold up to a cursor, and whatever was acknowledged, has been accepted. */
  lemma SettledMeansAccepted(c: State, first: nat, log: seq<ClientEvent>, target: int)
    requires ClientInv(c, first, log) && IsNumbered(log) && target < c.clientSeq && IsSettled(c, target)
    ensures target < |log| || target < first
  {
    if first <= target && c.lastAckedClientSeq < target {
      NotPendingMeansAccepted(c, first, log, c.outbox, target);
    }
  }

  lemma WaitKeeps(c: State, log0: seq<ClientEvent>, first: nat, log: seq<ClientEvent>, codeKey: string, notesKey: string)
    requires ClientInv(c, first, log) && IsNumbered(log) && KeysDiffer(log0 + c.enqueued)
    requires codeKey != notesKey && !HasKey(log0 + c.enqueued, codeKey) && !HasKey(log0 + c.enqueued, notesKey)
    ensures Extends(c, FlushAndWait(c, codeKey, notesKey), log0, first, log)
  {
    FlushExtends(c, log0, first, log, codeKey, notesKey);
    var flushed := Flush(c, codeKey, notesKey);
    var target := flushed.clientSeq - 1;
    if IsSettled(flushed, target) {
      SettledMeansAccepted(flushed, first, log, target);
    }
  }

  /** An acknowledgement of an accepted event of this page: the outbox lets go of nothing that has not arrived. */
  lemma AckKeeps(c: State, v: Server, log0: seq<ClientEvent>, first: nat, m: ServerMessage)
    requires ClientInv(c, first, v.log) && ServerInv(v, log0, first, c.enqueued) && m in v.replies && m.Ack?
    ensures ClientInv(Handle(c, m), first, v.log)
  {
    var outbox := Without(c.outbox, m.clientSeq);
    WithoutRemovesExactly(c.outbox, m.clientSeq);
    WaitersSplit(outbox, c.waiters);
    assert IsAckOf(v.log, |log0|, m);
    forall e | e in c.enqueued ensures e in v.log || e in outbox {
      var i :| 0 <= i < |c.enqueued| && c.enqueued[i] == e;
      assert e.clientSeq == m.clientSeq ==> v.log[m.serverSeq] == e;
    }
    forall t | t in DoneWaiting(outbox, c.waiters) ensures t < |v.log| || t < first {
      if first <= t { NotPendingMeansAccepted(c, first, v.log, outbox, t); }
    }
  }

  /** Sending part of the outbox again changes only what is on the wire. */
  lemma ResendKeeps(c: State, first: nat, log: seq<ClientEvent>, events: seq<ClientEvent>)
    requires ClientInv(c, first, log) && forall e :: e in events ==> e in c.outbox
    ensures ClientInv(Send(c, events), first, log) && Send(c, events).enqueued == c.enqueued
  {
  }

  /** What the server accepted stays accepted when more is enqueued. */
  lemma ServerInvGrows(v: Server, log0: seq<ClientEvent>, first: nat, enqueued: seq<ClientEvent>, more: seq<ClientEvent>)
    requires ServerInv(v, log0, first, enqueued) && enqueued <= more
    ensures ServerInv(v, log0, first, more)
  {
  }

  lemma ClientStepKeeps(s: System, log0: seq<ClientEvent>, first: nat, step: Step)
    requires Inv(s, log0, first) && KeysAreNew(s, log0, Keys(step))
    requires !step.ToServer? && !step.ToClient? && !step.Forget? && !step.End?
    ensures Inv(Next(s, step), log0, first)
  {
    var c, log := s.client, s.server.log;
    hide ServerInv, KeysDiffer, IsNumberedFrom, HasKey;
    assert IsNumbered(log) by { ServerInvMeansNumbered(s.server, log0, first, c.enqueued); }
    assert forall i :: 0 <= i < |Keys(step)| ==> !HasKey(log0 + c.enqueued, Keys(step)[i]);
    match step {
      case Say(description, key) =>
        assert Keys(step)[0] == key;
        EnqueueExtends(c, log0, first, log, Speech(description), key);
      case FlushEdits(k, l) =>
        assert Keys(step)[0] == k && Keys(step)[1] == l;
        FlushExtends(c, log0, first, log, k, l);
      case Run(input, k, l, r) =>
        assert Keys(step)[0] == k && Keys(step)[1] == l && Keys(step)[2] == r;
        FlushExtends(c, log0, first, log, k, l);
        var flushed := Flush(c, k, l);
        EnqueueExtends(flushed, log0, first, log, RunRequested(flushed.codeRevision, input), r);
      case Wait(k, l) =>
        assert Keys(step)[0] == k && Keys(step)[1] == l;
        WaitKeeps(c, log0, first, log, k, l);
      case Open =>
        SortedIsIdentity(c.outbox);
        ResendKeeps(c.(connected := true), first, log, Sorted(c.outbox));
      case GiveUp(i) =>
        assert forall t :: t in TimedOut(c, i).waiters ==> t in c.waiters;
      case _ =>
    }
    ServerInvGrows(s.server, log0, first, c.enqueued, Next(s, step).client.enqueued);
  }

  lemma ServerInvMeansNumbered(v: Server, log0: seq<ClientEvent>, first: nat, enqueued: seq<ClientEvent>)
    requires ServerInv(v, log0, first, enqueued)
    ensures IsNumbered(v.log)
  {
  }

  /** Where an accepted event was enqueued, if this page did it. */
  lemma AcceptedOnce(v: Server, log0: seq<ClientEvent>, first: nat, enqueued: seq<ClientEvent>, i: nat, k: nat)
    requires ServerInv(v, log0, first, enqueued) && KeysDiffer(log0 + enqueued)
    requires i < |v.log| && k < |enqueued| && v.log[i].key == enqueued[k].key
    ensures |log0| <= i && i == first + k && v.log[i] == enqueued[k]
  {
    var all := log0 + enqueued;
    assert all[|log0| + k] == enqueued[k];
    assert forall j :: 0 <= j < |log0| ==> all[j] == v.log[j];
    assert i >= |log0| ==> all[|log0| + i - first] == v.log[i];
  }

  /** The log's own keys differ. */
  lemma LogKeysDiffer(v: Server, log0: seq<ClientEvent>, first: nat, enqueued: seq<ClientEvent>)
    requires ServerInv(v, log0, first, enqueued) && KeysDiffer(log0 + enqueued)
    ensures KeysDiffer(v.log)
  {
    forall i, j | 0 <= i < j < |v.log| ensures v.log[i].key != v.log[j].key {
      if j < |log0| {
        assert (log0 + enqueued)[i] == v.log[i] && (log0 + enqueued)[j] == v.log[j];
      } else if v.log[i].key == v.log[j].key {
        AcceptedOnce(v, log0, first, enqueued, i, j - first);
      }
    }
  }

  /** Receiving an event of this page: the log grows by at most that event, under its own number. */
  lemma ReceiveKeeps(v: Server, log0: seq<ClientEvent>, first: nat, enqueued: seq<ClientEvent>, e: ClientEvent)
    requires ServerInv(v, log0, first, enqueued) && IsNumberedFrom(enqueued, first) && KeysDiffer(log0 + enqueued) && e in enqueued
    ensures ServerInv(Receive(v, e), log0, first, enqueued) && v.log <= Receive(v, e).log
    ensures !v.ended && e.clientSeq == |v.log| ==> |Receive(v, e).log| == |v.log| + 1
  {
    LatestOfNumbered(v.log);
    var k :| 0 <= k < |enqueued| && enqueued[k] == e;
    var i := PositionOf(v.log, e.key);
    if i < |v.log| { AcceptedOnce(v, log0, first, enqueued, i, k); }
    assert e.clientSeq < |v.log| ==> v.log[e.clientSeq].clientSeq == e.clientSeq;
    assert k == e.clientSeq - first;
    var w := Receive(v, e);
    if |w.log| > |v.log| {
      assert w.log == v.log + [e] && e.clientSeq == |v.log|;
    }
  }

  lemma ClientInvGrows(c: State, first: nat, log: seq<ClientEvent>, longer: seq<ClientEvent>)
    requires ClientInv(c, first, log) && log <= longer
    ensures ClientInv(c, first, longer)
  {
  }

  lemma InvStep(s: System, log0: seq<ClientEvent>, first: nat, step: Step)
    requires Inv(s, log0, first) && KeysAreNew(s, log0, Keys(step))
    ensures Inv(Next(s, step), log0, first)
  {
    var c, v := s.client, s.server;
    match step {
      case ToServer(i) =>
        if i < |c.sent| {
          hide ClientInv, ServerInv, KeysDiffer, Receive;
          SentIsEnqueued(c, first, v.log, i);
          ReceiveKeeps(v, log0, first, c.enqueued, c.sent[i]);
          ClientInvGrows(c, first, v.log, Receive(v, c.sent[i]).log);
        }
      case ToClient(j) =>
        if j < |v.replies| {
          var m := v.replies[j];
          assert m in v.replies;
          match m {
            case Ack(_, _) => AckKeeps(c, v, log0, first, m);
            case ReplayFrom(expected) =>
              SortedIsIdentity(c.outbox);
              FromKeepsExactly(c.outbox, expected);
              ResendKeeps(c, first, v.log, From(Sorted(c.outbox), expected));
          }
        }
      case Forget =>
      case End =>
      case _ => ClientStepKeeps(s, log0, first, step);
    }
  }

  lemma SentIsEnqueued(c: State, first: nat, log: seq<ClientEvent>, i: nat)
    requires ClientInv(c, first, log) && i < |c.sent|
    ensures c.sent[i] in c.enqueued && IsNumberedFrom(c.enqueued, first)
  {
    assert c.sent[i] in c.sent;
  }

  lemma {:induction false} InvHolds(h: History, n: nat)
    requires IsRun(h) && n <= |h.steps|
    ensures Inv(h.states[n], h.log0, h.first)
  {
    hide Next;
    if n == 0 {
      assert h.log0 + [] == h.log0;
    } else {
      hide Inv;
      InvHolds(h, n - 1);
      assert IsStep(h, n - 1);
      InvStep(h.states[n - 1], h.log0, h.first, h.steps[n - 1]);
    }
  }

  // ----- What that means -----

  /**
   In every run, wherever the page's numbers start and whatever is lost, repeated or reordered:
   the accepted log is gap-free and free of duplicates, it starts with what was there, and goes
   on with the page's events under just the numbers they were enqueued with.
   */
  lemma AcceptedGoesOn(h: History, n: nat)
    requires IsRun(h) && n <= |h.steps|
    ensures var log, enqueued := h.states[n].server.log, h.states[n].client.enqueued;
            IsNumbered(log) && KeysDiffer(log) && GoesOn(log, h.log0, h.first, enqueued)
  {
    InvHolds(h, n);
    LogKeysDiffer(h.states[n].server, h.log0, h.first, h.states[n].client.enqueued);
  }

  /** So for a page that resumed the log is everything enqueued so far up to some point, in order. */
  lemma AcceptedIsAPrefix(h: History, n: nat)
    requires Resumes(h) && n <= |h.steps|
    ensures h.log0 <= h.states[n].server.log <= h.log0 + h.states[n].client.enqueued
    ensures IsNumbered(h.states[n].server.log) && KeysDiffer(h.states[n].server.log)
  {
    AcceptedGoesOn(h, n);
    PrefixPointwise(h.log0, h.states[n].server.log, h.states[n].client.enqueued);
  }

  lemma PrefixPointwise(log0: seq<ClientEvent>, log: seq<ClientEvent>, enqueued: seq<ClientEvent>)
    requires GoesOn(log, log0, |log0|, enqueued)
    ensures log <= log0 + enqueued
  {
    var all := log0 + enqueued;
    assert forall i :: 0 <= i < |log| ==> log[i] == all[i];
  }

  /** Nothing is lost: each enqueued event has been accepted or is still in the outbox. */
  lemma NothingIsLost(h: History, n: nat, e: ClientEvent)
    requires IsRun(h) && n <= |h.steps| && e in h.states[n].client.enqueued
    ensures e in h.states[n].server.log || e in h.states[n].client.outbox
  {
    InvHolds(h, n);
  }

  // ----- Which cursors are sealed -----

  /** Every event numbered up to a cursor that was resolved has been accepted. */
  ghost predicate IsSealed(h: History, n: nat)
    requires n < |h.states|
  {
    var s := h.states[n];
    forall cursor, e :: cursor in s.client.resolved && e in h.log0 + s.client.enqueued && e.clientSeq <= cursor ==>
      e in s.server.log
  }

  lemma InvMeansSealed(s: System, log0: seq<ClientEvent>, first: nat, cursor: int, e: ClientEvent)
    requires Inv(s, log0, first) && first >= |log0| && cursor in s.client.resolved
    requires e in log0 + s.client.enqueued && e.clientSeq <= cursor
    ensures e in s.server.log
  {
    var all := log0 + s.client.enqueued;
    var i :| 0 <= i < |all| && all[i] == e;
    if i < |log0| {
      assert s.server.log[i] == e;
    } else {
      assert s.client.enqueued[i - |log0|] == e;
      assert s.server.log[e.clientSeq] == e;
    }
  }

  /**
   A cursor that `flushAndWaitForAcknowledgement` has resolved with is sealed if the page's
   numbers do not start below the end of the log: every event numbered up to it has been
   accepted. This covers the shortcut over the highest acknowledged number, which is sound
   because the server accepts no gaps.
   */
  lemma ResolvedMeansAccepted(h: History, n: nat)
    requires IsRun(h) && n <= |h.steps| && h.first >= |h.log0|
    ensures IsSealed(h, n)
  {
    InvHolds(h, n);
    forall cursor, e | cursor in h.states[n].client.resolved && e in h.log0 + h.states[n].client.enqueued && e.clientSeq <= cursor
      ensures e in h.states[n].server.log
    {
      InvMeansSealed(h.states[n], h.log0, h.first, cursor, e);
    }
  }

  /**
   Blind retry is safe: an accepted event that arrives again is acknowledged with the place it
   was given the first time, and the log stays as it is.
   */
  lemma RetryIsHarmless(h: History, n: nat, i: nat)
    requires IsRun(h) && n <= |h.steps| && i < |h.states[n].server.log| && !h.states[n].server.ended
    ensures var v := h.states[n].server; var w := Receive(v, v.log[i]);
            w.log == v.log && w.replies == v.replies + [Ack(i, i)]
  {
    InvHolds(h, n);
    var v := h.states[n].server;
    LatestOfNumbered(v.log);
    LogKeysDiffer(v, h.log0, h.first, h.states[n].client.enqueued);
    var k := PositionOf(v.log, v.log[i].key);
    assert HasKey(v.log, v.log[i].key);
  }

  // ----- A clean round trip drains the outbox -----

  ghost function ReceiveAll(v: Server, events: seq<ClientEvent>): Server {
    if events == [] then v else Receive(ReceiveAll(v, events[..|events| - 1]), events[|events| - 1])
  }

  ghost function HandleAll(c: State, replies: seq<ServerMessage>): State {
    if replies == [] then c else Handle(HandleAll(c, replies[..|replies| - 1]), replies[|replies| - 1])
  }

  /** Before each event of the list comes whatever the server needs first. */
  ghost predicate SkipsNothing(all: seq<ClientEvent>, have: nat, events: seq<ClientEvent>) {
    forall k, i :: 0 <= k < |events| && have <= i < |all| && i < events[k].clientSeq ==> all[i] in events[..k]
  }

  ghost predicate AreAcks(replies: seq<ServerMessage>, events: seq<ClientEvent>) {
    |replies| == |events| && forall k :: 0 <= k < |events| ==> replies[k].Ack? && replies[k].clientSeq == events[k].clientSeq
  }

  /** An event that leaves no gap is acknowledged, and accepted from then on. */
  lemma NextIsAcknowledged(v: Server, log0: seq<ClientEvent>, enqueued: seq<ClientEvent>, e: ClientEvent)
    requires ServerInv(v, log0, |log0|, enqueued) && IsNumberedFrom(enqueued, |log0|) && KeysDiffer(log0 + enqueued)
    requires !v.ended && e in enqueued && e.clientSeq <= |v.log|
    ensures var w := Receive(v, e);
            !w.ended && e.clientSeq < |w.log| && w.replies == v.replies + [Ack(e.clientSeq, PositionOf(v.log, e.key))]
  {
    LatestOfNumbered(v.log);
    var k :| 0 <= k < |enqueued| && enqueued[k] == e;
    assert e.clientSeq < |v.log| ==> v.log[e.clientSeq] == e;
    ReceiveKeeps(v, log0, |log0|, enqueued, e);
  }

  /** From `v` to `w` the server accepted every event of the list, and acknowledged each in turn. */
  ghost predicate Answered(v: Server, w: Server, log0: seq<ClientEvent>, enqueued: seq<ClientEvent>, events: seq<ClientEvent>) {
    && ServerInv(w, log0, |log0|, enqueued) && !w.ended && v.log <= w.log && (forall e :: e in events ==> e.clientSeq < |w.log|)
    && v.replies <= w.replies && AreAcks(w.replies[|v.replies|..], events)
  }

  lemma AnsweredGrows(v: Server, w: Server, log0: seq<ClientEvent>, enqueued: seq<ClientEvent>,
                      init: seq<ClientEvent>, last: ClientEvent)
    requires IsNumberedFrom(enqueued, |log0|) && KeysDiffer(log0 + enqueued) && Answered(v, w, log0, enqueued, init)
    requires last in enqueued && last.clientSeq <= |w.log|
    ensures Answered(v, Receive(w, last), log0, enqueued, init + [last])
  {
    hide Receive, KeysDiffer, ServerInv;
    NextIsAcknowledged(w, log0, enqueued, last);
    ReceiveKeeps(w, log0, |log0|, enqueued, last);
  }

  lemma SkipsNothingBefore(all: seq<ClientEvent>, have: nat, events: seq<ClientEvent>)
    requires SkipsNothing(all, have, events) && IsNumbered(all) && events != [] && forall e :: e in events ==> e in all
    ensures var init, last := events[..|events| - 1], events[|events| - 1];
            && SkipsNothing(all, have, init) && last in all
            && (last.clientSeq <= have || all[last.clientSeq - 1] in init)
  {
    assert forall k :: 0 <= k < |events| - 1 ==> events[..k] == events[..|events| - 1][..k];
  }

  lemma AllIsNumbered(v: Server, log0: seq<ClientEvent>, enqueued: seq<ClientEvent>)
    requires ServerInv(v, log0, |log0|, enqueued) && IsNumberedFrom(enqueued, |log0|)
    ensures IsNumbered(log0 + enqueued) && v.log <= log0 + enqueued
  {
    assert forall i :: 0 <= i < |log0| ==> log0[i] == v.log[i];
    PrefixPointwise(log0, v.log, enqueued);
  }

  /** A list that skips nothing the server lacks is accepted whole, and every event of it acknowledged. */
  lemma {:induction false} InOrderIsAcceptedWhole(v: Server, log0: seq<ClientEvent>, enqueued: seq<ClientEvent>, events: seq<ClientEvent>)
    requires ServerInv(v, log0, |log0|, enqueued) && IsNumberedFrom(enqueued, |log0|) && KeysDiffer(log0 + enqueued) && !v.ended
    requires SkipsNothing(log0 + enqueued, |v.log|, events) && forall e :: e in events ==> e in enqueued
    ensures Answered(v, ReceiveAll(v, events), log0, enqueued, events)
  {
    hide Receive, KeysDiffer, SkipsNothing, ServerInv, IsNumberedFrom;
    if events != [] {
      var init, last := events[..|events| - 1], events[|events| - 1];
      AllIsNumbered(v, log0, enqueued);
      SkipsNothingBefore(log0 + enqueued, |v.log|, events);
      InOrderIsAcceptedWhole(v, log0, enqueued, init);
      var w := ReceiveAll(v, init);
      AnsweredGrows(v, w, log0, enqueued, init, last);
      assert events == init + [last];
    }
  }

  /** Handling a list of acknowledgements leaves exactly the other events in the outbox. */
  lemma {:induction false} AcksDrain(c: State, replies: seq<ServerMessage>)
    requires forall m :: m in replies ==> m.Ack?
    ensures forall e :: e in HandleAll(c, replies).outbox <==> e in c.outbox && forall m :: m in replies ==> m.clientSeq != e.clientSeq
  {
    if replies != [] {
      var init, last := replies[..|replies| - 1], replies[|replies| - 1];
      assert replies == init + [last] && last in replies;
      AcksDrain(c, init);
      WithoutRemovesExactly(HandleAll(c, init).outbox, last.clientSeq);
    }
  }

  /** The outbox in order skips nothing: what the server lacks is in it, older events first. */
  lemma OutboxSkipsNothing(outbox: seq<ClientEvent>, all: seq<ClientEvent>, accepted: nat)
    requires IsNumbered(all) && accepted <= |all| && IsAscending(outbox)
    requires forall i :: accepted <= i < |all| ==> all[i] in outbox
    ensures SkipsNothing(all, accepted, outbox)
  {
    forall k, i | 0 <= k < |outbox| && accepted <= i < |all| && i < outbox[k].clientSeq ensures all[i] in outbox[..k] {
      assert all[i] in outbox && all[i].clientSeq == i;
      var m :| 0 <= m < |outbox| && outbox[m] == all[i];
      assert m < k && outbox[..k][m] == all[i];
    }
  }

  ghost function NewReplies(before: Server, after: Server): seq<ServerMessage>
    requires |before.replies| <= |after.replies|
  {
    after.replies[|before.replies|..]
  }

  /** What the server lacks is pending. */
  lemma LackedIsPending(s: System, log0: seq<ClientEvent>, i: nat)
    requires Inv(s, log0, |log0|) && |s.server.log| <= i < |log0 + s.client.enqueued|
    ensures (log0 + s.client.enqueued)[i] in s.client.outbox
  {
    var e := (log0 + s.client.enqueued)[i];
    assert e == s.client.enqueued[i - |log0|] && e.clientSeq == i;
  }

  /** Ascending, and exactly the events pending from a number on. */
  ghost predicate IsPendingFrom(events: seq<ClientEvent>, outbox: seq<ClientEvent>, from: int) {
    IsAscending(events) && forall e :: e in events <==> e in outbox && e.clientSeq >= from
  }

  ghost predicate IsPending(events: seq<ClientEvent>, outbox: seq<ClientEvent>) {
    IsAscending(events) && forall e :: e in events <==> e in outbox
  }

  /** What a step hands to the transport. */
  ghost function NewlySent(s: System, t: System): seq<ClientEvent> {
    if |s.client.sent| <= |t.client.sent| then t.client.sent[|s.client.sent|..] else []
  }

  /** Opening the transport sends exactly what is pending, oldest first, and changes nothing else. */
  lemma ReopeningSendsThePending(s: System, log0: seq<ClientEvent>, first: nat)
    requires Inv(s, log0, first)
    ensures var t := Next(s, Open);
            && IsPending(NewlySent(s, t), s.client.outbox) && t.client.sent == s.client.sent + NewlySent(s, t)
            && t == s.(client := s.client.(connected := true, sent := t.client.sent))
  {
    SortedIsIdentity(s.client.outbox);
  }

  lemma {:induction false} FromAscends(events: seq<ClientEvent>, from: int)
    requires IsAscending(events)
    ensures IsAscending(From(events, from))
  {
    if events != [] {
      var init, last := events[..|events| - 1], events[|events| - 1];
      FromAscends(init, from);
      FromKeepsExactly(init, from);
      assert forall e :: e in From(init, from) ==> e.clientSeq < last.clientSeq;
    }
  }

  /** A request to replay is answered, while connected, with exactly what is pending from that number on, oldest first. */
  lemma ReplaySendsFromThere(s: System, log0: seq<ClientEvent>, first: nat, j: nat)
    requires Inv(s, log0, first) && j < |s.server.replies| && s.server.replies[j].ReplayFrom?
    ensures var t := Next(s, ToClient(j));
            && (s.client.connected ==> IsPendingFrom(NewlySent(s, t), s.client.outbox, s.server.replies[j].expected))
            && (!s.client.connected ==> NewlySent(s, t) == []) && t.client.sent == s.client.sent + NewlySent(s, t)
            && t == s.(client := s.client.(sent := t.client.sent))
  {
    SortedIsIdentity(s.client.outbox);
    FromAscends(s.client.outbox, s.server.replies[j].expected);
    FromKeepsExactly(s.client.outbox, s.server.replies[j].expected);
  }

  /** Whatever is sent in order from no later than what the server lacks makes the log complete, and all of it acknowledged. */
  lemma InOrderCompletes(s: System, log0: seq<ClientEvent>, from: int, events: seq<ClientEvent>)
    requires Inv(s, log0, |log0|) && !s.server.ended && from <= |s.server.log| && IsPendingFrom(events, s.client.outbox, from)
    ensures var w := ReceiveAll(s.server, events);
            && w.log == log0 + s.client.enqueued && s.server.replies <= w.replies
            && AreAcks(NewReplies(s.server, w), events)
  {
    var all := log0 + s.client.enqueued;
    AllIsNumbered(s.server, log0, s.client.enqueued);
    forall i | |s.server.log| <= i < |all| ensures all[i] in events {
      LackedIsPending(s, log0, i);
      assert all[i].clientSeq == i;
    }
    OutboxSkipsNothing(events, all, |s.server.log|);
    InOrderIsAcceptedWhole(s.server, log0, s.client.enqueued, events);
    var w := ReceiveAll(s.server, events);
    AllIsNumbered(w, log0, s.client.enqueued);
    assert |s.server.log| < |all| ==> all[|all| - 1] in events;
  }

  lemma RoundTripHeals(s: System, log0: seq<ClientEvent>)
    requires Inv(s, log0, |log0|) && !s.server.ended
    ensures var t := Next(s, Open);
            var w := ReceiveAll(s.server, NewlySent(s, t));
            && IsPending(NewlySent(s, t), s.client.outbox)
            && w.log == log0 + s.client.enqueued
            && s.server.replies <= w.replies && HandleAll(t.client, NewReplies(s.server, w)).outbox == []
  {
    ReopeningSendsThePending(s, log0, |log0|);
    var t := Next(s, Open);
    var events := NewlySent(s, t);
    assert forall e :: e in events ==> e.clientSeq >= 0 by { PendingIsNatural(s, log0); }
    InOrderCompletes(s, log0, 0, events);
    AcknowledgedIsEmpty(t.client, NewReplies(s.server, ReceiveAll(s.server, events)), events);
  }

  lemma PendingIsNatural(s: System, log0: seq<ClientEvent>)
    requires Inv(s, log0, |log0|)
    ensures forall e :: e in s.client.outbox ==> e.clientSeq >= 0
  {
  }

  /** Once the replies are handled, only what was not among the events is still pending. */
  lemma LeftAfterAcks(c: State, replies: seq<ServerMessage>, events: seq<ClientEvent>)
    requires AreAcks(replies, events)
    ensures forall e :: e in HandleAll(c, replies).outbox ==> e in c.outbox && e !in events
  {
    AcksDrain(c, replies);
    forall e | e in events ensures exists m :: m in replies && m.clientSeq == e.clientSeq {
      var k :| 0 <= k < |events| && events[k] == e;
      assert replies[k] in replies;
    }
  }

  /** What is pending under a number the log has is in the log. */
  lemma OldIsAccepted(s: System, log0: seq<ClientEvent>, e: ClientEvent)
    requires Inv(s, log0, |log0|) && e in s.client.outbox && e.clientSeq < |s.server.log|
    ensures e in s.server.log
  {
    var k :| 0 <= k < |s.client.enqueued| && s.client.enqueued[k] == e;
    assert s.server.log[e.clientSeq] == e;
  }

  lemma ReplayIsDue(s: System, log0: seq<ClientEvent>, first: nat, j: nat)
    requires Inv(s, log0, first) && j < |s.server.replies| && s.server.replies[j].ReplayFrom?
    ensures s.server.replies[j].expected <= |s.server.log|
  {
    assert s.server.replies[j] in s.server.replies;
  }

  /**
   From any reachable state of a page that resumed, a replay the server asked for heals its log,
   however late the request comes: what the client sends in answer makes the log complete, and
   once the replies are handled nothing is pending but what the log had before the request.
   */
  lemma ReplayHeals(h: History, n: nat, j: nat)
    requires Resumes(h) && n <= |h.steps| && !h.states[n].server.ended && h.states[n].client.connected
    requires j < |h.states[n].server.replies| && h.states[n].server.replies[j].ReplayFrom?
    ensures var s := h.states[n]; var t := Next(s, ToClient(j));
            var w := ReceiveAll(s.server, NewlySent(s, t));
            && w.log == h.log0 + s.client.enqueued && s.server.replies <= w.replies
            && forall e :: e in HandleAll(t.client, NewReplies(s.server, w)).outbox ==>
                 e in s.server.log && e.clientSeq < s.server.replies[j].expected
  {
    InvHolds(h, n);
    var s := h.states[n];
    var t, x := Next(s, ToClient(j)), s.server.replies[j].expected;
    ReplaySendsFromThere(s, h.log0, h.first, j);
    ReplayIsDue(s, h.log0, h.first, j);
    hide Next, Inv, IsRun;
    var events := NewlySent(s, t);
    InOrderCompletes(s, h.log0, x, events);
    var replies := NewReplies(s.server, ReceiveAll(s.server, events));
    LeftAfterAcks(t.client, replies, events);
    forall e | e in HandleAll(t.client, replies).outbox ensures e in s.server.log && e.clientSeq < x {
      OldIsAccepted(s, h.log0, e);
    }
  }

  lemma AcknowledgedIsEmpty(c: State, replies: seq<ServerMessage>, events: seq<ClientEvent>)
    requires AreAcks(replies, events) && forall e :: e in c.outbox ==> e in events
    ensures HandleAll(c, replies).outbox == []
  {
    LeftAfterAcks(c, replies, events);
    EmptyOrNot(HandleAll(c, replies).outbox);
  }

  lemma EmptyOrNot(events: seq<ClientEvent>)
    ensures events == [] || exists e :: e in events
  {
    if events != [] {
      assert events[0] in events;
    }
  }

  /**
   From any reachable state of a page that resumed, one reconnect in which nothing is lost heals
   everything: what opening the transport sends, all that is pending, oldest first, makes the
   server's log complete, and the server's replies empty the outbox.
   */
  lemma CleanReconnectHeals(h: History, n: nat)
    requires Resumes(h) && n <= |h.steps| && !h.states[n].server.ended
    ensures var s := h.states[n]; var t := Next(s, Open);
            var w := ReceiveAll(s.server, NewlySent(s, t));
            && IsPending(NewlySent(s, t), s.client.outbox)
            && w.log == h.log0 + s.client.enqueued
            && s.server.replies <= w.replies && HandleAll(t.client, NewReplies(s.server, w)).outbox == []
  {
    InvHolds(h, n);
    RoundTripHeals(h.states[n], h.log0);
  }
}
