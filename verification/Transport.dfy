/**
 What goes over the wire, step by step: what the client hands to its transport, and how the
 server answers what reaches it
 (apps/web/lib/session-client.ts, apps/api/src/modules/session/channel.ts).
 */
module Transport {
  import opened SessionClient
  import opened Outbox
  import opened Wrappers

  // ----- The client -----

  /** Whether the transport is open after `n` steps: the last of the steps that open or lose it opened it. */
  ghost predicate IsOpenAfter(h: History, n: nat)
    requires n <= |h.steps|
  {
    n > 0 && (h.steps[n - 1].Open? || (!h.steps[n - 1].Lose? && IsOpenAfter(h, n - 1)))
  }

  lemma ConnectionStep(s: System, step: Step)
    ensures Next(s, step).client.connected == if step.Open? then true else if step.Lose? then false else s.client.connected
  {
  }

  lemma {:induction false} ConnectionFollowsSteps(h: History, n: nat)
    requires IsRun(h) && n <= |h.steps|
    ensures h.states[n].client.connected <==> IsOpenAfter(h, n)
  {
    hide Next;
    if n > 0 {
      ConnectionFollowsSteps(h, n - 1);
      assert IsStep(h, n - 1);
      ConnectionStep(h.states[n - 1], h.steps[n - 1]);
    }
  }

  /** What a step hands to the transport: what it enqueued, or on opening and on a replay what is pending. */
  ghost predicate SendsRight(s: System, step: Step, t: System) {
    var sent := NewlySent(s, t);
    && t.client.sent == s.client.sent + sent && s.client.enqueued <= t.client.enqueued
    && match step
       case Open => IsPending(sent, s.client.outbox) && t.client.enqueued == s.client.enqueued
       case ToClient(j) =>
         && t.client.enqueued == s.client.enqueued
         && if s.client.connected && j < |s.server.replies| && s.server.replies[j].ReplayFrom?
            then IsPendingFrom(sent, s.client.outbox, s.server.replies[j].expected) else sent == []
       case _ => sent == if s.client.connected then t.client.enqueued[|s.client.enqueued|..] else []
  }

  /** Between `c` and `d` everything enqueued was sent if the transport is open, and nothing otherwise. */
  ghost predicate SendsEnqueued(c: State, d: State) {
    && c.enqueued <= d.enqueued && d.connected == c.connected
    && d.sent == c.sent + (if c.connected then d.enqueued[|c.enqueued|..] else [])
  }

  lemma EnqueueSends(c: State, payload: Payload, key: string)
    ensures SendsEnqueued(c, Enqueue(c, payload, key))
  {
  }

  lemma SendsInTurn(c: State, d: State, e: State)
    requires SendsEnqueued(c, d) && SendsEnqueued(d, e)
    ensures SendsEnqueued(c, e)
  {
    assert e.enqueued[|c.enqueued|..] == d.enqueued[|c.enqueued|..] + e.enqueued[|d.enqueued|..];
  }

  lemma FlushSends(c: State, codeKey: string, notesKey: string)
    ensures SendsEnqueued(c, Flush(c, codeKey, notesKey))
  {
    var d := FlushCode(c, codeKey);
    if c.pendingCode.Some? {
      EnqueueSends(c.(codeRevision := c.codeRevision + 1), CodeDelta(c.codeRevision + 1, c.pendingCode.value), codeKey);
    }
    if d.pendingNotes.Some? { EnqueueSends(d, NoteDelta(d.pendingNotes.value), notesKey); }
    SendsInTurn(c, d, Flush(c, codeKey, notesKey));
  }

  lemma RunSends(c: State, input: string, codeKey: string, notesKey: string, runKey: string)
    ensures SendsEnqueued(c, RequestRun(c, input, codeKey, notesKey, runKey))
  {
    FlushSends(c, codeKey, notesKey);
    var flushed := Flush(c, codeKey, notesKey);
    EnqueueSends(flushed, RunRequested(flushed.codeRevision, input), runKey);
    SendsInTurn(c, flushed, RequestRun(c, input, codeKey, notesKey, runKey));
  }

  lemma StepSends(s: System, log0: seq<ClientEvent>, first: nat, step: Step)
    requires Inv(s, log0, first)
    ensures SendsRight(s, step, Next(s, step))
  {
    var c := s.client;
    hide Inv, Flush, RequestRun, Receive, IsPending, IsPendingFrom;
    match step {
      case Open => ReopeningSendsThePending(s, log0, first);
      case ToClient(j) =>
        if j < |s.server.replies| && s.server.replies[j].ReplayFrom? { ReplaySendsFromThere(s, log0, first, j); }
      case Say(description, key) => EnqueueSends(c, Speech(description), key);
      case FlushEdits(k, l) => FlushSends(c, k, l);
      case Wait(k, l) => FlushSends(c, k, l);
      case Run(input, k, l, r) =>
        RunSends(c, input, k, l, r);
      case _ =>
    }
  }

  /**
   In every run: while the transport is open each event is sent as it is enqueued; opening it
   sends exactly what is pending, and a request to replay exactly what is pending from there on,
   each time oldest first; and while it is closed nothing is sent.
   */
  lemma WhatEachStepSends(h: History, n: nat)
    requires IsRun(h) && n < |h.steps|
    ensures SendsRight(h.states[n], h.steps[n], h.states[n + 1])
    ensures h.states[n].client.connected <==> IsOpenAfter(h, n)
  {
    hide Next, SendsRight;
    InvHolds(h, n);
    ConnectionFollowsSteps(h, n);
    assert IsStep(h, n);
    StepSends(h.states[n], h.log0, h.first, h.steps[n]);
  }

  // ----- The server -----

  /**
   How a live server answers an event of the page: it has it afterwards if and only if it had it
   before or it carries the number that is due; then the answer is an acknowledgement with the
   event's place, and otherwise a request to replay from the number that is due.
   */
  ghost predicate AnswersRight(v: Server, e: ClientEvent, w: Server) {
    && (e in w.log <==> e in v.log || e.clientSeq == |v.log|)
    && w.log == (if e !in v.log && e.clientSeq == |v.log| then v.log + [e] else v.log)
    && |w.replies| == |v.replies| + 1 && v.replies <= w.replies
    && var answer := w.replies[|v.replies|];
       if e in w.log then answer.Ack? && answer.clientSeq == e.clientSeq && 0 <= answer.serverSeq < |w.log| && w.log[answer.serverSeq] == e
       else answer == ReplayFrom(|v.log|)
  }

  lemma ReceiveAnswers(v: Server, log0: seq<ClientEvent>, first: nat, enqueued: seq<ClientEvent>, e: ClientEvent)
    requires ServerInv(v, log0, first, enqueued) && IsNumberedFrom(enqueued, first) && KeysDiffer(log0 + enqueued)
    requires e in enqueued && !v.ended
    ensures AnswersRight(v, e, Receive(v, e))
  {
    LatestOfNumbered(v.log);
    var k :| 0 <= k < |enqueued| && enqueued[k] == e;
    var i := PositionOf(v.log, e.key);
    if i < |v.log| { AcceptedOnce(v, log0, first, enqueued, i, k); }
    assert e in v.log ==> HasKey(v.log, e.key);
    assert e.clientSeq < |v.log| ==> v.log[e.clientSeq].clientSeq == e.clientSeq;
  }

  /** In every run, whatever reaches a live server is answered at once, and a server that has ended says and takes nothing. */
  lemma EveryDeliveryIsAnswered(h: History, n: nat, i: nat)
    requires IsRun(h) && n < |h.steps| && h.steps[n] == ToServer(i) && i < |h.states[n].client.sent|
    ensures var v, w := h.states[n].server, h.states[n + 1].server;
            if HasEnded(h, n) then w == v else AnswersRight(v, h.states[n].client.sent[i], w)
  {
    hide AnswersRight;
    InvHolds(h, n);
    EndedFollowsSteps(h, n);
    assert IsStep(h, n);
    var s := h.states[n];
    SentIsEnqueued(s.client, h.first, s.server.log, i);
    if !s.server.ended { ReceiveAnswers(s.server, h.log0, h.first, s.client.enqueued, s.client.sent[i]); }
  }

  /** The session was ended among the first `n` steps. */
  ghost predicate HasEnded(h: History, n: nat)
    requires n <= |h.steps|
  {
    exists i :: 0 <= i < n && h.steps[i].End?
  }

  lemma {:induction false} EndedFollowsSteps(h: History, n: nat)
    requires IsRun(h) && n <= |h.steps|
    ensures h.states[n].server.ended <==> HasEnded(h, n)
  {
    if n > 0 {
      var m := n - 1;
      EndedFollowsSteps(h, m);
      assert IsStep(h, m);
      assert HasEnded(h, n) <==> HasEnded(h, m) || h.steps[m].End?;
    }
  }

  lemma EndStep(s: System)
    ensures Next(s, End) == s.(server := s.server.(ended := true))
  {
  }

  lemma EndedStep(s: System, step: Step)
    requires s.server.ended
    ensures var v, w := s.server, Next(s, step).server; w.ended && w.log == v.log && w.replies == v.replies
  {
  }

  /** Once the session has ended, its log is sealed: nothing that arrives later changes it or is answered. */
  lemma {:induction false} NothingAfterTheEnd(h: History, m: nat, n: nat)
    requires IsRun(h) && m < n <= |h.steps| && h.steps[m].End?
    ensures var v, w := h.states[m].server, h.states[n].server;
            w.ended && w.log == v.log && w.replies == v.replies
    decreases n
  {
    hide Next;
    assert IsStep(h, n - 1);
    if m + 1 < n {
      NothingAfterTheEnd(h, m, n - 1);
      EndedStep(h.states[n - 1], h.steps[n - 1]);
    } else {
      EndStep(h.states[m]);
    }
  }

  // ----- The cached watermark -----

  /** Something has reached the live server since its watermark was dropped last. */
  ghost predicate IsCached(h: History, n: nat)
    requires IsRun(h) && n <= |h.steps|
  {
    n > 0 &&
    match h.steps[n - 1]
    case Forget => false
    case ToServer(i) => (i < |h.states[n - 1].client.sent| && !HasEnded(h, n - 1)) || IsCached(h, n - 1)
    case _ => IsCached(h, n - 1)
  }

  lemma WatermarkStep(s: System, log0: seq<ClientEvent>, first: nat, step: Step)
    requires Inv(s, log0, first)
    ensures var v, w := s.server, Next(s, step).server;
            match step
            case Forget => w.watermark.None?
            case ToServer(i) =>
              if i < |s.client.sent| && !v.ended then w.watermark == Some(|w.log| - 1) else w.watermark == v.watermark && w.log == v.log
            case _ => w.watermark == v.watermark && w.log == v.log
  {
    LatestOfNumbered(s.server.log);
    if step.ToServer? && step.sent < |s.client.sent| {
      var e := s.client.sent[step.sent];
      assert e in s.client.enqueued;
      var k :| 0 <= k < |s.client.enqueued| && s.client.enqueued[k] == e;
      assert e.clientSeq == first + k;
      ReceiveKeeps(s.server, log0, first, s.client.enqueued, e);
    }
  }

  /** In every run the server's watermark is the end of its log, known from the first event after it was dropped on. */
  lemma {:induction false} WatermarkIsTheEndOfTheLog(h: History, n: nat)
    requires IsRun(h) && n <= |h.steps|
    ensures var v := h.states[n].server; v.watermark == if IsCached(h, n) then Some(|v.log| - 1) else None
  {
    hide Next;
    if n > 0 {
      WatermarkIsTheEndOfTheLog(h, n - 1);
      EndedFollowsSteps(h, n - 1);
      InvHolds(h, n - 1);
      assert IsStep(h, n - 1);
      WatermarkStep(h.states[n - 1], h.log0, h.first, h.steps[n - 1]);
    }
  }
}
