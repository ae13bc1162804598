/**
 Which code a run executes (apps/web/lib/session-client.ts,
 apps/api/src/modules/orchestrator/runtime.ts, apps/api/src/modules/session/resume.ts).

 A run request carries a revision number and no code. The server looks the code up in what
 it has ingested, so the numbers on both sides have to agree over a connection that loses
 and repeats events. Builds on the outbox protocol of `Outbox`.
 */
module RunAttribution {
  import opened Wrappers
  import opened SessionClient
  import opened Outbox

  /** The runtime's `latestCodeRevision` and `latestCode`. */
  datatype Code = Code(revision: int, text: string)

  function Ingested(code: Code, e: ClientEvent): Code {
    match e.payload
    case CodeDelta(revision, text) => if revision < code.revision then code else Code(revision, text)
    case _ => code
  }

  function Fold(log: seq<ClientEvent>): Code {
    if log == [] then Code(0, "") else Ingested(Fold(log[..|log| - 1]), log[|log| - 1])
  }

  function CodeAt(code: Code, revision: int): Option<string> {
    if revision != code.revision then None else Some(code.text)
  }

  class Runtime {
    var latestCodeRevision: int
    var latestCode: string

    ghost function View(): Code
      reads this
    {
      Code(latestCodeRevision, latestCode)
    }

    /** A runtime brought up from a session's log. */
    constructor (log: seq<ClientEvent>)
      ensures View() == Fold(log)
    {
      latestCodeRevision, latestCode := 0, "";
      new;
      for i := 0 to |log|
        invariant View() == Fold(log[..i])
      {
        assert log[..i + 1][..i] == log[..i];
        Ingest(log[i]);
      }
      assert log[..|log|] == log;
    }

    method Ingest(e: ClientEvent)
      modifies this
      ensures View() == Ingested(old(View()), e)
      ensures latestCodeRevision >= old(latestCodeRevision)
    {
      match e.payload {
        case CodeDelta(revision, text) =>
          if revision < latestCodeRevision { return; }
          latestCodeRevision := revision;
          latestCode := text;
        case _ =>
      }
    }

    method CodeAtRevision(revision: int) returns (code: Option<string>)
      ensures code == CodeAt(View(), revision)
    {
      if revision != latestCodeRevision { return None; }
      return Some(latestCode);
    }
  }

  // ----- What folding a log yields -----

  predicate IsDelta(e: ClientEvent) {
    e.payload.CodeDelta?
  }

  /** The newest delta of a log: no delta has a higher revision, and none after it an equal one. */
  ghost predicate IsNewest(log: seq<ClientEvent>, j: nat) {
    && j < |log| && IsDelta(log[j])
    && (forall i :: 0 <= i < |log| && IsDelta(log[i]) ==> log[i].payload.revision <= log[j].payload.revision)
    && (forall i :: j < i < |log| && IsDelta(log[i]) ==> log[i].payload.revision < log[j].payload.revision)
  }

  /** Whatever the order of the log, the fold ends with its newest delta, if any delta has a revision at all. */
  lemma {:induction false} FoldIsNewest(log: seq<ClientEvent>, j: nat)
    requires IsNewest(log, j) && log[j].payload.revision >= 0
    ensures Fold(log) == Code(log[j].payload.revision, log[j].payload.text)
    decreases |log|
  {
    var init, last := log[..|log| - 1], log[|log| - 1];
    if j < |init| {
      assert init[j] == log[j];
      FoldIsNewest(init, j);
    } else {
      FoldIsBounded(init, log[j].payload.revision);
    }
  }

  lemma {:induction false} FoldIsBounded(log: seq<ClientEvent>, bound: int)
    requires bound >= 0
    requires forall i :: 0 <= i < |log| && IsDelta(log[i]) ==> log[i].payload.revision <= bound
    ensures Fold(log).revision <= bound
  {
    if log != [] {
      var init := log[..|log| - 1];
      assert forall i :: 0 <= i < |init| ==> init[i] == log[i];
      FoldIsBounded(init, bound);
    }
  }

  // ----- The numbering both sides rely on -----

  function Deltas(log: seq<ClientEvent>): nat {
    if log == [] then 0 else Deltas(log[..|log| - 1]) + if IsDelta(log[|log| - 1]) then 1 else 0
  }

  /** The n-th delta has revision n, and a run request names the delta before it. */
  ghost predicate IsRevised(log: seq<ClientEvent>, i: nat)
    requires i < |log|
  {
    match log[i].payload
    case CodeDelta(revision, _) => revision == Deltas(log[..i]) + 1
    case RunRequested(revision, _) => revision == Deltas(log[..i])
    case _ => true
  }

  ghost predicate WellRevised(log: seq<ClientEvent>) {
    forall i :: 0 <= i < |log| ==> IsRevised(log, i)
  }

  lemma WellRevisedPrefix(log: seq<ClientEvent>, n: nat)
    requires WellRevised(log) && n <= |log|
    ensures WellRevised(log[..n])
  {
    forall i | 0 <= i < n ensures IsRevised(log[..n], i) {
      assert IsRevised(log, i) && log[..n][..i] == log[..i];
    }
  }

  lemma {:induction false} FoldCountsDeltas(log: seq<ClientEvent>)
    requires WellRevised(log)
    ensures Fold(log).revision == Deltas(log)
  {
    if log != [] {
      WellRevisedPrefix(log, |log| - 1);
      FoldCountsDeltas(log[..|log| - 1]);
      assert IsRevised(log, |log| - 1);
    }
  }

  lemma WellRevisedAppend(log: seq<ClientEvent>, e: ClientEvent)
    requires WellRevised(log) && IsRevised(log + [e], |log|)
    ensures WellRevised(log + [e])
    ensures Deltas(log + [e]) == Deltas(log) + if IsDelta(e) then 1 else 0
    ensures Fold(log + [e]) == Ingested(Fold(log), e)
  {
    assert (log + [e])[..|log|] == log;
    forall i | 0 <= i < |log| ensures IsRevised(log + [e], i) {
      assert IsRevised(log, i) && (log + [e])[..i] == log[..i];
    }
  }

  lemma {:induction false} DeltasGrow(log: seq<ClientEvent>, i: nat, j: nat)
    requires i <= j <= |log|
    ensures Deltas(log[..i]) <= Deltas(log[..j])
  {
    if i < j {
      DeltasGrow(log, i, j - 1);
      assert log[..j][..j - 1] == log[..j - 1];
    }
  }

  lemma RevisionBounds(log: seq<ClientEvent>, i: nat, n: nat)
    requires WellRevised(log) && i < n <= |log| && IsDelta(log[i])
    ensures log[i].payload.revision == Deltas(log[..i]) + 1 <= Deltas(log[..n])
  {
    assert IsRevised(log, i) && log[..i + 1][..i] == log[..i];
    DeltasGrow(log, i + 1, n);
  }

  /** In a well-revised log, the delta whose revision is the count of deltas is the newest. */
  lemma NumberedDeltaIsNewest(log: seq<ClientEvent>, j: nat)
    requires WellRevised(log) && j < |log| && IsDelta(log[j]) && log[j].payload.revision == Deltas(log)
    ensures IsNewest(log, j)
  {
    assert log[..|log|] == log;
    forall i | 0 <= i < |log| && IsDelta(log[i])
      ensures log[i].payload.revision <= log[j].payload.revision
      ensures j < i ==> log[i].payload.revision < log[j].payload.revision
    {
      RevisionBounds(log, i, |log|);
      if j < i {
        RevisionBounds(log, j, i);
      }
    }
  }

  /** A delta that was ingested before and arrives again, however late, changes nothing. */
  lemma ReplayNeverRewinds(log: seq<ClientEvent>, e: ClientEvent)
    requires WellRevised(log) && e in log
    ensures Ingested(Fold(log), e) == Fold(log)
  {
    var j :| 0 <= j < |log| && log[j] == e;
    FoldCountsDeltas(log);
    assert log[..|log|] == log;
    if IsDelta(e) {
      RevisionBounds(log, j, |log|);
      if e.payload.revision == Deltas(log) {
        NumberedDeltaIsNewest(log, j);
        FoldIsNewest(log, j);
      }
    }
  }

  // ----- Every run of the protocol keeps the numbering -----

  /** What the client has been told to ship: the last edit of this page, or else what the server folded at load. */
  ghost function Written(h: History, n: nat): string
    requires n <= |h.steps|
  {
    if n == 0 then Fold(h.log0).text
    else if h.steps[n - 1].Edit? then h.steps[n - 1].text
    else Written(h, n - 1)
  }

  /**
   What the candidate's editor shows. `starter` is what it shows when the client is created and
   the server has no code: the text the page seeds it with, or an edit made so early that there
   was no client to tell. Code that is not empty replaces it on load; later edits are told.
   */
  ghost function EditorText(h: History, starter: string, n: nat): string
    requires n <= |h.steps|
  {
    if n == 0 then if Fold(h.log0).text != "" then Fold(h.log0).text else starter
    else if h.steps[n - 1].Edit? then h.steps[n - 1].text
    else EditorText(h, starter, n - 1)
  }

  ghost predicate HasEdited(h: History, n: nat)
    requires n <= |h.steps|
  {
    n > 0 && (h.steps[n - 1].Edit? || HasEdited(h, n - 1))
  }

  /** The client knows what the editor shows unless that is older than the client. */
  ghost predicate ShowsWritten(h: History, starter: string, n: nat)
    requires n <= |h.steps|
  {
    HasEdited(h, n) || Fold(h.log0).text != "" || starter == ""
  }

  lemma {:induction false} EditorIsWritten(h: History, starter: string, n: nat)
    requires n <= |h.steps|
    ensures EditorText(h, starter, n) == Written(h, n) <==> ShowsWritten(h, starter, n)
    ensures !HasEdited(h, n) ==> Written(h, n) == Fold(h.log0).text
    ensures !HasEdited(h, n) && Fold(h.log0).text == "" ==> EditorText(h, starter, n) == starter
  {
    if n > 0 {
      EditorIsWritten(h, starter, n - 1);
    }
  }

  /** The client agrees with its own history, and an edit is pending unless the history ends with it. */
  ghost predicate Agrees(c: State, log0: seq<ClientEvent>, written: string) {
    var all := log0 + c.enqueued;
    && WellRevised(all) && c.codeRevision == Deltas(all)
    && (if c.pendingCode.Some? then c.pendingCode.value else Fold(all).text) == written
  }

  lemma EnqueueAgrees(c: State, log0: seq<ClientEvent>, written: string, payload: Payload, key: string)
    requires Agrees(c, log0, written) && !payload.CodeDelta?
    requires payload.RunRequested? ==> payload.revision == c.codeRevision
    ensures Agrees(Enqueue(c, payload, key), log0, written)
  {
    var all, e := log0 + c.enqueued, ClientEvent(c.clientSeq, key, payload);
    assert log0 + (c.enqueued + [e]) == all + [e] && (all + [e])[..|all|] == all;
    WellRevisedAppend(all, e);
  }

  lemma FlushCodeAgrees(c: State, log0: seq<ClientEvent>, written: string, key: string)
    requires Agrees(c, log0, written)
    ensures Agrees(FlushCode(c, key), log0, written) && FlushCode(c, key).pendingCode.None?
    ensures c.enqueued <= FlushCode(c, key).enqueued
  {
    if c.pendingCode.Some? {
      var revision := c.codeRevision + 1;
      var all, e := log0 + c.enqueued, ClientEvent(c.clientSeq, key, CodeDelta(revision, c.pendingCode.value));
      assert log0 + (c.enqueued + [e]) == all + [e] && (all + [e])[..|all|] == all;
      WellRevisedAppend(all, e);
      FoldCountsDeltas(all);
    }
  }

  lemma FlushAgrees(c: State, log0: seq<ClientEvent>, written: string, codeKey: string, notesKey: string)
    requires Agrees(c, log0, written)
    ensures Agrees(Flush(c, codeKey, notesKey), log0, written)
    ensures Flush(c, codeKey, notesKey).pendingCode.None?
    ensures c.enqueued <= Flush(c, codeKey, notesKey).enqueued
  {
    FlushCodeAgrees(c, log0, written, codeKey);
    var d := FlushCode(c, codeKey);
    if d.pendingNotes.Some? {
      EnqueueAgrees(d, log0, written, NoteDelta(d.pendingNotes.value), notesKey);
    }
  }

  /** Sending, acknowledgements and connection changes touch neither the history nor the edits. */
  lemma OtherStepsKeepEdits(s: System, step: Step)
    requires !step.Edit? && !step.Say? && !step.FlushEdits? && !step.Wait? && !step.Run?
    ensures var c, d := s.client, Next(s, step).client;
            d.enqueued == c.enqueued && d.codeRevision == c.codeRevision && d.pendingCode == c.pendingCode
  {
  }

  lemma WaitIsFlush(c: State, codeKey: string, notesKey: string)
    ensures var d, f := FlushAndWait(c, codeKey, notesKey), Flush(c, codeKey, notesKey);
            d.enqueued == f.enqueued && d.codeRevision == f.codeRevision && d.pendingCode == f.pendingCode
  {
  }

  lemma AgreesStep(s: System, log0: seq<ClientEvent>, written: string, step: Step)
    requires Agrees(s.client, log0, written)
    ensures Agrees(Next(s, step).client, log0, if step.Edit? then step.text else written)
    ensures s.client.enqueued <= Next(s, step).client.enqueued
  {
    match step {
      case Say(description, key) => EnqueueAgrees(s.client, log0, written, Speech(description), key);
      case FlushEdits(k, l) => FlushAgrees(s.client, log0, written, k, l);
      case Wait(k, l) =>
        FlushAgrees(s.client, log0, written, k, l);
        WaitIsFlush(s.client, k, l);
      case Run(input, k, l, r) =>
        FlushAgrees(s.client, log0, written, k, l);
        var flushed := Flush(s.client, k, l);
        EnqueueAgrees(flushed, log0, written, RunRequested(flushed.codeRevision, input), r);
      case Edit(_) =>
      case _ => OtherStepsKeepEdits(s, step);
    }
  }

  /** A run of a page that resumed with the number and the revision the server has, from a well-revised log. */
  ghost predicate IsResumed(h: History) {
    Resumes(h) && WellRevised(h.log0) && h.codeRevision == Fold(h.log0).revision
  }

  lemma {:induction false} RunAgrees(h: History, n: nat)
    requires IsResumed(h) && n <= |h.steps|
    ensures Agrees(h.states[n].client, h.log0, Written(h, n))
  {
    if n == 0 {
      assert h.log0 + [] == h.log0;
      FoldCountsDeltas(h.log0);
    } else {
      RunAgrees(h, n - 1);
      assert IsStep(h, n - 1);
      AgreesStep(h.states[n - 1], h.log0, Written(h, n - 1), h.steps[n - 1]);
    }
  }

  lemma {:induction false} EnqueuedGrows(h: History, m: nat, n: nat)
    requires IsResumed(h) && m <= n <= |h.steps|
    ensures h.states[m].client.enqueued <= h.states[n].client.enqueued
  {
    if m < n {
      EnqueuedGrows(h, m, n - 1);
      RunAgrees(h, n - 1);
      assert IsStep(h, n - 1);
      AgreesStep(h.states[n - 1], h.log0, Written(h, n - 1), h.steps[n - 1]);
    }
  }

  // ----- What that means -----

  /**
   In every run the server's log stays well revised: its deltas count up by exactly one, and
   each run request names the delta before it. A page that is loaded later can build on it.
   */
  lemma AcceptedLogIsWellRevised(h: History, n: nat)
    requires IsResumed(h) && n <= |h.steps|
    ensures WellRevised(h.states[n].server.log)
  {
    RunAgrees(h, n);
    AcceptedIsAPrefix(h, n);
    var all, log := h.log0 + h.states[n].client.enqueued, h.states[n].server.log;
    WellRevisedPrefix(all, |log|);
    assert log == all[..|log|];
  }

  /** In a well-revised log every run request finds its code: the text of the delta with its revision. */
  lemma RunsFindTheirCode(log: seq<ClientEvent>, k: nat)
    requires WellRevised(log) && k < |log| && log[k].payload.RunRequested?
    ensures var found := CodeAt(Fold(log[..k]), log[k].payload.revision);
            && found == Some(Fold(log[..k]).text)
            && forall j :: 0 <= j < k && IsDelta(log[j]) && log[j].payload.revision == log[k].payload.revision ==>
              found == Some(log[j].payload.text)
  {
    WellRevisedPrefix(log, k);
    FoldCountsDeltas(log[..k]);
    assert IsRevised(log, k);
    forall j | 0 <= j < k && IsDelta(log[j]) && log[j].payload.revision == log[k].payload.revision
      ensures Fold(log[..k]).text == log[j].payload.text
    {
      assert log[..k][j] == log[j];
      NumberedDeltaIsNewest(log[..k], j);
      FoldIsNewest(log[..k], j);
    }
  }

  /** Every accepted run request finds its code, and it is the text of the newest delta before it. */
  lemma RunFindsItsCode(h: History, n: nat, k: nat)
    requires IsResumed(h) && n <= |h.steps|
    requires k < |h.states[n].server.log| && h.states[n].server.log[k].payload.RunRequested?
    ensures var log := h.states[n].server.log;
            var found := CodeAt(Fold(log[..k]), log[k].payload.revision);
            && found == Some(Fold(log[..k]).text)
            && forall j :: 0 <= j < k && IsDelta(log[j]) && log[j].payload.revision == log[k].payload.revision ==>
              found == Some(log[j].payload.text)
  {
    AcceptedLogIsWellRevised(h, n);
    RunsFindTheirCode(h.states[n].server.log, k);
  }

  /** Entry `k` of the log is a run of `input`, and the lookup made when it is reached finds `text`. */
  ghost predicate Executes(log: seq<ClientEvent>, k: nat, input: string, text: string)
    requires k < |log|
  {
    && log[k].payload.RunRequested? && log[k].payload.input == input
    && CodeAt(Fold(log[..k]), log[k].payload.revision) == Some(text)
  }

  lemma RequestNamesTheText(c: State, log0: seq<ClientEvent>, written: string, run: Step)
    requires Agrees(c, log0, written) && run.Run?
    ensures var all := log0 + RequestRun(c, run.input, run.codeKey, run.notesKey, run.runKey).enqueued;
            all != [] && Executes(all, |all| - 1, run.input, written)
  {
    FlushAgrees(c, log0, written, run.codeKey, run.notesKey);
    var flushed := Flush(c, run.codeKey, run.notesKey).enqueued;
    FoldCountsDeltas(log0 + flushed);
    var all := log0 + RequestRun(c, run.input, run.codeKey, run.notesKey, run.runKey).enqueued;
    assert all[..|all| - 1] == log0 + flushed;
  }

  /** What holds of an entry once enqueued holds of it when accepted. */
  lemma AcceptedAsEnqueued(log: seq<ClientEvent>, asked: seq<ClientEvent>, all: seq<ClientEvent>, k: nat, input: string, text: string)
    requires asked <= all && log <= all && k < |asked| && Executes(asked, k, input, text)
    ensures k < |log| ==> Executes(log, k, input, text)
  {
    if k < |log| {
      assert log[k] == all[k] == asked[k];
      assert log[..k] == all[..k] == asked[..k];
    }
  }

  /** Where in the session's events the request made by step `m` is. */
  ghost function RequestAt(h: History, m: nat): int
    requires m < |h.steps| && |h.states| == |h.steps| + 1
  {
    |h.log0 + h.states[m + 1].client.enqueued| - 1
  }

  /** Once accepted, the request made by step `m` executes what the client had been told by then. */
  lemma RunExecutesWhatWasWritten(h: History, m: nat, n: nat)
    requires IsResumed(h) && m < n <= |h.steps| && h.steps[m].Run?
    ensures 0 <= RequestAt(h, m) < |h.states[n].server.log| ==>
      Executes(h.states[n].server.log, RequestAt(h, m), h.steps[m].input, Written(h, m))
  {
    hide Executes, Agrees;
    RunAgrees(h, m);
    assert IsStep(h, m);
    RequestNamesTheText(h.states[m].client, h.log0, Written(h, m), h.steps[m]);
    EnqueuedGrows(h, m + 1, n);
    AcceptedIsAPrefix(h, n);
    var asked, all := h.states[m + 1].client.enqueued, h.states[n].client.enqueued;
    PrefixBeside(h.log0, asked, all);
    AcceptedAsEnqueued(h.states[n].server.log, h.log0 + asked, h.log0 + all, |h.log0 + asked| - 1,
                       h.steps[m].input, Written(h, m));
  }

  /**
   End to end: whatever the connection does after step `m` asked for a run, once the request is
   accepted it executes what the editor showed at `m`, exactly unless that is a text
   from before the client was created.
   */
  lemma RunExecutesTheEditor(h: History, starter: string, m: nat, n: nat)
    requires IsResumed(h) && m < n <= |h.steps| && h.steps[m].Run?
    requires 0 <= RequestAt(h, m) < |h.states[n].server.log|
    ensures Executes(h.states[n].server.log, RequestAt(h, m), h.steps[m].input, EditorText(h, starter, m)) <==>
      ShowsWritten(h, starter, m)
  {
    RunExecutesWhatWasWritten(h, m, n);
    EditorIsWritten(h, starter, m);
  }

  function AskedAtOnce(input: string): ClientEvent {
    ClientEvent(0, "c", RunRequested(0, input))
  }

  /** A new session with one run requested, then connected, then received. */
  lemma AskAtOnce(input: string)
    ensures var e := AskedAtOnce(input); var asked := Fresh(0, 0).(clientSeq := 1, outbox := [e], enqueued := [e]);
            var dialled := asked.(connected := true, sent := [e]); var v := Server([], None, [], false);
            && Next(Start([], 0, 0), Run(input, "a", "b", "c")) == System(asked, v)
            && Next(System(asked, v), Open) == System(dialled, v)
            && Next(System(dialled, v), ToServer(0)).server.log == [e]
  {
    var e := AskedAtOnce(input);
    SortedIsIdentity([e]);
    assert [] + [e] == [e];
  }

  /** A request made at once on a new session executes nothing, while the editor shows a text the client was never told. */
  lemma UntouchedStarterIsNotExecuted(starter: string, input: string) returns (h: History)
    requires starter != ""
    ensures IsResumed(h) && |h.steps| == 3 && h.steps[0] == Run(input, "a", "b", "c")
    ensures 0 <= RequestAt(h, 0) < |h.states[3].server.log| && EditorText(h, starter, 0) == starter
    ensures Executes(h.states[3].server.log, RequestAt(h, 0), input, "")
    ensures !Executes(h.states[3].server.log, RequestAt(h, 0), input, EditorText(h, starter, 0))
  {
    hide Next, Executes;
    assert "a"[0] != "b"[0] && "a"[0] != "c"[0] && "b"[0] != "c"[0];
    AskAtOnce(input);
    h := History([], 0, 0, [], [Start([], 0, 0)]);
    h := Longer(h, Run(input, "a", "b", "c"));
    h := Longer(h, Open);
    h := Longer(h, ToServer(0));
    assert [] + h.states[1].client.enqueued == [AskedAtOnce(input)];
    RunExecutesWhatWasWritten(h, 0, 3);
    RunExecutesTheEditor(h, starter, 0, 3);
  }

  lemma PrefixBeside(log0: seq<ClientEvent>, s: seq<ClientEvent>, t: seq<ClientEvent>)
    requires s <= t
    ensures log0 + s <= log0 + t
  {
    assert t == s + t[|s|..];
    assert log0 + t == log0 + s + t[|s|..];
  }
}
