/**
 The coalescing observation loop of a live interview
 (apps/api/src/modules/orchestrator/runtime.ts, `scheduleObservation`, `runObservations`).

 Every segment between two awaits is one step, and steps of the loop interleave freely with
 code deltas, finished runs, transcripts and the hints and probes recorded by the gate's
 path. A suspended `runObservations` is a frame; a frame's snapshot or its appends may fail.

 `candidateState` is one record that the folds and the recorders each read, rebuild and write
 back whole. What an observation concludes from code, runs and transcripts is left abstract:
 the record keeps which of them it was derived from, in order.
 */
module ObserverLoop {
  import opened Wrappers

  datatype Candidate = Candidate(
    hintsUsed: seq<int>, probeHistory: seq<string>,
    derivedFromRevision: int, runs: seq<string>, transcripts: seq<string>)

  /** Where a pass is suspended: on the snapshot, on its appends, or on the promise's `finally`. */
  datatype Frame =
    | Snapshotting(pass: nat, revision: int, code: string, runs: seq<string>, transcripts: seq<string>)
    | Appending
    | Leaving

  /** What became of a run or transcript: the pass that took it, and whether that pass lost it. */
  datatype Disposal = Disposal(item: string, pass: nat, dropped: bool)

  /** `passes` numbers the passes as they begin; the disposals are a record of what they did with their items. */
  datatype State = State(
    latestRevision: int, latestCode: string, candidate: Candidate, previousObservedCode: Option<string>,
    pendingRuns: seq<string>, pendingTranscripts: seq<string>,
    dirty: bool, running: bool, frames: seq<Frame>, snapshotFailed: bool,
    passes: nat, disposedRuns: seq<Disposal>, disposedTranscripts: seq<Disposal>)

  datatype Event =
    | CodeDelta(revision: int, text: string)
    | RunCompleted(run: string)
    | TranscriptFinal(transcript: string)
    | HintGiven(level: int)
    | ProbeAsked(probe: string)
    | Resume(frame: nat, ok: bool)

  const NEW_CANDIDATE := Candidate([], [], 0, [], [])

  function Fresh(): State {
    State(0, "", NEW_CANDIDATE, None, [], [], false, false, [], false, 0, [], [])
  }

  // ----- Folding -----

  /** `observe`: a new record built from the previous one, a snapshot and a run. */
  function Observe(previous: Candidate, revision: Option<int>, run: Option<string>): Candidate {
    Candidate(previous.hintsUsed, previous.probeHistory,
              if revision.Some? then revision.value else previous.derivedFromRevision,
              previous.runs + if run.Some? then [run.value] else [], previous.transcripts)
  }

  /** `observeTranscript`. */
  function ObserveTranscript(previous: Candidate, transcript: string): Candidate {
    Candidate(previous.hintsUsed, previous.probeHistory, previous.derivedFromRevision, previous.runs,
              previous.transcripts + [transcript])
  }

  /** One fold per run, the snapshot only with the first; one fold of its own when there is no run. */
  function ObserveRuns(c: Candidate, revision: Option<int>, runs: seq<string>): Candidate {
    if runs == [] then Observe(c, revision, None)
    else if |runs| == 1 then Observe(c, revision, Some(runs[0]))
    else Observe(ObserveRuns(c, revision, runs[..|runs| - 1]), None, Some(runs[|runs| - 1]))
  }

  function ObserveTranscripts(c: Candidate, transcripts: seq<string>): Candidate {
    if transcripts == [] then c
    else ObserveTranscript(ObserveTranscripts(c, transcripts[..|transcripts| - 1]), transcripts[|transcripts| - 1])
  }

  function Disposals(items: seq<string>, pass: nat, dropped: bool): seq<Disposal> {
    seq(|items|, i requires 0 <= i < |items| => Disposal(items[i], pass, dropped))
  }

  function Dispose(s: State, pass: nat, runs: seq<string>, transcripts: seq<string>, dropped: bool): State {
    s.(disposedRuns := s.disposedRuns + Disposals(runs, pass, dropped),
       disposedTranscripts := s.disposedTranscripts + Disposals(transcripts, pass, dropped))
  }

  /** Folds what a pass took into the candidate state as it is now, and writes it back. */
  function FoldIn(s: State, pass: nat, revision: Option<int>, runs: seq<string>, transcripts: seq<string>): State {
    Dispose(s.(candidate := ObserveTranscripts(ObserveRuns(s.candidate, revision, runs), transcripts)),
            pass, runs, transcripts, false)
  }

  // ----- One step -----

  /** The head of the loop, entered when dirty: takes everything pending and runs up to the first await. */
  function BeginPass(s: State): (State, Frame) {
    var t := s.(dirty := false, pendingRuns := [], pendingTranscripts := [], passes := s.passes + 1);
    if |s.latestCode| > 0 then
      (t, Snapshotting(s.passes, s.latestRevision, s.latestCode, s.pendingRuns, s.pendingTranscripts))
    else (FoldIn(t, s.passes, None, s.pendingRuns, s.pendingTranscripts), Appending)
  }

  function ScheduleObservation(s: State): State {
    var t := s.(dirty := true);
    if s.running then t
    else
      var (u, frame) := BeginPass(t);
      u.(running := true, frames := u.frames + [frame])
  }

  /** A frame goes on after its await; `ok` says whether the await succeeded. */
  function ResumeFrame(s: State, i: nat, ok: bool): State
    requires i < |s.frames|
  {
    match s.frames[i]
    case Snapshotting(pass, revision, code, runs, transcripts) =>
      if ok then
        FoldIn(s.(previousObservedCode := Some(code), snapshotFailed := false, frames := s.frames[i := Appending]),
               pass, Some(revision), runs, transcripts)
      else Dispose(s.(snapshotFailed := true, frames := s.frames[i := Leaving]), pass, runs, transcripts, true)
    case Appending =>
      if ok && s.dirty then
        var (t, frame) := BeginPass(s);
        t.(frames := t.frames[i := frame])
      else s.(frames := s.frames[i := Leaving])
    case Leaving =>
      var t := s.(running := false, frames := s.frames[..i] + s.frames[i + 1..]);
      if s.dirty then ScheduleObservation(t) else t
  }

  function Step(s: State, e: Event): State {
    match e
    case CodeDelta(revision, text) =>
      if revision < s.latestRevision then s
      else ScheduleObservation(s.(latestRevision := revision, latestCode := text))
    case RunCompleted(run) => ScheduleObservation(s.(pendingRuns := s.pendingRuns + [run]))
    case TranscriptFinal(transcript) => ScheduleObservation(s.(pendingTranscripts := s.pendingTranscripts + [transcript]))
    case HintGiven(level) => s.(candidate := s.candidate.(hintsUsed := s.candidate.hintsUsed + [level]))
    case ProbeAsked(probe) => s.(candidate := s.candidate.(probeHistory := s.candidate.probeHistory + [probe]))
    case Resume(i, ok) => if i < |s.frames| then ResumeFrame(s, i, ok) else s
  }

  /** The observer's part of the session's mutable state; `frames` stands for the suspended continuations. */
  class Observer {
    var latestRevision: int
    var latestCode: string
    var candidateState: Candidate
    var previousObservedCode: Option<string>
    var pendingRuns: seq<string>
    var pendingTranscripts: seq<string>
    var dirty: bool
    var running: bool
    var frames: seq<Frame>
    ghost var snapshotFailed: bool
    var passes: nat
    ghost var disposedRuns: seq<Disposal>
    ghost var disposedTranscripts: seq<Disposal>

    ghost function View(): State
      reads this
    {
      State(latestRevision, latestCode, candidateState, previousObservedCode, pendingRuns, pendingTranscripts,
            dirty, running, frames, snapshotFailed, passes, disposedRuns, disposedTranscripts)
    }

    constructor ()
      ensures View() == Fresh()
    {
      latestRevision, latestCode, candidateState, previousObservedCode := 0, "", NEW_CANDIDATE, None;
      pendingRuns, pendingTranscripts, dirty, running, frames, snapshotFailed := [], [], false, false, [], false;
      passes, disposedRuns, disposedTranscripts := 0, [], [];
    }

    method OnCodeDelta(revision: int, text: string)
      modifies this
      ensures View() == Step(old(View()), CodeDelta(revision, text))
    {
      if revision < latestRevision { return; }
      latestRevision, latestCode := revision, text;
      Schedule();
    }

    method OnRunCompleted(run: string)
      modifies this
      ensures View() == Step(old(View()), RunCompleted(run))
    {
      pendingRuns := pendingRuns + [run];
      Schedule();
    }

    method OnTranscript(transcript: string)
      modifies this
      ensures View() == Step(old(View()), TranscriptFinal(transcript))
    {
      pendingTranscripts := pendingTranscripts + [transcript];
      Schedule();
    }

    method RecordHint(level: int)
      modifies this`candidateState
      ensures View() == Step(old(View()), HintGiven(level))
    {
      candidateState := candidateState.(hintsUsed := candidateState.hintsUsed + [level]);
    }

    method RecordProbe(probe: string)
      modifies this`candidateState
      ensures View() == Step(old(View()), ProbeAsked(probe))
    {
      candidateState := candidateState.(probeHistory := candidateState.probeHistory + [probe]);
    }

    method Schedule()
      modifies this
      ensures View() == ScheduleObservation(old(View()))
    {
      dirty := true;
      if running { return; }
      var frame := TakePending();
      running := true;
      frames := frames + [frame];
    }

    method TakePending() returns (frame: Frame)
      modifies this`dirty, this`pendingRuns, this`pendingTranscripts, this`passes,
               this`candidateState, this`disposedRuns, this`disposedTranscripts
      ensures (View(), frame) == BeginPass(old(View()))
    {
      dirty := false;
      var pass, runs, transcripts := passes, pendingRuns, pendingTranscripts;
      pendingRuns, pendingTranscripts, passes := [], [], passes + 1;
      if |latestCode| > 0 {
        return Snapshotting(pass, latestRevision, latestCode, runs, transcripts);
      }
      Fold(pass, None, runs, transcripts);
      return Appending;
    }

    /** Runs in arrival order, then transcripts, each folded into the candidate state as the last fold left it. */
    method Fold(pass: nat, revision: Option<int>, runs: seq<string>, transcripts: seq<string>)
      modifies this`candidateState, this`disposedRuns, this`disposedTranscripts
      ensures View() == FoldIn(old(View()), pass, revision, runs, transcripts)
    {
      FoldRuns(revision, runs);
      FoldTranscripts(transcripts);
      disposedRuns := disposedRuns + Disposals(runs, pass, false);
      disposedTranscripts := disposedTranscripts + Disposals(transcripts, pass, false);
    }

    method FoldRuns(revision: Option<int>, runs: seq<string>)
      modifies this`candidateState
      ensures candidateState == ObserveRuns(old(candidateState), revision, runs)
    {
      if |runs| == 0 {
        candidateState := Observe(candidateState, revision, None);
        return;
      }
      candidateState := Observe(candidateState, revision, Some(runs[0]));
      assert runs[..1][0] == runs[0];
      for i := 1 to |runs|
        invariant candidateState == ObserveRuns(old(candidateState), revision, runs[..i])
      {
        assert runs[..i + 1][..i] == runs[..i];
        candidateState := Observe(candidateState, None, Some(runs[i]));
      }
      assert runs[..|runs|] == runs;
    }

    method FoldTranscripts(transcripts: seq<string>)
      modifies this`candidateState
      ensures candidateState == ObserveTranscripts(old(candidateState), transcripts)
    {
      for i := 0 to |transcripts|
        invariant candidateState == ObserveTranscripts(old(candidateState), transcripts[..i])
      {
        assert transcripts[..i + 1][..i] == transcripts[..i];
        candidateState := ObserveTranscript(candidateState, transcripts[i]);
      }
      assert transcripts[..|transcripts|] == transcripts;
    }

    method ContinueFrame(i: nat, ok: bool)
      requires i < |frames|
      modifies this
      ensures View() == Step(old(View()), Resume(i, ok))
    {
      match frames[i] {
        case Snapshotting(_, _, _, _, _) => FinishSnapshot(i, ok);
        case Appending => FinishAppends(i, ok);
        case Leaving => Leave(i);
      }
    }

    method FinishSnapshot(i: nat, ok: bool)
      requires i < |frames| && frames[i].Snapshotting?
      modifies this`candidateState, this`previousObservedCode, this`frames, this`snapshotFailed,
               this`disposedRuns, this`disposedTranscripts
      ensures View() == ResumeFrame(old(View()), i, ok)
    {
      var p := frames[i];
      if !ok {
        snapshotFailed, frames := true, frames[i := Leaving];
        disposedRuns := disposedRuns + Disposals(p.runs, p.pass, true);
        disposedTranscripts := disposedTranscripts + Disposals(p.transcripts, p.pass, true);
        return;
      }
      previousObservedCode, snapshotFailed, frames := Some(p.code), false, frames[i := Appending];
      Fold(p.pass, Some(p.revision), p.runs, p.transcripts);
    }

    method FinishAppends(i: nat, ok: bool)
      requires i < |frames| && frames[i].Appending?
      modifies this
      ensures View() == ResumeFrame(old(View()), i, ok)
    {
      var next := Leaving;
      if ok && dirty { next := TakePending(); }
      frames := frames[i := next];
    }

    /** The promise's `finally`: another pass starts if something arrived in the meantime. */
    method Leave(i: nat)
      requires i < |frames| && frames[i].Leaving?
      modifies this
      ensures forall ok :: View() == ResumeFrame(old(View()), i, ok)
    {
      running, frames := false, frames[..i] + frames[i + 1..];
      if dirty { Schedule(); }
    }
  }

  // ----- What a fold does -----

  lemma {:induction false} RunsAreAppended(c: Candidate, revision: Option<int>, runs: seq<string>)
    ensures ObserveRuns(c, revision, runs) ==
      c.(runs := c.runs + runs, derivedFromRevision := if revision.Some? then revision.value else c.derivedFromRevision)
  {
    if |runs| == 1 {
      assert runs == [runs[0]];
    } else if runs != [] {
      RunsAreAppended(c, revision, runs[..|runs| - 1]);
      assert runs == runs[..|runs| - 1] + [runs[|runs| - 1]];
      assert c.runs + runs[..|runs| - 1] + [runs[|runs| - 1]] == c.runs + runs;
    }
  }

  lemma {:induction false} TranscriptsAreAppended(c: Candidate, transcripts: seq<string>)
    ensures ObserveTranscripts(c, transcripts) == c.(transcripts := c.transcripts + transcripts)
  {
    if transcripts != [] {
      TranscriptsAreAppended(c, transcripts[..|transcripts| - 1]);
      assert transcripts == transcripts[..|transcripts| - 1] + [transcripts[|transcripts| - 1]];
      assert c.transcripts + transcripts[..|transcripts| - 1] + [transcripts[|transcripts| - 1]] == c.transcripts + transcripts;
    }
  }

  /** A fold adds its evidence to the record it reads and keeps the rest of it. */
  lemma FoldAppends(s: State, pass: nat, revision: Option<int>, runs: seq<string>, transcripts: seq<string>)
    ensures var c := s.candidate;
            FoldIn(s, pass, revision, runs, transcripts).candidate ==
              Candidate(c.hintsUsed, c.probeHistory, if revision.Some? then revision.value else c.derivedFromRevision,
                        c.runs + runs, c.transcripts + transcripts)
  {
    RunsAreAppended(s.candidate, revision, runs);
    TranscriptsAreAppended(ObserveRuns(s.candidate, revision, runs), transcripts);
  }

  /** Beginning a pass, seen from outside: everything pending is taken, and folded at once if there is no code. */
  lemma BeginPassTakes(s: State)
    ensures var (t, f) := BeginPass(s); var c := s.candidate; var now := |s.latestCode| == 0;
            && t == s.(dirty := false, pendingRuns := [], pendingTranscripts := [], passes := s.passes + 1,
                       candidate := t.candidate, disposedRuns := t.disposedRuns, disposedTranscripts := t.disposedTranscripts)
            && f == (if now then Appending
                     else Snapshotting(s.passes, s.latestRevision, s.latestCode, s.pendingRuns, s.pendingTranscripts))
            && t.candidate == (if now then Candidate(c.hintsUsed, c.probeHistory, c.derivedFromRevision,
                                                    c.runs + s.pendingRuns, c.transcripts + s.pendingTranscripts) else c)
            && (if now then
                  && t.disposedRuns == s.disposedRuns + Disposals(s.pendingRuns, s.passes, false)
                  && t.disposedTranscripts == s.disposedTranscripts + Disposals(s.pendingTranscripts, s.passes, false)
                else t.disposedRuns == s.disposedRuns && t.disposedTranscripts == s.disposedTranscripts)
  {
    var t := s.(dirty := false, pendingRuns := [], pendingTranscripts := [], passes := s.passes + 1);
    FoldAppends(t, s.passes, None, s.pendingRuns, s.pendingTranscripts);
  }

  // ----- Runs -----

  /** A run: what happened, and the states it led through. */
  datatype Recorded = Recorded(events: seq<Event>, states: seq<State>)

  type History = h: Recorded | |h.states| == |h.events| + 1 witness Recorded([], [Fresh()])

  ghost predicate IsStep(h: History, i: nat)
    requires i < |h.events|
  {
    h.states[i + 1] == Step(h.states[i], h.events[i])
  }

  ghost predicate IsRun(h: History) {
    h.states[0] == Fresh() && forall i: nat :: i < |h.events| ==> IsStep(h, i)
  }

  /** The pass that is suspended on its snapshot, if one is. */
  ghost function InFlight(s: State): Option<Frame> {
    if |s.frames| == 1 && s.frames[0].Snapshotting? then Some(s.frames[0]) else None
  }

  ghost predicate IsUpToDate(s: State) {
    s.candidate.derivedFromRevision == s.latestRevision && s.previousObservedCode == Some(s.latestCode)
  }

  /** A suspended pass observes a revision between what has been observed and what has arrived. */
  ghost predicate FrameIsSound(s: State, f: Frame) {
    f.Snapshotting? ==>
      && |f.code| > 0 && s.candidate.derivedFromRevision <= f.revision <= s.latestRevision
      && (!s.dirty ==> f.code == s.latestCode && f.revision == s.latestRevision)
      && f.pass + 1 == s.passes
  }

  /** With nothing dirty, non-empty latest code has been observed or is being observed. */
  ghost predicate NothingMissed(s: State) {
    && (!s.dirty ==> s.pendingRuns == [] && s.pendingTranscripts == [])
    && (!s.dirty && |s.latestCode| > 0 && !s.snapshotFailed ==> IsUpToDate(s) || InFlight(s).Some?)
  }

  /** What every step keeps: at most one pass, no lost wake-up, revisions in order. */
  ghost predicate Inv(s: State) {
    && |s.frames| == (if s.running then 1 else 0)
    && (!s.running ==> !s.dirty)
    && 0 <= s.candidate.derivedFromRevision <= s.latestRevision
    && (s.running ==> FrameIsSound(s, s.frames[0]))
    && NothingMissed(s)
  }

  lemma InvSchedule(s: State)
    requires |s.frames| == (if s.running then 1 else 0) && 0 <= s.candidate.derivedFromRevision <= s.latestRevision
    requires s.running ==> FrameIsSound(s.(dirty := true), s.frames[0])
    ensures Inv(ScheduleObservation(s))
  {
    hide BeginPass;
    BeginPassTakes(s.(dirty := true));
  }

  lemma InvResume(s: State, i: nat, ok: bool)
    requires Inv(s) && i < |s.frames|
    ensures Inv(ResumeFrame(s, i, ok))
  {
    hide BeginPass, FoldIn, ScheduleObservation;
    match s.frames[i]
    case Snapshotting(pass, revision, code, runs, transcripts) =>
      var t := s.(previousObservedCode := Some(code), snapshotFailed := false, frames := s.frames[i := Appending]);
      FoldAppends(t, pass, Some(revision), runs, transcripts);
      FoldKeepsRest(t, pass, Some(revision), runs, transcripts);
    case Appending => BeginPassTakes(s);
    case Leaving => if s.dirty { InvSchedule(s.(running := false, frames := s.frames[..i] + s.frames[i + 1..])); }
  }

  lemma FoldKeepsRest(s: State, pass: nat, revision: Option<int>, runs: seq<string>, transcripts: seq<string>)
    ensures var t := FoldIn(s, pass, revision, runs, transcripts);
            && t == s.(candidate := t.candidate, disposedRuns := t.disposedRuns, disposedTranscripts := t.disposedTranscripts)
            && t.disposedRuns == s.disposedRuns + Disposals(runs, pass, false)
            && t.disposedTranscripts == s.disposedTranscripts + Disposals(transcripts, pass, false)
  {
  }

  lemma InvStep(s: State, e: Event)
    requires Inv(s)
    ensures Inv(Step(s, e))
  {
    hide ScheduleObservation, ResumeFrame;
    match e
    case CodeDelta(revision, text) =>
      if revision >= s.latestRevision { InvSchedule(s.(latestRevision := revision, latestCode := text)); }
    case RunCompleted(run) => InvSchedule(s.(pendingRuns := s.pendingRuns + [run]));
    case TranscriptFinal(transcript) => InvSchedule(s.(pendingTranscripts := s.pendingTranscripts + [transcript]));
    case HintGiven(_) =>
    case ProbeAsked(_) =>
    case Resume(i, ok) => if i < |s.frames| { InvResume(s, i, ok); }
  }

  lemma {:induction false} InvHolds(h: History, n: nat)
    requires IsRun(h) && n <= |h.events|
    ensures Inv(h.states[n])
  {
    hide Step;
    if n > 0 {
      InvHolds(h, n - 1);
      assert IsStep(h, n - 1);
      InvStep(h.states[n - 1], h.events[n - 1]);
    }
  }

  // ----- The newest code that arrived -----

  /** Event `i` brings code that no code before it exceeds. */
  ghost predicate IsLeading(h: History, i: nat)
    requires i < |h.events|
  {
    && h.events[i].CodeDelta? && h.events[i].revision >= 0
    && forall j :: 0 <= j < i && h.events[j].CodeDelta? ==> h.events[j].revision <= h.events[i].revision
  }

  /** The last of the first `n` events that did so. */
  ghost function Newest(h: History, n: nat): Option<nat>
    requires n <= |h.events|
  {
    if n == 0 then None else if IsLeading(h, n - 1) then Some(n - 1) else Newest(h, n - 1)
  }

  lemma {:induction false} NewestLeads(h: History, n: nat)
    requires n <= |h.events|
    ensures Newest(h, n).Some? ==> Newest(h, n).value < n && IsLeading(h, Newest(h, n).value)
    ensures forall j :: 0 <= j < n && h.events[j].CodeDelta? && h.events[j].revision >= 0 ==>
      Newest(h, n).Some? && h.events[j].revision <= h.events[Newest(h, n).value].revision
  {
    if n > 0 {
      NewestLeads(h, n - 1);
    }
  }

  /** The latest code is what the newest delta says, whatever else went on. */
  ghost predicate IsNewest(h: History, n: nat, revision: int, text: string)
    requires n <= |h.events|
  {
    NewestLeads(h, n);
    match Newest(h, n)
    case None => revision == 0 && text == ""
    case Some(k) => h.events[k].revision == revision && h.events[k].text == text
  }

  lemma LatestStep(s: State, e: Event)
    ensures var t := Step(s, e);
            if e.CodeDelta? && e.revision >= s.latestRevision then t.latestRevision == e.revision && t.latestCode == e.text
            else t.latestRevision == s.latestRevision && t.latestCode == s.latestCode
  {
    hide FoldIn;
    if e.Resume? && e.frame < |s.frames| && s.frames[e.frame].Snapshotting? {
      var f := s.frames[e.frame];
      FoldKeepsRest(s.(previousObservedCode := Some(f.code), snapshotFailed := false, frames := s.frames[e.frame := Appending]),
                    f.pass, Some(f.revision), f.runs, f.transcripts);
    }
    forall u: State ensures BeginPass(u).0.latestRevision == u.latestRevision && BeginPass(u).0.latestCode == u.latestCode {
      BeginPassTakes(u);
    }
  }

  /** Over every interleaving the loop's latest code is the newest that arrived: the last delta that none before it exceeds. */
  lemma {:induction false} LatestIsNewest(h: History, n: nat)
    requires IsRun(h) && n <= |h.events|
    ensures IsNewest(h, n, h.states[n].latestRevision, h.states[n].latestCode)
  {
    hide Step;
    if n > 0 {
      var m := n - 1;
      LatestIsNewest(h, m);
      NewestLeads(h, m);
      assert IsStep(h, m);
      LatestStep(h.states[m], h.events[m]);
      var e := h.events[m];
      if e.CodeDelta? {
        assert IsLeading(h, m) <==> e.revision >= h.states[m].latestRevision by { NewestIsNatural(h, m); }
      }
    }
  }

  lemma NewestIsNatural(h: History, n: nat)
    requires n <= |h.events|
    ensures Newest(h, n).Some? ==> Newest(h, n).value < |h.events| && h.events[Newest(h, n).value].CodeDelta?
                                   && h.events[Newest(h, n).value].revision >= 0
  {
    NewestLeads(h, n);
  }

  /** Whether the last snapshot that came to an end failed. */
  ghost predicate LastSnapshotFailed(h: History, n: nat)
    requires n <= |h.events|
  {
    if n == 0 then false
    else
      var s, e := h.states[n - 1], h.events[n - 1];
      if e.Resume? && e.frame < |s.frames| && s.frames[e.frame].Snapshotting? then !e.ok else LastSnapshotFailed(h, n - 1)
  }

  lemma SnapshotStep(s: State, e: Event)
    ensures Step(s, e).snapshotFailed ==
      if e.Resume? && e.frame < |s.frames| && s.frames[e.frame].Snapshotting? then !e.ok else s.snapshotFailed
  {
  }

  lemma {:induction false} FlagIsLastSnapshot(h: History, n: nat)
    requires IsRun(h) && n <= |h.events|
    ensures h.states[n].snapshotFailed == LastSnapshotFailed(h, n)
  {
    hide Step;
    if n > 0 {
      FlagIsLastSnapshot(h, n - 1);
      assert IsStep(h, n - 1);
      SnapshotStep(h.states[n - 1], h.events[n - 1]);
    }
  }

  /** Some delta brought this code. */
  ghost predicate HasArrived(h: History, n: nat, revision: int, text: string)
    requires n <= |h.events|
  {
    exists k: nat :: k < n && h.events[k] == CodeDelta(revision, text)
  }

  /** What is being observed and what was observed last is code that arrived, under its own revision. */
  ghost predicate ObservesWhatArrived(h: History, n: nat)
    requires n <= |h.events|
  {
    var s := h.states[n];
    && (s.latestCode != "" ==> HasArrived(h, n, s.latestRevision, s.latestCode))
    && (InFlight(s).Some? ==> HasArrived(h, n, InFlight(s).value.revision, InFlight(s).value.code))
    && (s.previousObservedCode.Some? ==> HasArrived(h, n, s.candidate.derivedFromRevision, s.previousObservedCode.value))
  }

  /** One step observes what was in flight, or takes the latest code into flight. */
  ghost predicate Observes(s: State, t: State) {
    && (InFlight(t).Some? ==>
          || InFlight(s) == InFlight(t)
          || (InFlight(t).value.revision == t.latestRevision && InFlight(t).value.code == t.latestCode != ""))
    && (t.previousObservedCode.Some? ==>
          || (t.previousObservedCode == s.previousObservedCode && t.candidate.derivedFromRevision == s.candidate.derivedFromRevision)
          || (InFlight(s).Some? && t.previousObservedCode == Some(InFlight(s).value.code)
              && t.candidate.derivedFromRevision == InFlight(s).value.revision))
  }

  lemma ScheduleObserves(s: State)
    requires |s.frames| == if s.running then 1 else 0
    ensures Observes(s, ScheduleObservation(s))
  {
    hide FoldIn;
    if !s.running && |s.latestCode| == 0 {
      var t := s.(dirty := false, pendingRuns := [], pendingTranscripts := [], passes := s.passes + 1);
      FoldAppends(t, s.passes, None, s.pendingRuns, s.pendingTranscripts);
      FoldKeepsRest(t, s.passes, None, s.pendingRuns, s.pendingTranscripts);
    }
  }

  lemma ResumeObserves(s: State, i: nat, ok: bool)
    requires Inv(s) && i < |s.frames|
    ensures Observes(s, ResumeFrame(s, i, ok))
  {
    hide FoldIn, ScheduleObservation;
    match s.frames[i]
    case Snapshotting(pass, revision, code, runs, transcripts) =>
      var t := s.(previousObservedCode := Some(code), snapshotFailed := false, frames := s.frames[i := Appending]);
      FoldAppends(t, pass, Some(revision), runs, transcripts);
      FoldKeepsRest(t, pass, Some(revision), runs, transcripts);
    case Appending =>
      var t := s.(dirty := false, pendingRuns := [], pendingTranscripts := [], passes := s.passes + 1);
      FoldAppends(t, s.passes, None, s.pendingRuns, s.pendingTranscripts);
      FoldKeepsRest(t, s.passes, None, s.pendingRuns, s.pendingTranscripts);
    case Leaving => ScheduleObserves(s.(running := false, frames := s.frames[..i] + s.frames[i + 1..]));
  }

  lemma StepObserves(s: State, e: Event)
    requires Inv(s)
    ensures Observes(s, Step(s, e))
  {
    hide ScheduleObservation, ResumeFrame;
    match e
    case CodeDelta(revision, text) =>
      if revision >= s.latestRevision { ScheduleObserves(s.(latestRevision := revision, latestCode := text)); }
    case RunCompleted(run) => ScheduleObserves(s.(pendingRuns := s.pendingRuns + [run]));
    case TranscriptFinal(transcript) => ScheduleObserves(s.(pendingTranscripts := s.pendingTranscripts + [transcript]));
    case Resume(i, ok) => if i < |s.frames| { ResumeObserves(s, i, ok); }
    case _ =>
  }

  lemma ArrivedLater(h: History, m: nat, n: nat, revision: int, text: string)
    requires m <= n <= |h.events| && HasArrived(h, m, revision, text)
    ensures HasArrived(h, n, revision, text)
  {
    var k: nat :| k < m && h.events[k] == CodeDelta(revision, text);
    assert k < n;
  }

  lemma LatestArrived(h: History, n: nat)
    requires IsRun(h) && n <= |h.events| && h.states[n].latestCode != ""
    ensures HasArrived(h, n, h.states[n].latestRevision, h.states[n].latestCode)
  {
    LatestIsNewest(h, n);
    NewestLeads(h, n);
    assert h.events[Newest(h, n).value].CodeDelta?;
  }

  /** Over every interleaving, whatever a pass observes is code that arrived, under its own revision. */
  lemma {:induction false} ObservationsArrived(h: History, n: nat)
    requires IsRun(h) && n <= |h.events|
    ensures ObservesWhatArrived(h, n)
  {
    hide Step, HasArrived;
    if n > 0 {
      var m := n - 1;
      ObservationsArrived(h, m);
      InvHolds(h, m);
      assert IsStep(h, m);
      StepObserves(h.states[m], h.events[m]);
      var s, t := h.states[m], h.states[n];
      if t.latestCode != "" { LatestArrived(h, n); }
      if InFlight(s).Some? { ArrivedLater(h, m, n, InFlight(s).value.revision, InFlight(s).value.code); }
      if s.previousObservedCode.Some? {
        ArrivedLater(h, m, n, s.candidate.derivedFromRevision, s.previousObservedCode.value);
      }
    }
  }

  /**
   Over every interleaving: at most one pass is in flight, nothing waits while the loop is idle,
   and once it is idle the text of the newest delta that arrived has been observed under its
   revision, unless that text is empty or the last snapshot failed.
   */
  lemma IdleMeansObserved(h: History, n: nat)
    requires IsRun(h) && n <= |h.events|
    ensures var s := h.states[n];
            && |s.frames| <= 1 && (s.running <==> |s.frames| == 1)
            && (!s.running ==> !s.dirty && s.pendingRuns == [] && s.pendingTranscripts == [])
            && (!s.running && !LastSnapshotFailed(h, n) ==> ObservedNewest(h, n))
  {
    InvHolds(h, n);
    LatestIsNewest(h, n);
    FlagIsLastSnapshot(h, n);
    NewestLeads(h, n);
  }

  /** The text of the newest delta, unless it is empty, is the code observed last, and the record was derived from its revision. */
  ghost predicate ObservedNewest(h: History, n: nat)
    requires n <= |h.events|
  {
    NewestLeads(h, n);
    var s, k := h.states[n], Newest(h, n);
    k.Some? && h.events[k.value].text != "" ==>
      s.previousObservedCode == Some(h.events[k.value].text) && s.candidate.derivedFromRevision == h.events[k.value].revision
  }

  // ----- Conservation -----

  ghost function Items(disposals: seq<Disposal>): seq<string> {
    seq(|disposals|, i requires 0 <= i < |disposals| => disposals[i].item)
  }

  /** The items that were not dropped, in order. */
  ghost function Kept(disposals: seq<Disposal>): seq<string> {
    if disposals == [] then []
    else
      var last := disposals[|disposals| - 1];
      Kept(disposals[..|disposals| - 1]) + if last.dropped then [] else [last.item]
  }

  lemma {:induction false} KeptAppends(before: seq<Disposal>, items: seq<string>, pass: nat, dropped: bool)
    ensures Kept(before + Disposals(items, pass, dropped)) == Kept(before) + if dropped then [] else items
  {
    hide Kept;
    if items == [] {
      assert before + Disposals(items, pass, dropped) == before;
    } else {
      var init, last := items[..|items| - 1], items[|items| - 1];
      KeptAppends(before, init, pass, dropped);
      assert Disposals(items, pass, dropped) == Disposals(init, pass, dropped) + [Disposal(last, pass, dropped)];
      KeptOneMore(before + Disposals(init, pass, dropped), Disposal(last, pass, dropped));
      assert before + Disposals(items, pass, dropped)
          == before + Disposals(init, pass, dropped) + [Disposal(last, pass, dropped)];
      assert items == init + [last];
      assert Kept(before) + init + [last] == Kept(before) + items;
    }
  }

  lemma KeptOneMore(before: seq<Disposal>, d: Disposal)
    ensures Kept(before + [d]) == Kept(before) + if d.dropped then [] else [d.item]
  {
    assert (before + [d])[..|before|] == before;
  }

  lemma ItemsAppend(before: seq<Disposal>, items: seq<string>, pass: nat, dropped: bool)
    ensures Items(before + Disposals(items, pass, dropped)) == Items(before) + items
  {
  }

  /** Items that a pass takes and disposes of are still accounted for, in the same order. */
  lemma StillInOrder(before: seq<Disposal>, items: seq<string>, pass: nat, dropped: bool, rest: seq<string>)
    ensures Items(before + Disposals(items, pass, dropped)) + [] + rest == Items(before) + items + rest
    ensures Items(before) + [] + items == Items(before) + items + []
  {
    ItemsAppend(before, items, pass, dropped);
  }

  ghost function TakenRuns(s: State): seq<string> {
    if InFlight(s).Some? then InFlight(s).value.runs else []
  }

  ghost function TakenTranscripts(s: State): seq<string> {
    if InFlight(s).Some? then InFlight(s).value.transcripts else []
  }

  /** Where the runs are: dealt with, taken by the pass in flight, or pending, in this order. */
  ghost function AccountedRuns(s: State): seq<string> {
    Items(s.disposedRuns) + TakenRuns(s) + s.pendingRuns
  }

  ghost function AccountedTranscripts(s: State): seq<string> {
    Items(s.disposedTranscripts) + TakenTranscripts(s) + s.pendingTranscripts
  }

  /** The evidence in the record is what was not dropped. */
  ghost predicate IsBooked(s: State) {
    s.candidate.runs == Kept(s.disposedRuns) && s.candidate.transcripts == Kept(s.disposedTranscripts)
  }

  /** From `s` to `t` the loop moved items along, kept the books, and touched no hint and no probe. */
  ghost predicate Carries(s: State, t: State) {
    && AccountedRuns(t) == AccountedRuns(s) && AccountedTranscripts(t) == AccountedTranscripts(s)
    && (IsBooked(s) ==> IsBooked(t))
    && t.candidate.hintsUsed == s.candidate.hintsUsed && t.candidate.probeHistory == s.candidate.probeHistory
    && s.disposedRuns <= t.disposedRuns && s.disposedTranscripts <= t.disposedTranscripts
  }

  lemma ScheduleCarries(s: State)
    requires |s.frames| == (if s.running then 1 else 0)
    ensures Carries(s, ScheduleObservation(s))
  {
    hide BeginPass, Kept, Items;
    BeginPassTakes(s.(dirty := true));
    PendingCarries(s);
  }

  /** Folding or taking what is pending. */
  lemma PendingCarries(s: State)
    ensures Kept(s.disposedRuns + Disposals(s.pendingRuns, s.passes, false)) == Kept(s.disposedRuns) + s.pendingRuns
    ensures Kept(s.disposedTranscripts + Disposals(s.pendingTranscripts, s.passes, false)) ==
              Kept(s.disposedTranscripts) + s.pendingTranscripts
    ensures Items(s.disposedRuns + Disposals(s.pendingRuns, s.passes, false)) + [] + [] == Items(s.disposedRuns) + [] + s.pendingRuns
    ensures Items(s.disposedTranscripts + Disposals(s.pendingTranscripts, s.passes, false)) + [] + [] ==
              Items(s.disposedTranscripts) + [] + s.pendingTranscripts
    ensures Items(s.disposedRuns) + s.pendingRuns + [] == Items(s.disposedRuns) + [] + s.pendingRuns
    ensures Items(s.disposedTranscripts) + s.pendingTranscripts + [] == Items(s.disposedTranscripts) + [] + s.pendingTranscripts
  {
    KeptAppends(s.disposedRuns, s.pendingRuns, s.passes, false);
    KeptAppends(s.disposedTranscripts, s.pendingTranscripts, s.passes, false);
    ItemsAppend(s.disposedRuns, s.pendingRuns, s.passes, false);
    ItemsAppend(s.disposedTranscripts, s.pendingTranscripts, s.passes, false);
  }

  lemma ResumeCarries(s: State, i: nat, ok: bool)
    requires Inv(s) && i < |s.frames|
    ensures Carries(s, ResumeFrame(s, i, ok))
  {
    hide BeginPass, FoldIn, ScheduleObservation, Kept, Items;
    match s.frames[i]
    case Snapshotting(pass, revision, code, runs, transcripts) =>
      var t := s.(previousObservedCode := Some(code), snapshotFailed := false, frames := s.frames[i := Appending]);
      FoldAppends(t, pass, Some(revision), runs, transcripts);
      FoldKeepsRest(t, pass, Some(revision), runs, transcripts);
      KeptAppends(s.disposedRuns, runs, pass, !ok);
      KeptAppends(s.disposedTranscripts, transcripts, pass, !ok);
      StillInOrder(s.disposedRuns, runs, pass, !ok, s.pendingRuns);
      StillInOrder(s.disposedTranscripts, transcripts, pass, !ok, s.pendingTranscripts);
    case Appending =>
      BeginPassTakes(s);
      PendingCarries(s);
    case Leaving => ScheduleCarries(s.(running := false, frames := s.frames[..i] + s.frames[i + 1..]));
  }

  /** What one event adds to what has arrived. */
  ghost function RunsOf(e: Event): seq<string> {
    if e.RunCompleted? then [e.run] else []
  }

  ghost function TranscriptsOf(e: Event): seq<string> {
    if e.TranscriptFinal? then [e.transcript] else []
  }

  ghost function HintsOf(e: Event): seq<int> {
    if e.HintGiven? then [e.level] else []
  }

  ghost function ProbesOf(e: Event): seq<string> {
    if e.ProbeAsked? then [e.probe] else []
  }

  /** An arrival joins what is pending; code and recorded hints and probes change none of the accounts. */
  lemma ArrivalsCount(s: State, e: Event)
    ensures e.RunCompleted? ==>
      var u := s.(pendingRuns := s.pendingRuns + [e.run]);
      AccountedRuns(u) == AccountedRuns(s) + [e.run] && AccountedTranscripts(u) == AccountedTranscripts(s) && IsBooked(u) == IsBooked(s)
    ensures e.TranscriptFinal? ==>
      var u := s.(pendingTranscripts := s.pendingTranscripts + [e.transcript]);
      && AccountedRuns(u) == AccountedRuns(s) && AccountedTranscripts(u) == AccountedTranscripts(s) + [e.transcript]
      && IsBooked(u) == IsBooked(s)
    ensures e.CodeDelta? ==>
      var u := s.(latestRevision := e.revision, latestCode := e.text);
      AccountedRuns(u) == AccountedRuns(s) && AccountedTranscripts(u) == AccountedTranscripts(s) && IsBooked(u) == IsBooked(s)
    ensures forall hints, probes ::
      var u := s.(candidate := s.candidate.(hintsUsed := hints, probeHistory := probes));
      AccountedRuns(u) == AccountedRuns(s) && AccountedTranscripts(u) == AccountedTranscripts(s) && IsBooked(u) == IsBooked(s)
  {
    hide Kept, Items;
    if e.RunCompleted? {
      assert AccountedRuns(s) + [e.run] == Items(s.disposedRuns) + TakenRuns(s) + (s.pendingRuns + [e.run]);
    } else if e.TranscriptFinal? {
      assert AccountedTranscripts(s) + [e.transcript] ==
        Items(s.disposedTranscripts) + TakenTranscripts(s) + (s.pendingTranscripts + [e.transcript]);
    }
  }

  lemma StepCarries(s: State, e: Event)
    requires Inv(s)
    ensures var t := Step(s, e);
            && AccountedRuns(t) == AccountedRuns(s) + RunsOf(e)
            && AccountedTranscripts(t) == AccountedTranscripts(s) + TranscriptsOf(e)
            && (IsBooked(s) ==> IsBooked(t))
            && t.candidate.hintsUsed == s.candidate.hintsUsed + HintsOf(e)
            && t.candidate.probeHistory == s.candidate.probeHistory + ProbesOf(e)
            && s.disposedRuns <= t.disposedRuns && s.disposedTranscripts <= t.disposedTranscripts
  {
    hide ScheduleObservation, ResumeFrame, AccountedRuns, AccountedTranscripts, IsBooked;
    ArrivalsCount(s, e);
    match e
    case CodeDelta(revision, text) =>
      if revision >= s.latestRevision { ScheduleCarries(s.(latestRevision := revision, latestCode := text)); }
    case RunCompleted(run) => ScheduleCarries(s.(pendingRuns := s.pendingRuns + [run]));
    case TranscriptFinal(transcript) => ScheduleCarries(s.(pendingTranscripts := s.pendingTranscripts + [transcript]));
    case HintGiven(level) =>
      assert Step(s, e).candidate == s.candidate.(hintsUsed := s.candidate.hintsUsed + [level], probeHistory := s.candidate.probeHistory);
    case ProbeAsked(probe) =>
      assert Step(s, e).candidate == s.candidate.(hintsUsed := s.candidate.hintsUsed, probeHistory := s.candidate.probeHistory + [probe]);
    case Resume(i, ok) => if i < |s.frames| { ResumeCarries(s, i, ok); }
  }

  /** What the first `n` events say has happened, in order of arrival. */
  ghost function ArrivedRuns(h: History, n: nat): seq<string>
    requires n <= |h.events|
  {
    if n == 0 then [] else ArrivedRuns(h, n - 1) + RunsOf(h.events[n - 1])
  }

  ghost function ArrivedTranscripts(h: History, n: nat): seq<string>
    requires n <= |h.events|
  {
    if n == 0 then [] else ArrivedTranscripts(h, n - 1) + TranscriptsOf(h.events[n - 1])
  }

  ghost function Hints(h: History, n: nat): seq<int>
    requires n <= |h.events|
  {
    if n == 0 then [] else Hints(h, n - 1) + HintsOf(h.events[n - 1])
  }

  ghost function Probes(h: History, n: nat): seq<string>
    requires n <= |h.events|
  {
    if n == 0 then [] else Probes(h, n - 1) + ProbesOf(h.events[n - 1])
  }

  /**
   Over every interleaving, the runs dealt with, taken and pending are together exactly those
   that arrived, in order, and so are the transcripts; the record was derived from exactly
   those that were not dropped.
   */
  lemma {:induction false} EverythingIsAccounted(h: History, n: nat)
    requires IsRun(h) && n <= |h.events|
    ensures AccountedRuns(h.states[n]) == ArrivedRuns(h, n)
    ensures AccountedTranscripts(h.states[n]) == ArrivedTranscripts(h, n)
    ensures IsBooked(h.states[n])
  {
    hide Step;
    if n > 0 {
      EverythingIsAccounted(h, n - 1);
      InvHolds(h, n - 1);
      assert IsStep(h, n - 1);
      StepCarries(h.states[n - 1], h.events[n - 1]);
    }
  }

  /**
   Hints and probes recorded while a pass is in flight survive the folds that replace the whole
   record: it always holds exactly what was given.
   */
  lemma {:induction false} NothingRecordedIsOverwritten(h: History, n: nat)
    requires IsRun(h) && n <= |h.events|
    ensures h.states[n].candidate.hintsUsed == Hints(h, n) && h.states[n].candidate.probeHistory == Probes(h, n)
  {
    hide Step;
    if n > 0 {
      NothingRecordedIsOverwritten(h, n - 1);
      InvHolds(h, n - 1);
      assert IsStep(h, n - 1);
      StepCarries(h.states[n - 1], h.events[n - 1]);
    }
  }

  // ----- Revisions -----

  lemma RevisionsStep(s: State, e: Event)
    requires Inv(s)
    ensures s.candidate.derivedFromRevision <= Step(s, e).candidate.derivedFromRevision <= Step(s, e).latestRevision
    ensures s.latestRevision <= Step(s, e).latestRevision
  {
    hide BeginPass, FoldIn;
    InvStep(s, e);
    BeginPassTakes(s.(dirty := true));
    match e {
      case CodeDelta(revision, text) => BeginPassTakes(s.(latestRevision := revision, latestCode := text, dirty := true));
      case RunCompleted(run) => BeginPassTakes(s.(pendingRuns := s.pendingRuns + [run], dirty := true));
      case TranscriptFinal(t) => BeginPassTakes(s.(pendingTranscripts := s.pendingTranscripts + [t], dirty := true));
      case Resume(i, ok) => if i < |s.frames| { RevisionsResume(s, i, ok); }
      case _ =>
    }
  }

  lemma RevisionsResume(s: State, i: nat, ok: bool)
    requires Inv(s) && i < |s.frames|
    ensures s.candidate.derivedFromRevision <= ResumeFrame(s, i, ok).candidate.derivedFromRevision
    ensures s.latestRevision == ResumeFrame(s, i, ok).latestRevision
  {
    hide BeginPass, FoldIn;
    match s.frames[i]
    case Snapshotting(pass, revision, code, runs, transcripts) =>
      var t := s.(previousObservedCode := Some(code), snapshotFailed := false, frames := s.frames[i := Appending]);
      FoldAppends(t, pass, Some(revision), runs, transcripts);
      FoldKeepsRest(t, pass, Some(revision), runs, transcripts);
    case Appending => BeginPassTakes(s);
    case Leaving => BeginPassTakes(s.(running := false, frames := s.frames[..i] + s.frames[i + 1..], dirty := true));
  }

  /** The observed revision never goes back and never runs ahead of what has arrived. */
  lemma {:induction false} RevisionsNeverGoBack(h: History, m: nat, n: nat)
    requires IsRun(h) && m <= n <= |h.events|
    ensures var s, t := h.states[m], h.states[n];
            && s.candidate.derivedFromRevision <= t.candidate.derivedFromRevision <= t.latestRevision
            && s.latestRevision <= t.latestRevision
    decreases n
  {
    hide Step;
    InvHolds(h, n);
    if m < n {
      RevisionsNeverGoBack(h, m, n - 1);
      InvHolds(h, n - 1);
      assert IsStep(h, n - 1);
      RevisionsStep(h.states[n - 1], h.events[n - 1]);
    }
  }

  // ----- When a pass begins -----

  /** Something arrived that an observation is wanted for; a delta older than the latest is ignored. */
  ghost predicate Wakes(s: State, e: Event) {
    e.RunCompleted? || e.TranscriptFinal? || (e.CodeDelta? && e.revision >= s.latestRevision)
  }

  /** The loop goes on with its next pass: its appends were written, or it was entered anew. */
  ghost predicate GoesOn(s: State, e: Event) {
    e.Resume? && e.frame < |s.frames| && (s.frames[e.frame].Leaving? || (s.frames[e.frame].Appending? && e.ok))
  }

  /**
   In every run, a pass begins exactly when something arrives while no loop is running, or when
   something has arrived since the last pass began and the loop goes on. So a failed append or
   snapshot ends the loop, and what is pending waits for the loop to be entered anew.
   */
  lemma PassesBeginExactly(h: History, n: nat)
    requires IsRun(h) && n < |h.events|
    ensures var s, t, e := h.states[n], h.states[n + 1], h.events[n];
            t.passes == s.passes + if (Wakes(s, e) && !s.running) || (s.dirty && GoesOn(s, e)) then 1 else 0
    ensures var s, t, e := h.states[n], h.states[n + 1], h.events[n];
            t.dirty == (if Wakes(s, e) then s.running else s.dirty && !GoesOn(s, e))
  {
    hide Observe, ObserveRuns, ObserveTranscripts, Disposals;
    InvHolds(h, n);
    assert IsStep(h, n);
  }

  // ----- The loop comes to rest -----

  ghost function Rank(f: Frame): nat {
    match f
    case Snapshotting(_, _, _, _, _) => 3
    case Appending => 2
    case Leaving => 1
  }

  /** The awaits that are left, if nothing more arrives: those of the pass that is suspended, and of one more if it is due. */
  ghost function Work(s: State): nat
    requires s.running ==> s.frames != []
  {
    if !s.running then 0 else Rank(s.frames[0]) + if s.dirty then 3 else 0
  }

  /**
   In every run, each await that ends, well or not, leaves fewer to come, and so without further
   arrivals the loop is idle after at most six of them; nothing but an arrival adds any.
   */
  lemma EveryResumptionAdvances(h: History, n: nat)
    requires IsRun(h) && n < |h.events| && !Wakes(h.states[n], h.events[n])
    ensures var s, t, e := h.states[n], h.states[n + 1], h.events[n];
            && |s.frames| == (if s.running then 1 else 0) && |t.frames| == (if t.running then 1 else 0)
            && Work(s) <= 6
            && if e.Resume? && e.frame < |s.frames| then Work(t) < Work(s) else Work(t) == Work(s)
  {
    hide FoldIn, Observe;
    InvHolds(h, n);
    InvHolds(h, n + 1);
    assert IsStep(h, n);
    var s, e := h.states[n], h.events[n];
    if e.Resume? && e.frame < |s.frames| { ResumptionAdvances(s, e.frame, e.ok); }
  }

  lemma ResumptionAdvances(s: State, i: nat, ok: bool)
    requires Inv(s) && i < |s.frames|
    ensures var t := ResumeFrame(s, i, ok); |t.frames| == (if t.running then 1 else 0) && Work(t) < Work(s)
  {
    hide BeginPass, FoldIn;
    match s.frames[i]
    case Snapshotting(pass, revision, code, runs, transcripts) =>
      var t := s.(previousObservedCode := Some(code), snapshotFailed := false, frames := s.frames[i := Appending]);
      FoldKeepsRest(t, pass, Some(revision), runs, transcripts);
    case Appending => BeginPassTakes(s);
    case Leaving => BeginPassTakes(s.(running := false, frames := s.frames[..i] + s.frames[i + 1..], dirty := true));
  }
}
