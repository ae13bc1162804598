/**
 What a failed snapshot costs the observation loop
 (apps/api/src/modules/orchestrator/runtime.ts, `runObservations`): the runs and transcripts
 its pass had taken, all of them and nothing else.
 */
module FailedSnapshots {
  import opened Wrappers
  import opened ObserverLoop

  /** At event `i` the snapshot of pass `pass` fails. */
  ghost predicate FailsAt(h: History, i: nat, pass: nat)
    requires i < |h.events|
  {
    var s, e := h.states[i], h.events[i];
    && e.Resume? && !e.ok && e.frame < |s.frames|
    && s.frames[e.frame].Snapshotting? && s.frames[e.frame].pass == pass
  }

  ghost predicate HasFailed(h: History, n: nat, pass: nat)
    requires n <= |h.events|
  {
    exists i: nat :: i < n && FailsAt(h, i, pass)
  }

  /** A pass that is over, as opposed to the one in flight and those to come. */
  ghost predicate IsOver(s: State, pass: nat) {
    pass < s.passes && (InFlight(s).Some? ==> pass < InFlight(s).value.pass)
  }

  /** What one step adds to the disposals: nothing, or everything a pass had taken, under its number. */
  ghost predicate Disposes(s: State, t: State, pass: nat, dropped: bool, runs: seq<string>, transcripts: seq<string>) {
    && t.disposedRuns == s.disposedRuns + Disposals(runs, pass, dropped)
    && t.disposedTranscripts == s.disposedTranscripts + Disposals(transcripts, pass, dropped)
    && !IsOver(s, pass) && IsOver(t, pass) && s.passes <= t.passes
    && (forall p: nat :: IsOver(s, p) ==> IsOver(t, p))
  }

  ghost predicate LeavesDisposals(s: State, t: State) {
    && t.disposedRuns == s.disposedRuns && t.disposedTranscripts == s.disposedTranscripts
    && (forall p: nat :: IsOver(s, p) ==> IsOver(t, p))
  }

  lemma ScheduleDisposes(s: State)
    requires Inv(s) || (|s.frames| == (if s.running then 1 else 0) && (s.running ==> FrameIsSound(s.(dirty := true), s.frames[0])))
    ensures var t := ScheduleObservation(s);
            if s.running || |s.latestCode| > 0 then LeavesDisposals(s, t)
            else Disposes(s, t, s.passes, false, s.pendingRuns, s.pendingTranscripts)
  {
    hide BeginPass;
    BeginPassTakes(s.(dirty := true));
  }

  /** A suspended pass goes on: it disposes of what it took, whole, exactly when its snapshot is done. */
  lemma ResumeDisposes(s: State, i: nat, ok: bool)
    requires Inv(s) && i < |s.frames|
    ensures var t := ResumeFrame(s, i, ok);
            match s.frames[i]
            case Snapshotting(pass, _, _, runs, transcripts) => Disposes(s, t, pass, !ok, runs, transcripts)
            case _ => LeavesDisposals(s, t) || Disposes(s, t, s.passes, false, s.pendingRuns, s.pendingTranscripts)
  {
    hide BeginPass, FoldIn, ScheduleObservation;
    match s.frames[i]
    case Snapshotting(pass, revision, code, runs, transcripts) =>
      var t := s.(previousObservedCode := Some(code), snapshotFailed := false, frames := s.frames[i := Appending]);
      FoldKeepsRest(t, pass, Some(revision), runs, transcripts);
    case Appending => BeginPassTakes(s);
    case Leaving => ScheduleDisposes(s.(running := false, frames := s.frames[..i] + s.frames[i + 1..]));
  }

  /** What an event does to the disposals, and how that goes with a failed snapshot. */
  ghost predicate DisposesRight(s: State, e: Event, t: State, pass: nat, dropped: bool, runs: seq<string>, transcripts: seq<string>) {
    && Disposes(s, t, pass, dropped, runs, transcripts)
    && (InFlight(s).Some? ==>
          pass == InFlight(s).value.pass && runs == InFlight(s).value.runs && transcripts == InFlight(s).value.transcripts)
    && (dropped <==> FailsIn(s, e).Some?) && (dropped ==> FailsIn(s, e) == Some(pass))
  }

  /** The pass whose snapshot an event makes fail, if it does. */
  ghost function FailsIn(s: State, e: Event): Option<nat> {
    if e.Resume? && !e.ok && e.frame < |s.frames| && s.frames[e.frame].Snapshotting? then Some(s.frames[e.frame].pass) else None
  }

  lemma StepDisposes(s: State, e: Event)
    requires Inv(s)
    ensures var t := Step(s, e);
            || (LeavesDisposals(s, t) && FailsIn(s, e).None? && (InFlight(s).Some? ==> InFlight(t) == InFlight(s)))
            || (exists pass, dropped, runs, transcripts :: DisposesRight(s, e, t, pass, dropped, runs, transcripts))
  {
    hide BeginPass;
    match e
    case CodeDelta(revision, text) =>
      if revision >= s.latestRevision { ArrivalDisposes(s, e, s.(latestRevision := revision, latestCode := text)); }
    case RunCompleted(run) => ArrivalDisposes(s, e, s.(pendingRuns := s.pendingRuns + [run]));
    case TranscriptFinal(t) => ArrivalDisposes(s, e, s.(pendingTranscripts := s.pendingTranscripts + [t]));
    case HintGiven(_) =>
    case ProbeAsked(_) =>
    case Resume(i, ok) =>
      if i < |s.frames| {
        ResumeDisposes(s, i, ok);
        var t := ResumeFrame(s, i, ok);
        if s.frames[i].Snapshotting? {
          var f := s.frames[i];
          assert DisposesRight(s, e, t, f.pass, !ok, f.runs, f.transcripts);
        } else if !LeavesDisposals(s, t) {
          assert DisposesRight(s, e, t, s.passes, false, s.pendingRuns, s.pendingTranscripts);
        }
      }
  }

  lemma ArrivalDisposes(s: State, e: Event, u: State)
    requires Inv(s) && !e.Resume?
    requires u == s.(latestRevision := u.latestRevision, latestCode := u.latestCode,
                     pendingRuns := u.pendingRuns, pendingTranscripts := u.pendingTranscripts)
    requires u.latestRevision >= s.latestRevision
    ensures var t := ScheduleObservation(u);
            || (LeavesDisposals(s, t) && (InFlight(s).Some? ==> InFlight(t) == InFlight(s)))
            || (exists pass, dropped, runs, transcripts :: DisposesRight(s, e, t, pass, dropped, runs, transcripts))
  {
    hide BeginPass;
    ScheduleDisposes(u);
    if !u.running && |u.latestCode| == 0 {
      assert DisposesRight(s, e, ScheduleObservation(u), s.passes, false, u.pendingRuns, u.pendingTranscripts);
    }
  }

  /** The disposals so far belong to passes that are over, and were dropped exactly with failed snapshots. */
  ghost predicate AreRight(h: History, n: nat, disposals: seq<Disposal>)
    requires n <= |h.events|
  {
    forall k :: 0 <= k < |disposals| ==>
      IsOver(h.states[n], disposals[k].pass) && (disposals[k].dropped <==> HasFailed(h, n, disposals[k].pass))
  }

  ghost predicate DisposalsAreRight(h: History, n: nat)
    requires n <= |h.events|
  {
    && AreRight(h, n, h.states[n].disposedRuns) && AreRight(h, n, h.states[n].disposedTranscripts)
    && (forall pass: nat :: HasFailed(h, n, pass) ==> IsOver(h.states[n], pass))
  }

  lemma FailedOneMore(h: History, n: nat, pass: nat)
    requires n < |h.events|
    ensures HasFailed(h, n + 1, pass) <==> HasFailed(h, n, pass) || FailsIn(h.states[n], h.events[n]) == Some(pass)
  {
    assert FailsAt(h, n, pass) <==> FailsIn(h.states[n], h.events[n]) == Some(pass);
    if HasFailed(h, n, pass) {
      var i: nat :| i < n && FailsAt(h, i, pass);
      assert i < n + 1 && FailsAt(h, i, pass);
    }
  }

  lemma AreRightGrows(h: History, n: nat, before: seq<Disposal>, items: seq<string>, pass: nat, dropped: bool)
    requires n < |h.events| && AreRight(h, n, before)
    requires forall p: nat :: IsOver(h.states[n], p) ==> IsOver(h.states[n + 1], p)
    requires forall p: nat :: HasFailed(h, n + 1, p) <==> HasFailed(h, n, p) || (dropped && p == pass)
    requires !IsOver(h.states[n], pass) && IsOver(h.states[n + 1], pass) && !HasFailed(h, n, pass)
    ensures AreRight(h, n + 1, before + Disposals(items, pass, dropped))
  {
    hide HasFailed, IsOver;
  }

  lemma {:induction false} DisposalsHold(h: History, n: nat)
    requires IsRun(h) && n <= |h.events|
    ensures DisposalsAreRight(h, n)
  {
    hide Step, IsOver, HasFailed;
    if n == 0 {
      NothingHasFailed(h);
    } else {
      DisposalsHold(h, n - 1);
      InvHolds(h, n - 1);
      assert IsStep(h, n - 1);
      var s, t, e := h.states[n - 1], h.states[n], h.events[n - 1];
      StepDisposes(s, e);
      forall pass: nat ensures HasFailed(h, n, pass) <==> HasFailed(h, n - 1, pass) || FailsIn(s, e) == Some(pass) {
        FailedOneMore(h, n - 1, pass);
      }
      if !(LeavesDisposals(s, t) && FailsIn(s, e).None?) {
        var pass, dropped, runs, transcripts :| DisposesRight(s, e, t, pass, dropped, runs, transcripts);
        AreRightGrows(h, n - 1, s.disposedRuns, runs, pass, dropped);
        AreRightGrows(h, n - 1, s.disposedTranscripts, transcripts, pass, dropped);
      }
    }
  }

  lemma NothingHasFailed(h: History)
    ensures forall pass: nat :: !HasFailed(h, 0, pass)
  {
  }

  /**
   Over every interleaving: a run or transcript that has been dealt with was dropped if and only
   if the snapshot of the pass that took it failed.
   */
  lemma DroppedExactlyWithAFailedSnapshot(h: History, n: nat, k: nat)
    requires IsRun(h) && n <= |h.events|
    ensures k < |h.states[n].disposedRuns| ==>
      (h.states[n].disposedRuns[k].dropped <==> HasFailed(h, n, h.states[n].disposedRuns[k].pass))
    ensures k < |h.states[n].disposedTranscripts| ==>
      (h.states[n].disposedTranscripts[k].dropped <==> HasFailed(h, n, h.states[n].disposedTranscripts[k].pass))
  {
    DisposalsHold(h, n);
  }

  /** What the disposals of a pass in flight will look like once it is over. */
  ghost predicate EndsWith(h: History, m: nat, n: nat, f: Frame)
    requires f.Snapshotting? && m <= n <= |h.events|
  {
    var s, t, dropped := h.states[m], h.states[n], HasFailed(h, n, f.pass);
    && s.disposedRuns + Disposals(f.runs, f.pass, dropped) <= t.disposedRuns
    && s.disposedTranscripts + Disposals(f.transcripts, f.pass, dropped) <= t.disposedTranscripts
    && IsOver(t, f.pass)
  }

  /**
   A pass keeps what it has taken together and to itself: it is still in flight with all of it,
   or it has disposed of all of it, next in line, the one way or the other. That is for good.
   */
  lemma {:induction false} PassDisposesOfWhatItTook(h: History, m: nat, n: nat, f: Frame)
    requires IsRun(h) && m <= n <= |h.events| && InFlight(h.states[m]) == Some(f)
    ensures
      || (&& InFlight(h.states[n]) == Some(f) && h.states[n].disposedRuns == h.states[m].disposedRuns
          && h.states[n].disposedTranscripts == h.states[m].disposedTranscripts)
      || EndsWith(h, m, n, f)
    decreases n
  {
    hide Step, IsOver, HasFailed, AccountedRuns, AccountedTranscripts, IsBooked;
    if m < n {
      PassDisposesOfWhatItTook(h, m, n - 1, f);
      InvHolds(h, n - 1);
      DisposalsHold(h, n - 1);
      assert IsStep(h, n - 1);
      var s, t, e := h.states[n - 1], h.states[n], h.events[n - 1];
      StepDisposes(s, e);
      StepCarries(s, e);
      FailedOneMore(h, n - 1, f.pass);
      if InFlight(s) == Some(f) && s.disposedRuns == h.states[m].disposedRuns
         && s.disposedTranscripts == h.states[m].disposedTranscripts {
        InFlightIsNotOver(s);
      } else if FailsIn(s, e).Some? {
        FailingIsNotOver(s, e);
      }
    }
  }

  lemma InFlightIsNotOver(s: State)
    ensures InFlight(s).Some? ==> !IsOver(s, InFlight(s).value.pass)
  {
  }

  lemma FailingIsNotOver(s: State, e: Event)
    requires Inv(s) && FailsIn(s, e).Some?
    ensures !IsOver(s, FailsIn(s, e).value)
  {
  }

  /** No pass has lost its snapshot. */
  ghost predicate NoSnapshotFailed(h: History, n: nat)
    requires n <= |h.events|
  {
    forall pass: nat :: !HasFailed(h, n, pass)
  }

  lemma {:induction false} KeptWhole(disposals: seq<Disposal>)
    requires forall k :: 0 <= k < |disposals| ==> !disposals[k].dropped
    ensures Kept(disposals) == Items(disposals)
  {
    if disposals != [] {
      KeptWhole(disposals[..|disposals| - 1]);
    }
  }

  lemma {:induction false} FlagMeansFailure(h: History, n: nat)
    requires IsRun(h) && n <= |h.events| && NoSnapshotFailed(h, n)
    ensures !h.states[n].snapshotFailed
  {
    hide Step, HasFailed;
    if n > 0 {
      var m := n - 1;
      forall pass: nat ensures !HasFailed(h, m, pass) {
        FailedOneMore(h, m, pass);
      }
      var failing := FailsIn(h.states[m], h.events[m]);
      if failing.Some? { FailedOneMore(h, m, failing.value); }
      FlagMeansFailure(h, m);
      assert IsStep(h, m);
      FlagStep(h.states[m], h.events[m]);
    }
  }

  lemma FlagStep(s: State, e: Event)
    requires !s.snapshotFailed && FailsIn(s, e).None?
    ensures !Step(s, e).snapshotFailed
  {
  }

  /**
   When no snapshot has failed, an idle loop's record was derived from every run and transcript
   exactly once, in order of arrival, and from the newest code that arrived, if it is not empty.
   */
  lemma EverythingIsFoldedOnce(h: History, n: nat)
    requires IsRun(h) && n <= |h.events| && NoSnapshotFailed(h, n) && !h.states[n].running
    ensures h.states[n].candidate.runs == ArrivedRuns(h, n)
    ensures h.states[n].candidate.transcripts == ArrivedTranscripts(h, n)
    ensures ObservedNewest(h, n)
  {
    var s := h.states[n];
    IdleMeansObserved(h, n);
    FlagMeansFailure(h, n);
    FlagIsLastSnapshot(h, n);
    EverythingIsAccounted(h, n);
    DisposalsHold(h, n);
    KeptWhole(s.disposedRuns);
    KeptWhole(s.disposedTranscripts);
    assert AccountedRuns(s) == Items(s.disposedRuns) && AccountedTranscripts(s) == Items(s.disposedTranscripts);
  }

  /** It happens: a run and a transcript taken by a pass whose snapshot fails are never folded. */
  lemma FailedSnapshotDrops(run: string, transcript: string) returns (h: History)
    ensures IsRun(h) && |h.events| == 6 && h.events[1] == RunCompleted(run) && h.events[2] == TranscriptFinal(transcript)
    ensures h.states[6].disposedRuns == [Disposal(run, 1, true)] && h.states[6].disposedTranscripts == [Disposal(transcript, 1, true)]
    ensures h.states[6].candidate.runs == [] && h.states[6].candidate.transcripts == []
  {
    var events := [CodeDelta(1, "x"), RunCompleted(run), TranscriptFinal(transcript), Resume(0, true), Resume(0, true), Resume(0, false)];
    var s1 := Fresh().(latestRevision := 1, latestCode := "x", running := true, frames := [Snapshotting(0, 1, "x", [], [])], passes := 1);
    assert s1 == Step(Fresh(), events[0]);
    var s2 := Step(s1, events[1]);
    var s3 := s1.(pendingRuns := [run], pendingTranscripts := [transcript], dirty := true);
    assert s3 == Step(s2, events[2]);
    FoldAppends(s3.(previousObservedCode := Some("x"), frames := [Appending]), 0, Some(1), [], []);
    var s4 := s3.(previousObservedCode := Some("x"), frames := [Appending], candidate := NEW_CANDIDATE.(derivedFromRevision := 1));
    assert s4 == Step(s3, events[3]);
    var s5 := Step(s4, events[4]);
    assert s5 == s4.(dirty := false, pendingRuns := [], pendingTranscripts := [], passes := 2,
                     frames := [Snapshotting(1, 1, "x", [run], [transcript])]);
    var s6 := Step(s5, events[5]);
    h := Recorded(events, [Fresh(), s1, s2, s3, s4, s5, s6]);
    assert Disposals([run], 1, true) == [Disposal(run, 1, true)] && Disposals([transcript], 1, true) == [Disposal(transcript, 1, true)];
  }
}
