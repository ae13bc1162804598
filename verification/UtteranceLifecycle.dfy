/**
 One authorized utterance, from authorization to an honest ending
 (apps/web/lib/utterance-lifecycle.ts). Identifiers are left out; times and lengths are reals.
 */
module UtteranceLifecycle {
  import opened Wrappers

  datatype Phase = Authorized | Requested | FirstAudio | Playing | Ended(outcome: Outcome)

  datatype Outcome = Completed | Interrupted | Failed | Cancelled

  datatype Source = Cached | Model

  datatype Signal =
    | Request
    | AudioReceived(seconds: real)
    | PlaybackStarted
    | SourceComplete
    | PlaybackDrained
    | Interrupt(unplayedSeconds: real)
    | Fail(reason: string, unplayedSeconds: real)
    | Cancel(reason: string)

  datatype Report = Report(
    source: Source, outcome: Outcome, reason: string, firstAudio: bool,
    receivedAudioMs: int, playedAudioMs: int, underruns: nat, durationMs: int)

  datatype State = State(
    phase: Phase, source: Source, sourceComplete: bool, receivedSeconds: real,
    playbackActive: bool, underruns: nat, report: Option<Report>)
  {
    predicate IsTerminal() { phase.Ended? }
    predicate HasAudio() { receivedSeconds > 0.0 }
  }

  function Round(x: real): int {
    (x + 0.5).Floor
  }

  function AtLeastZero(x: int): int {
    if x < 0 then 0 else x
  }

  function Fresh(source: Source): State {
    State(Authorized, source, false, 0.0, false, 0, None)
  }

  function MakeReport(s: State, outcome: Outcome, reason: string, unplayedSeconds: real, elapsedMs: real): Report {
    var receivedMs := Round(s.receivedSeconds * 1000.0);
    var unplayedMs := Round((if unplayedSeconds < 0.0 then 0.0 else unplayedSeconds) * 1000.0);
    Report(s.source, outcome, reason, s.HasAudio(), receivedMs, AtLeastZero(receivedMs - unplayedMs), s.underruns,
           AtLeastZero(Round(elapsedMs)))
  }

  function Finish(s: State, outcome: Outcome, reason: string, unplayedSeconds: real, elapsedMs: real): (State, Option<Report>) {
    var report := MakeReport(s, outcome, reason, unplayedSeconds, elapsedMs);
    (s.(phase := Ended(outcome), playbackActive := false, report := Some(report)), Some(report))
  }

  /** One signal: the next state, and the report if this signal ended the utterance. */
  function Step(s: State, signal: Signal, elapsedMs: real): (State, Option<Report>) {
    if s.IsTerminal() then (s, None)
    else
      match signal
      case Request => (if s.phase == Authorized then s.(phase := Requested) else s, None)
      case AudioReceived(seconds) =>
        if !(seconds > 0.0) then (s, None)
        else
          (s.(receivedSeconds := s.receivedSeconds + seconds,
              phase := if s.phase == Authorized || s.phase == Requested then FirstAudio else s.phase), None)
      case PlaybackStarted => (s.(playbackActive := true, phase := Playing), None)
      case SourceComplete =>
        var t := s.(sourceComplete := true);
        if !s.HasAudio() then Finish(t, Failed, "EMPTY_RESPONSE", 0.0, elapsedMs)
        else if !s.playbackActive then Finish(t, Completed, "", 0.0, elapsedMs)
        else (t, None)
      case PlaybackDrained =>
        if !s.playbackActive then (s, None)
        else
          var t := s.(playbackActive := false);
          if s.sourceComplete then Finish(t, Completed, "", 0.0, elapsedMs)
          else (t.(underruns := s.underruns + 1), None)
      case Interrupt(unplayed) =>
        if s.HasAudio() then Finish(s, Interrupted, "CANDIDATE_BARGE_IN", unplayed, elapsedMs)
        else Finish(s, Cancelled, "CANDIDATE_SPOKE_BEFORE_AUDIO", 0.0, elapsedMs)
      case Fail(reason, unplayed) => Finish(s, Failed, reason, unplayed, elapsedMs)
      case Cancel(reason) => Finish(s, Cancelled, reason, 0.0, elapsedMs)
  }

  class Lifecycle {
    const authorizedAtMs: real
    var current: Phase
    var sourceKind: Source
    var sourceComplete: bool
    var receivedSeconds: real
    var playbackActive: bool
    var underrunCount: nat
    var report: Option<Report>

    ghost function View(): State
      reads this
    {
      State(current, sourceKind, sourceComplete, receivedSeconds, playbackActive, underrunCount, report)
    }

    constructor (source: Source, authorizedAtMs: real)
      ensures View() == Fresh(source) && this.authorizedAtMs == authorizedAtMs
    {
      this.authorizedAtMs := authorizedAtMs;
      current, sourceKind, sourceComplete, receivedSeconds := Authorized, source, false, 0.0;
      playbackActive, underrunCount, report := false, 0, None;
    }

    method Apply(signal: Signal, atMs: real) returns (ended: Option<Report>)
      modifies this
      ensures (View(), ended) == Step(old(View()), signal, atMs - authorizedAtMs)
    {
      ended := None;
      if current.Ended? { return; }
      match signal {
        case Request =>
          if current == Authorized { current := Requested; }
        case AudioReceived(seconds) =>
          if seconds > 0.0 {
            receivedSeconds := receivedSeconds + seconds;
            if current == Authorized || current == Requested { current := FirstAudio; }
          }
        case PlaybackStarted =>
          playbackActive := true;
          current := Playing;
        case SourceComplete =>
          sourceComplete := true;
          if !(receivedSeconds > 0.0) {
            ended := End(Failed, atMs, "EMPTY_RESPONSE", 0.0);
          } else if !playbackActive {
            ended := End(Completed, atMs, "", 0.0);
          }
        case PlaybackDrained =>
          if playbackActive {
            playbackActive := false;
            if sourceComplete {
              ended := End(Completed, atMs, "", 0.0);
            } else {
              underrunCount := underrunCount + 1;
            }
          }
        case Interrupt(unplayed) =>
          if receivedSeconds > 0.0 {
            ended := End(Interrupted, atMs, "CANDIDATE_BARGE_IN", unplayed);
          } else {
            ended := End(Cancelled, atMs, "CANDIDATE_SPOKE_BEFORE_AUDIO", 0.0);
          }
        case Fail(reason, unplayed) =>
          ended := End(Failed, atMs, reason, unplayed);
        case Cancel(reason) =>
          ended := End(Cancelled, atMs, reason, 0.0);
      }
    }

    method End(outcome: Outcome, atMs: real, reason: string, unplayedSeconds: real) returns (ended: Option<Report>)
      modifies this
      ensures (View(), ended) == Finish(old(View()), outcome, reason, unplayedSeconds, atMs - authorizedAtMs)
    {
      current := Ended(outcome);
      playbackActive := false;
      var receivedMs := Round(receivedSeconds * 1000.0);
      var unplayedMs := Round((if unplayedSeconds < 0.0 then 0.0 else unplayedSeconds) * 1000.0);
      report := Some(Report(sourceKind, outcome, reason, receivedSeconds > 0.0, receivedMs,
                            AtLeastZero(receivedMs - unplayedMs), underrunCount,
                            AtLeastZero(Round(atMs - authorizedAtMs))));
      ended := report;
    }

    /** Only before any audio exists may the words come from elsewhere. */
    method SwitchSource(source: Source) returns (switched: bool)
      modifies this
      ensures switched <==> !old(View()).IsTerminal() && !old(View()).HasAudio()
      ensures View() == if switched then old(View()).(source := source) else old(View())
    {
      if current.Ended? || receivedSeconds > 0.0 { return false; }
      sourceKind := source;
      return true;
    }
  }

  // ----- Runs -----

  datatype Timed = Timed(signal: Signal, elapsedMs: real)

  ghost function After(s: State, signals: seq<Timed>): State {
    if signals == [] then s
    else Step(After(s, signals[..|signals| - 1]), signals[|signals| - 1].signal, signals[|signals| - 1].elapsedMs).0
  }

  /** Every report handed out during a run, in order. */
  ghost function Reports(s: State, signals: seq<Timed>): seq<Report> {
    if signals == [] then []
    else
      var init, last := signals[..|signals| - 1], signals[|signals| - 1];
      var ended := Step(After(s, init), last.signal, last.elapsedMs).1;
      Reports(s, init) + if ended.Some? then [ended.value] else []
  }

  /** An utterance is reported exactly once, when it ends, with the report it keeps. */
  lemma {:induction false} ReportedExactlyOnce(source: Source, signals: seq<Timed>)
    ensures var s := After(Fresh(source), signals);
            && |Reports(Fresh(source), signals)| == (if s.IsTerminal() then 1 else 0)
            && (s.IsTerminal() ==> s.report == Some(Reports(Fresh(source), signals)[0])
                                   && s.report.value.outcome == s.phase.outcome)
  {
    if signals != [] {
      ReportedExactlyOnce(source, signals[..|signals| - 1]);
    }
  }

  /** Once it has ended, nothing that arrives later changes anything. */
  lemma {:induction false} EndIsFinal(s: State, signals: seq<Timed>)
    requires s.IsTerminal()
    ensures After(s, signals) == s && Reports(s, signals) == []
  {
    if signals != [] {
      EndIsFinal(s, signals[..|signals| - 1]);
    }
  }

  /** An utterance that is over does not play, and a fresh one is not over. */
  lemma {:induction false} NothingPlaysAfterTheEnd(source: Source, signals: seq<Timed>)
    ensures var s := After(Fresh(source), signals); s.IsTerminal() ==> signals != [] && !s.playbackActive
  {
    if signals != [] {
      NothingPlaysAfterTheEnd(source, signals[..|signals| - 1]);
    }
  }

  /** Playback is under way: it was started and has not drained since. Read off the signals alone. */
  ghost predicate PlaybackOpen(signals: seq<Timed>) {
    signals != [] &&
    match signals[|signals| - 1].signal
    case PlaybackStarted => true
    case PlaybackDrained => false
    case _ => PlaybackOpen(signals[..|signals| - 1])
  }

  ghost function ReceivedSeconds(signals: seq<Timed>): real {
    if signals == [] then 0.0
    else
      var last := signals[|signals| - 1].signal;
      ReceivedSeconds(signals[..|signals| - 1]) + if last.AudioReceived? && last.seconds > 0.0 then last.seconds else 0.0
  }

  ghost predicate SourceDone(signals: seq<Timed>) {
    exists k :: 0 <= k < |signals| && signals[k].signal.SourceComplete?
  }

  /** Both halves of delivery: the source finished with audio, and what was queued has drained. */
  ghost predicate Delivered(signals: seq<Timed>) {
    SourceDone(signals) && ReceivedSeconds(signals) > 0.0 && !PlaybackOpen(signals)
  }

  /** While an utterance is open, its fields are what the signals say. */
  ghost predicate Tracks(s: State, signals: seq<Timed>) {
    && s.sourceComplete == SourceDone(signals) && s.receivedSeconds == ReceivedSeconds(signals)
    && s.playbackActive == PlaybackOpen(signals)
  }

  lemma {:induction false} OpenUtteranceTracks(source: Source, signals: seq<Timed>)
    requires !After(Fresh(source), signals).IsTerminal()
    ensures Tracks(After(Fresh(source), signals), signals)
    ensures SourceDone(signals) ==> ReceivedSeconds(signals) > 0.0 && PlaybackOpen(signals)
  {
    if signals != [] {
      var init := signals[..|signals| - 1];
      OpenUtteranceTracks(source, init);
      assert SourceDone(signals) <==> SourceDone(init) || signals[|signals| - 1].signal.SourceComplete?;
    }
  }

  /** An open utterance completes on the very signal that makes delivery whole, and on no other. */
  lemma CompletesExactlyOnDelivery(source: Source, signals: seq<Timed>, next: Timed)
    requires !After(Fresh(source), signals).IsTerminal()
    ensures After(Fresh(source), signals + [next]).phase == Ended(Completed) <==>
            Delivered(signals + [next]) && (next.signal.SourceComplete? || next.signal.PlaybackDrained?)
  {
    var all := signals + [next];
    assert all[..|signals|] == signals;
    OpenUtteranceTracks(source, signals);
    assert SourceDone(all) <==> SourceDone(signals) || next.signal.SourceComplete? by {
      if next.signal.SourceComplete? { assert all[|signals|].signal.SourceComplete?; }
      if SourceDone(signals) {
        var k :| 0 <= k < |signals| && signals[k].signal.SourceComplete?;
        assert all[k].signal.SourceComplete?;
      }
    }
  }

  /** Whatever happened, an utterance that ended COMPLETED had been delivered by then. */
  lemma {:induction false} CompletedMeansDelivered(source: Source, signals: seq<Timed>) returns (k: nat)
    requires After(Fresh(source), signals).phase == Ended(Completed)
    ensures 0 < k <= |signals| && Delivered(signals[..k]) && !After(Fresh(source), signals[..k - 1]).IsTerminal()
  {
    var init, last := signals[..|signals| - 1], signals[|signals| - 1];
    if After(Fresh(source), init).IsTerminal() {
      k := CompletedMeansDelivered(source, init);
      assert signals[..k] == init[..k] && signals[..k - 1] == init[..k - 1];
    } else {
      k := |signals|;
      assert init + [last] == signals && signals[..k] == signals;
      CompletesExactlyOnDelivery(source, init, last);
    }
  }

  // ----- What the phase and the report say -----

  ghost predicate HasSignal(signals: seq<Timed>, request: bool) {
    exists k :: 0 <= k < |signals| && if request then signals[k].signal.Request? else signals[k].signal.PlaybackStarted?
  }

  /** How far an open utterance has come: playing, or else with audio, or else requested. */
  ghost function Progress(signals: seq<Timed>): Phase {
    if HasSignal(signals, false) then Playing
    else if ReceivedSeconds(signals) > 0.0 then FirstAudio
    else if HasSignal(signals, true) then Requested
    else Authorized
  }

  /** How often playback ran dry while it was under way. */
  ghost function Underruns(signals: seq<Timed>): nat {
    if signals == [] then 0
    else
      var init := signals[..|signals| - 1];
      Underruns(init) + if signals[|signals| - 1].signal.PlaybackDrained? && PlaybackOpen(init) then 1 else 0
  }

  lemma HasSignalAppends(signals: seq<Timed>, request: bool)
    requires signals != []
    ensures var last := signals[|signals| - 1].signal;
            HasSignal(signals, request) <==> HasSignal(signals[..|signals| - 1], request) || (if request then last.Request? else last.PlaybackStarted?)
  {
    var init := signals[..|signals| - 1];
    if HasSignal(init, request) {
      var k :| 0 <= k < |init| && if request then init[k].signal.Request? else init[k].signal.PlaybackStarted?;
      assert signals[k] == init[k];
    }
  }

  lemma {:induction false} ReceivedIsNonNegative(signals: seq<Timed>)
    ensures ReceivedSeconds(signals) >= 0.0
  {
    if signals != [] {
      ReceivedIsNonNegative(signals[..|signals| - 1]);
    }
  }

  /** An open utterance is in the phase its signals have brought it to, and has counted each underrun. */
  lemma {:induction false} OpenUtteranceProgresses(source: Source, signals: seq<Timed>)
    requires !After(Fresh(source), signals).IsTerminal()
    ensures var s := After(Fresh(source), signals);
            s.phase == Progress(signals) && s.underruns == Underruns(signals) && s.source == source
  {
    if signals != [] {
      var init := signals[..|signals| - 1];
      OpenUtteranceProgresses(source, init);
      OpenUtteranceTracks(source, init);
      ReceivedIsNonNegative(init);
      HasSignalAppends(signals, true);
      HasSignalAppends(signals, false);
    }
  }

  /** The signal after which an open utterance is over. */
  ghost predicate Ends(signals: seq<Timed>, signal: Signal) {
    match signal
    case Interrupt(_) => true
    case Fail(_, _) => true
    case Cancel(_) => true
    case SourceComplete => ReceivedSeconds(signals) == 0.0 || !PlaybackOpen(signals)
    case PlaybackDrained => PlaybackOpen(signals) && SourceDone(signals)
    case _ => false
  }

  /** With which outcome, for which reason, and with how much left unplayed. */
  ghost function EndingOf(signals: seq<Timed>, signal: Signal): (Outcome, string, real) {
    match signal
    case Interrupt(unplayed) =>
      if ReceivedSeconds(signals) > 0.0 then (Interrupted, "CANDIDATE_BARGE_IN", unplayed)
      else (Cancelled, "CANDIDATE_SPOKE_BEFORE_AUDIO", 0.0)
    case Fail(reason, unplayed) => (Failed, reason, unplayed)
    case Cancel(reason) => (Cancelled, reason, 0.0)
    case SourceComplete => if ReceivedSeconds(signals) > 0.0 then (Completed, "", 0.0) else (Failed, "EMPTY_RESPONSE", 0.0)
    case _ => (Completed, "", 0.0)
  }

  /** `n` is the whole number nearest to `x`, the greater one in the middle. */
  ghost predicate IsNearest(n: int, x: real) {
    n as real - 0.5 <= x < n as real + 0.5
  }

  /** What was played is what was received less what was left, to the millisecond, and never less than nothing. */
  ghost predicate IsPlayed(playedMs: int, receivedMs: int, left: real) {
    exists leftMs: int :: IsNearest(leftMs, left) && playedMs == if receivedMs > leftMs then receivedMs - leftMs else 0
  }

  /** The report says what the signals say: the ending, and the audio received and played to the millisecond. */
  ghost predicate IsReportOf(r: Report, source: Source, signals: seq<Timed>, next: Timed) {
    var (outcome, reason, unplayed) := EndingOf(signals, next.signal);
    && r.source == source && r.outcome == outcome && r.reason == reason && r.underruns == Underruns(signals)
    && r.firstAudio == (ReceivedSeconds(signals) > 0.0)
    && IsNearest(r.receivedAudioMs, ReceivedSeconds(signals) * 1000.0)
    && IsPlayed(r.playedAudioMs, r.receivedAudioMs, if unplayed < 0.0 then 0.0 else unplayed * 1000.0)
    && (if next.elapsedMs >= 0.0 then IsNearest(r.durationMs, next.elapsedMs) else r.durationMs == 0)
  }

  lemma RoundIsNearest(x: real)
    ensures IsNearest(Round(x), x)
    ensures forall n: int :: IsNearest(n, x) ==> n == Round(x)
  {
  }

  lemma ReportSays(s: State, source: Source, signals: seq<Timed>, next: Timed)
    requires Tracks(s, signals) && s.underruns == Underruns(signals) && s.source == source && !s.IsTerminal()
    requires ReceivedSeconds(signals) >= 0.0
    ensures var (outcome, reason, unplayed) := EndingOf(signals, next.signal);
            IsReportOf(MakeReport(s, outcome, reason, unplayed, next.elapsedMs), source, signals, next)
  {
    var (outcome, reason, unplayed) := EndingOf(signals, next.signal);
    var left := (if unplayed < 0.0 then 0.0 else unplayed) * 1000.0;
    RoundIsNearest(left);
    RoundIsNearest(s.receivedSeconds * 1000.0);
    RoundIsNearest(next.elapsedMs);
    assert IsNearest(Round(left), if unplayed < 0.0 then 0.0 else unplayed * 1000.0);
  }

  /**
   An open utterance ends on exactly the signals that end it, and then its one report says what
   the signals up to there say: which ending, why, and how much was received and played.
   */
  lemma ReportsWhatHappened(source: Source, signals: seq<Timed>, next: Timed)
    requires !After(Fresh(source), signals).IsTerminal()
    ensures var t := After(Fresh(source), signals + [next]);
            && (t.IsTerminal() <==> Ends(signals, next.signal))
            && (t.IsTerminal() ==> t.report.Some? && IsReportOf(t.report.value, source, signals, next)
                                   && t.phase == Ended(t.report.value.outcome))
  {
    var s := After(Fresh(source), signals);
    assert (signals + [next])[..|signals|] == signals;
    OpenUtteranceTracks(source, signals);
    OpenUtteranceProgresses(source, signals);
    ReceivedIsNonNegative(signals);
    ReportSays(s, source, signals, next);
    hide IsReportOf, After;
    assert After(Fresh(source), signals + [next]) == Step(s, next.signal, next.elapsedMs).0 by { AfterOneMore(source, signals, next); }
    SameReport(s, next, EndingOf(signals, next.signal).0, EndingOf(signals, next.signal).1, EndingOf(signals, next.signal).2);
  }

  lemma AfterOneMore(source: Source, signals: seq<Timed>, next: Timed)
    ensures After(Fresh(source), signals + [next]) == Step(After(Fresh(source), signals), next.signal, next.elapsedMs).0
  {
    assert (signals + [next])[..|signals|] == signals;
  }

  /** Completing the source or draining changes nothing the report reads. */
  lemma SameReport(s: State, next: Timed, outcome: Outcome, reason: string, unplayed: real)
    ensures var complete, drained := s.(sourceComplete := true), s.(playbackActive := false);
            && MakeReport(complete, outcome, reason, unplayed, next.elapsedMs) == MakeReport(s, outcome, reason, unplayed, next.elapsedMs)
            && MakeReport(drained, outcome, reason, unplayed, next.elapsedMs) == MakeReport(s, outcome, reason, unplayed, next.elapsedMs)
  {
  }
}
