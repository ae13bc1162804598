/**
 What is told, to whom the floor belongs, and what the interview remembers of it, in every run
 (apps/api/src/modules/orchestrator/runtime.ts, `realize`, `markSpeechFinished`,
 `reconcileSpeechOnReady`, `applyCommitted`).
 */
module Tellings {
  import opened Wrappers
  import opened Opening
  import Gate
  import TurnQueue

  // ----- Retellings take turns -----

  /** The `k`-th retelling: the first variant, and then each one's successor, the last being followed by the first. */
  ghost function Rotation(k: nat, variants: nat): Text
    requires k > 0
  {
    if variants == 0 then OpeningScript
    else if k == 1 then Variant(0)
    else
      var before := Rotation(k - 1, variants);
      if before.Variant? && before.index + 1 < variants then Variant(before.index + 1) else Variant(0)
  }

  ghost function Remainder(n: nat, d: nat): nat
    requires d > 0
  {
    n % d
  }

  lemma {:induction false} RotationIndex(k: nat, variants: nat)
    requires k > 0 && variants > 0
    ensures Rotation(k, variants) == Variant(Remainder(k - 1, variants))
  {
    if k == 1 {
      Divides(0, variants, 0, 0);
    } else {
      hide Remainder;
      RotationIndex(k - 1, variants);
      Successor(k - 2, variants);
    }
  }

  lemma RotationIs(k: nat, variants: nat)
    requires k > 0
    ensures Rotation(k, variants) == RetellingText(k, variants)
  {
    hide Rotation;
    if variants > 0 { RotationIndex(k, variants); } else { NoVariants(k); }
  }

  lemma NoVariants(k: nat)
    requires k > 0
    ensures Rotation(k, 0) == OpeningScript
  {
  }

  lemma Divides(n: nat, d: nat, q: int, r: nat)
    requires r < d && n == q * d + r
    ensures Remainder(n, d) == r
  {
    DivisionIsUnique(n / d, n % d, q, r, d);
  }

  lemma Division(n: nat, d: nat) returns (q: int)
    requires d > 0
    ensures n == q * d + Remainder(n, d) && Remainder(n, d) < d
  {
    q := n / d;
  }

  lemma DivisionIsUnique(p: int, m: int, q: int, r: int, d: int)
    requires 0 <= m < d && 0 <= r < d && p * d + m == q * d + r
    ensures p == q && m == r
  {
    assert (p - q) * d == p * d - q * d && (q - p) * d == q * d - p * d;
    if p < q {
      Multiples(q - p, d);
    } else if q < p {
      Multiples(p - q, d);
    }
  }

  lemma Multiples(k: int, d: int)
    requires k >= 1 && d >= 0
    ensures k * d >= d
  {
  }

  /** Going on by less than a round wraps round at most once. */
  lemma GoingOn(n: nat, step: nat, d: nat)
    requires step < d
    ensures var r := Remainder(n, d) + step; Remainder(n + step, d) == if r < d then r else r - d
  {
    hide Remainder;
    var q := Division(n, d);
    var r := Remainder(n, d) + step;
    assert (q + 1) * d == q * d + d;
    if r < d { Divides(n + step, d, q, r); } else { Divides(n + step, d, q + 1, r - d); }
  }

  lemma Successor(n: nat, d: nat)
    requires d > 0
    ensures Remainder(n + 1, d) == if Remainder(n, d) + 1 < d then Remainder(n, d) + 1 else 0
  {
    hide Remainder;
    if d > 1 {
      GoingOn(n, 1, d);
      var _ := Division(n, d);
    } else {
      Divides(n + 1, 1, n + 1, 0);
    }
  }

  /** Among any `variants` retellings in a row each variant is told exactly once. */
  lemma EveryVariantComesRound(k: nat, variants: nat, index: nat) returns (j: nat)
    requires k > 0 && index < variants
    ensures k <= j < k + variants && Rotation(j, variants) == Variant(index)
    ensures forall i: nat :: k <= i < k + variants && Rotation(i, variants) == Variant(index) ==> i == j
  {
    hide Remainder, Rotation;
    var _ := Division(k - 1, variants);
    var r := Remainder(k - 1, variants);
    var step := if index >= r then index - r else index + variants - r;
    j := k + step;
    GoingOn(k - 1, step, variants);
    RotationIndex(j, variants);
    forall i: nat | k <= i < k + variants && Rotation(i, variants) == Variant(index) ensures i == j {
      RotationIndex(i, variants);
      GoingOn(k - 1, i - k, variants);
    }
  }

  /**
   In every run, a telling that is no redelivery logs the opening the first time and after that
   the next retelling in rotation.
   */
  lemma RetellingsRotate(h: History, n: nat)
    requires IsRun(h) && n < |h.events| && TellsAt(h, n) && !h.states[n].redeliveryPending
    ensures var k := Deliveries(h, n);
            h.states[n + 1].frames == h.states[n].frames - multiset{Decided} +
              multiset{if k == 0 then TellingFirst else Retelling(Rotation(k, h.variants))}
  {
    CountIsDeliveries(h, n);
    assert IsStep(h, n);
    if Deliveries(h, n) > 0 { RotationIs(Deliveries(h, n), h.variants); }
  }

  // ----- Who has the floor -----

  /** What is said once the log entry of a suspended call is written; none if the call says nothing. */
  ghost function WordsOf(frame: Frame, deliveries: nat): Option<Utterance> {
    match frame
    case DecidedOther => Some(Utterance(None, false))
    case TellingFirst => Some(Utterance(Some(OpeningScript), deliveries == 1))
    case Retelling(text) => Some(Utterance(Some(text), false))
    case Redelivering => Some(Utterance(Some(OpeningScript), true))
    case _ => None
  }

  /** What event `n` says. */
  ghost function SaysAt(h: History, n: nat): Option<Utterance>
    requires n < |h.events|
  {
    match h.events[n]
    case Resume(frame, true) => if frame in h.states[n].frames then WordsOf(frame, Deliveries(h, n)) else None
    case _ => None
  }

  /** At event `n` the browser comes back without what was being said. */
  ghost predicate LosesAt(h: History, n: nat)
    requires n < |h.events|
  {
    h.events[n] == Ready(false) && h.states[n].authorized.Some?
  }

  /**
   In every run: what is said is authorized and takes the floor, and nothing else does; the
   authorization ends with a report, a loss, or a decision without words; the floor is free after
   a report, a loss or a barge-in.
   */
  lemma FloorFollowsWhatIsSaid(h: History, n: nat)
    requires IsRun(h) && n < |h.events|
    ensures var s, t, e, says := h.states[n], h.states[n + 1], h.events[n], SaysAt(h, n);
            && t.spoken == s.spoken + (if says.Some? then [says.value] else [])
            && t.authorized == (if says.Some? then says
                                else if e.SpeechFinished? || LosesAt(h, n) || (e.NoWords? && DecidedOther in s.frames) then None
                                else s.authorized)
            && t.interviewerSpeaking == (says.Some? || (s.interviewerSpeaking && !e.SpeechFinished? && !LosesAt(h, n) && !e.BargeIn?))
  {
    hide Inv, ResumeFrame, RetellingsAreLate, WordsOf;
    CountIsDeliveries(h, n);
    InvHolds(h, n);
    assert IsStep(h, n);
    var s, e := h.states[n], h.events[n];
    assert s.spoken + [] == s.spoken;
    if e.Resume? && e.frame in s.frames { WordsAreSaid(s, e.frame, e.ok, h.variants); }
  }

  lemma WordsAreSaid(s: State, frame: Frame, ok: bool, variants: nat)
    requires RetellingsAreLate(s) && frame in s.frames
    ensures var t, words := ResumeFrame(s, frame, ok, variants), WordsOf(frame, s.briefDeliveryCount);
            if ok && words.Some?
            then t.spoken == s.spoken + [words.value] && t.authorized == words && t.interviewerSpeaking
            else t.spoken == s.spoken && t.authorized == s.authorized && t.interviewerSpeaking == s.interviewerSpeaking
  {
    assert frame.Retelling? ==> Retelling(frame.text) in s.frames;
  }

  // ----- What counts as heard -----

  /** The report says that audio played, or, without a word on that, how the utterance ended implies it. */
  ghost predicate SaysHeard(report: Option<SpeechOutcome>) {
    match report
    case None => true
    case Some(SpeechOutcome(_, Some(played))) => played
    case Some(SpeechOutcome(outcome, None)) => outcome == Completed || outcome == Interrupted
  }

  ghost predicate HearsAt(h: History, i: nat)
    requires i < |h.events|
  {
    h.states[i].authorized.Some? && h.states[i].authorized.value.opening &&
    h.events[i].SpeechFinished? && SaysHeard(h.events[i].outcome)
  }

  /** The opening counts as heard exactly once a report about it said so; an utterance that was lost never does. */
  lemma {:induction false} HeardExactlyIfReported(h: History, n: nat)
    requires IsRun(h) && n <= |h.events|
    ensures h.states[n].openingHeard <==> exists i: nat :: i < n && HearsAt(h, i)
  {
    hide Step, SaysHeard;
    if n > 0 {
      HeardExactlyIfReported(h, n - 1);
      assert IsStep(h, n - 1);
      HeardStepIs(h.states[n - 1], h.events[n - 1], h.variants);
      assert h.states[n].openingHeard <==> h.states[n - 1].openingHeard || HearsAt(h, n - 1);
    }
  }

  lemma HeardStepIs(s: State, e: Event, variants: nat)
    ensures Step(s, e, variants).openingHeard ==
      (s.openingHeard || (s.authorized.Some? && s.authorized.value.opening && e.SpeechFinished? && SaysHeard(e.outcome)))
  {
    hide Gate.DecideAction;
  }

  /**
   An opening that was being said when the browser came back without it is owed again, within
   the budget, once that is logged, whatever comes in between.
   */
  lemma LostOpeningIsOwed(h: History, m: nat, n: nat, ok: bool)
    requires IsRun(h) && m < n < |h.events|
    requires LosesAt(h, m) && h.states[m].authorized.value.opening
    requires h.events[n] == Resume(Finishing(true, false), ok) && NobodyLogs(h, m + 1, n, Finishing(true, false))
    ensures h.states[n + 1].redeliveryPending <==> ok && h.states[m].redeliveries < MAX_OPENING_REDELIVERIES
  {
    assert IsStep(h, m);
    ReportStays(h, m + 1, n);
    InvHolds(h, n);
    assert IsStep(h, n);
  }

  /** A browser that comes back still speaking, or with nothing to say, changes nothing. */
  lemma ReadinessChangesNothingElse(h: History, n: nat)
    requires IsRun(h) && n < |h.events| && h.events[n].Ready? && !LosesAt(h, n)
    ensures h.states[n + 1] == h.states[n]
  {
    assert IsStep(h, n);
  }

  // ----- Who is answered -----

  /** At event `n` a finished turn is judged, and nobody speaks over it. */
  ghost predicate JudgesAt(h: History, n: nat)
    requires n < |h.events| && h.events[n].Ask?
  {
    var m := h.events[n].moment;
    && m.turn.Some? && m.turn.value.finalized && m.turn.value.endProbability >= m.threshold
    && !m.candidateSpeakingNow && !(h.states[n].interviewerSpeaking && m.candidateStarted)
  }

  /** The stages at which an action may be taken. */
  function StagesOf(action: Gate.Action): set<Gate.Stage> {
    match action
    case StaySilent =>
      {Gate.OralProblemDelivery, Gate.Clarification, Gate.ApproachExploration, Gate.Implementation,
       Gate.TestAndDebug, Gate.FollowUp, Gate.WrapUp}
    case TransitionStage =>
      {Gate.OralProblemDelivery, Gate.Clarification, Gate.ApproachExploration, Gate.Implementation,
       Gate.TestAndDebug, Gate.FollowUp}
    case DeliverBrief =>
      {Gate.OralProblemDelivery, Gate.Clarification, Gate.ApproachExploration, Gate.Implementation, Gate.TestAndDebug}
    case AcknowledgeBriefly =>
      {Gate.Clarification, Gate.ApproachExploration, Gate.TestAndDebug, Gate.FollowUp, Gate.WrapUp}
    case AnswerClarification =>
      {Gate.Clarification, Gate.ApproachExploration, Gate.Implementation, Gate.TestAndDebug, Gate.FollowUp}
    case AskProbe => {Gate.ApproachExploration, Gate.Implementation, Gate.TestAndDebug, Gate.FollowUp}
    case GiveHintL1 => {Gate.ApproachExploration, Gate.Implementation, Gate.TestAndDebug}
    case GiveHintL2 => {Gate.TestAndDebug}
    case PresentFollowUp => {Gate.FollowUp}
    case EndInterview => {Gate.WrapUp}
  }

  lemma AllowedExactlyInItsStages(action: Gate.Action, stage: Gate.Stage)
    ensures action in Gate.AllowedActions(stage) <==> stage in StagesOf(action)
  {
  }

  /**
   In every run, a finished turn that nobody speaks over gets the brief exactly if one is owed, or
   it asks for one that has been told, or the later rules want it; otherwise it gets what the later
   rules want. Either way only if the stage allows it. The opening itself comes before any of this.
   */
  lemma FinishedTurnsAreAnswered(h: History, n: nat)
    requires IsRun(h) && n < |h.events| && h.events[n].Ask? && JudgesAt(h, n)
    requires !(h.events[n].moment.stage.OralProblemDelivery? && Deliveries(h, n) == 0)
    ensures var s, t, m := h.states[n], h.states[n + 1], h.events[n].moment;
            var action :=
              if s.redeliveryPending || (m.turn.value.asksForBrief && Deliveries(h, n) > 0) then Gate.DeliverBrief else m.later;
            t == s.(frames := s.frames +
              if action == Gate.StaySilent || m.stage !in StagesOf(action) then multiset{}
              else if action == Gate.DeliverBrief then multiset{Decided} else multiset{DecidedOther})
  {
    var s, m := h.states[n], h.events[n].moment;
    CountIsDeliveries(h, n);
    assert IsStep(h, n);
    AllowedExactlyInItsStages(Gate.Decide(ContextOf(s, m)), m.stage);
    assert s.frames + multiset{} == s.frames;
  }

  /**
   In every run, readiness, and a turn that is unfinished or spoken over, gets nothing but the
   brief: the opening, if no brief was told and the interviewer is quiet, or without a turn what is
   owed, if nobody speaks and the stage allows it.
   */
  lemma OthersHearOnlyWhatIsOwed(h: History, n: nat)
    requires IsRun(h) && n < |h.events| && h.events[n].Ask? && !JudgesAt(h, n)
    ensures var s, t, m := h.states[n], h.states[n + 1], h.events[n].moment;
            var first := m.stage.OralProblemDelivery? && Deliveries(h, n) == 0;
            var again := s.redeliveryPending && m.turn.None? && !m.candidateSpeakingNow && m.stage in StagesOf(Gate.DeliverBrief);
            t == s.(frames := s.frames + if (first || again) && !s.interviewerSpeaking then multiset{Decided} else multiset{})
  {
    var s, m := h.states[n], h.events[n].moment;
    CountIsDeliveries(h, n);
    assert IsStep(h, n);
    AllowedExactlyInItsStages(Gate.DeliverBrief, m.stage);
    AllowedExactlyInItsStages(Gate.StaySilent, m.stage);
    assert s.frames + multiset{} == s.frames;
  }

  // ----- Whether the candidate speaks -----

  ghost predicate IsBoundary(e: TurnQueue.Event) {
    e.SpeechStarted? || e.SpeechStopped? || e.BargeIn?
  }

  /** By the last boundary the candidate is speaking; cutting in is speaking, too. */
  ghost predicate Speaks(events: seq<TurnQueue.Event>) {
    events != [] &&
    var last := events[|events| - 1];
    if IsBoundary(last) then !last.SpeechStopped? else Speaks(events[..|events| - 1])
  }

  /** In every run of the queue, turns are judged with the candidate speaking exactly if the last boundary says so. */
  lemma {:induction false} CandidateSpeaksAsReported(h: TurnQueue.History, n: nat)
    requires TurnQueue.IsRun(h) && n <= |h.events|
    ensures h.states[n].turns.candidateSpeakingNow == Speaks(h.events[..n])
  {
    hide TurnQueue.Answer, TurnQueue.Asked, TurnQueue.SpeakingGoesOn, TurnQueue.NextFrame, Opening.Step;
    if n > 0 {
      CandidateSpeaksAsReported(h, n - 1);
      assert TurnQueue.IsStep(h, n - 1);
      assert h.events[..n][..n - 1] == h.events[..n - 1];
      BoundariesDecide(h.states[n - 1], h.events[n - 1], h.variants);
    }
  }

  lemma BoundariesDecide(s: TurnQueue.State, e: TurnQueue.Event, variants: nat)
    ensures TurnQueue.Step(s, e, variants).turns.candidateSpeakingNow ==
      if IsBoundary(e) then !e.SpeechStopped? else s.turns.candidateSpeakingNow
  {
    hide TurnQueue.Answer, Opening.AskGate, TurnQueue.SpeakingGoesOn, TurnQueue.NextFrame, Opening.Step;
  }

  // ----- The stage -----

  /** The stage the session is at: the one it moved to last, or none once it has ended. */
  ghost function StageAfter(events: seq<TurnQueue.Event>): Gate.Stage {
    if events == [] then Gate.OralProblemDelivery
    else
      match events[|events| - 1]
      case StageMoves(to) => to
      case SessionEnded => Gate.Evaluation
      case _ => StageAfter(events[..|events| - 1])
  }

  lemma {:induction false} StageFollows(h: TurnQueue.History, n: nat)
    requires TurnQueue.IsRun(h) && n <= |h.events|
    ensures h.states[n].stage == StageAfter(h.events[..n])
  {
    hide TurnQueue.Answer, TurnQueue.SpeakingGoesOn, TurnQueue.NextFrame, Opening.Step;
    if n > 0 {
      StageFollows(h, n - 1);
      assert TurnQueue.IsStep(h, n - 1);
      assert h.events[..n][..n - 1] == h.events[..n - 1];
      StageStep(h.states[n - 1], h.events[n - 1], h.variants);
    }
  }

  lemma StageStep(s: TurnQueue.State, e: TurnQueue.Event, variants: nat)
    ensures TurnQueue.Step(s, e, variants).stage ==
      match e
      case StageMoves(to) => to
      case SessionEnded => Gate.Evaluation
      case _ => s.stage
  {
    hide TurnQueue.Answer, Opening.AskGate, TurnQueue.SpeakingGoesOn, TurnQueue.NextFrame, Opening.Step;
  }

  /** In every run of the queue, once the session has ended the gate lets nothing be said, whoever asks. */
  lemma NothingIsDecidedAfterTheEnd(h: TurnQueue.History, n: nat, turn: Option<Gate.JudgedTurn>, input: TurnQueue.Input)
    requires TurnQueue.IsRun(h) && n <= |h.events| && StageAfter(h.events[..n]).Evaluation?
    ensures TurnQueue.Answer(h.states[n], turn, input).None?
  {
    StageFollows(h, n);
  }
}
