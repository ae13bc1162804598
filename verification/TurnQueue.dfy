/**
 How a session's events reach the runtime: one at a time through the dispatch queue, and past
 it only the timers that judge a held turn again
 (apps/api/src/modules/session/index.ts, `dispatch`;
 apps/api/src/modules/orchestrator/runtime.ts, `evaluateTurn`, `judge`, `holdForSilence`,
 `onSilenceElapsed`, `reevaluate`).

 The opening's part of the state and its steps are those of `Opening`. What a turn says, its
 end probability, what the later rules want, whether a silenced turn is worth holding, and when
 timers fire are inputs.
 */
module TurnQueue {
  import opened Wrappers
  import Gate
  import HeldTurns
  import Opening

  /** What the event at the head of the queue is waiting for. */
  datatype Waiting =
    | Classifying(turn: nat)
    | Speaking(frame: Opening.Frame)
    | LoggingSilence(turn: nat)

  /**
   `finals` counts the turns that arrived and numbers the next one. Timer calls that are
   suspended: `elapsed` of them log that silence has elapsed, those in `silences` log a silent
   verdict, and those that speak are frames of the opening.
   */
  datatype State = State(
    opening: Opening.State, stage: Gate.Stage, turns: HeldTurns.Turns, finals: nat,
    queue: Option<Waiting>, elapsed: nat, silences: multiset<HeldTurns.Verdict>)

  /** How a suspended call goes on. */
  datatype Outcome = Logged | LogFailed | NoWords | GoneStale

  datatype Input = Input(candidateStarted: bool, threshold: real, later: Gate.Action)

  datatype Event =
    | Started(input: Input)
    | FinalArrives
    | Classified(turn: Gate.JudgedTurn, input: Input)
    | SpeechStarted
    | SpeechStopped
    | BargeIn
    | SessionEnded
    | QueueGoesOn(outcome: Outcome, holds: bool)
    | StageMoves(to: Gate.Stage)
    | TimerFires
    | ElapsedLogged(ok: bool, turn: Gate.JudgedTurn, input: Input)
    | TimerGoesOn(frame: Opening.Frame, outcome: Outcome)
    | TimerSilenceLogged(verdict: HeldTurns.Verdict, ok: bool, holds: bool)
    | SpeechFinished(report: Option<Opening.SpeechOutcome>)
    | OutcomeLogged(opening: bool, heard: bool, ok: bool)
    | Ready(stillPlaying: bool)

  function Fresh(): State {
    State(Opening.Fresh(), Gate.OralProblemDelivery, HeldTurns.NoTurns(), 0, None, 0, multiset{})
  }

  // ----- Judging -----

  function MomentOf(s: State, turn: Option<Gate.JudgedTurn>, input: Input): Opening.Moment {
    Opening.Moment(s.stage, turn, input.threshold, input.candidateStarted, s.turns.candidateSpeakingNow, input.later)
  }

  /** The call that the gate suspends, if it lets the interviewer speak. */
  function Answer(s: State, turn: Option<Gate.JudgedTurn>, input: Input): Option<Opening.Frame> {
    match Gate.DecideAction(Opening.ContextOf(s.opening, MomentOf(s, turn, input)))
    case StaySilent => None
    case DeliverBrief => Some(Opening.Decided)
    case _ => Some(Opening.DecidedOther)
  }

  function Asked(s: State, turn: Option<Gate.JudgedTurn>, input: Input): State {
    s.(opening := Opening.AskGate(s.opening, MomentOf(s, turn, input)))
  }

  /** The next frame of a call that goes on telling the brief. */
  function NextFrame(o: Opening.State, frame: Opening.Frame, variants: nat): Option<Opening.Frame> {
    if frame.Decided? then Some(Opening.Realize(o, variants).1) else None
  }

  /** How a suspended speaking call goes on, as an event of the opening. */
  function SpeakingEvent(frame: Opening.Frame, outcome: Outcome): Opening.Event {
    match outcome
    case Logged => Opening.Resume(frame, true)
    case NoWords => Opening.NoWords
    case _ => Opening.Resume(frame, false)
  }

  function SpeakingGoesOn(o: Opening.State, frame: Opening.Frame, outcome: Outcome, variants: nat): Opening.State {
    Opening.Step(o, SpeakingEvent(frame, outcome), variants)
  }

  function Silenced(s: State, verdict: HeldTurns.Verdict, holds: bool): State {
    s.(turns := HeldTurns.Silenced(s.turns, verdict, holds))
  }

  function Cleared(s: State): State {
    s.(turns := HeldTurns.Cleared(s.turns))
  }

  function QueueStep(s: State, outcome: Outcome, holds: bool, variants: nat): State
    requires s.queue.Some?
  {
    match s.queue.value
    case Classifying(_) => s.(queue := None)
    case LoggingSilence(turn) =>
      if outcome.Logged? then Silenced(s, HeldTurns.Verdict(turn, 0), holds).(queue := None) else s.(queue := None)
    case Speaking(frame) =>
      var next := if outcome.Logged? then NextFrame(s.opening, frame, variants) else None;
      s.(opening := SpeakingGoesOn(s.opening, frame, outcome, variants),
         queue := if next.Some? then Some(Speaking(next.value)) else None)
  }

  /** The held turn, if there still is one, is judged again at its attempt. */
  function Reevaluated(s: State, turn: Gate.JudgedTurn, input: Input): State {
    if s.turns.held.None? then s
    else
      var t := Cleared(Asked(s, Some(turn), input));
      if Answer(s, Some(turn), input).None? then t.(silences := s.silences + multiset{s.turns.held.value}) else t
  }

  function Step(s: State, e: Event, variants: nat): State {
    match e
    case Started(input) =>
      var answer := Answer(s, None, input);
      Asked(s, None, input).(queue := if answer.Some? then Some(Speaking(answer.value)) else None)
    case FinalArrives => Cleared(s).(finals := s.finals + 1, queue := Some(Classifying(s.finals)))
    case Classified(turn, input) =>
      if !IsClassifying(s.queue) then s
      else
        var answer := Answer(s, Some(turn), input);
        Asked(s, Some(turn), input).(queue := Some(
          if answer.Some? then Speaking(answer.value) else LoggingSilence(s.queue.value.turn)))
    case SpeechStarted => s.(turns := HeldTurns.Resumed(s.turns))
    case SpeechStopped => s.(turns := HeldTurns.Yielded(s.turns))
    case BargeIn =>
      s.(opening := Opening.Step(s.opening, Opening.BargeIn, variants), turns := HeldTurns.Resumed(s.turns))
    case SessionEnded => s.(stage := Gate.Evaluation)
    case QueueGoesOn(outcome, holds) => if s.queue.Some? then QueueStep(s, outcome, holds, variants) else s
    case StageMoves(to) => s.(stage := to)
    case TimerFires => if s.turns.held.Some? then s.(elapsed := s.elapsed + 1) else s
    case ElapsedLogged(ok, turn, input) =>
      if s.elapsed == 0 then s
      else
        var t := s.(elapsed := s.elapsed - 1);
        if ok then Reevaluated(t, turn, input) else Cleared(t)
    case TimerGoesOn(frame, outcome) =>
      var t := s.(opening := SpeakingGoesOn(s.opening, frame, outcome, variants));
      if outcome.LogFailed? then Cleared(t) else t
    case TimerSilenceLogged(verdict, ok, holds) =>
      var t := s.(silences := s.silences - multiset{verdict});
      if ok then Silenced(t, verdict, holds) else Cleared(t)
    case SpeechFinished(report) => s.(opening := Opening.Step(s.opening, Opening.SpeechFinished(report), variants))
    case OutcomeLogged(opening, heard, ok) =>
      s.(opening := Opening.Step(s.opening, Opening.Resume(Opening.Finishing(opening, heard), ok), variants))
    case Ready(stillPlaying) => s.(opening := Opening.Step(s.opening, Opening.Ready(stillPlaying), variants))
  }

  predicate IsClassifying(queue: Option<Waiting>) {
    queue.Some? && queue.value.Classifying?
  }

  /** The call at the head of the queue that speaks, as a frame of the opening. */
  function QueuedFrame(s: State): multiset<Opening.Frame> {
    if s.queue.Some? && s.queue.value.Speaking? then multiset{s.queue.value.frame} else multiset{}
  }

  /** Outcomes that a suspended speaking call can have: only grounded decisions go stale, only authored ones lack words. */
  predicate CanEnd(frame: Opening.Frame, outcome: Outcome) {
    outcome.NoWords? || outcome.GoneStale? ==> frame.DecidedOther?
  }

  /**
   What the session lets happen: the queue takes the next event when the last is through, timers
   resume only timer calls, and the stage moves forward, out of the opening only once a brief
   has been told.
   */
  predicate Possible(s: State, e: Event) {
    match e
    case Started(_) => s.queue.None?
    case FinalArrives => s.queue.None?
    case Classified(_, _) => IsClassifying(s.queue)
    case SpeechStarted => s.queue.None?
    case SpeechStopped => s.queue.None?
    case BargeIn => s.queue.None?
    case SessionEnded => s.queue.None?
    case QueueGoesOn(outcome, _) => s.queue.Some? && (s.queue.value.Speaking? ==> CanEnd(s.queue.value.frame, outcome))
    case StageMoves(to) => to != Gate.OralProblemDelivery && s.opening.briefDeliveryCount > 0
    case TimerGoesOn(frame, outcome) =>
      frame in s.opening.frames - QueuedFrame(s) && !frame.Finishing? && CanEnd(frame, outcome)
    case TimerSilenceLogged(verdict, _, _) => verdict in s.silences
    case _ => true
  }

  // ----- Runs -----

  /** A run: what happened, and the states it led through. */
  datatype Recorded = Recorded(variants: nat, events: seq<Event>, states: seq<State>)

  type History = h: Recorded | |h.states| == |h.events| + 1 witness Recorded(0, [], [Fresh()])

  ghost predicate IsStep(h: History, i: nat)
    requires i < |h.events|
  {
    Possible(h.states[i], h.events[i]) && h.states[i + 1] == Step(h.states[i], h.events[i], h.variants)
  }

  ghost predicate IsRun(h: History) {
    h.states[0] == Fresh() && forall i: nat :: i < |h.events| ==> IsStep(h, i)
  }

  ghost function Last(h: History): State {
    h.states[|h.events|]
  }

  /** A run goes on with one more event. */
  lemma Then(h: History, e: Event) returns (t: History)
    requires IsRun(h) && Possible(Last(h), e)
    ensures IsRun(t) && t.variants == h.variants && t.events == h.events + [e]
    ensures t.states == h.states + [Step(Last(h), e, h.variants)] && Last(t) == Step(Last(h), e, h.variants)
  {
    hide Step, Possible;
    t := Recorded(h.variants, h.events + [e], h.states + [Step(Last(h), e, h.variants)]);
    forall i: nat | i < |t.events| ensures IsStep(t, i) {
      assert i < |h.events| ==> IsStep(h, i);
    }
  }

  // ----- The opening sees an ordinary interleaving -----

  /** What an event is to the opening, if anything. */
  ghost function AsOpening(s: State, e: Event): Option<Opening.Event> {
    match e
    case Started(input) => Some(Opening.Ask(MomentOf(s, None, input)))
    case Classified(turn, input) =>
      if IsClassifying(s.queue) then Some(Opening.Ask(MomentOf(s, Some(turn), input))) else None
    case BargeIn => Some(Opening.BargeIn)
    case QueueGoesOn(outcome, _) =>
      if s.queue.Some? && s.queue.value.Speaking? then Some(SpeakingEvent(s.queue.value.frame, outcome)) else None
    case ElapsedLogged(ok, turn, input) =>
      if s.elapsed > 0 && ok && s.turns.held.Some? then Some(Opening.Ask(MomentOf(s, Some(turn), input))) else None
    case TimerGoesOn(frame, outcome) => Some(SpeakingEvent(frame, outcome))
    case SpeechFinished(report) => Some(Opening.SpeechFinished(report))
    case OutcomeLogged(opening, heard, ok) => Some(Opening.Resume(Opening.Finishing(opening, heard), ok))
    case Ready(stillPlaying) => Some(Opening.Ready(stillPlaying))
    case _ => None
  }

  /** Every step is that step of the opening, or leaves its part of the state alone. */
  lemma StepIsOpeningStep(s: State, e: Event, variants: nat)
    ensures var f := AsOpening(s, e);
            Step(s, e, variants).opening == if f.Some? then Opening.Step(s.opening, f.value, variants) else s.opening
  {
    hide Opening.AskGate, Opening.ResumeFrame, Opening.MarkSpeechFinished;
  }

  lemma {:induction false} OpeningHolds(h: History, n: nat)
    requires IsRun(h) && n <= |h.events|
    ensures Opening.Kept(h.states[n].opening)
  {
    hide Step, Opening.Step, Opening.Kept, AsOpening;
    if n == 0 {
      FreshIsKept();
    } else {
      OpeningHolds(h, n - 1);
      assert IsStep(h, n - 1);
      var s, e := h.states[n - 1], h.events[n - 1];
      StepIsOpeningStep(s, e, h.variants);
      if AsOpening(s, e).Some? {
        Opening.InvStep(s.opening, AsOpening(s, e).value, h.variants);
      }
    }
  }

  lemma FreshIsKept()
    ensures Opening.Kept(Opening.Fresh())
  {
  }

  // ----- Nothing overtakes the first telling -----

  /** Nobody has spoken and nothing is owed. */
  ghost predicate IsUnspoken(o: Opening.State) {
    && o.authorized.None? && !o.interviewerSpeaking && o.spoken == [] && !o.redeliveryPending && o.redeliveries == 0
  }

  /** No turn is held and no timer call is suspended. */
  ghost predicate NothingHeld(s: State) {
    s.turns.held.None? && s.turns.speakingNowHeld.None? && s.elapsed == 0 && s.silences == multiset{}
  }

  /** Nobody has been answered yet. */
  ghost predicate IsUnopened(s: State) {
    && s.stage == Gate.OralProblemDelivery && s.opening.briefDeliveryCount == 0 && IsUnspoken(s.opening) && NothingHeld(s)
    && s.opening.frames == multiset{} && (s.queue.Some? ==> s.queue.value.Classifying?)
  }

  /** The first verdict, or else the first telling, is being logged at the head of the queue, and nothing else goes on. */
  ghost predicate IsOpening(s: State, count: nat, frame: Opening.Frame) {
    && s.opening.briefDeliveryCount == count && IsUnspoken(s.opening) && NothingHeld(s)
    && s.opening.frames == multiset{frame} && s.queue == Some(Speaking(frame))
  }

  /** The session ended without a brief. */
  ghost predicate IsOverUnopened(s: State) {
    && s.stage == Gate.Evaluation && s.opening.briefDeliveryCount == 0 && IsUnspoken(s.opening)
    && s.opening.frames == multiset{} && !(s.queue.Some? && s.queue.value.Speaking?)
  }

  /** The first telling is behind us. */
  ghost predicate IsPastOpening(s: State) {
    IsPast(s.opening.briefDeliveryCount, s.opening.frames, s.queue)
  }

  ghost predicate IsPast(count: nat, frames: multiset<Opening.Frame>, queue: Option<Waiting>) {
    && count > 0 && Opening.TellingFirst !in frames
    && (queue.Some? && queue.value.Speaking? ==> queue.value.frame in frames && !queue.value.frame.Finishing?)
  }

  ghost predicate Inv(s: State) {
    || IsUnopened(s)
    || (s.stage == Gate.OralProblemDelivery && IsOpening(s, 0, Opening.Decided))
    || IsOpening(s, 1, Opening.TellingFirst)
    || IsOverUnopened(s)
    || IsPastOpening(s)
  }

  /** Before the brief was told rule 0 answers whoever asks; after the session nothing may be said. */
  lemma UnopenedAnswer(s: State, turn: Option<Gate.JudgedTurn>, input: Input)
    ensures s.opening.briefDeliveryCount == 0 && s.stage == Gate.OralProblemDelivery && !s.opening.interviewerSpeaking ==>
      Answer(s, turn, input) == Some(Opening.Decided)
    ensures s.stage == Gate.Evaluation ==> Answer(s, turn, input).None?
  {
  }

  /** Asking adds exactly the call that the verdict suspends. */
  lemma AskAdds(s: State, turn: Option<Gate.JudgedTurn>, input: Input)
    ensures var answer := Answer(s, turn, input);
            && Asked(s, turn, input) == s.(opening := s.opening.(frames :=
                 s.opening.frames + if answer.Some? then multiset{answer.value} else multiset{}))
            && (answer.Some? ==> answer.value in {Opening.Decided, Opening.DecidedOther})
  {
    assert s.opening.frames + multiset{} == s.opening.frames;
  }

  /** What a suspended speaking call does to the opening's part of the state. */
  lemma SpeakingEffects(o: Opening.State, frame: Opening.Frame, outcome: Outcome, variants: nat)
    requires frame in o.frames && !frame.Finishing? && CanEnd(frame, outcome)
    ensures var o' := SpeakingGoesOn(o, frame, outcome, variants);
            var next := if outcome.Logged? then NextFrame(o, frame, variants) else None;
            && o'.frames == o.frames - multiset{frame} + (if next.Some? then multiset{next.value} else multiset{})
            && (next.Some? ==> frame.Decided? && !next.value.Finishing?)
            && (next == Some(Opening.TellingFirst) <==> frame.Decided? && outcome.Logged? && !o.redeliveryPending && o.briefDeliveryCount == 0)
            && o'.briefDeliveryCount == o.briefDeliveryCount
                 + (if frame.Decided? && outcome.Logged? && !o.redeliveryPending then 1 else 0)
  {
    assert o.frames - multiset{frame} + multiset{} == o.frames - multiset{frame};
  }

  /** The first brief: the verdict's log entry starts it, its own authorizes it, and a failure of either ends it. */
  lemma FirstTelling(s: State, outcome: Outcome, holds: bool, variants: nat)
    requires outcome.Logged? || outcome.LogFailed?
    ensures IsOpening(s, 0, Opening.Decided) && s.stage == Gate.OralProblemDelivery ==>
      var t := QueueStep(s, outcome, holds, variants);
      if outcome.Logged? then IsOpening(t, 1, Opening.TellingFirst) else IsUnopened(t)
    ensures IsOpening(s, 1, Opening.TellingFirst) ==>
      var t := QueueStep(s, outcome, holds, variants);
      && IsPastOpening(t) && t.opening.frames == multiset{}
      && t.opening.spoken == (if outcome.Logged? then [Opening.Utterance(Some(Opening.OpeningScript), true)] else [])
      && (outcome.LogFailed? ==> Opening.Tokens(t.opening) == 0)
  {
    var f := if s.opening.briefDeliveryCount == 0 then Opening.Decided else Opening.TellingFirst;
    assert multiset{f} - multiset{f} == multiset{};
    assert multiset{} + multiset{Opening.TellingFirst} == multiset{Opening.TellingFirst};
  }

  lemma InvUnopened(s: State, e: Event, variants: nat)
    requires IsUnopened(s) && Possible(s, e)
    ensures Inv(Step(s, e, variants))
  {
    hide Answer, Opening.AskGate, Asked;
    if e.Started? || e.Classified? {
      var turn := if e.Classified? then Some(e.turn) else None;
      UnopenedAnswer(s, turn, e.input);
      AskAdds(s, turn, e.input);
      assert multiset{} + multiset{Opening.Decided} == multiset{Opening.Decided};
      assert IsOpening(Step(s, e, variants), 0, Opening.Decided);
    }
  }

  lemma InvOpening(s: State, count: nat, frame: Opening.Frame, e: Event, variants: nat)
    requires IsOpening(s, count, frame) && Possible(s, e)
    requires (count == 0 && frame.Decided? && s.stage == Gate.OralProblemDelivery) || (count == 1 && frame.TellingFirst?)
    ensures Inv(Step(s, e, variants))
    ensures !e.QueueGoesOn? ==> IsOpening(Step(s, e, variants), count, frame)
  {
    if e.QueueGoesOn? {
      FirstTelling(s, e.outcome, e.holds, variants);
    } else {
      hide Opening.AskGate, Gate.DecideAction;
      assert IsOpening(Step(s, e, variants), count, frame);
    }
  }

  lemma InvOverUnopened(s: State, e: Event, variants: nat)
    requires IsOverUnopened(s) && Possible(s, e)
    ensures IsOverUnopened(Step(s, e, variants))
  {
    match e {
      case Started(input) => OverStaysSilent(s, None, input);
      case Classified(turn, input) => OverStaysSilent(s, Some(turn), input);
      case ElapsedLogged(_, turn, input) => OverStaysSilent(s.(elapsed := if s.elapsed > 0 then s.elapsed - 1 else 0), Some(turn), input);
      case _ => hide Answer, Opening.AskGate, Asked;
    }
  }

  lemma OverStaysSilent(s: State, turn: Option<Gate.JudgedTurn>, input: Input)
    requires IsOverUnopened(s)
    ensures Answer(s, turn, input).None? && Asked(s, turn, input) == s
  {
    hide Answer, Opening.AskGate, Asked;
    UnopenedAnswer(s, turn, input);
    AskAdds(s, turn, input);
    assert s.opening.frames + multiset{} == s.opening.frames;
  }

  /** Asking keeps the opening behind us. */
  lemma PastAsked(s: State, turn: Option<Gate.JudgedTurn>, input: Input)
    requires IsPastOpening(s)
    ensures var t, answer := Asked(s, turn, input), Answer(s, turn, input);
            IsPastOpening(t) && (answer.Some? ==> IsPastOpening(t.(queue := Some(Speaking(answer.value)))))
            && t.queue == s.queue
  {
    hide Answer, Opening.AskGate, Asked;
    AskAdds(s, turn, input);
  }

  lemma InvPastAsk(s: State, e: Event, variants: nat)
    requires IsPastOpening(s) && Possible(s, e) && (e.Started? || e.Classified? || e.ElapsedLogged?)
    ensures IsPastOpening(Step(s, e, variants))
  {
    hide Answer, Asked;
    match e {
      case Started(input) => PastAsked(s, None, input);
      case Classified(turn, input) => PastAsked(s, Some(turn), input);
      case ElapsedLogged(_, turn, input) => PastAsked(s.(elapsed := if s.elapsed > 0 then s.elapsed - 1 else 0), Some(turn), input);
    }
  }

  lemma InvPastSpeaking(s: State, frame: Opening.Frame, outcome: Outcome, variants: nat)
    requires IsPastOpening(s) && s.queue == Some(Speaking(frame)) && CanEnd(frame, outcome)
    ensures var next := if outcome.Logged? then NextFrame(s.opening, frame, variants) else None;
            var o := SpeakingGoesOn(s.opening, frame, outcome, variants);
            IsPast(o.briefDeliveryCount, o.frames, if next.Some? then Some(Speaking(next.value)) else None)
  {
    hide SpeakingGoesOn, NextFrame, IsPast;
    FrameIsSuspended(s, frame);
    SpeakingEffects(s.opening, frame, outcome, variants);
    var next := if outcome.Logged? then NextFrame(s.opening, frame, variants) else None;
    PastGoesOn(s.opening.briefDeliveryCount, s.opening.frames, s.queue, frame, next,
               SpeakingGoesOn(s.opening, frame, outcome, variants).briefDeliveryCount);
  }

  lemma InvPastQueue(s: State, outcome: Outcome, holds: bool, variants: nat)
    requires IsPastOpening(s) && Possible(s, QueueGoesOn(outcome, holds))
    ensures IsPastOpening(QueueStep(s, outcome, holds, variants))
  {
    hide SpeakingGoesOn, NextFrame, IsPast, HeldTurns.Silenced;
    match s.queue.value {
      case Speaking(frame) => InvPastSpeaking(s, frame, outcome, variants);
      case _ => PastUnqueued(s.opening.briefDeliveryCount, s.opening.frames, s.queue);
    }
  }

  lemma FrameIsSuspended(s: State, frame: Opening.Frame)
    requires IsPastOpening(s) && s.queue == Some(Speaking(frame))
    ensures frame in s.opening.frames && !frame.Finishing? && s.opening.briefDeliveryCount > 0
  {
  }

  lemma PastUnqueued(count: nat, frames: multiset<Opening.Frame>, queue: Option<Waiting>)
    requires IsPast(count, frames, queue)
    ensures IsPast(count, frames, None)
  {
  }

  lemma PastGoesOn(count: nat, frames: multiset<Opening.Frame>, queue: Option<Waiting>,
                   frame: Opening.Frame, next: Option<Opening.Frame>, count': nat)
    requires IsPast(count, frames, queue) && count' >= count && next != Some(Opening.TellingFirst)
    requires next.Some? ==> !next.value.Finishing?
    ensures IsPast(count', frames - multiset{frame} + (if next.Some? then multiset{next.value} else multiset{}),
                   if next.Some? then Some(Speaking(next.value)) else None)
  {
  }

  lemma InvPastTimer(s: State, frame: Opening.Frame, outcome: Outcome, variants: nat)
    requires IsPastOpening(s) && Possible(s, TimerGoesOn(frame, outcome))
    ensures IsPastOpening(Step(s, TimerGoesOn(frame, outcome), variants))
  {
    hide SpeakingGoesOn, NextFrame, IsPast;
    FrameCanGo(s, frame);
    SpeakingEffects(s.opening, frame, outcome, variants);
    var next := if outcome.Logged? then NextFrame(s.opening, frame, variants) else None;
    PastBeside(s, frame, next, SpeakingGoesOn(s.opening, frame, outcome, variants).briefDeliveryCount);
  }

  lemma FrameCanGo(s: State, frame: Opening.Frame)
    requires IsPastOpening(s) && frame in s.opening.frames - QueuedFrame(s)
    ensures frame in s.opening.frames && s.opening.briefDeliveryCount > 0
  {
  }

  lemma PastBeside(s: State, frame: Opening.Frame, next: Option<Opening.Frame>, count: nat)
    requires IsPastOpening(s) && frame in s.opening.frames - QueuedFrame(s)
    requires count >= s.opening.briefDeliveryCount && next != Some(Opening.TellingFirst)
    ensures IsPast(count, s.opening.frames - multiset{frame} + (if next.Some? then multiset{next.value} else multiset{}), s.queue)
  {
  }

  /** Reports and readiness come and go as calls of their own kind. */
  lemma ReportEffects(o: Opening.State, f: Opening.Event, variants: nat)
    requires f.SpeechFinished? || f.Ready? || (f.Resume? && f.frame.Finishing?)
    ensures var o' := Opening.Step(o, f, variants);
            && o'.briefDeliveryCount == o.briefDeliveryCount
            && (o'.frames == o.frames
                || exists frame: Opening.Frame :: frame.Finishing? && o'.frames in {o.frames + multiset{frame}, o.frames - multiset{frame}})
  {
    hide Opening.WasHeard;
    if f.Resume? {
      assert f.frame in o.frames ==> Opening.Step(o, f, variants).frames == o.frames - multiset{f.frame};
    } else {
      var report := if f.SpeechFinished? then f.outcome else Opening.LOST;
      var frame := Opening.Finishing(o.authorized.Some? && o.authorized.value.opening, Opening.WasHeard(report));
      assert Opening.Step(o, f, variants).frames in {o.frames, o.frames + multiset{frame}};
    }
  }

  lemma PastReported(count: nat, frames: multiset<Opening.Frame>, queue: Option<Waiting>, frame: Opening.Frame)
    requires IsPast(count, frames, queue) && frame.Finishing?
    ensures IsPast(count, frames + multiset{frame}, queue) && IsPast(count, frames - multiset{frame}, queue)
  {
  }

  lemma InvPastReport(s: State, f: Opening.Event, variants: nat)
    requires IsPastOpening(s) && (f.SpeechFinished? || f.Ready? || (f.Resume? && f.frame.Finishing?))
    ensures IsPastOpening(s.(opening := Opening.Step(s.opening, f, variants)))
  {
    hide Opening.Step, IsPast;
    ReportEffects(s.opening, f, variants);
    var o := s.opening;
    if Opening.Step(o, f, variants).frames != o.frames {
      var frame: Opening.Frame :| frame.Finishing? &&
        Opening.Step(o, f, variants).frames in {o.frames + multiset{frame}, o.frames - multiset{frame}};
      PastReported(o.briefDeliveryCount, o.frames, s.queue, frame);
    }
  }

  lemma InvPastOpening(s: State, e: Event, variants: nat)
    requires IsPastOpening(s) && Possible(s, e)
    ensures IsPastOpening(Step(s, e, variants))
  {
    match e {
      case Started(_) => InvPastAsk(s, e, variants);
      case Classified(_, _) => InvPastAsk(s, e, variants);
      case ElapsedLogged(_, _, _) => InvPastAsk(s, e, variants);
      case QueueGoesOn(outcome, holds) => InvPastQueue(s, outcome, holds, variants);
      case TimerGoesOn(frame, outcome) => InvPastTimer(s, frame, outcome, variants);
      case SpeechFinished(report) => InvPastReport(s, Opening.SpeechFinished(report), variants);
      case OutcomeLogged(opening, heard, ok) => InvPastReport(s, Opening.Resume(Opening.Finishing(opening, heard), ok), variants);
      case Ready(stillPlaying) => InvPastReport(s, Opening.Ready(stillPlaying), variants);
      case _ =>
    }
  }

  lemma InvStep(s: State, e: Event, variants: nat)
    requires Inv(s) && Possible(s, e)
    ensures Inv(Step(s, e, variants))
  {
    hide Step;
    if IsUnopened(s) {
      InvUnopened(s, e, variants);
    } else if s.stage == Gate.OralProblemDelivery && IsOpening(s, 0, Opening.Decided) {
      InvOpening(s, 0, Opening.Decided, e, variants);
    } else if IsOpening(s, 1, Opening.TellingFirst) {
      InvOpening(s, 1, Opening.TellingFirst, e, variants);
    } else if IsOverUnopened(s) {
      InvOverUnopened(s, e, variants);
    } else {
      InvPastOpening(s, e, variants);
    }
  }

  lemma {:induction false} InvHolds(h: History, n: nat)
    requires IsRun(h) && n <= |h.events|
    ensures Inv(h.states[n])
  {
    hide Step, Possible, IsUnopened, IsOpening, IsOverUnopened, IsPastOpening;
    if n == 0 {
      FreshIsUnopened();
    } else {
      InvHolds(h, n - 1);
      assert IsStep(h, n - 1);
      InvStep(h.states[n - 1], h.events[n - 1], h.variants);
    }
  }

  lemma FreshIsUnopened()
    ensures IsUnopened(Fresh())
  {
  }

  lemma TellingIsAlone(s: State)
    requires Inv(s) && Opening.TellingFirst in s.opening.frames
    ensures IsOpening(s, 1, Opening.TellingFirst)
  {
    assert Opening.TellingFirst !in multiset{Opening.Decided};
  }

  /**
   Over every run, while the first telling is being logged it is at the head of the queue, no
   other call that could speak is suspended and no turn is held. So nothing overtakes it, and
   once it is logged it is the first thing said and carries the mark of the opening.
   */
  lemma FirstTellingIsMarked(h: History, n: nat)
    requires IsRun(h) && n <= |h.events| && Opening.TellingFirst in h.states[n].opening.frames
    ensures IsOpening(h.states[n], 1, Opening.TellingFirst)
    ensures n < |h.events| && h.events[n].QueueGoesOn? && h.events[n].outcome.Logged? ==>
      h.states[n + 1].opening.spoken == [Opening.Utterance(Some(Opening.OpeningScript), true)]
  {
    hide Inv, QueueStep;
    InvHolds(h, n);
    TellingIsAlone(h.states[n]);
    if n < |h.events| && h.events[n].QueueGoesOn? && h.events[n].outcome.Logged? {
      assert IsStep(h, n);
      FirstTelling(h.states[n], Logged, h.events[n].holds, h.variants);
    }
  }

  // ----- How every session begins -----

  /** The session starts, and the decision to tell the brief is logged. */
  lemma TellingBegins(input: Input, variants: nat) returns (h: History)
    ensures IsRun(h) && h.variants == variants && |h.events| == 2
    ensures var o := Opening.Fresh().(briefDeliveryCount := 1, frames := multiset{Opening.TellingFirst});
            Last(h) == Fresh().(opening := o, queue := Some(Speaking(Opening.TellingFirst)))
  {
    h := Recorded(variants, [], [Fresh()]);
    h := Then(h, Started(input));
    assert Last(h).opening.frames == multiset{Opening.Decided};
    h := Then(h, QueueGoesOn(Logged, false));
    assert Last(h).opening.frames == multiset{Opening.TellingFirst};
  }

  const OPENING: Opening.Utterance := Opening.Utterance(Some(Opening.OpeningScript), true)

  /** The opening is being spoken. */
  lemma OpeningIsSpoken(input: Input, variants: nat) returns (h: History)
    ensures IsRun(h) && h.variants == variants && |h.events| == 3
    ensures var o := Opening.Fresh().(briefDeliveryCount := 1, authorized := Some(OPENING),
                                      interviewerSpeaking := true, spoken := [OPENING]);
            Last(h) == Fresh().(opening := o)
  {
    h := TellingBegins(input, variants);
    h := Then(h, QueueGoesOn(Logged, false));
    assert Last(h).opening.frames == multiset{};
  }
}
