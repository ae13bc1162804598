/**
 The opening brief and its redelivery
 (apps/api/src/modules/orchestrator/runtime.ts, `openInterview`, `judge`, `realize`,
 `markSpeechFinished`, `reconcileSpeechOnReady`).

 Each segment between two awaits is one step. Suspended calls are frames, any of which may
 go on next or fail, so readiness, turns, timers and outcome reports interleave freely.
 */
module Opening {
  import opened Wrappers
  import Gate

  const MAX_OPENING_REDELIVERIES: nat := 2

  /** The opening script, or one of the reviewed retellings. */
  datatype Text = OpeningScript | Variant(index: nat)

  datatype Utterance = Utterance(text: Option<Text>, opening: bool)

  /** A suspended call. */
  datatype Frame =
    | Decided                       // the gate chose the brief; its decision is being logged
    | DecidedOther                  // the gate chose something else
    | TellingFirst                  // the first telling is being logged
    | Retelling(text: Text)         // a later telling is being logged
    | Redelivering                  // a redelivery of the opening is being logged
    | Finishing(opening: bool, heard: bool)  // an outcome is being logged

  datatype Outcome = Completed | Interrupted | Failed | Cancelled

  datatype SpeechOutcome = SpeechOutcome(outcome: Outcome, firstAudio: Option<bool>)

  /** `spoken` and `openingHeard` record what was authorized and whether the browser said it heard the opening. */
  datatype State = State(
    briefDeliveryCount: nat, redeliveryPending: bool, redeliveries: nat,
    authorized: Option<Utterance>, interviewerSpeaking: bool,
    frames: multiset<Frame>, spoken: seq<Utterance>, openingHeard: bool)

  /** What the gate reads besides this state, as it is when it is asked. */
  datatype Moment = Moment(
    stage: Gate.Stage, turn: Option<Gate.JudgedTurn>, threshold: real,
    candidateStarted: bool, candidateSpeakingNow: bool, later: Gate.Action)

  datatype Event =
    | Ask(moment: Moment)
    | Resume(frame: Frame, ok: bool)
    | NoWords                       // what was decided turns out to have no authored words
    | SpeechFinished(outcome: Option<SpeechOutcome>)
    | Ready(stillPlaying: bool)
    | BargeIn

  function Fresh(): State {
    State(0, false, 0, None, false, multiset{}, [], false)
  }

  // ----- One step -----

  function ContextOf(s: State, m: Moment): Gate.Context {
    Gate.Context(m.stage, m.turn, m.threshold, s.interviewerSpeaking, m.candidateStarted, m.candidateSpeakingNow,
                 s.briefDeliveryCount, s.redeliveryPending, m.later)
  }

  function AskGate(s: State, m: Moment): State {
    match Gate.DecideAction(ContextOf(s, m))
    case StaySilent => s
    case DeliverBrief => s.(frames := s.frames + multiset{Decided})
    case _ => s.(frames := s.frames + multiset{DecidedOther})
  }

  /** With no variants the opening script is told again. */
  function RetellingText(count: nat, variants: nat): Text {
    if count == 0 || variants == 0 then OpeningScript else Variant((count - 1) % variants)
  }

  /** Chooses the words and counts the telling, before the log is written. */
  function Realize(s: State, variants: nat): (State, Frame) {
    if s.redeliveryPending then (s.(redeliveryPending := false, redeliveries := s.redeliveries + 1), Redelivering)
    else
      (s.(briefDeliveryCount := s.briefDeliveryCount + 1),
       if s.briefDeliveryCount == 0 then TellingFirst else Retelling(RetellingText(s.briefDeliveryCount, variants)))
  }

  function Authorize(s: State, u: Utterance): State {
    s.(authorized := Some(u), interviewerSpeaking := true, spoken := s.spoken + [u])
  }

  /** After an outcome was logged: an opening nobody heard is owed again, a limited number of times. */
  function Settle(s: State, opening: bool, heard: bool): State {
    if !opening then s
    else if heard then s.(redeliveryPending := false)
    else if s.redeliveries < MAX_OPENING_REDELIVERIES then s.(redeliveryPending := true)
    else s
  }

  function ResumeFrame(s: State, frame: Frame, ok: bool, variants: nat): State {
    var t := s.(frames := s.frames - multiset{frame});
    if !ok then t
    else
      match frame
      case Decided =>
        var (u, next) := Realize(t, variants);
        u.(frames := u.frames + multiset{next})
      case DecidedOther => Authorize(t, Utterance(None, false))
      case TellingFirst => Authorize(t, Utterance(Some(OpeningScript), t.briefDeliveryCount == 1))
      case Retelling(text) => Authorize(t, Utterance(Some(text), t.briefDeliveryCount == 1))
      case Redelivering => Authorize(t, Utterance(Some(OpeningScript), true))
      case Finishing(opening, heard) => Settle(t, opening, heard)
  }

  /** Without a report, or from an older client, audio is taken to have played where the outcome implies it. */
  function WasHeard(outcome: Option<SpeechOutcome>): bool {
    outcome.None? ||
    match outcome.value.firstAudio
    case Some(played) => played
    case None => outcome.value.outcome.Completed? || outcome.value.outcome.Interrupted?
  }

  function MarkSpeechFinished(s: State, outcome: Option<SpeechOutcome>): State {
    var opening := s.authorized.Some? && s.authorized.value.opening;
    var t := s.(authorized := None, interviewerSpeaking := false,
                openingHeard := s.openingHeard || (opening && WasHeard(outcome)));
    if s.authorized.None? then t
    else if outcome.Some? then
      t.(frames := t.frames + multiset{Finishing(opening, WasHeard(outcome))})
    else Settle(t, opening, true)
  }

  /** The authorization is cleared all the same. */
  function Unworded(s: State): State {
    s.(frames := s.frames - multiset{DecidedOther}, authorized := None)
  }

  const LOST: Option<SpeechOutcome> := Some(SpeechOutcome(Cancelled, Some(false)))

  function Step(s: State, e: Event, variants: nat): State {
    match e
    case Ask(moment) => AskGate(s, moment)
    case Resume(frame, ok) => if frame in s.frames then ResumeFrame(s, frame, ok, variants) else s
    case NoWords => if DecidedOther in s.frames then Unworded(s) else s
    case SpeechFinished(outcome) => MarkSpeechFinished(s, outcome)
    case Ready(stillPlaying) =>
      if s.authorized.None? || stillPlaying then s else MarkSpeechFinished(s, LOST)
    case BargeIn => s.(interviewerSpeaking := false)
  }

  /** The runtime's fields that take part; `frames` stands for its suspended calls. */
  class InterviewRuntime {
    const repeatVariants: nat
    var briefDeliveryCount: nat
    var redeliveryPending: bool
    var redeliveries: nat
    var authorized: Option<Utterance>
    var interviewerSpeaking: bool
    var frames: multiset<Frame>
    ghost var spoken: seq<Utterance>
    ghost var openingHeard: bool

    ghost function View(): State
      reads this
    {
      State(briefDeliveryCount, redeliveryPending, redeliveries, authorized, interviewerSpeaking, frames, spoken, openingHeard)
    }

    constructor (repeatVariants: nat)
      ensures View() == Fresh() && this.repeatVariants == repeatVariants
    {
      this.repeatVariants := repeatVariants;
      briefDeliveryCount, redeliveryPending, redeliveries := 0, false, 0;
      authorized, interviewerSpeaking, frames, spoken, openingHeard := None, false, multiset{}, [], false;
    }

    /** Readiness or a turn: ask the gate, and if it speaks start logging the decision. */
    method OnAsk(moment: Moment)
      modifies this`frames
      ensures View() == Step(old(View()), Ask(moment), repeatVariants)
    {
      var action := Gate.DecideAction(Gate.Context(
        moment.stage, moment.turn, moment.threshold, interviewerSpeaking, moment.candidateStarted,
        moment.candidateSpeakingNow, briefDeliveryCount, redeliveryPending, moment.later));
      if action == Gate.StaySilent { return; }
      frames := frames + multiset{if action == Gate.DeliverBrief then Decided else DecidedOther};
    }

    method Continue(frame: Frame, ok: bool)
      requires frame in frames
      modifies this
      ensures View() == Step(old(View()), Resume(frame, ok), repeatVariants)
    {
      frames := frames - multiset{frame};
      if !ok { return; }
      match frame {
        case Decided =>
          var next := StartTelling();
          frames := frames + multiset{next};
        case DecidedOther => Say(None, false);
        case TellingFirst => Say(Some(OpeningScript), briefDeliveryCount == 1);
        case Retelling(text) => Say(Some(text), briefDeliveryCount == 1);
        case Redelivering => Say(Some(OpeningScript), true);
        case Finishing(opening, heard) => SettleOpening(opening, heard);
      }
    }

    method ContinueWithoutWords()
      requires DecidedOther in frames
      modifies this`frames, this`authorized
      ensures View() == Step(old(View()), NoWords, repeatVariants)
    {
      frames := frames - multiset{DecidedOther};
      authorized := None;
    }

    method StartTelling() returns (next: Frame)
      modifies this`redeliveryPending, this`redeliveries, this`briefDeliveryCount
      ensures (View(), next) == Realize(old(View()), repeatVariants)
    {
      if redeliveryPending {
        redeliveryPending := false;
        redeliveries := redeliveries + 1;
        return Redelivering;
      }
      var text := if briefDeliveryCount == 0 || repeatVariants == 0 then OpeningScript
                  else Variant((briefDeliveryCount - 1) % repeatVariants);
      next := if briefDeliveryCount == 0 then TellingFirst else Retelling(text);
      briefDeliveryCount := briefDeliveryCount + 1;
    }

    method Say(text: Option<Text>, opening: bool)
      modifies this`authorized, this`interviewerSpeaking, this`spoken
      ensures View() == Authorize(old(View()), Utterance(text, opening))
    {
      authorized := Some(Utterance(text, opening));
      interviewerSpeaking := true;
      spoken := spoken + [Utterance(text, opening)];
    }

    method SettleOpening(opening: bool, heard: bool)
      modifies this`redeliveryPending
      ensures View() == Settle(old(View()), opening, heard)
    {
      if !opening { return; }
      if heard {
        redeliveryPending := false;
      } else if redeliveries < MAX_OPENING_REDELIVERIES {
        redeliveryPending := true;
      }
    }

    method OnSpeechFinished(outcome: Option<SpeechOutcome>)
      modifies this`authorized, this`interviewerSpeaking, this`openingHeard, this`frames, this`redeliveryPending
      ensures View() == MarkSpeechFinished(old(View()), outcome)
    {
      var completed := authorized;
      interviewerSpeaking, authorized := false, None;
      if completed.None? { return; }
      var opening := completed.value.opening;
      var heard := WasHeard(outcome);
      assert outcome.None? ==> heard;
      hide WasHeard;
      openingHeard := openingHeard || (opening && heard);
      if outcome.None? {
        SettleOpening(opening, heard);
      } else {
        frames := frames + multiset{Finishing(opening, heard)};
      }
    }

    method OnReady(stillPlaying: bool)
      modifies this`authorized, this`interviewerSpeaking, this`openingHeard, this`frames, this`redeliveryPending
      ensures View() == Step(old(View()), Ready(stillPlaying), repeatVariants)
    {
      if authorized.None? || stillPlaying { return; }
      OnSpeechFinished(LOST);
    }
  }

  // ----- Runs -----

  /** A run: what happened, and the states it led through. */
  datatype Recorded = Recorded(variants: nat, events: seq<Event>, states: seq<State>)

  type History = h: Recorded | |h.states| == |h.events| + 1 witness Recorded(0, [], [Fresh()])

  ghost predicate IsStep(h: History, i: nat)
    requires i < |h.events|
  {
    h.states[i + 1] == Step(h.states[i], h.events[i], h.variants)
  }

  ghost predicate IsRun(h: History) {
    h.states[0] == Fresh() && forall i: nat :: i < |h.events| ==> IsStep(h, i)
  }

  ghost function Openings(spoken: seq<Utterance>): nat {
    if spoken == [] then 0
    else Openings(spoken[..|spoken| - 1]) + if spoken[|spoken| - 1].opening then 1 else 0
  }

  ghost function One(b: bool): nat {
    if b then 1 else 0
  }

  /** The places where "the opening is still under way" can be; it is in at most one of them. */
  ghost function Tokens(s: State): nat {
    s.frames[TellingFirst] + s.frames[Redelivering] + s.frames[Finishing(true, true)] + s.frames[Finishing(true, false)]
    + One(s.authorized.Some? && s.authorized.value.opening) + One(s.redeliveryPending)
  }

  /** The redelivery budget, and the opening being in at most one place. */
  ghost predicate Inv(s: State) {
    && Tokens(s) <= 1
    && s.redeliveries + One(s.redeliveryPending) <= MAX_OPENING_REDELIVERIES
    && (s.briefDeliveryCount == 0 ==> Tokens(s) == 0 && s.redeliveries == 0)
    && Openings(s.spoken) + s.frames[TellingFirst] + s.frames[Redelivering] <= One(s.briefDeliveryCount > 0) + s.redeliveries
    && (s.openingHeard ==> s.briefDeliveryCount > 0 && Tokens(s) == s.frames[Finishing(true, true)])
  }

  /** A retelling in flight means that the brief has been told twice by now. */
  ghost predicate RetellingsAreLate(s: State) {
    forall text :: Retelling(text) in s.frames ==> s.briefDeliveryCount >= 2
  }

  lemma OpeningsGrow(spoken: seq<Utterance>, u: Utterance)
    ensures Openings(spoken + [u]) == Openings(spoken) + One(u.opening)
  {
    assert (spoken + [u])[..|spoken|] == spoken;
  }

  ghost predicate Kept(s: State) {
    Inv(s) && RetellingsAreLate(s)
  }

  lemma InvAsk(s: State, m: Moment)
    requires Kept(s)
    ensures Kept(AskGate(s, m))
  {
    var t := AskGate(s, m);
    assert t == s || t.frames == s.frames + multiset{Decided} || t.frames == s.frames + multiset{DecidedOther};
  }

  lemma InvFinished(s: State, outcome: Option<SpeechOutcome>)
    requires Kept(s)
    ensures Kept(MarkSpeechFinished(s, outcome))
  {
    if s.authorized.Some? && outcome.Some? {
      var f := Finishing(s.authorized.value.opening, WasHeard(outcome));
      assert forall g :: g != f ==> (s.frames + multiset{f})[g] == s.frames[g];
    }
  }

  lemma InvRealize(s: State, variants: nat)
    requires Kept(s)
    ensures var (t, next) := Realize(s, variants); Kept(t.(frames := t.frames + multiset{next}))
  {
    var (t, next) := Realize(s, variants);
    assert forall g :: g != next ==> (t.frames + multiset{next})[g] == s.frames[g];
  }

  /** Saying something: an utterance marked as the opening takes over a token that its frame gave up. */
  lemma InvAuthorize(s: State, u: Utterance)
    requires Kept(s) && (u.opening ==> s.briefDeliveryCount > 0)
    requires u.opening ==> Tokens(s) == 0 && !s.openingHeard
    requires u.opening ==> Openings(s.spoken) + 1 <= 1 + s.redeliveries
    ensures Kept(Authorize(s, u))
  {
    OpeningsGrow(s.spoken, u);
  }

  /** A frame that is gone takes nothing along but its own token. */
  lemma InvDropFrame(s: State, frame: Frame)
    requires Kept(s) && frame in s.frames
    ensures Kept(s.(frames := s.frames - multiset{frame}))
    ensures var t := s.(frames := s.frames - multiset{frame});
            && (frame == TellingFirst || frame == Redelivering || frame == Finishing(true, false) ==>
                  s.briefDeliveryCount > 0 && Tokens(t) == 0 && !s.openingHeard)
            && (frame == TellingFirst || frame == Redelivering ==> Openings(s.spoken) + 1 <= 1 + s.redeliveries)
            && (frame == Finishing(true, true) ==> s.briefDeliveryCount > 0 && Tokens(t) == 0)
  {
    var t := s.(frames := s.frames - multiset{frame});
    assert forall g :: g != frame ==> t.frames[g] == s.frames[g];
    assert t.frames[frame] == s.frames[frame] - 1;
  }

  lemma InvResume(s: State, frame: Frame, ok: bool, variants: nat)
    requires Kept(s) && frame in s.frames
    ensures Kept(ResumeFrame(s, frame, ok, variants))
  {
    var t := s.(frames := s.frames - multiset{frame});
    InvDropFrame(s, frame);
    if ok {
      match frame
      case Decided => InvRealize(t, variants);
      case DecidedOther => InvAuthorize(t, Utterance(None, false));
      case TellingFirst => InvAuthorize(t, Utterance(Some(OpeningScript), t.briefDeliveryCount == 1));
      case Retelling(text) => InvAuthorize(t, Utterance(Some(text), t.briefDeliveryCount == 1));
      case Redelivering => InvAuthorize(t, Utterance(Some(OpeningScript), true));
      case Finishing(_, _) =>
    }
  }

  lemma InvStep(s: State, e: Event, variants: nat)
    requires Kept(s)
    ensures Kept(Step(s, e, variants))
  {
    match e
    case Ask(moment) => InvAsk(s, moment);
    case Resume(frame, ok) => if frame in s.frames { InvResume(s, frame, ok, variants); }
    case NoWords => if DecidedOther in s.frames { InvDropFrame(s, DecidedOther); }
    case SpeechFinished(outcome) => InvFinished(s, outcome);
    case Ready(_) => InvFinished(s, LOST);
    case BargeIn =>
  }

  lemma {:induction false} InvHolds(h: History, n: nat)
    requires IsRun(h) && n <= |h.events|
    ensures Kept(h.states[n])
  {
    hide Step;
    if n > 0 {
      InvHolds(h, n - 1);
      assert IsStep(h, n - 1);
      InvStep(h.states[n - 1], h.events[n - 1], h.variants);
    }
  }

  /** Over every run: at most two redeliveries, counting one that is owed, and so at most three openings. */
  lemma AtMostThreeOpenings(h: History, n: nat)
    requires IsRun(h) && n <= |h.events|
    ensures var s := h.states[n];
            && s.redeliveries + One(s.redeliveryPending) <= 2
            && Openings(s.spoken) <= 3
            && Openings(s.spoken) <= 1 + s.redeliveries
  {
    InvHolds(h, n);
  }

  lemma HeardResume(s: State, frame: Frame, ok: bool, variants: nat)
    requires Kept(s) && s.openingHeard && frame in s.frames
    ensures ResumeFrame(s, frame, ok, variants).openingHeard
    ensures Openings(ResumeFrame(s, frame, ok, variants).spoken) == Openings(s.spoken)
  {
    hide Inv, Tokens;
    InvDropFrame(s, frame);
    match frame
    case DecidedOther => OpeningsGrow(s.spoken, Utterance(None, false));
    case Retelling(text) => OpeningsGrow(s.spoken, Utterance(Some(text), false));
    case _ =>
  }

  lemma HeardStep(s: State, e: Event, variants: nat)
    requires Kept(s) && s.openingHeard
    ensures Step(s, e, variants).openingHeard && Openings(Step(s, e, variants).spoken) == Openings(s.spoken)
  {
    hide ResumeFrame, Gate.DecideAction;
    if e.Resume? && e.frame in s.frames {
      HeardResume(s, e.frame, e.ok, variants);
    }
  }

  /** Once the browser has reported an opening as heard, no utterance is ever marked as the opening again. */
  lemma {:induction false} HeardIsFinal(h: History, m: nat, n: nat)
    requires IsRun(h) && m <= n <= |h.events| && h.states[m].openingHeard
    ensures h.states[n].openingHeard && Openings(h.states[n].spoken) == Openings(h.states[m].spoken)
  {
    hide Step, Kept;
    if m < n {
      HeardIsFinal(h, m, n - 1);
      InvHolds(h, n - 1);
      assert IsStep(h, n - 1);
      HeardStep(h.states[n - 1], h.events[n - 1], h.variants);
    }
  }

  // ----- What is told -----

  /** Briefs whose telling began among the first `n` events, whichever way. */
  ghost function Tellings(h: History, n: nat): nat
    requires n <= |h.events|
  {
    if n == 0 then 0
    else Tellings(h, n - 1) + One(h.events[n - 1] == Resume(Decided, true) && Decided in h.states[n - 1].frames)
  }

  lemma TellingStep(s: State, e: Event, variants: nat)
    ensures var t := Step(s, e, variants);
            t.briefDeliveryCount + t.redeliveries ==
            s.briefDeliveryCount + s.redeliveries + One(e == Resume(Decided, true) && Decided in s.frames)
  {
  }

  /** Each telling counts as a delivery or as a redelivery, never as both. */
  lemma {:induction false} RedeliveriesAreNotDeliveries(h: History, n: nat)
    requires IsRun(h) && n <= |h.events|
    ensures h.states[n].briefDeliveryCount + h.states[n].redeliveries == Tellings(h, n)
  {
    if n > 0 {
      RedeliveriesAreNotDeliveries(h, n - 1);
      assert IsStep(h, n - 1);
      TellingStep(h.states[n - 1], h.events[n - 1], h.variants);
    }
  }

  ghost predicate OpeningsAreVerbatim(spoken: seq<Utterance>) {
    forall k :: 0 <= k < |spoken| && spoken[k].opening ==> spoken[k].text == Some(OpeningScript)
  }

  lemma VerbatimResume(s: State, frame: Frame, ok: bool, variants: nat)
    requires RetellingsAreLate(s) && OpeningsAreVerbatim(s.spoken) && frame in s.frames
    ensures OpeningsAreVerbatim(ResumeFrame(s, frame, ok, variants).spoken)
  {
    assert frame.Retelling? ==> Retelling(frame.text) in s.frames;
  }

  lemma VerbatimStep(s: State, e: Event, variants: nat)
    requires RetellingsAreLate(s) && OpeningsAreVerbatim(s.spoken)
    ensures OpeningsAreVerbatim(Step(s, e, variants).spoken)
  {
    hide Gate.DecideAction, ResumeFrame, RetellingsAreLate;
    if e.Resume? && e.frame in s.frames { VerbatimResume(s, e.frame, e.ok, variants); }
  }

  /** Whatever is marked as the opening speaks the opening script, never a retelling. */
  lemma {:induction false} OpeningsSpeakTheScript(h: History, n: nat)
    requires IsRun(h) && n <= |h.events|
    ensures OpeningsAreVerbatim(h.states[n].spoken)
  {
    hide Step, Inv, RetellingsAreLate;
    if n > 0 {
      OpeningsSpeakTheScript(h, n - 1);
      InvHolds(h, n - 1);
      assert IsStep(h, n - 1);
      VerbatimStep(h.states[n - 1], h.events[n - 1], h.variants);
    }
  }

  // ----- The mark of the first telling -----

  /** At event `i` a brief begins to be told, one way or the other. */
  ghost predicate TellsAt(h: History, i: nat)
    requires i < |h.events|
  {
    h.events[i] == Resume(Decided, true) && Decided in h.states[i].frames
  }

  /** How many of the first `n` events began a telling that was no redelivery. */
  ghost function Deliveries(h: History, n: nat): nat
    requires n <= |h.events|
  {
    if n == 0 then 0 else Deliveries(h, n - 1) + One(TellsAt(h, n - 1) && !h.states[n - 1].redeliveryPending)
  }

  lemma DeliveryStep(s: State, e: Event, variants: nat)
    ensures Step(s, e, variants).briefDeliveryCount ==
      s.briefDeliveryCount + One(e == Resume(Decided, true) && Decided in s.frames && !s.redeliveryPending)
  {
  }

  lemma {:induction false} CountIsDeliveries(h: History, n: nat)
    requires IsRun(h) && n <= |h.events|
    ensures h.states[n].briefDeliveryCount == Deliveries(h, n)
  {
    hide Step;
    if n > 0 {
      CountIsDeliveries(h, n - 1);
      assert IsStep(h, n - 1);
      DeliveryStep(h.states[n - 1], h.events[n - 1], h.variants);
    }
  }

  /**
   When the log entry of the first telling is written, it is marked as the opening if and only
   if it is the only delivery begun by then. This holds however calls interleave; that the
   session's event queue lets nothing overtake it is shown in `TurnQueue`.
   */
  lemma FirstTellingIsMarkedUnlessOvertaken(h: History, n: nat)
    requires IsRun(h) && n < |h.events| && h.events[n] == Resume(TellingFirst, true) && TellingFirst in h.states[n].frames
    ensures h.states[n + 1].spoken == h.states[n].spoken + [Utterance(Some(OpeningScript), Deliveries(h, n) == 1)]
  {
    CountIsDeliveries(h, n);
    assert IsStep(h, n);
  }

  // ----- An unheard opening is owed, and told -----

  /** While the report of an unheard opening is being logged, nothing else decides about it. */
  lemma ReportWaits(s: State, e: Event, variants: nat)
    requires Kept(s) && Finishing(true, false) in s.frames
    requires !(e.Resume? && e.frame == Finishing(true, false))
    ensures var t := Step(s, e, variants); Finishing(true, false) in t.frames && t.redeliveries == s.redeliveries
  {
    hide Gate.DecideAction;
  }

  ghost predicate NobodyLogs(h: History, m: nat, n: nat, frame: Frame)
    requires m <= n <= |h.events|
  {
    forall i :: m <= i < n ==> !(h.events[i].Resume? && h.events[i].frame == frame)
  }

  lemma {:induction false} ReportStays(h: History, m: nat, n: nat)
    requires IsRun(h) && m <= n <= |h.events| && Finishing(true, false) in h.states[m].frames
    requires NobodyLogs(h, m, n, Finishing(true, false))
    ensures Finishing(true, false) in h.states[n].frames && h.states[n].redeliveries == h.states[m].redeliveries
    decreases n
  {
    hide Step;
    if m < n {
      ReportStays(h, m, n - 1);
      InvHolds(h, n - 1);
      assert IsStep(h, n - 1);
      ReportWaits(h.states[n - 1], h.events[n - 1], h.variants);
    }
  }

  /**
   Whatever comes between the report that an opening was not heard and the moment its log entry
   is written or fails: the opening is then owed if and only if the entry was written and the
   budget was not used up at the report.
   */
  lemma UnheardOpeningIsOwed(h: History, m: nat, n: nat, outcome: SpeechOutcome, ok: bool)
    requires IsRun(h) && m < n < |h.events|
    requires h.states[m].authorized.Some? && h.states[m].authorized.value.opening && !WasHeard(Some(outcome))
    requires h.events[m] == SpeechFinished(Some(outcome)) && h.events[n] == Resume(Finishing(true, false), ok)
    requires NobodyLogs(h, m + 1, n, Finishing(true, false))
    ensures h.states[n + 1].redeliveryPending <==> ok && h.states[m].redeliveries < MAX_OPENING_REDELIVERIES
    ensures h.states[n + 1].redeliveries == h.states[m].redeliveries
  {
    assert IsStep(h, m);
    ReportStays(h, m + 1, n);
    InvHolds(h, n);
    assert IsStep(h, n);
  }

  lemma OwedResume(s: State, frame: Frame, ok: bool, variants: nat)
    requires Kept(s) && s.redeliveryPending && frame in s.frames
    ensures var t := ResumeFrame(s, frame, ok, variants);
            if frame == Decided && ok then
              && t == s.(frames := s.frames - multiset{Decided} + multiset{Redelivering},
                         redeliveryPending := false, redeliveries := s.redeliveries + 1)
            else t.redeliveryPending && t.redeliveries == s.redeliveries && t.briefDeliveryCount == s.briefDeliveryCount
  {
  }

  /** Only a telling can settle what is owed: nothing can be reported heard that was not told again. */
  lemma OwedStep(s: State, e: Event, variants: nat)
    requires Kept(s) && s.redeliveryPending
    ensures var t := Step(s, e, variants);
            if e == Resume(Decided, true) && Decided in s.frames then
              && t == s.(frames := s.frames - multiset{Decided} + multiset{Redelivering},
                         redeliveryPending := false, redeliveries := s.redeliveries + 1)
            else t.redeliveryPending && t.redeliveries == s.redeliveries && t.briefDeliveryCount == s.briefDeliveryCount
  {
    hide Gate.DecideAction, ResumeFrame;
    if e.Resume? && e.frame in s.frames { OwedResume(s, e.frame, e.ok, variants); }
  }

  /** An opening that is owed stays owed until the next brief is told, and that telling is its redelivery. */
  lemma {:induction false} StaysOwed(h: History, m: nat, n: nat)
    requires IsRun(h) && m <= n <= |h.events| && h.states[m].redeliveryPending
    requires forall i :: m <= i < n ==> !TellsAt(h, i)
    ensures var s, t := h.states[m], h.states[n];
            t.redeliveryPending && t.redeliveries == s.redeliveries && t.briefDeliveryCount == s.briefDeliveryCount
    decreases n
  {
    hide Step;
    if m < n {
      StaysOwed(h, m, n - 1);
      assert !TellsAt(h, n - 1);
      InvHolds(h, n - 1);
      assert IsStep(h, n - 1);
      OwedStep(h.states[n - 1], h.events[n - 1], h.variants);
    }
  }

  /** While a redelivery is being logged, nothing else says the opening. */
  lemma RedeliveryWaits(s: State, e: Event, variants: nat)
    requires Kept(s) && Redelivering in s.frames && !(e.Resume? && e.frame == Redelivering)
    ensures Redelivering in Step(s, e, variants).frames
  {
    hide Gate.DecideAction;
  }

  lemma {:induction false} RedeliveryStays(h: History, m: nat, n: nat)
    requires IsRun(h) && m <= n <= |h.events| && Redelivering in h.states[m].frames && NobodyLogs(h, m, n, Redelivering)
    ensures Redelivering in h.states[n].frames
    decreases n
  {
    hide Step;
    if m < n {
      RedeliveryStays(h, m, n - 1);
      InvHolds(h, n - 1);
      assert IsStep(h, n - 1);
      RedeliveryWaits(h.states[n - 1], h.events[n - 1], h.variants);
    }
  }

  lemma RedeliveryEnds(s: State, ok: bool, variants: nat)
    requires Kept(s) && Redelivering in s.frames
    ensures var t := Step(s, Resume(Redelivering, ok), variants);
            && t.spoken == s.spoken + (if ok then [Utterance(Some(OpeningScript), true)] else [])
            && Tokens(t) == One(ok) && !t.redeliveryPending
  {
    var t := s.(frames := s.frames - multiset{Redelivering});
    assert t.frames[Redelivering] == s.frames[Redelivering] - 1;
    assert forall g :: g != Redelivering ==> t.frames[g] == s.frames[g];
  }

  /**
   Over every run an opening that is owed stays owed until the next brief is told, at `n`: that
   telling is its redelivery and no new delivery. Whatever then comes before its log entry, at
   `k`, it is spoken in its own words if and only if the entry is written; if that fails, the
   opening is neither spoken nor under way nor owed.
   */
  lemma OwedOpeningIsToldNext(h: History, m: nat, n: nat, k: nat, ok: bool)
    requires IsRun(h) && m <= n < k < |h.events| && h.states[m].redeliveryPending
    requires TellsAt(h, n) && forall i :: m <= i < n ==> !TellsAt(h, i)
    requires h.events[k] == Resume(Redelivering, ok) && NobodyLogs(h, n + 1, k, Redelivering)
    ensures var s, t := h.states[m], h.states[n + 1];
            && Redelivering in t.frames && !t.redeliveryPending
            && t.redeliveries == s.redeliveries + 1 && t.briefDeliveryCount == s.briefDeliveryCount
    ensures var s, t := h.states[k], h.states[k + 1];
            && t.spoken == s.spoken + (if ok then [Utterance(Some(OpeningScript), true)] else [])
            && Tokens(t) == One(ok) && !t.redeliveryPending
  {
    hide Step, Kept;
    StaysOwed(h, m, n);
    InvHolds(h, n);
    assert IsStep(h, n);
    OwedStep(h.states[n], h.events[n], h.variants);
    RedeliveryStays(h, n + 1, k);
    InvHolds(h, k);
    assert IsStep(h, k);
    RedeliveryEnds(h.states[k], ok, h.variants);
  }

  /** The next readiness with a clear floor decides to tell it. */
  lemma OwedOpeningIsOffered(h: History, m: nat, n: nat)
    requires IsRun(h) && m <= n < |h.events| && h.states[m].redeliveryPending
    requires forall i :: m <= i < n ==> !TellsAt(h, i)
    requires h.events[n].Ask? && h.events[n].moment.turn.None? && !h.events[n].moment.candidateSpeakingNow
    requires Gate.DeliverBrief in Gate.AllowedActions(h.events[n].moment.stage) && !h.states[n].interviewerSpeaking
    ensures h.states[n + 1] == h.states[n].(frames := h.states[n].frames + multiset{Decided})
  {
    StaysOwed(h, m, n);
    assert IsStep(h, n);
  }
}
