/**
 How an opening can be forgotten: told or begun, not heard, and never owed again
 (apps/api/src/modules/orchestrator/runtime.ts, `judge`, `realize`, `markSpeechFinished`).

 An opening under way is in one place: a telling or a redelivery being logged, the authorized
 utterance, a report being logged, or the flag that it is owed. Some steps empty that place
 without filling another.
 */
module ForgottenOpening {
  import opened Opening
  import opened Wrappers
  import Gate
  import HeldTurns
  import TurnQueue

  /** A brief counts as delivered, no opening was reported heard, and none is under way or owed. */
  ghost predicate IsForgotten(s: State) {
    s.briefDeliveryCount > 0 && Tokens(s) == 0 && !s.openingHeard
  }

  ghost predicate HoldsOpening(s: State) {
    s.authorized.Some? && s.authorized.value.opening
  }

  /** A log entry of the opening fails, its report finds no budget, or something else takes over its authorization. */
  ghost predicate Drops(s: State, e: Event) {
    match e
    case Resume(frame, ok) =>
      frame in s.frames &&
      (match frame
       case Decided => false
       case DecidedOther => ok && HoldsOpening(s)
       case TellingFirst => !ok || s.briefDeliveryCount != 1
       case Retelling(_) => ok && HoldsOpening(s)
       case Redelivering => !ok
       case Finishing(opening, heard) => opening && !heard && (!ok || s.redeliveries >= MAX_OPENING_REDELIVERIES))
    case NoWords => DecidedOther in s.frames && HoldsOpening(s)
    case _ => false
  }

  /** The report of an opening that was heard is logged only after the opening was noted as heard. */
  ghost predicate IsNoted(s: State) {
    Finishing(true, true) in s.frames ==> s.openingHeard
  }

  lemma NotedResume(s: State, frame: Frame, ok: bool, variants: nat)
    requires IsNoted(s) && frame in s.frames
    ensures IsNoted(ResumeFrame(s, frame, ok, variants))
  {
  }

  lemma NotedStep(s: State, e: Event, variants: nat)
    requires IsNoted(s)
    ensures IsNoted(Step(s, e, variants))
  {
    hide Gate.DecideAction, ResumeFrame, WasHeard;
    if e.Resume? && e.frame in s.frames { NotedResume(s, e.frame, e.ok, variants); }
  }

  ghost predicate IsUnderWay(frame: Frame) {
    frame.TellingFirst? || frame.Redelivering? || (frame.Finishing? && frame.opening)
  }

  lemma TokensWithout(s: State, frame: Frame)
    requires frame in s.frames
    ensures Tokens(s.(frames := s.frames - multiset{frame})) == Tokens(s) - One(IsUnderWay(frame))
  {
    FramesWithout(s.frames, frame, TellingFirst);
    FramesWithout(s.frames, frame, Redelivering);
    FramesWithout(s.frames, frame, Finishing(true, true));
    FramesWithout(s.frames, frame, Finishing(true, false));
  }

  lemma FramesWithout(frames: multiset<Frame>, frame: Frame, other: Frame)
    requires frame in frames
    ensures (frames - multiset{frame})[other] == frames[other] - One(frame == other)
  {
  }

  lemma TokensWith(s: State, frame: Frame)
    ensures Tokens(s.(frames := s.frames + multiset{frame})) == Tokens(s) + One(IsUnderWay(frame))
  {
    assert s.frames + multiset{frame} - multiset{frame} == s.frames;
    TokensWithout(s.(frames := s.frames + multiset{frame}), frame);
  }

  lemma TokensAuthorized(s: State, u: Utterance)
    ensures Tokens(Authorize(s, u)) == Tokens(s) - One(HoldsOpening(s)) + One(u.opening)
  {
  }

  lemma TokensSettled(s: State, opening: bool, heard: bool)
    ensures var t := Settle(s, opening, heard);
            Tokens(t) == Tokens(s) - One(s.redeliveryPending) + One(t.redeliveryPending)
  {
  }

  lemma TokensRealized(s: State, variants: nat)
    ensures var (t, next) := Realize(s, variants);
            Tokens(t.(frames := t.frames + multiset{next})) == Tokens(s) + One(s.briefDeliveryCount == 0 && !s.redeliveryPending)
  {
    var (t, next) := Realize(s, variants);
    TokensWith(t, next);
  }

  /** What the invariant says of the one place. */
  lemma OnePlace(s: State, frame: Frame)
    requires Kept(s) && IsNoted(s) && frame in s.frames
    ensures Tokens(s) <= 1 && (s.briefDeliveryCount == 0 ==> Tokens(s) == 0 && !s.redeliveryPending)
    ensures IsUnderWay(frame) ==> Tokens(s) == 1 && !HoldsOpening(s) && !s.redeliveryPending && s.briefDeliveryCount > 0
    ensures HoldsOpening(s) || s.redeliveryPending ==> Tokens(s) == 1
    ensures HoldsOpening(s) ==> s.briefDeliveryCount > 0 && !s.openingHeard
    ensures frame.Retelling? ==> s.briefDeliveryCount >= 2
    ensures IsUnderWay(frame) ==> (s.openingHeard <==> frame == Finishing(true, true))
  {
    assert frame.Retelling? ==> Retelling(frame.text) in s.frames;
  }

  lemma ForgottenResume(s: State, frame: Frame, ok: bool, variants: nat)
    requires Kept(s) && IsNoted(s) && frame in s.frames
    ensures IsForgotten(ResumeFrame(s, frame, ok, variants)) <==> IsForgotten(s) || Drops(s, Resume(frame, ok))
  {
    hide Tokens, Inv, Kept, IsNoted;
    var t := s.(frames := s.frames - multiset{frame});
    OnePlace(s, frame);
    TokensWithout(s, frame);
    if ok {
      match frame {
        case Decided => TokensRealized(t, variants);
        case DecidedOther => TokensAuthorized(t, Utterance(None, false));
        case TellingFirst => TokensAuthorized(t, Utterance(Some(OpeningScript), t.briefDeliveryCount == 1));
        case Retelling(text) => TokensAuthorized(t, Utterance(Some(text), t.briefDeliveryCount == 1));
        case Redelivering => TokensAuthorized(t, Utterance(Some(OpeningScript), true));
        case Finishing(opening, heard) => TokensSettled(t, opening, heard);
      }
    }
  }

  lemma ForgottenReport(s: State, outcome: Option<SpeechOutcome>)
    requires Kept(s) && IsNoted(s)
    ensures IsForgotten(MarkSpeechFinished(s, outcome)) <==> IsForgotten(s)
  {
    if s.authorized.Some? && outcome.Some? {
      var u := s.(authorized := None, interviewerSpeaking := false,
                  openingHeard := s.openingHeard || (HoldsOpening(s) && WasHeard(outcome)));
      TokensWith(u, Finishing(HoldsOpening(s), WasHeard(outcome)));
    }
  }

  /** A step forgets the opening exactly if it drops it, and never remembers it. */
  lemma ForgottenStep(s: State, e: Event, variants: nat)
    requires Kept(s) && IsNoted(s)
    ensures IsForgotten(Step(s, e, variants)) <==> IsForgotten(s) || Drops(s, e)
  {
    hide Gate.DecideAction, ResumeFrame, MarkSpeechFinished;
    match e
    case Resume(frame, ok) => if frame in s.frames { ForgottenResume(s, frame, ok, variants); }
    case SpeechFinished(outcome) => ForgottenReport(s, outcome);
    case Ready(_) => ForgottenReport(s, LOST);
    case _ =>
  }

  // ----- Over every interleaving -----

  ghost predicate DropsAt(h: History, i: nat)
    requires i < |h.events|
  {
    Drops(h.states[i], h.events[i])
  }

  lemma {:induction false} NotedHolds(h: History, n: nat)
    requires IsRun(h) && n <= |h.events|
    ensures IsNoted(h.states[n])
  {
    hide Step;
    if n > 0 {
      NotedHolds(h, n - 1);
      assert IsStep(h, n - 1);
      NotedStep(h.states[n - 1], h.events[n - 1], h.variants);
    }
  }

  /**
   Over every run the opening is forgotten if and only if one of the events before dropped it:
   the log entry of its telling, redelivery or report failed, its report found the budget used
   up, or, while it was authorized, something else was said or found to have no words.
   */
  lemma {:induction false} ForgottenExactlyIfDropped(h: History, n: nat)
    requires IsRun(h) && n <= |h.events|
    ensures IsForgotten(h.states[n]) <==> exists i: nat :: i < n && DropsAt(h, i)
  {
    hide Step, Kept, IsNoted, IsForgotten, Drops;
    if n == 0 {
      FreshRemembers();
    } else {
      var m := n - 1;
      ForgottenExactlyIfDropped(h, m);
      InvHolds(h, m);
      NotedHolds(h, m);
      assert IsStep(h, m);
      ForgottenStep(h.states[m], h.events[m], h.variants);
      if Drops(h.states[m], h.events[m]) { assert DropsAt(h, m); }
    }
  }

  lemma FreshRemembers()
    ensures !IsForgotten(Fresh()) && IsNoted(Fresh())
  {
  }

  // ----- Under the session's queue -----

  ghost predicate QueueDropsAt(h: TurnQueue.History, i: nat)
    requires i < |h.events|
  {
    var f := TurnQueue.AsOpening(h.states[i], h.events[i]);
    f.Some? && Drops(h.states[i].opening, f.value)
  }

  lemma {:induction false} QueueNotedHolds(h: TurnQueue.History, n: nat)
    requires TurnQueue.IsRun(h) && n <= |h.events|
    ensures IsNoted(h.states[n].opening)
  {
    hide Step, TurnQueue.Step, TurnQueue.AsOpening;
    if n > 0 {
      QueueNotedHolds(h, n - 1);
      assert TurnQueue.IsStep(h, n - 1);
      var s, e := h.states[n - 1], h.events[n - 1];
      TurnQueue.StepIsOpeningStep(s, e, h.variants);
      if TurnQueue.AsOpening(s, e).Some? { NotedStep(s.opening, TurnQueue.AsOpening(s, e).value, h.variants); }
    }
  }

  /** The same for every run under the session's queue. */
  lemma {:induction false} ForgottenUnderTheQueue(h: TurnQueue.History, n: nat)
    requires TurnQueue.IsRun(h) && n <= |h.events|
    ensures IsForgotten(h.states[n].opening) <==> exists i: nat :: i < n && QueueDropsAt(h, i)
  {
    hide Step, Kept, IsNoted, IsForgotten, Drops, TurnQueue.Step, TurnQueue.AsOpening;
    if n == 0 {
      FreshRemembers();
    } else {
      var m := n - 1;
      ForgottenUnderTheQueue(h, m);
      TurnQueue.OpeningHolds(h, m);
      QueueNotedHolds(h, m);
      assert TurnQueue.IsStep(h, m);
      var s, f := h.states[m], TurnQueue.AsOpening(h.states[m], h.events[m]);
      TurnQueue.StepIsOpeningStep(s, h.events[m], h.variants);
      if f.Some? {
        ForgottenStep(s.opening, f.value, h.variants);
        if Drops(s.opening, f.value) { assert QueueDropsAt(h, m); }
      }
    }
  }

  // ----- Ways to forget it -----

  /** Nothing of the opening is left although no telling failed, and its budget is not used up. */
  ghost predicate ForgetsInVain(h: TurnQueue.History) {
    var s := TurnQueue.Last(h);
    && TurnQueue.IsRun(h) && IsForgotten(s.opening) && !s.opening.redeliveryPending
    && s.opening.redeliveries < MAX_OPENING_REDELIVERIES && Openings(s.opening.spoken) > 0
  }

  const ASKED: TurnQueue.Input := TurnQueue.Input(false, 0.75, Gate.AnswerClarification)
  const UNHEARD: SpeechOutcome := SpeechOutcome(Cancelled, Some(false))

  lemma OneOpening()
    ensures Openings([TurnQueue.OPENING]) == 1
  {
    OpeningsGrow([], TurnQueue.OPENING);
    assert [] + [TurnQueue.OPENING] == [TurnQueue.OPENING];
  }

  /** The opening was spoken and reported as not heard. */
  lemma Unheard() returns (h: TurnQueue.History)
    ensures TurnQueue.IsRun(h) && h.variants == 0
    ensures TurnQueue.Last(h) == TurnQueue.Fresh().(opening := Fresh().(
              briefDeliveryCount := 1, frames := multiset{Finishing(true, false)}, spoken := [TurnQueue.OPENING]))
  {
    h := TurnQueue.OpeningIsSpoken(ASKED, 0);
    h := TurnQueue.Then(h, TurnQueue.SpeechFinished(Some(UNHEARD)));
    assert multiset{} + multiset{Finishing(true, false)} == multiset{Finishing(true, false)};
  }

  /** The log entry of that report fails. */
  lemma ReportIsLost() returns (h: TurnQueue.History)
    ensures ForgetsInVain(h) && TurnQueue.Last(h).opening.frames == multiset{}
  {
    h := Unheard();
    h := TurnQueue.Then(h, TurnQueue.OutcomeLogged(true, false, false));
    OneOpening();
  }

  /** The report is logged and the opening owed, but the log entry of its redelivery fails. */
  lemma RedeliveryIsLost() returns (h: TurnQueue.History)
    ensures ForgetsInVain(h) && TurnQueue.Last(h).opening.frames == multiset{}
  {
    h := Unheard();
    h := TurnQueue.Then(h, TurnQueue.OutcomeLogged(true, false, true));
    assert TurnQueue.Last(h).opening.frames == multiset{};
    h := TurnQueue.Then(h, TurnQueue.Started(ASKED));
    assert TurnQueue.Last(h).opening.frames == multiset{Decided};
    h := TurnQueue.Then(h, TurnQueue.QueueGoesOn(TurnQueue.Logged, false));
    assert TurnQueue.Last(h).opening.frames == multiset{Redelivering};
    h := TurnQueue.Then(h, TurnQueue.QueueGoesOn(TurnQueue.LogFailed, false));
    OneOpening();
  }

  /** The candidate cuts in, asks something, and is answered before the opening's outcome is reported. */
  lemma AnswerTakesOver() returns (h: TurnQueue.History)
    ensures ForgetsInVain(h)
  {
    h := TurnQueue.OpeningIsSpoken(ASKED, 0);
    h := TurnQueue.Then(h, TurnQueue.StageMoves(Gate.Clarification));
    h := TurnQueue.Then(h, TurnQueue.BargeIn);
    h := TurnQueue.Then(h, TurnQueue.SpeechStopped);
    h := TurnQueue.Then(h, TurnQueue.FinalArrives);
    h := TurnQueue.Then(h, TurnQueue.Classified(Gate.JudgedTurn(true, 0.9, false), ASKED));
    assert TurnQueue.Last(h).opening.frames == multiset{DecidedOther};
    h := TurnQueue.Then(h, TurnQueue.QueueGoesOn(TurnQueue.Logged, false));
    OneOpening();
    OpeningsGrow([TurnQueue.OPENING], Utterance(None, false));
  }
}
