/**
 How often a turn is judged, and which turn waits to be judged again, over every run of
 `TurnQueue`
 (apps/api/src/modules/orchestrator/runtime.ts, `evaluateTurn`, `judge`, `holdForSilence`,
 `onSilenceElapsed`).
 */
module Rejudgement {
  import HeldTurns
  import opened TurnQueue
  import opened Wrappers
  import Gate
  import Opening
  import TurnCompletion

  ghost function One(b: bool): nat {
    if b then 1 else 0
  }

  // ----- Where turns are -----

  /** The part of the state that says where each turn is. */
  datatype Places = Places(turns: HeldTurns.Turns, finals: nat, queue: Option<Waiting>, silences: multiset<HeldTurns.Verdict>)

  ghost function PlacesOf(s: State): Places {
    Places(s.turns, s.finals, s.queue, s.silences)
  }

  /** What an event does to the places. */
  datatype Move =
    | Rest
    | Arrive
    | JudgeFirst(answer: Option<Opening.Frame>)
    | GoOn(next: Option<Opening.Frame>)
    | HoldFirst(holds: bool)
    | Resume
    | Yield
    | Clear
    | JudgeHeld(silent: bool)
    | HoldAgain(verdict: HeldTurns.Verdict, holds: bool)
    | LogFails(verdict: HeldTurns.Verdict)

  ghost predicate CanMove(p: Places, m: Move) {
    match m
    case JudgeFirst(_) => IsClassifying(p.queue)
    case GoOn(next) => next.None? || !IsClassifying(p.queue)
    case HoldFirst(_) => p.queue.Some? && p.queue.value.LoggingSilence?
    case JudgeHeld(_) => p.turns.held.Some?
    case HoldAgain(verdict, _) => verdict in p.silences
    case LogFails(verdict) => verdict in p.silences
    case _ => true
  }

  ghost function Moved(p: Places, m: Move): Places
    requires CanMove(p, m)
  {
    match m
    case Rest => p
    case Arrive => p.(turns := HeldTurns.Cleared(p.turns), finals := p.finals + 1, queue := Some(Classifying(p.finals)))
    case JudgeFirst(answer) =>
      p.(queue := Some(if answer.Some? then Speaking(answer.value) else LoggingSilence(p.queue.value.turn)))
    case GoOn(next) => p.(queue := if next.Some? then Some(Speaking(next.value)) else None)
    case HoldFirst(holds) =>
      p.(turns := HeldTurns.Silenced(p.turns, HeldTurns.Verdict(p.queue.value.turn, 0), holds), queue := None)
    case Resume => p.(turns := HeldTurns.Resumed(p.turns))
    case Yield => p.(turns := HeldTurns.Yielded(p.turns))
    case Clear => p.(turns := HeldTurns.Cleared(p.turns))
    case JudgeHeld(silent) =>
      p.(turns := HeldTurns.Cleared(p.turns),
         silences := if silent then p.silences + multiset{p.turns.held.value} else p.silences)
    case HoldAgain(verdict, holds) =>
      p.(turns := HeldTurns.Silenced(p.turns, verdict, holds), silences := p.silences - multiset{verdict})
    case LogFails(verdict) => p.(turns := HeldTurns.Cleared(p.turns), silences := p.silences - multiset{verdict})
  }

  ghost function QueueMove(s: State, outcome: Outcome, holds: bool, variants: nat): Move
    requires s.queue.Some?
  {
    match s.queue.value
    case Classifying(_) => GoOn(None)
    case LoggingSilence(_) => if outcome.Logged? then HoldFirst(holds) else GoOn(None)
    case Speaking(frame) => GoOn(if outcome.Logged? then NextFrame(s.opening, frame, variants) else None)
  }

  ghost function ElapsedMove(s: State, ok: bool, turn: Gate.JudgedTurn, input: Input): Move {
    if !ok then Clear
    else if s.turns.held.None? then Rest
    else JudgeHeld(Answer(s, Some(turn), input).None?)
  }

  ghost function MoveOf(s: State, e: Event, variants: nat): Move {
    match e
    case Started(input) => GoOn(Answer(s, None, input))
    case FinalArrives => Arrive
    case Classified(turn, input) =>
      if IsClassifying(s.queue) then JudgeFirst(Answer(s, Some(turn), input)) else Rest
    case SpeechStarted => Resume
    case SpeechStopped => Yield
    case BargeIn => Resume
    case QueueGoesOn(outcome, holds) => if s.queue.Some? then QueueMove(s, outcome, holds, variants) else Rest
    case ElapsedLogged(ok, turn, input) =>
      if s.elapsed > 0 then ElapsedMove(s.(elapsed := s.elapsed - 1), ok, turn, input) else Rest
    case TimerGoesOn(_, outcome) => if outcome.LogFailed? then Clear else Rest
    case TimerSilenceLogged(verdict, ok, holds) => if ok then HoldAgain(verdict, holds) else LogFails(verdict)
    case _ => Rest
  }

  lemma ElapsedMoves(s: State, ok: bool, turn: Gate.JudgedTurn, input: Input)
    ensures var p, m := PlacesOf(s), ElapsedMove(s, ok, turn, input);
            CanMove(p, m) && PlacesOf(if ok then Reevaluated(s, turn, input) else Cleared(s)) == Moved(p, m)
  {
    hide Opening.AskGate, Answer, HeldTurns.Cleared;
  }

  lemma QueueMoves(s: State, outcome: Outcome, holds: bool, variants: nat)
    requires s.queue.Some?
    ensures var p, m := PlacesOf(s), QueueMove(s, outcome, holds, variants);
            CanMove(p, m) && PlacesOf(QueueStep(s, outcome, holds, variants)) == Moved(p, m)
  {
    hide SpeakingGoesOn, NextFrame, HeldTurns.Silenced;
  }

  lemma TimerMoves(s: State, e: Event, variants: nat)
    requires Possible(s, e) && (e.TimerGoesOn? || e.TimerSilenceLogged?)
    ensures var p, m := PlacesOf(s), MoveOf(s, e, variants);
            CanMove(p, m) && PlacesOf(Step(s, e, variants)) == Moved(p, m)
  {
    hide SpeakingGoesOn, HeldTurns.Silenced, HeldTurns.Cleared;
  }

  lemma AskMoves(s: State, e: Event, variants: nat)
    requires Possible(s, e) && (e.Started? || e.Classified? || e.FinalArrives?)
    ensures var p, m := PlacesOf(s), MoveOf(s, e, variants);
            CanMove(p, m) && PlacesOf(Step(s, e, variants)) == Moved(p, m)
  {
    hide Opening.AskGate, Answer, HeldTurns.Cleared;
  }

  lemma PlainMoves(s: State, e: Event, variants: nat)
    requires Possible(s, e) && !e.ElapsedLogged? && !e.QueueGoesOn?
    ensures var p, m := PlacesOf(s), MoveOf(s, e, variants);
            CanMove(p, m) && PlacesOf(Step(s, e, variants)) == Moved(p, m)
  {
    if e.TimerGoesOn? || e.TimerSilenceLogged? {
      hide Possible, Step, MoveOf, CanMove, Moved, PlacesOf;
      TimerMoves(s, e, variants);
    } else if e.Started? || e.Classified? || e.FinalArrives? {
      hide Possible, Step, MoveOf, CanMove, Moved, PlacesOf;
      AskMoves(s, e, variants);
    } else {
      hide Opening.Step, HeldTurns.Resumed, HeldTurns.Yielded, Possible;
    }
  }

  lemma StepMoves(s: State, e: Event, variants: nat)
    requires Possible(s, e)
    ensures var p, m := PlacesOf(s), MoveOf(s, e, variants);
            CanMove(p, m) && PlacesOf(Step(s, e, variants)) == Moved(p, m)
  {
    hide Moved, CanMove, ElapsedMove, Reevaluated, Cleared, QueueMove, QueueStep, PlacesOf;
    match e {
      case ElapsedLogged(ok, turn, input) =>
        if s.elapsed > 0 { ElapsedMoves(s.(elapsed := s.elapsed - 1), ok, turn, input); } else { RestIsNothing(s); }
        ElapsedIsNoPlace(s);
      case QueueGoesOn(outcome, holds) =>
        if s.queue.Some? { QueueMoves(s, outcome, holds, variants); } else { RestIsNothing(s); }
      case _ =>
        hide Step, MoveOf;
        PlainMoves(s, e, variants);
    }
  }

  lemma ElapsedIsNoPlace(s: State)
    ensures s.elapsed > 0 ==> PlacesOf(s.(elapsed := s.elapsed - 1)) == PlacesOf(s)
  {
  }

  lemma RestIsNothing(s: State)
    ensures CanMove(PlacesOf(s), Rest) && Moved(PlacesOf(s), Rest) == PlacesOf(s)
  {
  }

  // ----- Each verdict is given once -----

  /** The verdict that an event gives, if it judges a turn. */
  ghost function JudgedBy(s: State, e: Event): Option<HeldTurns.Verdict> {
    if e.Classified? && IsClassifying(s.queue) then Some(HeldTurns.Verdict(s.queue.value.turn, 0))
    else if e.ElapsedLogged? && e.ok && s.elapsed > 0 then s.turns.held
    else None
  }

  ghost function Given(p: Places, m: Move): Option<HeldTurns.Verdict>
    requires CanMove(p, m)
  {
    match m
    case JudgeFirst(_) => Some(HeldTurns.Verdict(p.queue.value.turn, 0))
    case JudgeHeld(_) => p.turns.held
    case _ => None
  }

  lemma MovesJudge(s: State, e: Event, variants: nat)
    requires CanMove(PlacesOf(s), MoveOf(s, e, variants))
    ensures Given(PlacesOf(s), MoveOf(s, e, variants)) == JudgedBy(s, e)
  {
    hide Answer, NextFrame;
  }

  ghost predicate AttemptsAreBounded(p: Places) {
    && (p.turns.held.Some? ==> 1 <= p.turns.held.value.attempt <= 2)
    && forall v :: v in p.silences ==> 1 <= v.attempt <= 2
  }

  /** In how many places a turn is. */
  ghost function Count(p: Places, turn: nat): nat {
    One(p.queue == Some(Classifying(turn)) || p.queue == Some(LoggingSilence(turn)))
    + One(p.turns.speakingNowHeld == Some(turn)) + One(p.turns.held.Some? && p.turns.held.value.turn == turn)
    + p.silences[HeldTurns.Verdict(turn, 1)] + p.silences[HeldTurns.Verdict(turn, 2)]
  }

  /** In at most one, and in none before it arrives. */
  ghost predicate IsInOnePlace(p: Places, turn: nat) {
    AttemptsAreBounded(p) && Count(p, turn) <= One(turn < p.finals)
  }

  /** A held turn goes on to its silent verdict, and from there to its next wait. */
  lemma PlaceOfSilenced(p: Places, m: Move, turn: nat)
    requires IsInOnePlace(p, turn) && CanMove(p, m) && (m.HoldAgain? || m.LogFails?)
    ensures IsInOnePlace(Moved(p, m), turn)
  {
    if m.verdict.turn == turn {
      assert m.verdict == HeldTurns.Verdict(turn, 1) || m.verdict == HeldTurns.Verdict(turn, 2);
    }
  }

  lemma PlaceMove(p: Places, m: Move, turn: nat)
    requires IsInOnePlace(p, turn) && CanMove(p, m)
    ensures IsInOnePlace(Moved(p, m), turn)
  {
    if m.HoldAgain? || m.LogFails? {
      hide IsInOnePlace, CanMove, Moved;
      PlaceOfSilenced(p, m, turn);
    }
  }

  lemma {:induction false} PlacesHold(h: History, n: nat, turn: nat)
    requires IsRun(h) && n <= |h.events|
    ensures IsInOnePlace(PlacesOf(h.states[n]), turn)
  {
    hide Step, Possible, CanMove, Moved, IsInOnePlace;
    if n == 0 {
      NowhereYet(turn);
    } else {
      PlacesHold(h, n - 1, turn);
      assert IsStep(h, n - 1);
      StepMoves(h.states[n - 1], h.events[n - 1], h.variants);
      PlaceMove(PlacesOf(h.states[n - 1]), MoveOf(h.states[n - 1], h.events[n - 1], h.variants), turn);
    }
  }

  lemma NowhereYet(turn: nat)
    ensures IsInOnePlace(PlacesOf(Fresh()), turn)
  {
  }

  /** Nothing is left that could give verdict `v`, or an earlier one on its turn. */
  ghost predicate IsSpent(p: Places, v: HeldTurns.Verdict) {
    && v.turn < p.finals && p.queue != Some(Classifying(v.turn))
    && (v.attempt > 0 ==> p.queue != Some(LoggingSilence(v.turn)) && p.turns.speakingNowHeld != Some(v.turn))
    && (p.turns.held.Some? && p.turns.held.value.turn == v.turn ==> p.turns.held.value.attempt > v.attempt)
    && forall w :: w in p.silences && w.turn == v.turn ==> w.attempt >= v.attempt
  }

  lemma GivenIsSpent(p: Places, m: Move, v: HeldTurns.Verdict)
    requires IsInOnePlace(p, v.turn) && CanMove(p, m) && Given(p, m) == Some(v)
    ensures IsSpent(Moved(p, m), v)
  {
    forall w | w in p.silences && w.turn == v.turn ensures w.attempt >= v.attempt {
      assert w == HeldTurns.Verdict(v.turn, 1) || w == HeldTurns.Verdict(v.turn, 2);
    }
  }

  lemma SpentMove(p: Places, m: Move, v: HeldTurns.Verdict)
    requires AttemptsAreBounded(p) && CanMove(p, m) && IsSpent(p, v)
    ensures IsSpent(Moved(p, m), v)
  {
  }

  lemma {:induction false} StaysSpent(h: History, m: nat, n: nat, v: HeldTurns.Verdict)
    requires IsRun(h) && m <= n <= |h.events| && IsSpent(PlacesOf(h.states[m]), v)
    ensures IsSpent(PlacesOf(h.states[n]), v)
    decreases n
  {
    hide Step, Possible, CanMove, Moved, IsSpent, AttemptsAreBounded;
    if m < n {
      StaysSpent(h, m, n - 1, v);
      PlacesHold(h, n - 1, v.turn);
      assert IsStep(h, n - 1);
      StepMoves(h.states[n - 1], h.events[n - 1], h.variants);
      SpentMove(PlacesOf(h.states[n - 1]), MoveOf(h.states[n - 1], h.events[n - 1], h.variants), v);
    }
  }

  /** The verdict given at event `i`, if any. */
  ghost function VerdictAt(h: History, i: nat): Option<HeldTurns.Verdict>
    requires i < |h.events|
  {
    JudgedBy(h.states[i], h.events[i])
  }

  lemma VerdictsAreBounded(h: History, i: nat)
    requires IsRun(h) && i < |h.events| && VerdictAt(h, i).Some?
    ensures VerdictAt(h, i).value.attempt <= 2
  {
    PlacesHold(h, i, 0);
  }

  /**
   Over every run, whatever timers, speech boundaries and log failures do: a turn is judged at
   attempts 0, 1 and 2 at most, each attempt once and in this order. So no two decisions are
   logged under one key.
   */
  lemma EachVerdictIsGivenOnce(h: History, i: nat, j: nat)
    requires IsRun(h) && i < j < |h.events| && VerdictAt(h, i).Some? && VerdictAt(h, j).Some?
    ensures var v, w := VerdictAt(h, i).value, VerdictAt(h, j).value;
            (v.turn == w.turn ==> v.attempt < w.attempt) && v.attempt <= 2 && w.attempt <= 2
  {
    VerdictsAreBounded(h, i);
    VerdictsAreBounded(h, j);
    VerdictSpends(h, i, VerdictAt(h, i).value);
    StaysSpent(h, i + 1, j, VerdictAt(h, i).value);
  }

  lemma VerdictSpends(h: History, i: nat, v: HeldTurns.Verdict)
    requires IsRun(h) && i < |h.events| && VerdictAt(h, i) == Some(v)
    ensures IsSpent(PlacesOf(h.states[i + 1]), v)
  {
    hide Step, Possible, CanMove, Moved, IsSpent, IsInOnePlace, JudgedBy;
    PlacesHold(h, i, v.turn);
    assert IsStep(h, i);
    StepMoves(h.states[i], h.events[i], h.variants);
    MovesJudge(h.states[i], h.events[i], h.variants);
    GivenIsSpent(PlacesOf(h.states[i]), MoveOf(h.states[i], h.events[i], h.variants), v);
  }

  // ----- A new turn supersedes the turn that waits -----

  /** What is being judged or waits for the end of speech is the latest turn. */
  ghost predicate IsLatest(p: Places) {
    && (p.queue.Some? && p.queue.value.Classifying? ==> p.queue.value.turn + 1 == p.finals)
    && (p.queue.Some? && p.queue.value.LoggingSilence? ==> p.queue.value.turn + 1 == p.finals)
    && (p.turns.speakingNowHeld.Some? ==> p.turns.speakingNowHeld.value + 1 == p.finals)
  }

  /** A turn waits although a later one has arrived. */
  ghost predicate IsSuperseded(p: Places) {
    p.turns.held.Some? && p.turns.held.value.turn + 1 < p.finals
  }

  /** A silent verdict on an older turn, logged only now, is held again. */
  ghost predicate ComesBack(s: State, e: Event) {
    e.TimerSilenceLogged? && e.ok && e.holds && e.verdict.attempt == 1 && e.verdict.turn + 1 < s.finals
  }

  lemma LatestMove(p: Places, m: Move)
    requires AttemptsAreBounded(p) && IsLatest(p) && CanMove(p, m)
    ensures IsLatest(Moved(p, m))
  {
  }

  lemma {:induction false} LatestHolds(h: History, n: nat)
    requires IsRun(h) && n <= |h.events|
    ensures IsLatest(PlacesOf(h.states[n])) && AttemptsAreBounded(PlacesOf(h.states[n]))
  {
    hide Step, Possible, CanMove, Moved, AttemptsAreBounded;
    PlacesHold(h, n, 0);
    if n > 0 {
      LatestHolds(h, n - 1);
      assert IsStep(h, n - 1);
      StepMoves(h.states[n - 1], h.events[n - 1], h.variants);
      LatestMove(PlacesOf(h.states[n - 1]), MoveOf(h.states[n - 1], h.events[n - 1], h.variants));
    }
  }

  ghost predicate IsReturn(p: Places, m: Move) {
    m.HoldAgain? && m.holds && m.verdict.attempt == 1 && m.verdict.turn + 1 < p.finals
  }

  lemma SupersedingMove(p: Places, m: Move)
    requires AttemptsAreBounded(p) && IsLatest(p) && CanMove(p, m)
    ensures var q := Moved(p, m);
            && q.finals >= p.finals
            && (IsReturn(p, m) ==> q.turns.held == Some(HeldTurns.Verdict(m.verdict.turn, 2)) && IsSuperseded(q))
            && (IsSuperseded(q) && !IsReturn(p, m) ==> q.turns.held == p.turns.held && q.finals == p.finals)
  {
  }

  lemma SupersedingStep(h: History, i: nat)
    requires IsRun(h) && i < |h.events|
    ensures var s, e, t := h.states[i], h.events[i], h.states[i + 1];
            && t.finals >= s.finals
            && (ComesBack(s, e) ==> t.turns.held == Some(HeldTurns.Verdict(e.verdict.turn, 2)) && IsSuperseded(PlacesOf(t)))
            && (IsSuperseded(PlacesOf(t)) && !ComesBack(s, e) ==> t.turns.held == s.turns.held && t.finals == s.finals)
  {
    hide Step, Possible, CanMove, Moved, AttemptsAreBounded, IsLatest;
    LatestHolds(h, i);
    assert IsStep(h, i);
    StepMoves(h.states[i], h.events[i], h.variants);
    SupersedingMove(PlacesOf(h.states[i]), MoveOf(h.states[i], h.events[i], h.variants));
  }

  /** At event `i` an older turn starts to wait. */
  ghost predicate StartsToWaitAt(h: History, i: nat)
    requires i < |h.events|
  {
    IsSuperseded(PlacesOf(h.states[i + 1])) && h.states[i + 1].turns.held != h.states[i].turns.held
  }

  /** A turn whose silent verdict is being logged is not held at the same time. */
  lemma ReturningIsNotHeld(p: Places, verdict: HeldTurns.Verdict)
    requires IsInOnePlace(p, verdict.turn) && verdict in p.silences
    ensures p.turns.held != Some(HeldTurns.Verdict(verdict.turn, 2))
  {
    assert verdict == HeldTurns.Verdict(verdict.turn, 1) || verdict == HeldTurns.Verdict(verdict.turn, 2);
  }

  /**
   A new turn supersedes whatever waits, with one exception: over every run, a turn older than
   the latest starts to wait at exactly the events at which the timer's silent verdict on it is
   logged, worth another wait, after the later turn has arrived.
   */
  lemma OlderTurnWaitsExactlyIfItComesBack(h: History, i: nat)
    requires IsRun(h) && i < |h.events|
    ensures StartsToWaitAt(h, i) <==> ComesBack(h.states[i], h.events[i])
  {
    hide Step, IsInOnePlace;
    SupersedingStep(h, i);
    assert IsStep(h, i);
    if ComesBack(h.states[i], h.events[i]) {
      PlacesHold(h, i, h.events[i].verdict.turn);
      ReturningIsNotHeld(PlacesOf(h.states[i]), h.events[i].verdict);
    }
  }

  /** At event `i` an older turn came back, and it has been waiting ever since. */
  ghost predicate CameBackAt(h: History, i: nat, n: nat)
    requires i < n <= |h.events|
  {
    && ComesBack(h.states[i], h.events[i])
    && forall k :: i < k <= n ==> h.states[k].turns.held == Some(HeldTurns.Verdict(h.events[i].verdict.turn, 2))
  }

  lemma {:induction false} FinalsGrow(h: History, m: nat, n: nat)
    requires IsRun(h) && m <= n <= |h.events|
    ensures h.states[m].finals <= h.states[n].finals
    decreases n
  {
    hide IsRun;
    if m < n {
      FinalsGrow(h, m, n - 1);
      SupersedingStep(h, n - 1);
    }
  }

  /** So wherever an older turn waits, it came back at some event, and nothing has touched it since. */
  lemma {:induction false} SupersededExactlyIfItCameBack(h: History, n: nat)
    requires IsRun(h) && n <= |h.events|
    ensures IsSuperseded(PlacesOf(h.states[n])) <==> exists i: nat :: i < n && CameBackAt(h, i, n)
  {
    if n > 0 {
      var m := n - 1;
      SupersededExactlyIfItCameBack(h, m);
      hide IsRun;
      SupersedingStep(h, m);
      if IsSuperseded(PlacesOf(h.states[n])) {
        if ComesBack(h.states[m], h.events[m]) {
          assert CameBackAt(h, m, n);
        } else {
          var i: nat :| i < m && CameBackAt(h, i, m);
          assert CameBackAt(h, i, n);
        }
      }
      forall i: nat | i < n && CameBackAt(h, i, n) ensures IsSuperseded(PlacesOf(h.states[n])) {
        FinalsGrow(h, i, n);
      }
    }
  }

  // ----- A turn that only the clock silenced -----

  /**
   At event `i` the first verdict on a turn is logged as silent while the candidate is quiet,
   and by the estimate only the clock stood in the way.
   */
  ghost predicate IsHeldByClock(h: History, i: nat, turn: nat, words: TurnCompletion.Turn, silenceMs: real, policy: TurnCompletion.Policy)
    requires i < |h.events|
  {
    var s, e := h.states[i], h.events[i];
    && s.queue == Some(LoggingSilence(turn)) && !s.turns.candidateSpeakingNow
    && e.QueueGoesOn? && e.outcome.Logged? && e.holds
    && TurnCompletion.HoldForSilence(words, Some(silenceMs), policy).Some?
    && TurnCompletion.IsMode(policy) && words.silenceMs == Some(TurnCompletion.Finite(silenceMs)) && silenceMs >= 0.0
  }

  ghost predicate StaysHeld(h: History, i: nat, j: nat, verdict: HeldTurns.Verdict)
    requires j <= |h.events|
  {
    forall k :: i < k <= j ==> h.states[k].turns.held == Some(verdict)
  }

  lemma QuietStep(s: State, e: Event, variants: nat)
    requires !s.turns.candidateSpeakingNow && Step(s, e, variants).turns.held.Some?
    ensures !Step(s, e, variants).turns.candidateSpeakingNow
  {
    hide Opening.Step, Opening.AskGate, SpeakingGoesOn, NextFrame, Answer;
  }

  lemma HeldByClockWaits(s: State, turn: nat, variants: nat)
    requires s.queue == Some(LoggingSilence(turn)) && !s.turns.candidateSpeakingNow
    ensures var t := Step(s, QueueGoesOn(Logged, true), variants);
            t.turns.held == Some(HeldTurns.Verdict(turn, 1)) && !t.turns.candidateSpeakingNow
  {
  }

  lemma {:induction false} StaysQuiet(h: History, i: nat, j: nat, verdict: HeldTurns.Verdict)
    requires IsRun(h) && i < j <= |h.events| && StaysHeld(h, i, j, verdict) && !h.states[i + 1].turns.candidateSpeakingNow
    ensures !h.states[j].turns.candidateSpeakingNow
    decreases j
  {
    hide Step, Possible;
    if i + 1 < j {
      StaysQuiet(h, i, j - 1, verdict);
      assert IsStep(h, j - 1);
      QuietStep(h.states[j - 1], h.events[j - 1], h.variants);
    }
  }

  /** A turn is held only after the brief was told, or after the session. */
  lemma HeldIsLate(s: State)
    requires Inv(s) && s.turns.held.Some?
    ensures s.opening.briefDeliveryCount > 0 || s.stage == Gate.Evaluation
  {
  }

  /** The gate's answer to a turn judged again on time. */
  lemma AnswerOnTime(s: State, judged: Gate.JudgedTurn, input: Input,
                     words: TurnCompletion.Turn, silenceMs: real, later: real, policy: TurnCompletion.Policy)
    requires TurnCompletion.IsMode(policy) && words.silenceMs == Some(TurnCompletion.Finite(silenceMs)) && silenceMs >= 0.0
    requires TurnCompletion.HoldForSilence(words, Some(silenceMs), policy).Some?
    requires later >= silenceMs + TurnCompletion.HoldForSilence(words, Some(silenceMs), policy).value
    requires IsJudgedAt(s, judged, input, words, later, policy)
    requires !s.turns.candidateSpeakingNow && (s.opening.briefDeliveryCount > 0 || s.stage == Gate.Evaluation)
    ensures Answer(s, Some(judged), input).Some? <==>
      !words.midThought && input.later != Gate.StaySilent && input.later in Gate.AllowedActions(s.stage)
  {
    if s.opening.briefDeliveryCount > 0 {
      hide TurnCompletion.IsMode, TurnCompletion.HoldForSilence;
      Gate.HeldTurnIsAnswered(Opening.ContextOf(s.opening, MomentOf(s, Some(judged), input)), words, silenceMs, later, policy);
    } else {
      UnopenedAnswer(s, Some(judged), input);
    }
  }

  /** What is judged is the turn after a silence of `later`, no brief is asked for or owed, and nobody is cut in on. */
  ghost predicate IsJudgedAt(s: State, judged: Gate.JudgedTurn, input: Input,
                             words: TurnCompletion.Turn, later: real, policy: TurnCompletion.Policy) {
    && input.threshold == policy.threshold && judged.finalized && !judged.asksForBrief
    && judged.endProbability ==
         TurnCompletion.EstimateTurnCompletion(words.(silenceMs := Some(TurnCompletion.Finite(later))), policy)
    && !s.opening.redeliveryPending && !(s.opening.interviewerSpeaking && input.candidateStarted)
  }

  /**
   Over every run, a turn that only the clock silenced is held, and if it is left alone until its
   wait is over, its second judgement gets an answer if and only if it does not end mid-thought
   and the later rules have one that the stage allows.
   */
  lemma ClockHeldTurnIsAnswered(h: History, i: nat, j: nat, turn: nat, words: TurnCompletion.Turn,
                                silenceMs: real, later: real, policy: TurnCompletion.Policy)
    requires IsRun(h) && i < j < |h.events| && IsHeldByClock(h, i, turn, words, silenceMs, policy)
    requires i + 1 < j ==> StaysHeld(h, i + 1, j, HeldTurns.Verdict(turn, 1))
    requires h.events[j].ElapsedLogged? && h.events[j].ok && h.states[j].elapsed > 0
    requires later >= silenceMs + TurnCompletion.HoldForSilence(words, Some(silenceMs), policy).value
    requires IsJudgedAt(h.states[j], h.events[j].turn, h.events[j].input, words, later, policy)
    ensures VerdictAt(h, j) == Some(HeldTurns.Verdict(turn, 1)) && h.states[j + 1].turns.held.None?
    ensures var s, e := h.states[j], h.events[j];
            Answer(s, Some(e.turn), e.input).Some? <==>
              !words.midThought && e.input.later != Gate.StaySilent && e.input.later in Gate.AllowedActions(s.stage)
  {
    hide Possible, Inv, Answer, Opening.Step, QueueStep, SpeakingGoesOn, TurnCompletion.IsMode, TurnCompletion.HoldForSilence;
    assert IsStep(h, i) && IsStep(h, j);
    var verdict := HeldTurns.Verdict(turn, 1);
    HeldByClockWaits(h.states[i], turn, h.variants);
    assert h.states[i + 1].turns.held == Some(verdict);
    assert StaysHeld(h, i, j, verdict);
    StaysQuiet(h, i, j, verdict);
    InvHolds(h, j);
    HeldIsLate(h.states[j]);
    AnswerOnTime(h.states[j], h.events[j].turn, h.events[j].input, words, silenceMs, later, policy);
  }

  // ----- A run in which an older turn comes back -----

  const HELD_BACK: Gate.JudgedTurn := Gate.JudgedTurn(true, 0.35, false)
  const ASKED: Input := Input(true, 0.75, Gate.StaySilent)

  /** The opening was told and heard. */
  ghost function Opened(): Opening.State {
    Opening.Fresh().(briefDeliveryCount := 1, openingHeard := true,
                     spoken := [Opening.Utterance(Some(Opening.OpeningScript), true)])
  }

  ghost function At(turns: HeldTurns.Turns, finals: nat, queue: Option<Waiting>, elapsed: nat,
                    silences: multiset<HeldTurns.Verdict>): State {
    State(Opened(), Gate.OralProblemDelivery, turns, finals, queue, elapsed, silences)
  }

  lemma Told() returns (h: History)
    ensures IsRun(h) && h.variants == 0 && Last(h) == At(HeldTurns.NoTurns(), 0, None, 0, multiset{})
  {
    h := OpeningIsSpoken(ASKED, 0);
    h := Then(h, SpeechFinished(None));
  }

  /** A turn that ends while the candidate speaks waits until they stop. */
  lemma Promoted() returns (h: History)
    ensures IsRun(h) && h.variants == 0
    ensures Last(h) == At(HeldTurns.Turns(false, None, Some(HeldTurns.Verdict(0, 1))), 1, None, 0, multiset{})
  {
    h := Told();
    h := Then(h, SpeechStarted);
    h := Then(h, FinalArrives);
    h := Then(h, Classified(HELD_BACK, ASKED));
    h := Then(h, QueueGoesOn(Logged, true));
    h := Then(h, SpeechStopped);
  }

  /** 25 ms later it is judged again, too early; while that verdict is being logged the next turn arrives. */
  lemma OlderTurnComesBack() returns (h: History)
    ensures IsRun(h) && IsSuperseded(PlacesOf(Last(h))) && Last(h).queue == Some(Classifying(1))
  {
    h := Promoted();
    h := Then(h, TimerFires);
    h := Then(h, ElapsedLogged(true, HELD_BACK, ASKED));
    h := Then(h, FinalArrives);
    h := Then(h, TimerSilenceLogged(HeldTurns.Verdict(0, 1), true, true));
  }
}
