/**
 What becomes of a turn that was answered with silence, in every run of the session's queue
 (apps/api/src/modules/orchestrator/runtime.ts, `evaluateTurn`, `holdForSilence`,
 `clearHeldTurn`, `applyCommitted`).
 */
module SilencedTurns {
  import opened Wrappers
  import opened TurnQueue
  import Gate
  import HeldTurns
  import Opening
  import Tellings

  /** The silent verdict whose log entry is written at event `n`. */
  ghost function LoggedAt(h: History, n: nat): Option<HeldTurns.Verdict>
    requires n < |h.events|
  {
    var s := h.states[n];
    match h.events[n]
    case QueueGoesOn(Logged, _) =>
      if s.queue.Some? && s.queue.value.LoggingSilence? then Some(HeldTurns.Verdict(s.queue.value.turn, 0)) else None
    case TimerSilenceLogged(verdict, true, _) => Some(verdict)
    case _ => None
  }

  /** Whether only the clock stood in the way of the verdict logged at `n`. */
  ghost predicate HoldsAt(h: History, n: nat)
    requires n < |h.events|
  {
    match h.events[n]
    case QueueGoesOn(_, holds) => holds
    case TimerSilenceLogged(_, _, holds) => holds
    case _ => false
  }

  /** Event `n` makes waiting moot: the candidate speaks, a new turn arrives, a turn is judged again, or a timer's log fails. */
  ghost predicate MootAt(h: History, n: nat)
    requires n < |h.events|
  {
    var s := h.states[n];
    match h.events[n]
    case SpeechStarted => true
    case BargeIn => true
    case FinalArrives => true
    case ElapsedLogged(ok, _, _) => s.elapsed > 0 && (!ok || s.turns.held.Some?)
    case TimerGoesOn(_, outcome) => outcome.LogFailed?
    case TimerSilenceLogged(_, ok, _) => !ok
    case _ => false
  }

  /**
   In every run: a turn silenced at its first verdict while the candidate is speaking waits for the
   end of speech; one silenced by the clock alone is held for its next attempt, up to the second;
   at the end of speech the one that waited for it is held, unless another is; what makes waiting
   moot drops both; and nothing else moves either.
   */
  lemma WaitingTurnsFollow(h: History, n: nat)
    requires IsRun(h) && n < |h.events|
    ensures var t, u, logged := h.states[n].turns, h.states[n + 1].turns, LoggedAt(h, n);
            var forSpeech := logged.Some? && Tellings.Speaks(h.events[..n]) && logged.value.attempt == 0;
            var forClock := logged.Some? && !forSpeech && logged.value.attempt < 2 && HoldsAt(h, n);
            var ends := h.events[n].SpeechStopped?;
            && u.speakingNowHeld == (if MootAt(h, n) || ends then None
                                     else if forSpeech then Some(logged.value.turn) else t.speakingNowHeld)
            && u.held == (if MootAt(h, n) then None
                          else if forClock then Some(HeldTurns.Verdict(logged.value.turn, logged.value.attempt + 1))
                          else if ends && t.held.None? && t.speakingNowHeld.Some?
                          then Some(HeldTurns.Verdict(t.speakingNowHeld.value, 1)) else t.held)
  {
    hide QueueStep, Reevaluated, Answer, Asked, SpeakingGoesOn, HeldTurns.Silenced, Opening.Step, Possible, Tellings.Speaks;
    Tellings.CandidateSpeaksAsReported(h, n);
    assert IsStep(h, n);
    var s, e := h.states[n], h.events[n];
    match e {
      case QueueGoesOn(outcome, holds) => if s.queue.Some? { QueueMovesTurns(s, outcome, holds, h.variants); }
      case TimerSilenceLogged(verdict, _, holds) => SilenceMovesTurns(s.turns, verdict, holds);
      case ElapsedLogged(_, turn, input) =>
        if s.elapsed > 0 { ReevaluationMovesTurns(s.(elapsed := s.elapsed - 1), turn, input); }
      case Started(input) => AskingLeavesTurns(s, None, input);
      case Classified(turn, input) => AskingLeavesTurns(s, Some(turn), input);
      case _ =>
    }
  }

  lemma AskingLeavesTurns(s: State, turn: Option<Gate.JudgedTurn>, input: Input)
    ensures Asked(s, turn, input).turns == s.turns
  {
  }

  lemma ReevaluationMovesTurns(s: State, turn: Gate.JudgedTurn, input: Input)
    ensures Reevaluated(s, turn, input).turns == if s.turns.held.Some? then HeldTurns.Cleared(s.turns) else s.turns
  {
    hide Answer;
  }

  lemma QueueMovesTurns(s: State, outcome: Outcome, holds: bool, variants: nat)
    requires s.queue.Some?
    ensures var t, u := s.turns, QueueStep(s, outcome, holds, variants).turns;
            if !outcome.Logged? || !s.queue.value.LoggingSilence? then u == t
            else if t.candidateSpeakingNow then u == t.(speakingNowHeld := Some(s.queue.value.turn))
            else u == if holds then t.(held := Some(HeldTurns.Verdict(s.queue.value.turn, 1))) else t
  {
    hide SpeakingGoesOn, NextFrame;
  }

  lemma SilenceMovesTurns(t: HeldTurns.Turns, verdict: HeldTurns.Verdict, holds: bool)
    ensures var u := HeldTurns.Silenced(t, verdict, holds);
            if t.candidateSpeakingNow && verdict.attempt == 0 then u == t.(speakingNowHeld := Some(verdict.turn))
            else u == if verdict.attempt < 2 && holds then t.(held := Some(HeldTurns.Verdict(verdict.turn, verdict.attempt + 1))) else t
  {
  }

  /** Event `i` leaves alone what waits for the end of speech. */
  ghost predicate LeavesWaiting(h: History, i: nat)
    requires i < |h.events|
  {
    !MootAt(h, i) && !h.events[i].SpeechStopped? && LoggedAt(h, i).None?
  }

  lemma {:induction false} StillWaits(h: History, m: nat, n: nat)
    requires IsRun(h) && m <= n <= |h.events|
    requires forall i: nat :: m <= i < n ==> LeavesWaiting(h, i)
    ensures h.states[n].turns.speakingNowHeld == h.states[m].turns.speakingNowHeld
    ensures h.states[n].turns.held == h.states[m].turns.held
    decreases n
  {
    hide Step;
    if m < n {
      StillWaits(h, m, n - 1);
      assert LeavesWaiting(h, n - 1);
      WaitingTurnsFollow(h, n - 1);
    }
  }

  /**
   In every run: a turn silenced at `m` at its first verdict, while the candidate is speaking, with
   nothing held, and left alone until the speech ends at `n`, is held then for its second verdict.
   */
  lemma TurnSilencedBySpeechIsHeldAtItsEnd(h: History, m: nat, n: nat, turn: nat)
    requires IsRun(h) && m < n < |h.events| && LoggedAt(h, m) == Some(HeldTurns.Verdict(turn, 0))
    requires Tellings.Speaks(h.events[..m]) && h.states[m].turns.held.None?
    requires h.events[n].SpeechStopped? && forall i: nat :: m < i < n ==> LeavesWaiting(h, i)
    ensures h.states[n + 1].turns.held == Some(HeldTurns.Verdict(turn, 1))
  {
    hide Step;
    WaitingTurnsFollow(h, m);
    StillWaits(h, m + 1, n);
    WaitingTurnsFollow(h, n);
  }
}
