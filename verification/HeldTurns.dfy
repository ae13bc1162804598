/**
 Turns that wait to be judged again: held until enough silence has passed, or until the
 candidate stops speaking
 (apps/api/src/modules/orchestrator/runtime.ts, `holdForSilence`, `reevaluate`, `clearHeldTurn`
 and the speech boundaries of `applyCommitted`).
 */
module HeldTurns {
  import opened Wrappers

  /** A turn and the attempt at which it is, or was, judged; the first verdict is attempt 0. */
  datatype Verdict = Verdict(turn: nat, attempt: nat)

  datatype Turns = Turns(candidateSpeakingNow: bool, speakingNowHeld: Option<nat>, held: Option<Verdict>)

  function NoTurns(): Turns {
    Turns(false, None, None)
  }

  function Cleared(t: Turns): Turns {
    t.(speakingNowHeld := None, held := None)
  }

  /** The candidate resumed: whatever waited on silence is moot. */
  function Resumed(t: Turns): Turns {
    Cleared(t).(candidateSpeakingNow := true)
  }

  /** The floor was yielded: a turn silenced only by ongoing speech is judged again. */
  function Yielded(t: Turns): Turns {
    t.(candidateSpeakingNow := false, speakingNowHeld := None,
       held := if t.speakingNowHeld.Some? && t.held.None? then Some(Verdict(t.speakingNowHeld.value, 1)) else t.held)
  }

  /** A silent verdict was logged; `holds` says whether only the clock stood in the way. */
  function Silenced(t: Turns, verdict: Verdict, holds: bool): Turns {
    if t.candidateSpeakingNow && verdict.attempt == 0 then t.(speakingNowHeld := Some(verdict.turn))
    else if verdict.attempt < 2 && holds then t.(held := Some(Verdict(verdict.turn, verdict.attempt + 1)))
    else t
  }

  class Runtime {
    var candidateSpeakingNow: bool
    var speakingNowHeld: Option<nat>
    var held: Option<Verdict>

    ghost function View(): Turns
      reads this
    {
      Turns(candidateSpeakingNow, speakingNowHeld, held)
    }

    constructor ()
      ensures View() == NoTurns()
    {
      candidateSpeakingNow, speakingNowHeld, held := false, None, None;
    }

    method ClearHeldTurn()
      modifies this`speakingNowHeld, this`held
      ensures View() == Cleared(old(View()))
    {
      held := None;
      speakingNowHeld := None;
    }

    method OnSpeechStarted()
      modifies this
      ensures View() == Resumed(old(View()))
    {
      ClearHeldTurn();
      candidateSpeakingNow := true;
    }

    method OnSpeechStopped()
      modifies this
      ensures View() == Yielded(old(View()))
    {
      candidateSpeakingNow := false;
      if speakingNowHeld.Some? && held.None? {
        held := Some(Verdict(speakingNowHeld.value, 1));
      }
      speakingNowHeld := None;
    }

    method OnSilentVerdict(turn: nat, attempt: nat, holds: bool)
      modifies this`speakingNowHeld, this`held
      ensures View() == Silenced(old(View()), Verdict(turn, attempt), holds)
    {
      if candidateSpeakingNow && attempt == 0 {
        speakingNowHeld := Some(turn);
      } else if attempt < 2 {
        HoldForSilence(turn, attempt, holds);
      }
    }

    method HoldForSilence(turn: nat, attempt: nat, holds: bool)
      modifies this`held
      ensures held == if holds then Some(Verdict(turn, attempt + 1)) else old(held)
    {
      if !holds { return; }
      held := Some(Verdict(turn, attempt + 1));
    }

    /** Hands out the verdict to be given now, if a turn is still held. */
    method Reevaluate() returns (verdict: Option<Verdict>)
      modifies this`speakingNowHeld, this`held
      ensures verdict == old(held)
      ensures View() == if old(held).Some? then Cleared(old(View())) else old(View())
    {
      verdict := held;
      if verdict.None? { return; }
      ClearHeldTurn();
    }
  }
}
