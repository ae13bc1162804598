/**
 The opening whose log entry fails: it is counted as delivered before it is logged, so it is
 neither spoken nor owed
 (apps/api/src/modules/orchestrator/runtime.ts, `realize`;
 apps/api/src/modules/session/index.ts, `dispatchOne`).
 */
module LostOpening {
  import opened TurnQueue
  import opened Wrappers
  import Gate
  import Opening

  /** At event `i` the log entry of the first telling fails. */
  ghost predicate FailsAt(h: History, i: nat)
    requires i < |h.events|
  {
    Opening.TellingFirst in h.states[i].opening.frames && h.events[i].QueueGoesOn? && h.events[i].outcome.LogFailed?
  }

  ghost predicate HasFailed(h: History, n: nat)
    requires n <= |h.events|
  {
    exists i: nat :: i < n && FailsAt(h, i)
  }

  /** The brief counts as delivered, nothing was marked as the opening, and nothing will be. */
  ghost predicate IsLost(o: Opening.State) {
    && o.briefDeliveryCount > 0 && Opening.TellingFirst !in o.frames
    && Opening.Tokens(o) == 0 && Opening.Openings(o.spoken) == 0
  }

  lemma LostResume(o: Opening.State, frame: Opening.Frame, ok: bool, variants: nat)
    requires Opening.RetellingsAreLate(o) && IsLost(o) && frame in o.frames
    ensures IsLost(Opening.ResumeFrame(o, frame, ok, variants))
  {
    match frame
    case DecidedOther => Opening.OpeningsGrow(o.spoken, Opening.Utterance(None, false));
    case Retelling(text) => Opening.OpeningsGrow(o.spoken, Opening.Utterance(Some(text), false));
    case _ =>
  }

  /** However calls interleave, a lost opening stays lost. */
  lemma LostStep(o: Opening.State, f: Opening.Event, variants: nat)
    requires Opening.RetellingsAreLate(o) && IsLost(o)
    ensures IsLost(Opening.Step(o, f, variants))
  {
    hide Opening.ResumeFrame, Opening.RetellingsAreLate, Gate.DecideAction, Opening.Openings;
    if f.Resume? && f.frame in o.frames { LostResume(o, f.frame, f.ok, variants); }
  }

  lemma ResumeOnlyAdds(o: Opening.State, frame: Opening.Frame, ok: bool, variants: nat)
    ensures var said := Opening.ResumeFrame(o, frame, ok, variants).spoken;
            said == o.spoken || exists u :: said == o.spoken + [u]
  {
  }

  lemma OpeningsNeverShrink(o: Opening.State, f: Opening.Event, variants: nat)
    ensures Opening.Openings(Opening.Step(o, f, variants).spoken) >= Opening.Openings(o.spoken)
  {
    hide Gate.DecideAction, Opening.ResumeFrame, Opening.Openings;
    if f.Resume? && f.frame in o.frames {
      ResumeOnlyAdds(o, f.frame, f.ok, variants);
      var said := Opening.ResumeFrame(o, f.frame, f.ok, variants).spoken;
      if said != o.spoken {
        var u :| said == o.spoken + [u];
        Opening.OpeningsGrow(o.spoken, u);
      }
    }
  }

  /** What is true until the log entry of the first telling fails. */
  ghost predicate IsWell(s: State) {
    || s.opening.briefDeliveryCount == 0
    || IsOpening(s, 1, Opening.TellingFirst)
    || Opening.Openings(s.opening.spoken) > 0
  }

  lemma DeliversInOrder(s: State, e: Event, variants: nat)
    requires Inv(s) && Possible(s, e) && s.opening.briefDeliveryCount == 0
    ensures var t := Step(s, e, variants); t.opening.briefDeliveryCount == 0 || IsOpening(t, 1, Opening.TellingFirst)
  {
    if Opening.Decided in s.opening.frames {
      assert IsOpening(s, 0, Opening.Decided) && s.stage == Gate.OralProblemDelivery;
      DecidedDelivers(s, e, variants);
    } else {
      hide Step, Inv, Possible, Opening.Step, AsOpening;
      StepIsOpeningStep(s, e, variants);
      if AsOpening(s, e).Some? { Opening.DeliveryStep(s.opening, AsOpening(s, e).value, variants); }
    }
  }

  lemma DecidedDelivers(s: State, e: Event, variants: nat)
    requires IsOpening(s, 0, Opening.Decided) && s.stage == Gate.OralProblemDelivery && Possible(s, e)
    ensures var t := Step(s, e, variants); t.opening.briefDeliveryCount == 0 || IsOpening(t, 1, Opening.TellingFirst)
  {
    hide QueueStep;
    InvOpening(s, 0, Opening.Decided, e, variants);
    if e.QueueGoesOn? { FirstTelling(s, e.outcome, e.holds, variants); }
  }

  lemma WellStep(s: State, e: Event, variants: nat)
    requires Inv(s) && Possible(s, e) && IsWell(s)
    ensures if Opening.TellingFirst in s.opening.frames && e.QueueGoesOn? && e.outcome.LogFailed?
            then IsLost(Step(s, e, variants).opening) else IsWell(Step(s, e, variants))
  {
    if s.opening.briefDeliveryCount == 0 {
      hide Step, Possible;
      DeliversInOrder(s, e, variants);
    } else if IsOpening(s, 1, Opening.TellingFirst) {
      TellingEnds(s, e, variants);
    } else {
      hide Step, Possible, Opening.Step, AsOpening;
      if Opening.TellingFirst in s.opening.frames { TellingIsAlone(s); }
      StepIsOpeningStep(s, e, variants);
      if AsOpening(s, e).Some? { OpeningsNeverShrink(s.opening, AsOpening(s, e).value, variants); }
    }
  }

  lemma TellingEnds(s: State, e: Event, variants: nat)
    requires IsOpening(s, 1, Opening.TellingFirst) && Possible(s, e)
    ensures if e.QueueGoesOn? && e.outcome.LogFailed?
            then IsLost(Step(s, e, variants).opening) else IsWell(Step(s, e, variants))
  {
    hide QueueStep;
    if e.QueueGoesOn? {
      FirstTelling(s, e.outcome, e.holds, variants);
      assert Step(s, e, variants) == QueueStep(s, e.outcome, e.holds, variants);
      Opening.OpeningsGrow([], Opening.Utterance(Some(Opening.OpeningScript), true));
      assert [] + [Opening.Utterance(Some(Opening.OpeningScript), true)] == [Opening.Utterance(Some(Opening.OpeningScript), true)];
    } else {
      InvOpening(s, 1, Opening.TellingFirst, e, variants);
    }
  }

  lemma HasFailedStep(h: History, m: nat)
    requires m < |h.events|
    ensures HasFailed(h, m + 1) <==> HasFailed(h, m) || FailsAt(h, m)
  {
    hide FailsAt;
    if HasFailed(h, m + 1) {
      var i: nat :| i < m + 1 && FailsAt(h, i);
      assert i == m || HasFailed(h, m);
    }
  }

  lemma StaysLost(s: State, e: Event, variants: nat)
    requires Opening.Kept(s.opening) && IsLost(s.opening)
    ensures IsLost(Step(s, e, variants).opening)
  {
    hide Step, Opening.Step, IsLost, AsOpening;
    StepIsOpeningStep(s, e, variants);
    if AsOpening(s, e).Some? { LostStep(s.opening, AsOpening(s, e).value, variants); }
  }

  lemma NothingFailedYet(h: History)
    ensures !HasFailed(h, 0)
  {
  }

  lemma FreshIsWell()
    ensures IsWell(Fresh())
  {
  }

  lemma {:induction false} FailureDecides(h: History, n: nat)
    requires IsRun(h) && n <= |h.events|
    ensures if HasFailed(h, n) then IsLost(h.states[n].opening) else IsWell(h.states[n])
  {
    hide Step, Possible, Inv, HasFailed, IsLost, IsWell, Opening.Kept;
    if n == 0 {
      NothingFailedYet(h);
      FreshIsWell();
    } else {
      var m := n - 1;
      FailureDecides(h, m);
      HasFailedStep(h, m);
      InvHolds(h, m);
      OpeningHolds(h, m);
      assert IsStep(h, m);
      if HasFailed(h, m) {
        StaysLost(h.states[m], h.events[m], h.variants);
      } else {
        WellStep(h.states[m], h.events[m], h.variants);
      }
    }
  }

  /**
   Over every run, once the first brief was told or its telling has ended: nothing is marked as
   the opening if and only if the log entry of the first telling failed; and then no later
   telling, redelivery or report ever makes up for it.
   */
  lemma OpeningIsLostExactlyWithItsLogEntry(h: History, n: nat)
    requires IsRun(h) && n <= |h.events|
    requires h.states[n].opening.briefDeliveryCount > 0 && Opening.TellingFirst !in h.states[n].opening.frames
    ensures Opening.Openings(h.states[n].opening.spoken) == 0 <==> HasFailed(h, n)
    ensures HasFailed(h, n) ==> forall k :: n <= k <= |h.events| ==> IsLost(h.states[k].opening)
  {
    hide Inv, Step, HasFailed;
    FailureDecides(h, n);
    if HasFailed(h, n) {
      forall k | n <= k <= |h.events| ensures IsLost(h.states[k].opening) {
        FailsLater(h, n, k);
        FailureDecides(h, k);
      }
    }
  }

  lemma FailsLater(h: History, n: nat, k: nat)
    requires n <= k <= |h.events| && HasFailed(h, n)
    ensures HasFailed(h, k)
  {
    var i: nat :| i < n && FailsAt(h, i);
    assert i < k;
  }

  /** A run that loses it: the session starts, the decision is logged, the telling is not. */
  lemma OpeningCanBeLost() returns (h: History)
    ensures IsRun(h) && HasFailed(h, |h.events|)
    ensures Last(h).queue.None? && Last(h).opening.briefDeliveryCount == 1 && Last(h).opening.spoken == []
  {
    h := TellingBegins(Input(false, 1.0, Gate.StaySilent), 0);
    h := Then(h, QueueGoesOn(LogFailed, false));
    assert FailsAt(h, 2);
  }
}
