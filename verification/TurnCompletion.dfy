/**
 How long the interviewer waits before a pause counts as a finished turn
 (apps/api/src/modules/orchestrator/turn-completion.ts, policy.ts).

 Numbers are reals; `NotFinite` stands for NaN and the infinities, which the code tests
 for. Whether a transcript ends mid-thought is an input.
 */
module TurnCompletion {
  import opened Wrappers
  import opened Reals

  datatype Number = NotFinite | Finite(value: real)

  /** The clock's part of a policy: the plain window and the two it may be pulled towards. */
  datatype Policy = Policy(
    threshold: real,
    min: real, settled: real,
    minConfident: Option<real>, settledConfident: Option<real>,
    minPatient: Option<real>, settledPatient: Option<real>)

  datatype Prosody = Prosody(probability: Number, confidence: Number)

  datatype Window = Window(min: real, settled: real, pull: real)

  /** How long to wait: some time, or for ever. */
  datatype Wait = After(ms: real) | Never

  datatype Intent =
    | ThinkAloud | ExplicitQuestion | ClarificationRequest | HintRequest | ComplexityClaim
    | ApproachCommitment | TestPlan | Confusion | DoneSignal | SocialSmallTalk

  const HELD_FLOOR_CEILING := 0.35
  const MID_THOUGHT_CEILING := 0.2

  function Clamp01(v: Number): (r: real)
    ensures 0.0 <= r <= 1.0
  {
    if v.NotFinite? || v.value <= 0.0 then 0.0 else if v.value >= 1.0 then 1.0 else v.value
  }

  /** Prosody as one signed number: positive when the floor was yielded. */
  function ProsodyPull(prosody: Option<Prosody>): (pull: real)
    ensures -1.0 <= pull <= 1.0
  {
    if prosody.None? then 0.0
    else
      var confidence := Clamp01(prosody.value.confidence);
      if confidence <= 0.0 then 0.0
      else
        var lean := 2.0 * Clamp01(prosody.value.probability) - 1.0;
        ScaledLean(confidence, lean);
        confidence * lean
  }

  lemma ScaledLean(confidence: real, lean: real)
    requires 0.0 < confidence <= 1.0 && -1.0 <= lean <= 1.0
    ensures -1.0 <= confidence * lean <= 1.0
  {
    MulNonNegative(confidence, 1.0 - lean);
    MulNonNegative(confidence, 1.0 + lean);
    assert confidence * (1.0 - lean) == confidence - confidence * lean;
    assert confidence * (1.0 + lean) == confidence + confidence * lean;
  }

  function Lerp(from: real, to: real, t: real): real {
    from + (to - from) * Clamp01(Finite(t))
  }

  function TurnEndWindow(policy: Policy, prosody: Option<Prosody>): Window {
    WindowAt(policy, ProsodyPull(prosody))
  }

  /** The window for a given pull; a policy without the pair it pulls towards is not moved. */
  function WindowAt(policy: Policy, pull: real): Window {
    if pull == 0.0 then Window(policy.min, policy.settled, pull)
    else if pull > 0.0 then
      if policy.minConfident.None? || policy.settledConfident.None? then Window(policy.min, policy.settled, 0.0)
      else Window(Lerp(policy.min, policy.minConfident.value, pull),
                  Lerp(policy.settled, policy.settledConfident.value, pull), pull)
    else
      if policy.minPatient.None? || policy.settledPatient.None? then Window(policy.min, policy.settled, 0.0)
      else Window(Lerp(policy.min, policy.minPatient.value, -pull),
                  Lerp(policy.settled, policy.settledPatient.value, -pull), pull)
  }

  /** How much end-confidence the elapsed silence permits. */
  function SilenceCeiling(silenceMs: real, policy: Policy, prosody: Option<Prosody>): real {
    Ramp(silenceMs, TurnEndWindow(policy, prosody))
  }

  function Ramp(silenceMs: real, window: Window): real {
    if silenceMs <= window.min then HELD_FLOOR_CEILING
    else if silenceMs >= window.settled then 1.0
    else
      var t := (silenceMs - window.min) / (window.settled - window.min);
      HELD_FLOOR_CEILING + t * (1.0 - HELD_FLOOR_CEILING)
  }

  /** The quiet time at which the ceiling is meant to permit `threshold` first. */
  function SilenceRequiredFor(threshold: real, policy: Policy, prosody: Option<Prosody>): Wait {
    RampInverse(threshold, TurnEndWindow(policy, prosody))
  }

  /** The share of the ramp a threshold asks for. */
  function Share(threshold: real): real {
    (threshold - HELD_FLOOR_CEILING) / (1.0 - HELD_FLOOR_CEILING)
  }

  function RampInverse(threshold: real, window: Window): Wait {
    if threshold <= HELD_FLOOR_CEILING then After(window.min)
    else if threshold > 1.0 then Never
    else
      var span := window.settled - window.min;
      if span <= 0.0 then After(window.settled)
      else After(window.min + Share(threshold) * span)
  }

  // ----- The ramp and its inverse -----

  /** Inside a non-empty window the two agree to the point. */
  lemma InverseOnWindow(silenceMs: real, threshold: real, window: Window)
    requires HELD_FLOOR_CEILING < threshold <= 1.0 && window.min < window.settled
    ensures Ramp(silenceMs, window) >= threshold <==> silenceMs >= RampInverse(threshold, window).ms
    ensures window.min < RampInverse(threshold, window).ms <= window.settled
  {
    var span := window.settled - window.min;
    var need := Share(threshold);
    DivUndo(threshold - HELD_FLOOR_CEILING, 1.0 - HELD_FLOOR_CEILING);
    assert 0.0 < need <= 1.0;
    MulNonNegative(1.0 - need, span);
    MulPositive(need, span);
    assert (1.0 - need) * span == span - need * span;
    DivAtLeast(silenceMs - window.min, span, need);
    var offset := need * span;
    assert 0.0 < offset <= span;
    assert RampInverse(threshold, window).ms == window.min + offset;
  }

  /** With an empty window the inverse names the time it settles, at which nothing is permitted yet. */
  lemma InverseOnEmptyWindow(threshold: real, window: Window)
    requires HELD_FLOOR_CEILING < threshold <= 1.0 && window.settled <= window.min
    ensures RampInverse(threshold, window) == After(window.settled)
    ensures window.min >= RampInverse(threshold, window).ms && Ramp(window.min, window) < threshold
  {
  }

  ghost predicate InverseIsRight(threshold: real, policy: Policy, prosody: Option<Prosody>)
    requires SilenceRequiredFor(threshold, policy, prosody).After?
  {
    forall silenceMs: real :: SilenceCeiling(silenceMs, policy, prosody) >= threshold <==>
                              silenceMs >= SilenceRequiredFor(threshold, policy, prosody).ms
  }

  /** `SilenceRequiredFor` inverts the ceiling exactly when the window is not empty. */
  lemma InverseIsExact(threshold: real, policy: Policy, prosody: Option<Prosody>)
    requires HELD_FLOOR_CEILING < threshold <= 1.0
    ensures var window := TurnEndWindow(policy, prosody);
            InverseIsRight(threshold, policy, prosody) <==> window.min < window.settled
  {
    var window := TurnEndWindow(policy, prosody);
    if window.min < window.settled {
      forall silenceMs: real
        ensures SilenceCeiling(silenceMs, policy, prosody) >= threshold <==>
                silenceMs >= SilenceRequiredFor(threshold, policy, prosody).ms
      {
        InverseOnWindow(silenceMs, threshold, window);
      }
    } else {
      InverseOnEmptyWindow(threshold, window);
      assert SilenceCeiling(window.min, policy, prosody) < threshold;
    }
  }

  /** The ceiling stays within its range, and no silence reaches a threshold above 1. */
  lemma CeilingRange(silenceMs: real, window: Window)
    ensures HELD_FLOOR_CEILING <= Ramp(silenceMs, window) <= 1.0
  {
    if window.min < silenceMs < window.settled {
      var span := window.settled - window.min;
      var t := (silenceMs - window.min) / span;
      DivLess(0.0, silenceMs - window.min, span);
      DivLess(silenceMs - window.min, span, span);
      DivAtLeast(span, span, 1.0);
      DivAtLeast(0.0, span, 0.0);
    }
  }

  /** A longer silence, or a window that opens no later, never permits less. */
  lemma RampIsMonotone(short: real, long: real, late: Window, early: Window)
    requires short <= long && early.min <= late.min && early.settled <= late.settled
    ensures Ramp(short, late) <= Ramp(long, early)
  {
    CeilingRange(short, late);
    CeilingRange(long, early);
    if late.min < short && long < early.settled {
      var lateSpan, earlySpan := late.settled - late.min, early.settled - early.min;
      var x := (short - late.min) / lateSpan;
      DivUndo(short - late.min, lateSpan);
      DivLess(0.0, short - late.min, lateSpan);
      DivLess(short - late.min, lateSpan, lateSpan);
      DivAtLeast(lateSpan, lateSpan, 1.0);
      DivAtLeast(0.0, lateSpan, 0.0);
      // The early ramp is at least at the same share `x` of its own window.
      Blend(x, early.min, early.settled, late.min, late.settled);
      var y := (long - early.min) / earlySpan;
      DivUndo(long - early.min, earlySpan);
      if y < x { MulLess(y, x, earlySpan); }
    }
  }

  /** Blending two numbers is monotone in both. */
  lemma Blend(x: real, a: real, b: real, a': real, b': real)
    requires 0.0 <= x <= 1.0 && a <= a' && b <= b'
    ensures a + x * (b - a) <= a' + x * (b' - a')
  {
    assert x * (b' - b) >= 0.0;
    assert (1.0 - x) * (a' - a) >= 0.0;
    assert (a' + x * (b' - a')) - (a + x * (b - a)) == (1.0 - x) * (a' - a) + x * (b' - b);
  }

  // ----- Prosody moves the window -----

  /** The confident pair is the fast one and the patient pair the slow one. */
  ghost predicate IsOrdered(policy: Policy) {
    && (policy.minConfident.Some? ==> policy.minConfident.value <= policy.min)
    && (policy.settledConfident.Some? ==> policy.settledConfident.value <= policy.settled)
    && (policy.minPatient.Some? ==> policy.min <= policy.minPatient.value)
    && (policy.settledPatient.Some? ==> policy.settled <= policy.settledPatient.value)
  }

  /** Moving further towards a target never moves back. */
  lemma LerpTowards(from: real, to: real, t: real, t': real)
    requires 0.0 <= t <= t' <= 1.0
    ensures to <= from ==> to <= Lerp(from, to, t') <= Lerp(from, to, t) <= from
    ensures from <= to ==> from <= Lerp(from, to, t) <= Lerp(from, to, t') <= to
  {
    var d := if to <= from then from - to else to - from;
    MulNonNegative(1.0 - t', d);
    MulNonNegative(t' - t, d);
    MulNonNegative(t, d);
    assert (1.0 - t') * d == d - d * t' && (t' - t) * d == d * t' - d * t && t * d == d * t;
    if to <= from {
      assert (to - from) * t == -(d * t) && (to - from) * t' == -(d * t');
    }
  }

  /** More evidence that the floor was yielded opens the window no later. */
  lemma WindowFollowsPull(policy: Policy, pull: real, pull': real)
    requires IsOrdered(policy) && -1.0 <= pull <= pull' <= 1.0
    ensures WindowAt(policy, pull').min <= WindowAt(policy, pull).min
    ensures WindowAt(policy, pull').settled <= WindowAt(policy, pull).settled
  {
    if policy.minConfident.Some? && policy.settledConfident.Some? && pull' > 0.0 {
      var t := if pull > 0.0 then pull else 0.0;
      LerpTowards(policy.min, policy.minConfident.value, t, pull');
      LerpTowards(policy.settled, policy.settledConfident.value, t, pull');
    }
    if policy.minPatient.Some? && policy.settledPatient.Some? && pull < 0.0 {
      var t := if pull' < 0.0 then -pull' else 0.0;
      LerpTowards(policy.min, policy.minPatient.value, t, -pull);
      LerpTowards(policy.settled, policy.settledPatient.value, t, -pull);
    }
  }

  /** The ceiling rises with the silence and with the pull of prosody. */
  lemma CeilingIsMonotone(policy: Policy, short: real, long: real, prosody: Option<Prosody>, prosody': Option<Prosody>)
    requires IsOrdered(policy) && short <= long && ProsodyPull(prosody) <= ProsodyPull(prosody')
    ensures SilenceCeiling(short, policy, prosody) <= SilenceCeiling(long, policy, prosody')
  {
    WindowFollowsPull(policy, ProsodyPull(prosody), ProsodyPull(prosody'));
    RampIsMonotone(short, long, TurnEndWindow(policy, prosody), TurnEndWindow(policy, prosody'));
  }

  // ----- What prosody does, in its own terms -----

  function Says(probability: Number, confidence: Number): Option<Prosody> {
    Some(Prosody(probability, confidence))
  }

  lemma ScaledMore(a: real, b: real, a': real, b': real)
    requires 0.0 <= a <= a' && 0.0 <= b <= b'
    ensures 0.0 <= a * b <= a' * b'
  {
    MulNonNegative(a, b);
    MulNonNegative(a, b' - b);
    MulNonNegative(a' - a, b');
    assert a' * b' - a * b == a * (b' - b) + (a' - a) * b';
  }

  lemma PullIsLean(p: Number, c: Number)
    ensures ProsodyPull(Says(p, c)) == Clamp01(c) * (2.0 * Clamp01(p) - 1.0)
  {
  }

  lemma LeanOrder(x: real, lean: real, x': real, lean': real)
    requires 0.0 <= x && 0.0 <= x'
    ensures x == x' && lean <= lean' ==> x * lean <= x' * lean'
    ensures x <= x' && lean == lean' >= 0.0 ==> 0.0 <= x * lean <= x' * lean'
    ensures x <= x' && lean == lean' <= 0.0 ==> x' * lean' <= x * lean <= 0.0
  {
    if x == x' && lean <= lean' {
      MulNonNegative(x, lean' - lean);
      assert x * lean' - x * lean == x * (lean' - lean);
    }
    if x <= x' && lean == lean' {
      assert x' * lean - x * lean == (x' - x) * lean;
      if lean >= 0.0 {
        MulNonNegative(x' - x, lean);
        MulNonNegative(x, lean);
      } else {
        MulNonNegative(x' - x, -lean);
        MulNonNegative(x, -lean);
      }
    }
  }

  /** The pull of a verdict rises with its probability, and with its confidence on the side it is on. */
  lemma PullOrder(p: Number, c: Number, p': Number, c': Number)
    ensures Clamp01(p) <= Clamp01(p') && Clamp01(c) == Clamp01(c') ==> ProsodyPull(Says(p, c)) <= ProsodyPull(Says(p', c'))
    ensures Clamp01(p) == Clamp01(p') >= 0.5 && Clamp01(c) <= Clamp01(c') ==>
      0.0 <= ProsodyPull(Says(p, c)) <= ProsodyPull(Says(p', c'))
    ensures Clamp01(p) == Clamp01(p') <= 0.5 && Clamp01(c) <= Clamp01(c') ==>
      ProsodyPull(Says(p', c')) <= ProsodyPull(Says(p, c)) <= 0.0
  {
    hide ProsodyPull, Clamp01;
    PullIsLean(p, c);
    PullIsLean(p', c');
    LeanOrder(Clamp01(c), 2.0 * Clamp01(p) - 1.0, Clamp01(c'), 2.0 * Clamp01(p') - 1.0);
  }

  /** Of two windows the one that opens and settles no later asks for no more silence and permits no less. */
  lemma EarlierWindow(late: Window, early: Window, threshold: real, silenceMs: real)
    requires early.min <= late.min && early.settled <= late.settled
    ensures Ramp(silenceMs, late) <= Ramp(silenceMs, early)
    ensures IsNoLater(RampInverse(threshold, early), RampInverse(threshold, late))
  {
    RampIsMonotone(silenceMs, silenceMs, late, early);
    if HELD_FLOOR_CEILING < threshold <= 1.0 {
      var need := Share(threshold);
      DivUndo(threshold - HELD_FLOOR_CEILING, 1.0 - HELD_FLOOR_CEILING);
      Blend(need, early.min, early.settled, late.min, late.settled);
      if early.min < early.settled { InverseOnWindow(silenceMs, threshold, early); }
      if late.min < late.settled { InverseOnWindow(silenceMs, threshold, late); }
    }
  }

  ghost predicate IsNoLater(early: Wait, late: Wait) {
    early.After? == late.After? && (early.After? ==> early.ms <= late.ms)
  }

  /** The first verdict permits no more than the second at any silence, and waits no less for any threshold. */
  ghost predicate IsSlower(policy: Policy, slow: Option<Prosody>, fast: Option<Prosody>) {
    && (forall silenceMs: real :: SilenceCeiling(silenceMs, policy, slow) <= SilenceCeiling(silenceMs, policy, fast))
    && (forall threshold: real :: IsNoLater(SilenceRequiredFor(threshold, policy, fast), SilenceRequiredFor(threshold, policy, slow)))
  }

  lemma LessPullIsSlower(policy: Policy, slow: Option<Prosody>, fast: Option<Prosody>)
    requires IsOrdered(policy) && ProsodyPull(slow) <= ProsodyPull(fast)
    ensures IsSlower(policy, slow, fast)
  {
    WindowFollowsPull(policy, ProsodyPull(slow), ProsodyPull(fast));
    forall silenceMs: real ensures SilenceCeiling(silenceMs, policy, slow) <= SilenceCeiling(silenceMs, policy, fast) {
      EarlierWindow(TurnEndWindow(policy, slow), TurnEndWindow(policy, fast), 0.0, silenceMs);
    }
    forall threshold: real
      ensures IsNoLater(SilenceRequiredFor(threshold, policy, fast), SilenceRequiredFor(threshold, policy, slow))
    {
      EarlierWindow(TurnEndWindow(policy, slow), TurnEndWindow(policy, fast), threshold, 0.0);
    }
  }

  /** The likelier the floor was yielded, the sooner: at equal confidence a higher probability never slows the turn end. */
  lemma LikelierIsFaster(policy: Policy, p: Number, p': Number, confidence: Number)
    requires IsOrdered(policy) && Clamp01(p) <= Clamp01(p')
    ensures IsSlower(policy, Says(p, confidence), Says(p', confidence))
  {
    PullOrder(p, confidence, p', confidence);
    LessPullIsSlower(policy, Says(p, confidence), Says(p', confidence));
  }

  /** From one half on the verdict is never slower than no verdict, and up to one half never faster. */
  lemma HalfIsNeutral(policy: Policy, p: Number, confidence: Number)
    requires IsOrdered(policy)
    ensures Clamp01(p) >= 0.5 ==> IsSlower(policy, None, Says(p, confidence))
    ensures Clamp01(p) <= 0.5 ==> IsSlower(policy, Says(p, confidence), None)
  {
    PullOrder(p, confidence, p, confidence);
    if Clamp01(p) >= 0.5 { LessPullIsSlower(policy, None, Says(p, confidence)); }
    if Clamp01(p) <= 0.5 { LessPullIsSlower(policy, Says(p, confidence), None); }
  }

  /** More confidence moves the turn end further the way the probability points. */
  lemma ConfidenceAmplifies(policy: Policy, p: Number, c: Number, c': Number)
    requires IsOrdered(policy) && Clamp01(c) <= Clamp01(c')
    ensures Clamp01(p) >= 0.5 ==> IsSlower(policy, Says(p, c), Says(p, c'))
    ensures Clamp01(p) <= 0.5 ==> IsSlower(policy, Says(p, c'), Says(p, c))
  {
    PullOrder(p, c, p, c');
    if Clamp01(p) >= 0.5 { LessPullIsSlower(policy, Says(p, c), Says(p, c')); }
    if Clamp01(p) <= 0.5 { LessPullIsSlower(policy, Says(p, c'), Says(p, c)); }
  }

  // ----- The fused estimate -----

  predicate YieldsFloor(intent: Intent) {
    intent.ExplicitQuestion? || intent.ClarificationRequest? || intent.HintRequest?
  }

  /** No silence is negative; what is missing or not a number says nothing. */
  function NormalizeSilence(silenceMs: Option<Number>): (silence: Option<real>)
    ensures silence.Some? <==> silenceMs.Some? && silenceMs.value.Finite?
    ensures silence.Some? ==> silence.value >= 0.0 && silence.value >= silenceMs.value.value
    ensures silence.Some? ==> silence.value == 0.0 || silence.value == silenceMs.value.value
  {
    if silenceMs.None? || silenceMs.value.NotFinite? then None
    else Some(if silenceMs.value.value >= 0.0 then silenceMs.value.value else 0.0)
  }

  datatype Turn = Turn(midThought: bool, intent: Intent, textEndProbability: Number,
                       prosody: Option<Prosody>, silenceMs: Option<Number>)

  function EstimateTurnCompletion(turn: Turn, policy: Policy): real {
    var p := Clamp01(turn.textEndProbability);
    var silence := NormalizeSilence(turn.silenceMs);
    if turn.midThought && p > MID_THOUGHT_CEILING then MID_THOUGHT_CEILING
    else if YieldsFloor(turn.intent) then p
    else if silence.None? then p
    else
      var ceiling := SilenceCeiling(silence.value, policy, turn.prosody);
      if p > ceiling then ceiling else p
  }

  /** The caps that apply to a turn besides what its words say. */
  ghost function Caps(turn: Turn, policy: Policy): set<real> {
    var silence := NormalizeSilence(turn.silenceMs);
    (if turn.midThought then {MID_THOUGHT_CEILING} else {}) +
    (if !YieldsFloor(turn.intent) && silence.Some? then {SilenceCeiling(silence.value, policy, turn.prosody)} else {})
  }

  /** The estimate is the least of the words' own probability and every cap: nothing raises it. */
  lemma EstimateIsTheLeastCap(turn: Turn, policy: Policy)
    ensures var p := EstimateTurnCompletion(turn, policy); var text := Clamp01(turn.textEndProbability);
            && p <= text
            && (forall cap :: cap in Caps(turn, policy) ==> p <= cap)
            && (p == text || p in Caps(turn, policy))
  {
    var silence := NormalizeSilence(turn.silenceMs);
    if silence.Some? {
      CeilingRange(silence.value, TurnEndWindow(policy, turn.prosody));
    }
  }

  /** A turn with known timing that hands nothing back clears the threshold only after the required silence. */
  lemma ClearingTakesSilence(turn: Turn, policy: Policy)
    requires HELD_FLOOR_CEILING < policy.threshold <= 1.0
    requires var window := TurnEndWindow(policy, turn.prosody); window.min < window.settled
    requires !YieldsFloor(turn.intent) && NormalizeSilence(turn.silenceMs).Some?
    ensures EstimateTurnCompletion(turn, policy) >= policy.threshold <==>
            && !turn.midThought
            && Clamp01(turn.textEndProbability) >= policy.threshold
            && NormalizeSilence(turn.silenceMs).value >= SilenceRequiredFor(policy.threshold, policy, turn.prosody).ms
  {
    InverseOnWindow(NormalizeSilence(turn.silenceMs).value, policy.threshold, TurnEndWindow(policy, turn.prosody));
  }

  // ----- Holding a turn for silence -----

  /** How long a silenced turn waits before it is judged again, if waiting can change the verdict. */
  function HoldForSilence(turn: Turn, silenceMs: Option<real>, policy: Policy): Option<real> {
    if silenceMs.None? then None
    else if EstimateTurnCompletion(turn, policy) >= policy.threshold then None
    else if Clamp01(turn.textEndProbability) < policy.threshold then None
    else
      match SilenceRequiredFor(policy.threshold, policy, turn.prosody)
      case Never => None
      case After(required) =>
        var waitMs := required - silenceMs.value + 25.0;
        if waitMs <= 0.0 then None else Some(waitMs)
  }

  /**
   Whatever the words and the intent: a turn below the threshold whose words are finished is held
   until 25 ms past the crossing point, and never again once that has passed; any other is not held.
   */
  lemma NeverHeldPastTheCrossing(turn: Turn, silenceMs: real, policy: Policy)
    ensures var wait, crossing := HoldForSilence(turn, Some(silenceMs), policy),
                                  SilenceRequiredFor(policy.threshold, policy, turn.prosody);
            && (wait.Some? <==> EstimateTurnCompletion(turn, policy) < policy.threshold <= Clamp01(turn.textEndProbability)
                                && crossing.After? && silenceMs < crossing.ms + 25.0)
            && (wait.Some? ==> wait.value > 0.0 && silenceMs + wait.value == crossing.ms + 25.0)
  {
    hide EstimateTurnCompletion, SilenceRequiredFor;
  }

  /** A turn held only by the clock is held, and for no more than 25 ms past the crossing point. */
  lemma ClockAloneHolds(turn: Turn, silenceMs: real, policy: Policy)
    requires turn.silenceMs == Some(Finite(silenceMs)) && silenceMs >= 0.0
    requires HELD_FLOOR_CEILING < policy.threshold <= 1.0
    requires var window := TurnEndWindow(policy, turn.prosody); window.min < window.settled
    requires !YieldsFloor(turn.intent) && !turn.midThought && Clamp01(turn.textEndProbability) >= policy.threshold
    ensures EstimateTurnCompletion(turn, policy) < policy.threshold <==> HoldForSilence(turn, Some(silenceMs), policy).Some?
    ensures var wait := HoldForSilence(turn, Some(silenceMs), policy);
            wait.Some? ==> silenceMs + wait.value == SilenceRequiredFor(policy.threshold, policy, turn.prosody).ms + 25.0
  {
    ClearingTakesSilence(turn, policy);
  }

  /** Judged again once the wait has passed, a held turn clears the threshold unless it ends mid-thought. */
  lemma HeldTurnClears(turn: Turn, silenceMs: real, policy: Policy, later: real)
    requires turn.silenceMs == Some(Finite(silenceMs)) && silenceMs >= 0.0
    requires HELD_FLOOR_CEILING < policy.threshold <= 1.0
    requires var window := TurnEndWindow(policy, turn.prosody); window.min < window.settled
    requires var wait := HoldForSilence(turn, Some(silenceMs), policy);
             wait.Some? && later >= silenceMs + wait.value
    ensures EstimateTurnCompletion(turn.(silenceMs := Some(Finite(later))), policy) >= policy.threshold <==> !turn.midThought
  {
    if !YieldsFloor(turn.intent) {
      ClearingTakesSilence(turn.(silenceMs := Some(Finite(later))), policy);
    }
  }

  // ----- The three modes -----

  const LEARNING := Policy(0.75, 1200.0, 2400.0, Some(250.0), Some(600.0), Some(1800.0), Some(3200.0))
  const MOCK := Policy(0.8, 1500.0, 2800.0, Some(300.0), Some(700.0), Some(2200.0), Some(3800.0))
  const STRICT := Policy(0.88, 2200.0, 4000.0, Some(500.0), Some(1200.0), Some(3000.0), Some(5200.0))

  ghost predicate IsMode(policy: Policy) {
    policy == LEARNING || policy == MOCK || policy == STRICT
  }

  /** The least silence a mode ever accepts: its threshold's share of the confident window. */
  ghost function EarliestReply(policy: Policy): real
    requires IsMode(policy)
  {
    var min, settled := policy.minConfident.value, policy.settledConfident.value;
    min + Share(policy.threshold) * (settled - min)
  }

  /** In every mode and for every prosody the window is not empty and the required silence is bounded below. */
  lemma ModesWait(policy: Policy, prosody: Option<Prosody>)
    requires IsMode(policy)
    ensures HELD_FLOOR_CEILING < policy.threshold <= 1.0 && IsOrdered(policy)
    ensures var window := TurnEndWindow(policy, prosody); window.min < window.settled
    ensures SilenceRequiredFor(policy.threshold, policy, prosody).ms >= EarliestReply(policy)
    ensures ProsodyPull(prosody) == 1.0 ==> SilenceRequiredFor(policy.threshold, policy, prosody).ms == EarliestReply(policy)
  {
    NotEmpty(policy, ProsodyPull(prosody));
    RequiredIsBoundedBelow(policy, ProsodyPull(prosody));
  }

  lemma RequiredIsBoundedBelow(policy: Policy, pull: real)
    requires IsMode(policy) && -1.0 <= pull <= 1.0 && WindowAt(policy, pull).min < WindowAt(policy, pull).settled
    ensures RampInverse(policy.threshold, WindowAt(policy, pull)).ms >= EarliestReply(policy)
    ensures pull == 1.0 ==> RampInverse(policy.threshold, WindowAt(policy, pull)).ms == EarliestReply(policy)
  {
    WindowFollowsPull(policy, pull, 1.0);
    var window, fastest := WindowAt(policy, pull), WindowAt(policy, 1.0);
    assert fastest == Window(policy.minConfident.value, policy.settledConfident.value, 1.0);
    assert 0.0 <= Share(policy.threshold) <= 1.0;
    Blend(Share(policy.threshold), fastest.min, fastest.settled, window.min, window.settled);
  }

  lemma NotEmpty(policy: Policy, pull: real)
    requires IsMode(policy) && -1.0 <= pull <= 1.0
    ensures WindowAt(policy, pull).min < WindowAt(policy, pull).settled
  {
    var t := if pull >= 0.0 then pull else -pull;
    var min := if pull >= 0.0 then policy.minConfident.value else policy.minPatient.value;
    var settled := if pull >= 0.0 then policy.settledConfident.value else policy.settledPatient.value;
    assert Lerp(policy.settled, settled, t) - Lerp(policy.min, min, t)
        == (1.0 - t) * (policy.settled - policy.min) + t * (settled - min);
  }

  /** How far a verdict goes from saying nothing to being certain. */
  ghost function Weight(p: Number, c: Number): real {
    Clamp01(c) * (if Clamp01(p) >= 0.5 then 2.0 * Clamp01(p) - 1.0 else 1.0 - 2.0 * Clamp01(p))
  }

  ghost function Mean(w: real, a: real, b: real): real {
    (1.0 - w) * a + w * b
  }

  /** The moment at which a ramp from `min` to `settled` has covered its share for a threshold. */
  ghost function OnRamp(min: real, settled: real, threshold: real): real {
    min + (threshold - 0.35) / (1.0 - 0.35) * (settled - min)
  }

  /** What the mode waits for a certain verdict: its confident pair, or its patient one. */
  ghost function CertainWait(policy: Policy, yielded: bool): real
    requires IsMode(policy)
  {
    if yielded then OnRamp(policy.minConfident.value, policy.settledConfident.value, policy.threshold)
    else OnRamp(policy.minPatient.value, policy.settledPatient.value, policy.threshold)
  }

  lemma WeightIsPull(p: Number, c: Number)
    ensures 0.0 <= Weight(p, c) <= 1.0
    ensures ProsodyPull(Says(p, c)) == if Clamp01(p) >= 0.5 then Weight(p, c) else -Weight(p, c)
  {
    var lean := if Clamp01(p) >= 0.5 then 2.0 * Clamp01(p) - 1.0 else 1.0 - 2.0 * Clamp01(p);
    ScaledMore(0.0, 0.0, Clamp01(c), lean);
    ScaledMore(Clamp01(c), lean, 1.0, 1.0);
    assert Clamp01(c) * -lean == -(Clamp01(c) * lean);
  }

  /** The moment on a window between two others is the mean of the moments on those. */
  lemma BlendedWait(min: real, settled: real, min': real, settled': real, w: real, threshold: real)
    ensures OnRamp(min + (min' - min) * w, settled + (settled' - settled) * w, threshold)
         == Mean(w, OnRamp(min, settled, threshold), OnRamp(min', settled', threshold))
  {
    var share := (threshold - 0.35) / (1.0 - 0.35);
    var d, e := min' - min, settled' - settled;
    assert Mean(w, min, min') == min + d * w && Mean(w, settled, settled') == settled + e * w;
    assert share * ((settled + e * w) - (min + d * w)) == (1.0 - w) * (share * (settled - min)) + w * (share * (settled' - min'));
  }

  lemma InverseIsOnRamp(threshold: real, window: Window)
    requires 0.35 < threshold <= 1.0 && window.min < window.settled
    ensures RampInverse(threshold, window) == After(OnRamp(window.min, window.settled, threshold))
  {
  }

  /** The window is moved by that share of the way to the pair it is pulled towards. */
  lemma WindowIsBlend(policy: Policy, p: Number, c: Number, min: real, settled: real)
    requires IsMode(policy)
    requires min == if Clamp01(p) >= 0.5 then policy.minConfident.value else policy.minPatient.value
    requires settled == if Clamp01(p) >= 0.5 then policy.settledConfident.value else policy.settledPatient.value
    ensures var window := TurnEndWindow(policy, Says(p, c)); var w := Weight(p, c);
            && window.min == policy.min + (min - policy.min) * w && window.settled == policy.settled + (settled - policy.settled) * w
            && window.min < window.settled
  {
    hide ProsodyPull, Weight;
    WeightIsPull(p, c);
    NotEmpty(policy, ProsodyPull(Says(p, c)));
  }

  lemma PlainWait(policy: Policy)
    requires IsMode(policy)
    ensures 0.35 < policy.threshold <= 1.0
    ensures SilenceRequiredFor(policy.threshold, policy, None) == After(OnRamp(policy.min, policy.settled, policy.threshold))
  {
  }

  lemma BlendedWindow(window: Window, lo: real, hi: real, min: real, settled: real, w: real, threshold: real)
    requires window.min == lo + (min - lo) * w && window.settled == hi + (settled - hi) * w
    requires 0.35 < threshold <= 1.0 && window.min < window.settled
    ensures RampInverse(threshold, window) == After(Mean(w, OnRamp(lo, hi, threshold), OnRamp(min, settled, threshold)))
  {
    hide OnRamp, Mean, RampInverse;
    BlendedWait(lo, hi, min, settled, w, threshold);
    InverseIsOnRamp(threshold, window);
  }

  lemma BlendOf(policy: Policy, p: Number, c: Number)
    requires IsMode(policy)
    ensures SilenceRequiredFor(policy.threshold, policy, Says(p, c)) ==
      After(Mean(Weight(p, c), OnRamp(policy.min, policy.settled, policy.threshold), CertainWait(policy, Clamp01(p) >= 0.5)))
  {
    hide Weight, Clamp01, TurnEndWindow, OnRamp, Mean, RampInverse;
    PlainWait(policy);
    var yielded := Clamp01(p) >= 0.5;
    var min := if yielded then policy.minConfident.value else policy.minPatient.value;
    var settled := if yielded then policy.settledConfident.value else policy.settledPatient.value;
    WindowIsBlend(policy, p, c, min, settled);
    BlendedWindow(TurnEndWindow(policy, Says(p, c)), policy.min, policy.settled, min, settled, Weight(p, c), policy.threshold);
  }

  /**
   In every mode the required silence is the mean of what the mode waits without prosody and of
   what it waits for a certain verdict the same way, weighted by how certain this one is.
   */
  lemma RequiredIsBlend(policy: Policy, p: Number, c: Number)
    requires IsMode(policy)
    ensures SilenceRequiredFor(policy.threshold, policy, None) == After(OnRamp(policy.min, policy.settled, policy.threshold))
    ensures SilenceRequiredFor(policy.threshold, policy, Says(p, c)) ==
      After(Mean(Weight(p, c), OnRamp(policy.min, policy.settled, policy.threshold), CertainWait(policy, Clamp01(p) >= 0.5)))
  {
    PlainWait(policy);
    BlendOf(policy, p, c);
  }

  /** So certainty that the floor was yielded attains the confident wait, and certainty that it was not the patient one. */
  lemma CertaintyAttains(policy: Policy)
    requires IsMode(policy)
    ensures SilenceRequiredFor(policy.threshold, policy, Says(Finite(1.0), Finite(1.0))) == After(CertainWait(policy, true))
    ensures SilenceRequiredFor(policy.threshold, policy, Says(Finite(0.0), Finite(1.0))) == After(CertainWait(policy, false))
  {
    BlendOf(policy, Finite(1.0), Finite(1.0));
    BlendOf(policy, Finite(0.0), Finite(1.0));
    assert Weight(Finite(1.0), Finite(1.0)) == Weight(Finite(0.0), Finite(1.0)) == 1.0;
    var plain := OnRamp(policy.min, policy.settled, policy.threshold);
    AllWeight(plain, CertainWait(policy, true));
    AllWeight(plain, CertainWait(policy, false));
    hide OnRamp, CertainWait, Mean, SilenceRequiredFor, IsMode, Weight;
  }

  /** And its window is then exactly the pair of the mode for that certainty. */
  lemma CertaintyGivesThePair(policy: Policy)
    requires IsMode(policy)
    ensures var w := TurnEndWindow(policy, Says(Finite(1.0), Finite(1.0)));
            w.min == policy.minConfident.value && w.settled == policy.settledConfident.value
    ensures var w := TurnEndWindow(policy, Says(Finite(0.0), Finite(1.0)));
            w.min == policy.minPatient.value && w.settled == policy.settledPatient.value
    ensures var w := TurnEndWindow(policy, None); w.min == policy.min && w.settled == policy.settled
  {
    assert Weight(Finite(1.0), Finite(1.0)) == Weight(Finite(0.0), Finite(1.0)) == 1.0;
    hide Weight, IsMode;
    WindowIsBlend(policy, Finite(1.0), Finite(1.0), policy.minConfident.value, policy.settledConfident.value);
    WindowIsBlend(policy, Finite(0.0), Finite(1.0), policy.minPatient.value, policy.settledPatient.value);
    PlainWindow(policy);
    hide TurnEndWindow;
  }

  lemma PlainWindow(policy: Policy)
    ensures TurnEndWindow(policy, None).min == policy.min && TurnEndWindow(policy, None).settled == policy.settled
  {
  }

  lemma AllWeight(a: real, b: real)
    ensures Mean(1.0, a, b) == b
  {
  }

  /** A question, a request for clarification and a request for a hint hand the floor back: no silence is asked for, and only of these. */
  lemma OnlyRequestsSkipTheWait(turn: Turn, policy: Policy, silenceMs: real)
    requires turn.silenceMs == Some(Finite(silenceMs)) && silenceMs >= 0.0
    ensures var words := Clamp01(turn.textEndProbability); var p := EstimateTurnCompletion(turn, policy);
            var capped := if turn.midThought && words > 0.2 then 0.2 else words;
            var ceiling := SilenceCeiling(silenceMs, policy, turn.prosody);
            if turn.intent in {ExplicitQuestion, ClarificationRequest, HintRequest} then p == capped
            else p == if capped > ceiling then ceiling else capped
  {
    CeilingRange(silenceMs, TurnEndWindow(policy, turn.prosody));
  }

  /** MOCK never accepts less than 9/13 of its confident window, and 2400 ms when the audio said nothing. */
  lemma MockFloor(prosody: Option<Prosody>)
    ensures SilenceRequiredFor(MOCK.threshold, MOCK, prosody).ms >= 300.0 + 9.0 / 13.0 * 400.0
    ensures prosody.None? ==> SilenceRequiredFor(MOCK.threshold, MOCK, prosody).ms == 2400.0
  {
    ModesWait(MOCK, prosody);
    assert Share(MOCK.threshold) == 9.0 / 13.0;
  }
}
