/**
 The response gate: should the interviewer speak right now?
 (apps/api/src/modules/orchestrator/gate.ts, packages/contracts/src/interview-state.ts).

 Rules 0 to 3b are spelled out. What the later rules (answers, hints, probes, follow-ups)
 would authorize is an input, since they read the scenario.
 */
module Gate {
  import opened Wrappers
  import opened TurnCompletion

  datatype Stage =
    | OralProblemDelivery | Clarification | ApproachExploration | Implementation
    | TestAndDebug | FollowUp | WrapUp | Evaluation

  datatype Action =
    | StaySilent | DeliverBrief | AcknowledgeBriefly | AnswerClarification | AskProbe
    | GiveHintL1 | GiveHintL2 | TransitionStage | PresentFollowUp | EndInterview

  function AllowedActions(stage: Stage): set<Action> {
    match stage
    case OralProblemDelivery => {StaySilent, DeliverBrief, TransitionStage}
    case Clarification => {StaySilent, AcknowledgeBriefly, AnswerClarification, DeliverBrief, TransitionStage}
    case ApproachExploration =>
      {StaySilent, DeliverBrief, AcknowledgeBriefly, AnswerClarification, AskProbe, GiveHintL1, TransitionStage}
    case Implementation => {StaySilent, DeliverBrief, AnswerClarification, AskProbe, GiveHintL1, TransitionStage}
    case TestAndDebug =>
      {StaySilent, DeliverBrief, AcknowledgeBriefly, AnswerClarification, AskProbe, GiveHintL1, GiveHintL2, TransitionStage}
    case FollowUp => {StaySilent, AcknowledgeBriefly, AnswerClarification, AskProbe, PresentFollowUp, TransitionStage}
    case WrapUp => {StaySilent, AcknowledgeBriefly, EndInterview}
    case Evaluation => {}
  }

  /** What the gate looks at; `later` is what rules 4 to 10 would decide for the turn. */
  datatype Context = Context(
    stage: Stage, turn: Option<JudgedTurn>, threshold: real,
    interviewerSpeaking: bool, candidateStarted: bool, candidateSpeakingNow: bool,
    briefDeliveryCount: nat, redeliveryPending: bool, later: Action)

  datatype JudgedTurn = JudgedTurn(finalized: bool, endProbability: real, asksForBrief: bool)

  function Decide(ctx: Context): Action {
    if ctx.stage == OralProblemDelivery && ctx.briefDeliveryCount == 0 && !ctx.interviewerSpeaking then DeliverBrief
    else if ctx.redeliveryPending && ctx.turn.None? && !ctx.interviewerSpeaking && !ctx.candidateSpeakingNow then DeliverBrief
    else if ctx.interviewerSpeaking && ctx.candidateStarted then StaySilent
    else if ctx.candidateSpeakingNow then StaySilent
    else if ctx.turn.None? || !ctx.turn.value.finalized then StaySilent
    else if ctx.turn.value.endProbability < ctx.threshold then StaySilent
    else if ctx.redeliveryPending then DeliverBrief
    else if ctx.turn.value.asksForBrief && ctx.briefDeliveryCount > 0 then DeliverBrief
    else ctx.later
  }

  function DecideAction(ctx: Context): Action {
    var decision := Decide(ctx);
    if decision in AllowedActions(ctx.stage) then decision else StaySilent
  }

  /** The interview has not been opened: the one case in which the gate speaks without a turn to answer. */
  ghost predicate OwesTheOpening(ctx: Context) {
    ctx.stage == OralProblemDelivery && ctx.briefDeliveryCount == 0 && !ctx.interviewerSpeaking
  }

  /** The context in which the runtime judges a turn: the fused estimate is what is thresholded. */
  ghost predicate Judges(ctx: Context, turn: Turn, policy: Policy) {
    && ctx.threshold == policy.threshold
    && ctx.turn.Some? && ctx.turn.value.endProbability == EstimateTurnCompletion(turn, policy)
  }

  /**
   No early reply: in every mode, whatever the later rules want, an answer to a turn that
   hands nothing back and whose timing is known comes only after the silence its prosody
   requires, which is never below the mode's floor; the words are finished, the candidate is
   quiet and not cutting in.
   */
  lemma NoEarlyReply(ctx: Context, turn: Turn, policy: Policy)
    requires IsMode(policy) && Judges(ctx, turn, policy)
    requires !OwesTheOpening(ctx) && DecideAction(ctx) != StaySilent
    requires !YieldsFloor(turn.intent) && NormalizeSilence(turn.silenceMs).Some?
    ensures var silence := NormalizeSilence(turn.silenceMs).value;
            && silence >= SilenceRequiredFor(policy.threshold, policy, turn.prosody).ms >= EarliestReply(policy)
            && !turn.midThought && Clamp01(turn.textEndProbability) >= policy.threshold
    ensures ctx.turn.value.finalized && !ctx.candidateSpeakingNow && !(ctx.interviewerSpeaking && ctx.candidateStarted)
  {
    ModesWait(policy, turn.prosody);
    ClearingTakesSilence(turn, policy);
  }

  /** Before that silence has passed the gate speaks exactly when it still owes the opening. */
  lemma EarlyTurnsHearOnlyTheOpening(ctx: Context, turn: Turn, policy: Policy)
    requires IsMode(policy) && Judges(ctx, turn, policy)
    requires !YieldsFloor(turn.intent) && NormalizeSilence(turn.silenceMs).Some?
    requires NormalizeSilence(turn.silenceMs).value < SilenceRequiredFor(policy.threshold, policy, turn.prosody).ms
    ensures DecideAction(ctx) != StaySilent <==> OwesTheOpening(ctx)
  {
    ModesWait(policy, turn.prosody);
    ClearingTakesSilence(turn, policy);
  }

  /** A turn held for silence and judged again on time is answered if the later rules have an answer. */
  lemma HeldTurnIsAnswered(ctx: Context, turn: Turn, silenceMs: real, later: real, policy: Policy)
    requires IsMode(policy) && turn.silenceMs == Some(Finite(silenceMs)) && silenceMs >= 0.0
    requires HoldForSilence(turn, Some(silenceMs), policy).Some?
    requires later >= silenceMs + HoldForSilence(turn, Some(silenceMs), policy).value
    requires Judges(ctx, turn.(silenceMs := Some(Finite(later))), policy) && ctx.turn.value.finalized
    requires !ctx.candidateSpeakingNow && !(ctx.interviewerSpeaking && ctx.candidateStarted)
    requires ctx.briefDeliveryCount > 0 && !ctx.redeliveryPending && !ctx.turn.value.asksForBrief
    ensures DecideAction(ctx) == if !turn.midThought && ctx.later in AllowedActions(ctx.stage) then ctx.later else StaySilent
  {
    ModesWait(policy, turn.prosody);
    HeldTurnClears(turn, silenceMs, policy, later);
  }
}
