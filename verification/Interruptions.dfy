/**
 What each message of the provider and each call of the shell brings about on the live voice
 connection, in every run: which callbacks run, what is asked for and cancelled, who is heard
 to be speaking, and that a stop word or 400 ms of loud voice does interrupt
 (apps/web/lib/realtime-voice.ts).
 */
module Interruptions {
  import opened Wrappers
  import opened RealtimeVoice
  import opened BargeIn
  import opened PreRoll
  import Vad

  // ----- Reading the trace -----

  ghost function HowMany(trace: seq<Item>, what: Item): nat {
    if trace == [] then 0 else HowMany(trace[..|trace| - 1], what) + if trace[|trace| - 1] == what then 1 else 0
  }

  /** The utterances asked for, in order. */
  ghost function Asked(trace: seq<Item>): seq<string> {
    if trace == [] then []
    else Asked(trace[..|trace| - 1]) + if trace[|trace| - 1].Ask? then [trace[|trace| - 1].utteranceId] else []
  }

  /** The utterance asked for last, unless its request has come to an end since. */
  ghost function Pending(trace: seq<Item>): Option<string> {
    if trace == [] || EndsRequest(trace[|trace| - 1]) then None
    else if trace[|trace| - 1].Ask? then Some(trace[|trace| - 1].utteranceId)
    else Pending(trace[..|trace| - 1])
  }

  lemma Grown(trace: seq<Item>, item: Item)
    ensures forall what :: HowMany(trace + [item], what) == HowMany(trace, what) + if item == what then 1 else 0
    ensures Asked(trace + [item]) == Asked(trace) + if item.Ask? then [item.utteranceId] else []
    ensures Pending(trace + [item]) ==
              if EndsRequest(item) then None else if item.Ask? then Some(item.utteranceId) else Pending(trace)
  {
    assert (trace + [item])[..|trace|] == trace;
  }

  /** The items that say what became of the model's speech. */
  predicate IsNews(item: Item) {
    item in {ModelAudio, TurnComplete, Confirmed, Interrupted, Cancelled, Lost}
  }

  /** From `before` to `after` only boundaries and audio of the candidate were added. */
  ghost predicate OnlySpeech(before: seq<Item>, after: seq<Item>) {
    && before <= after && Asked(after) == Asked(before) && Pending(after) == Pending(before)
    && forall what :: IsNews(what) ==> HowMany(after, what) == HowMany(before, what)
  }

  lemma SpeechGrown(trace: seq<Item>, item: Item)
    requires item.ActivityStart? || item.ActivityEnd? || item.Audio?
    ensures OnlySpeech(trace, trace + [item])
  {
    Grown(trace, item);
  }

  lemma {:induction false} AudioGrown(trace: seq<Item>, frames: seq<Frame>)
    ensures OnlySpeech(trace, trace + AudioOf(frames))
  {
    if frames == [] {
      assert trace + [] == trace;
    } else {
      var init, last := frames[..|frames| - 1], Audio(frames[|frames| - 1]);
      AudioGrown(trace, init);
      assert trace + AudioOf(frames) == trace + AudioOf(init) + [last];
      SpeechGrown(trace + AudioOf(init), last);
    }
  }

  // ----- Calls of the shell -----

  /** The connection is set up and carries data. */
  predicate IsLive(s: State) {
    s.ready && s.phase.Open?
  }

  function Requests(calls: seq<Call>): seq<string> {
    if calls == [] then []
    else
      var last := calls[|calls| - 1];
      Requests(calls[..|calls| - 1]) + if last.RequestSpeech? then [last.utteranceId] else []
  }

  /** A request cancels the one before it if it is sent at all. */
  function Cancellations(calls: seq<Call>, live: bool): nat {
    if calls == [] then 0
    else
      var last := calls[|calls| - 1];
      Cancellations(calls[..|calls| - 1], live) + if last.CancelSpeech? || (last.RequestSpeech? && live) then 1 else 0
  }

  /** Whether cached speech plays, by the last note about it. */
  function LocalAfter(calls: seq<Call>, before: bool): bool {
    if calls == [] then before
    else
      var last := calls[|calls| - 1];
      if last.NoteLocalPlayback? then last.active else LocalAfter(calls[..|calls| - 1], before)
  }

  function ModelAfter(calls: seq<Call>, before: bool): bool {
    if calls == [] then before
    else
      var last := calls[|calls| - 1];
      if last.NoteModelPlayback? then last.active else ModelAfter(calls[..|calls| - 1], before)
  }

  predicate OnlyRequests(calls: seq<Call>) {
    forall call :: call in calls ==> call.RequestSpeech?
  }

  /** The interviewer is heard as before, or as the playback tells once anything but a request was called. */
  predicate HearsAfter(calls: seq<Call>, before: bool, floor: Floor) {
    floor.interviewerSpeaking == if OnlyRequests(calls) then before else floor.localPlayback || floor.modelPlayback
  }

  /** `calls`, made one after the other, take `s` to `t`. */
  ghost predicate TakesEffect(s: State, t: State, calls: seq<Call>) {
    && s.trace <= t.trace && t.phase == s.phase && t.ready == s.ready
    && Asked(t.trace) == Asked(s.trace) + (if IsLive(s) then Requests(calls) else [])
    && HowMany(t.trace, Cancelled) == HowMany(s.trace, Cancelled) + Cancellations(calls, IsLive(s))
    && (forall what :: IsNews(what) && what != Cancelled ==> HowMany(t.trace, what) == HowMany(s.trace, what))
    && t.floor.localPlayback == LocalAfter(calls, s.floor.localPlayback)
    && t.floor.modelPlayback == ModelAfter(calls, s.floor.modelPlayback)
    && HearsAfter(calls, s.floor.interviewerSpeaking, t.floor)
  }

  lemma OpenGrows(s: State)
    ensures OnlySpeech(s.trace, OpenInput(s).trace) && OpenInput(s) == s.(mic := OpenInput(s).mic, trace := OpenInput(s).trace)
  {
    SpeechGrown(s.trace, ActivityStart);
    AudioGrown(s.trace, s.mic.preSpeech);
    AudioGrown(s.trace + [ActivityStart], s.mic.preSpeech);
  }

  lemma ReleaseGrows(s: State)
    ensures OnlySpeech(s.trace, Released(s).trace) && Released(s) == s.(mic := Released(s).mic, trace := Released(s).trace)
  {
    hide OpenInput, OnlySpeech;
    OpenGrows(s.(mic := s.mic.(deferredActivity := false)));
    AudioGrown(s.trace, []);
    assert s.trace + [] == s.trace;
  }

  lemma ChangeGrows(s: State)
    ensures var t := AfterInterviewerChange(s);
            OnlySpeech(s.trace, t.trace) && t == s.(mic := t.mic, trace := t.trace)
  {
    hide Released, OnlySpeech;
    ReleaseGrows(s);
    AudioGrown(s.trace, []);
    assert s.trace + [] == s.trace;
  }

  lemma CallsGrown(calls: seq<Call>, call: Call)
    ensures var all := calls + [call];
            && Requests(all) == Requests(calls) + (if call.RequestSpeech? then [call.utteranceId] else [])
            && (forall live :: Cancellations(all, live) ==
                  Cancellations(calls, live) + if call.CancelSpeech? || (call.RequestSpeech? && live) then 1 else 0)
            && (forall on :: LocalAfter(all, on) == if call.NoteLocalPlayback? then call.active else LocalAfter(calls, on))
            && (forall on :: ModelAfter(all, on) == if call.NoteModelPlayback? then call.active else ModelAfter(calls, on))
            && (OnlyRequests(all) <==> OnlyRequests(calls) && call.RequestSpeech?)
  {
    var all := calls + [call];
    assert all[..|calls|] == calls && all[|calls|] == call;
    assert call in all && forall other :: other in calls ==> other in all;
  }

  /** What a single call does. */
  ghost predicate HasEffect(s: State, t: State, call: Call) {
    && s.trace <= t.trace && t.phase == s.phase && t.ready == s.ready
    && Asked(t.trace) == Asked(s.trace) + (if call.RequestSpeech? && IsLive(s) then [call.utteranceId] else [])
    && HowMany(t.trace, Cancelled) ==
         HowMany(s.trace, Cancelled) + (if call.CancelSpeech? || (call.RequestSpeech? && IsLive(s)) then 1 else 0)
    && (forall what :: IsNews(what) && what != Cancelled ==> HowMany(t.trace, what) == HowMany(s.trace, what))
    && t.floor.localPlayback == (if call.NoteLocalPlayback? then call.active else s.floor.localPlayback)
    && t.floor.modelPlayback == (if call.NoteModelPlayback? then call.active else s.floor.modelPlayback)
    && t.floor.interviewerSpeaking ==
         if call.RequestSpeech? then s.floor.interviewerSpeaking else t.floor.localPlayback || t.floor.modelPlayback
  }

  lemma CallHasEffect(s: State, call: Call)
    ensures HasEffect(s, Called(s, call), call)
  {
    hide AfterInterviewerChange, HasEffect, Requested, Invalidated;
    match call {
      case RequestSpeech(utteranceId) => RequestHasEffect(s, utteranceId);
      case CancelSpeech =>
        var u := Invalidated(s, Cancelled).(floor := Heard(s.floor.localPlayback, s.floor.modelPlayback));
        CancelHasEffect(s, u);
        ChangeHasEffect(s, u, call);
      case NoteLocalPlayback(active) =>
        NoteHasEffect(s, call);
        ChangeHasEffect(s, s.(floor := Heard(active, s.floor.modelPlayback)), call);
      case NoteModelPlayback(active) =>
        NoteHasEffect(s, call);
        ChangeHasEffect(s, s.(floor := Heard(s.floor.localPlayback, active)), call);
    }
  }

  lemma RequestHasEffect(s: State, utteranceId: string)
    ensures HasEffect(s, Requested(s, utteranceId), RequestSpeech(utteranceId))
  {
    hide HowMany, Asked, Pending;
    Grown(s.trace, Cancelled);
    Grown(s.trace + [Cancelled], Ask(utteranceId));
  }

  lemma CancelHasEffect(s: State, u: State)
    requires u == Invalidated(s, Cancelled).(floor := Heard(s.floor.localPlayback, s.floor.modelPlayback))
    ensures HasEffect(s, u, CancelSpeech)
  {
    Grown(s.trace, Cancelled);
  }

  lemma NoteHasEffect(s: State, call: Call)
    ensures call.NoteLocalPlayback? ==> HasEffect(s, s.(floor := Heard(call.active, s.floor.modelPlayback)), call)
    ensures call.NoteModelPlayback? ==> HasEffect(s, s.(floor := Heard(s.floor.localPlayback, call.active)), call)
  {
  }

  /** Taking stock afterwards adds nothing but speech. */
  lemma ChangeHasEffect(s: State, u: State, call: Call)
    requires HasEffect(s, u, call)
    ensures HasEffect(s, AfterInterviewerChange(u), call)
  {
    hide AfterInterviewerChange;
    ChangeGrows(u);
  }

  /** One call more. */
  lemma EffectsAddUp(s: State, t: State, u: State, calls: seq<Call>, call: Call)
    requires TakesEffect(s, t, calls) && HasEffect(t, u, call)
    ensures TakesEffect(s, u, calls + [call])
  {
    hide Requests, Cancellations, LocalAfter, ModelAfter, OnlyRequests;
    CallsGrown(calls, call);
  }

  lemma {:induction false} ReactionTakesEffect(s: State, calls: seq<Call>)
    ensures TakesEffect(s, Reacted(s, calls), calls)
  {
    hide Called, TakesEffect, HasEffect;
    if calls == [] {
      NothingTakesEffect(s);
    } else {
      var init, last := calls[..|calls| - 1], calls[|calls| - 1];
      ReactionTakesEffect(s, init);
      CallHasEffect(Reacted(s, init), last);
      EffectsAddUp(s, Reacted(s, init), Reacted(s, calls), init, last);
      assert init + [last] == calls;
    }
  }

  lemma NothingTakesEffect(s: State)
    ensures TakesEffect(s, s, [])
  {
  }

  // ----- Messages of the provider -----

  /** `what` happened and the shell reacted, with the interviewer heard as in `floor` when it did. */
  ghost predicate Happens(s: State, t: State, what: Item, calls: seq<Call>, floor: Floor) {
    && s.trace <= t.trace && t.phase == s.phase && t.ready == s.ready
    && Asked(t.trace) == Asked(s.trace) + (if IsLive(s) then Requests(calls) else [])
    && HowMany(t.trace, Cancelled) == HowMany(s.trace, Cancelled) + Cancellations(calls, IsLive(s))
    && (forall item :: IsNews(item) && item != Cancelled ==>
          HowMany(t.trace, item) == HowMany(s.trace, item) + if item == what then 1 else 0)
    && t.floor.localPlayback == LocalAfter(calls, floor.localPlayback)
    && t.floor.modelPlayback == ModelAfter(calls, floor.modelPlayback)
    && HearsAfter(calls, floor.interviewerSpeaking, t.floor)
  }

  lemma HappensFrom(s: State, u: State, t: State, what: Item, calls: seq<Call>)
    requires IsNews(what) && what != Cancelled && u.phase == s.phase && u.ready == s.ready
    requires OnlySpeech(s.trace + [what], u.trace) && TakesEffect(u, t, calls)
    ensures Happens(s, t, what, calls, u.floor) && s.trace + [what] <= t.trace
  {
    hide Requests, Cancellations, LocalAfter, ModelAfter, OnlyRequests;
    Grown(s.trace, what);
  }

  lemma NoSpeech(trace: seq<Item>)
    ensures OnlySpeech(trace, trace)
  {
  }

  lemma AudioHappens(s: State, m: Content)
    requires m.audio && s.request.accepting
    ensures Happens(s, OnAudio(s, m), ModelAudio, m.onAudio, s.floor.(interviewerSpeaking := true))
  {
    hide TakesEffect, Happens, OnlySpeech, Reacted;
    var u := s.(floor := s.floor.(interviewerSpeaking := true), request := s.request.(audioThisTurn := true),
                trace := s.trace + [ModelAudio]);
    NoSpeech(u.trace);
    ReactionTakesEffect(u, m.onAudio);
    HappensFrom(s, u, OnAudio(s, m), ModelAudio, m.onAudio);
  }

  lemma InterruptionHappens(s: State, m: Content)
    requires m.interrupted && s.request.accepting && !s.floor.localPlayback
    ensures Happens(s, OnInterrupted(s, m), Interrupted, m.onInterrupted, s.floor.(interviewerSpeaking := false))
  {
    hide TakesEffect, Happens, OnlySpeech, Reacted;
    var u := Invalidated(s.(floor := s.floor.(interviewerSpeaking := false)), Interrupted);
    NoSpeech(u.trace);
    ReactionTakesEffect(u, m.onInterrupted);
    HappensFrom(s, u, OnInterrupted(s, m), Interrupted, m.onInterrupted);
  }

  /** The interviewer after an interruption is confirmed: quiet, with the held boundary opened. */
  ghost function Yielded(s: State): State {
    Released(Invalidated(NoBarge(s).(floor := Heard(false, false)), Confirmed))
  }

  lemma ConfirmationHappens(s: State, calls: seq<Call>)
    requires s.mic.provisionalBargeAt.Some?
    ensures Happens(s, ConfirmBargeIn(s, calls), Confirmed, calls, Floor(false, false, false))
    ensures ConfirmBargeIn(s, calls) == Reacted(Yielded(s), calls)
  {
    hide TakesEffect, Happens, OnlySpeech, Reacted, Released;
    ReleaseGrows(Invalidated(NoBarge(s).(floor := Heard(false, false)), Confirmed));
    ReactionTakesEffect(Yielded(s), calls);
    HappensFrom(s, Yielded(s), ConfirmBargeIn(s, calls), Confirmed, calls);
  }

  lemma CompletionHappens(s: State, m: Content)
    requires m.turnComplete
    ensures Happens(s, OnTurnComplete(s, m), TurnComplete, m.onComplete,
                    Floor(s.floor.localPlayback || s.floor.modelPlayback, s.floor.localPlayback, s.floor.modelPlayback))
  {
    hide TakesEffect, Happens, OnlySpeech, Reacted, AfterInterviewerChange;
    var u := s.(request := TurnOver(s.request), floor := Heard(s.floor.localPlayback, s.floor.modelPlayback),
                trace := s.trace + [TurnComplete]);
    NoSpeech(u.trace);
    ReactionTakesEffect(u, m.onComplete);
    var v := Reacted(u, m.onComplete);
    HappensFrom(s, u, v, TurnComplete, m.onComplete);
    ChangeGrows(v);
    HappensStill(s, v, AfterInterviewerChange(v), TurnComplete, m.onComplete, u.floor);
  }

  lemma HappensStill(s: State, t: State, u: State, what: Item, calls: seq<Call>, floor: Floor)
    requires Happens(s, t, what, calls, floor) && OnlySpeech(t.trace, u.trace)
    requires u == t.(mic := u.mic, trace := u.trace)
    ensures Happens(s, u, what, calls, floor)
  {
    hide Requests, Cancellations, LocalAfter, ModelAfter, OnlyRequests;
  }

  /** The first `parts` of what a message may carry: audio, an interruption, a transcript, the end of a turn. */
  function Cut(m: Content, parts: nat): Content {
    m.(audio := m.audio && parts > 0, interrupted := m.interrupted && parts > 1,
       stopWord := m.stopWord && parts > 2, turnComplete := m.turnComplete && parts > 3)
  }

  /** Where the first `parts` of the message at `n` lead. */
  ghost function After(h: History, n: nat, parts: nat): State
    requires n < |h.inputs| && h.inputs[n].Provider?
  {
    Step(h.config, h.states[n], Provider(Cut(h.inputs[n].content, parts)))
  }

  lemma CutSteps(c: Config, s: State, m: Content)
    ensures Step(c, s, Provider(Cut(m, 0))) == s
    ensures Step(c, s, Provider(Cut(m, 1))) == OnAudio(s, m)
    ensures Step(c, s, Provider(Cut(m, 2))) == OnInterrupted(OnAudio(s, m), m)
    ensures Step(c, s, Provider(Cut(m, 3))) == OnTranscript(OnInterrupted(OnAudio(s, m), m), m)
    ensures Step(c, s, Provider(Cut(m, 4))) == OnContent(s, m)
  {
    hide Reacted, ConfirmBargeIn, AfterInterviewerChange, Invalidated, Heard, TurnOver;
  }

  /**
   In every run, a message acts part by part. Audio counts exactly while an answer is outstanding,
   and then the interviewer is heard; an interruption by the provider counts exactly while one is
   outstanding and no cached speech plays, and then the interviewer is quiet; a stop word counts
   exactly while an interruption is undecided, and then all playback is over; the end of a turn
   always counts, and then the interviewer is heard as long as playback goes on. The shell's calls
   of exactly those parts take effect, in order.
   */
  lemma MessagesTakeEffect(h: History, n: nat)
    requires IsRun(h) && n < |h.inputs| && h.inputs[n].Provider?
    ensures After(h, n, 0) == h.states[n] && After(h, n, 4) == h.states[n + 1]
    ensures var m, s, t := h.inputs[n].content, After(h, n, 0), After(h, n, 1);
            if m.audio && !Generating(s.trace).Idle?
            then Happens(s, t, ModelAudio, m.onAudio, s.floor.(interviewerSpeaking := true)) else t == s
    ensures var m, s, t := h.inputs[n].content, After(h, n, 1), After(h, n, 2);
            if m.interrupted && !Generating(s.trace).Idle? && !s.floor.localPlayback
            then Happens(s, t, Interrupted, m.onInterrupted, s.floor.(interviewerSpeaking := false)) else t == s
    ensures var m, s, t := h.inputs[n].content, After(h, n, 2), After(h, n, 3);
            if m.stopWord && s.mic.provisionalBargeAt.Some?
            then Happens(s, t, Confirmed, m.onConfirmed, Floor(false, false, false)) else t == s
    ensures var m, s, t := h.inputs[n].content, After(h, n, 3), After(h, n, 4);
            if m.turnComplete
            then Happens(s, t, TurnComplete, m.onComplete,
                         s.floor.(interviewerSpeaking := s.floor.localPlayback || s.floor.modelPlayback)) else t == s
  {
    hide Happens, Inv, OnAudio, OnInterrupted, OnTranscript, OnTurnComplete;
    var c, s, m := h.config, h.states[n], h.inputs[n].content;
    InvHolds(h, n);
    assert IsStep(h, n);
    CutSteps(c, s, m);
    PartsHappen(s, m);
  }

  lemma PartsHappen(s: State, m: Content)
    requires Inv(s)
    ensures var t := OnAudio(s, m);
            if m.audio && !Generating(s.trace).Idle?
            then Happens(s, t, ModelAudio, m.onAudio, s.floor.(interviewerSpeaking := true)) else t == s
    ensures var s := OnAudio(s, m); var t := OnInterrupted(s, m);
            if m.interrupted && !Generating(s.trace).Idle? && !s.floor.localPlayback
            then Happens(s, t, Interrupted, m.onInterrupted, s.floor.(interviewerSpeaking := false)) else t == s
    ensures var s := OnInterrupted(OnAudio(s, m), m); var t := OnTranscript(s, m);
            if m.stopWord && s.mic.provisionalBargeAt.Some?
            then Happens(s, t, Confirmed, m.onConfirmed, Floor(false, false, false)) else t == s
    ensures var s := OnTranscript(OnInterrupted(OnAudio(s, m), m), m); var t := OnTurnComplete(s, m);
            if m.turnComplete
            then Happens(s, t, TurnComplete, m.onComplete,
                         s.floor.(interviewerSpeaking := s.floor.localPlayback || s.floor.modelPlayback)) else t == s
  {
    hide Happens, Reacted, Released;
    if m.audio && s.request.accepting { AudioHappens(s, m); }
    AudioKeeps(s, m);
    var t := OnAudio(s, m);
    if m.interrupted && t.request.accepting && !t.floor.localPlayback { InterruptionHappens(t, m); }
    var u := OnInterrupted(t, m);
    if m.stopWord && u.mic.provisionalBargeAt.Some? { ConfirmationHappens(u, m.onConfirmed); }
    if m.turnComplete { CompletionHappens(OnTranscript(u, m), m); }
  }

  /** A call from outside a callback has the effect of that one call. */
  lemma CallsTakeEffect(h: History, n: nat)
    requires IsRun(h) && n < |h.inputs| && h.inputs[n].Shell?
    ensures HasEffect(h.states[n], h.states[n + 1], h.inputs[n].call)
  {
    hide Called, HasEffect;
    assert IsStep(h, n);
    CallHasEffect(h.states[n], h.inputs[n].call);
  }

  // ----- A stop word interrupts -----

  /** What an activity that is opened puts on the wire. */
  ghost function Opening(s: State, frames: seq<Frame>): seq<Item> {
    if IsLive(s) then [ActivityStart] + AudioOf(frames) else []
  }

  /** What confirming an undecided interruption puts on the wire, before the shell reacts. */
  ghost function Confirming(s: State, heldBack: bool, frames: seq<Frame>): seq<Item> {
    [Confirmed] + if heldBack then Opening(s, frames) else []
  }

  lemma YieldedIs(s: State)
    requires Inv(s) && s.mic.provisionalBargeAt.Some?
    ensures var t := Yielded(s);
            && t.trace == s.trace + Confirming(s, s.mic.deferredActivity, s.mic.preSpeech)
            && t.mic == (if s.mic.deferredActivity then Cleared(s.mic).(activityOpen := IsLive(s) || s.mic.activityOpen) else s.mic)
                        .(provisionalBargeAt := None, deferredActivity := false)
            && t.floor == Floor(false, false, false) && !t.request.generating && !t.request.accepting
            && t == s.(floor := t.floor, request := t.request, mic := t.mic, trace := t.trace)
  {
    assert s.trace + [Confirmed] + [] == s.trace + [Confirmed];
    assert s.trace + [Confirmed] + [ActivityStart] + AudioOf(s.mic.preSpeech) ==
           s.trace + ([Confirmed] + ([ActivityStart] + AudioOf(s.mic.preSpeech)));
  }

  /** With nothing held back or undecided, the shell's calls leave the microphone alone. */
  lemma {:induction false} SettledReaction(s: State, calls: seq<Call>)
    requires !s.mic.deferredActivity && s.mic.provisionalBargeAt.None?
    ensures Reacted(s, calls).mic == s.mic && s.trace <= Reacted(s, calls).trace && Reacted(s, calls).vad == s.vad
  {
    hide Called;
    if calls != [] {
      SettledReaction(s, calls[..|calls| - 1]);
      SettledCall(Reacted(s, calls[..|calls| - 1]), calls[|calls| - 1]);
    }
  }

  lemma SettledCall(s: State, call: Call)
    requires !s.mic.deferredActivity && s.mic.provisionalBargeAt.None?
    ensures var t := Called(s, call); t.mic == s.mic && s.trace <= t.trace && t.vad == s.vad
  {
  }

  /**
   In every run: a message with a stop word that finds an interruption undecided confirms it at
   once. On a live connection a boundary that was held back is opened and all that was held
   follows; after that nothing is undecided or held back. Unless the shell reacts or the message
   goes on, the interviewer is quiet and no answer is outstanding. If nothing is undecided, the
   stop word does nothing.
   */
  lemma StopWordConfirms(h: History, n: nat)
    requires IsRun(h) && n < |h.inputs| && h.inputs[n].Provider? && h.inputs[n].content.stopWord
    ensures var m, s, u, t := h.inputs[n].content, h.states[n], After(h, n, 2), h.states[n + 1];
            if u.mic.provisionalBargeAt.None? then Confirmations(t.trace) == Confirmations(s.trace)
            else
              var said := u.trace + Confirming(u, u.mic.deferredActivity, u.mic.preSpeech);
              && Confirmations(t.trace) == Confirmations(s.trace) + 1 && said <= t.trace
              && t.mic.provisionalBargeAt.None? && !t.mic.deferredActivity
              && (m.onConfirmed == [] && !m.turnComplete ==>
                    t.trace == said && t.floor == Floor(false, false, false) && Generating(t.trace).Idle?)
  {
    hide OnAudio, OnInterrupted, OnTurnComplete, ConfirmBargeIn, OnTranscript, Confirming;
    var c, m, s := h.config, h.inputs[n].content, h.states[n];
    InvHolds(h, n);
    assert IsStep(h, n);
    InvHolds(h, n + 1);
    CutSteps(c, s, m);
    AudioKeeps(s, m);
    InterruptedKeeps(OnAudio(s, m), m);
    var u := OnInterrupted(OnAudio(s, m), m);
    TranscriptConfirms(u, m);
    TurnCompleteKeeps(OnTranscript(u, m), m);
    if u.mic.provisionalBargeAt.Some? { CompletionLeavesMicrophone(OnTranscript(u, m), m); }
  }

  lemma TranscriptConfirms(u: State, m: Content)
    requires Inv(u) && m.stopWord
    ensures var t := OnTranscript(u, m); var said := u.trace + Confirming(u, u.mic.deferredActivity, u.mic.preSpeech);
            && Inv(t)
            && (u.mic.provisionalBargeAt.None? ==> t == u)
            && (u.mic.provisionalBargeAt.Some? ==>
                  && Confirmations(t.trace) == Confirmations(u.trace) + 1 && said <= t.trace
                  && t.mic.provisionalBargeAt.None? && !t.mic.deferredActivity
                  && (m.onConfirmed == [] ==>
                        t.trace == said && t.floor == Floor(false, false, false) && !t.request.generating))
  {
    hide Reacted, Yielded, Happens, Confirming;
    ConfirmKeeps(u, m.onConfirmed);
    if u.mic.provisionalBargeAt.Some? {
      ConfirmationHappens(u, m.onConfirmed);
      YieldedIs(u);
      SettledReaction(Yielded(u), m.onConfirmed);
      NoReaction(Yielded(u));
    }
  }

  lemma NoReaction(s: State)
    ensures Reacted(s, []) == s
  {
  }

  lemma CompletionLeavesMicrophone(s: State, m: Content)
    requires !s.mic.deferredActivity && s.mic.provisionalBargeAt.None?
    ensures var t := OnTurnComplete(s, m); t.mic == s.mic && s.trace <= t.trace && (!m.turnComplete ==> t == s)
  {
    hide Reacted;
    var t := s.(request := TurnOver(s.request), floor := Heard(s.floor.localPlayback, s.floor.modelPlayback),
                trace := s.trace + [TurnComplete]);
    SettledReaction(t, m.onComplete);
  }

  /** The parts before the transcript leave the microphone alone, unless the shell reacts to them. */
  lemma EarlierPartsLeaveMicrophone(h: History, n: nat)
    requires IsRun(h) && n < |h.inputs| && h.inputs[n].Provider?
    requires h.inputs[n].content.onAudio == [] && h.inputs[n].content.onInterrupted == []
    ensures After(h, n, 2).mic == h.states[n].mic
  {
    CutSteps(h.config, h.states[n], h.inputs[n].content);
  }

  // ----- A frame -----

  predicate IsStart(event: Option<Vad.Event>) {
    event.Some? && event.value.SpeechStart?
  }

  predicate IsEnd(event: Option<Vad.Event>) {
    event.Some? && event.value.SpeechEnd?
  }

  /** Since when an interruption is undecided once the detector has heard the frame. */
  ghost function Undecided(s: State, event: Option<Vad.Event>): Option<real> {
    if IsStart(event) then
      if !Generating(s.trace).Idle? || s.floor.interviewerSpeaking then Some(event.value.atMs) else None
    else if IsEnd(event) then None
    else s.mic.provisionalBargeAt
  }

  /** Whether a boundary is held back then: it must not cut off an answer that is outstanding. */
  ghost predicate IsHeldBack(s: State, event: Option<Vad.Event>) {
    if IsStart(event) then !Generating(s.trace).Idle? else s.mic.deferredActivity && !IsEnd(event)
  }

  /** It has been loud for 400 ms since. */
  ghost predicate Decides(s: State, event: Option<Vad.Event>, voiced: bool, atMs: real) {
    Undecided(s, event).Some? && voiced && atMs - Undecided(s, event).value >= BARGE_CONFIRM_MS
  }

  /** Frame `n` confirms an interruption. */
  ghost predicate ConfirmsAt(h: History, n: nat)
    requires n < |h.inputs| && h.inputs[n].Push?
  {
    !h.states[n].mic.muted && Decides(h.states[n], Detected(h, n).1, VoicedAt(h, n), h.inputs[n].atMs)
  }

  /** What a boundary found by the detector puts on the wire. */
  ghost function Boundary(s: State, event: Option<Vad.Event>, frames: seq<Frame>): seq<Item> {
    if IsStart(event) && !IsHeldBack(s, event) then Opening(s, frames)
    else if IsEnd(event) && !s.mic.deferredActivity && IsLive(s) then [ActivityEnd]
    else []
  }

  /** Where the microphone stands after the detector's event, with `frames` held. */
  ghost function MicAfter(s: State, event: Option<Vad.Event>): Mic {
    var m := s.mic.(provisionalBargeAt := Undecided(s, event), deferredActivity := IsHeldBack(s, event));
    if IsStart(event) then
      if IsHeldBack(s, event) then m else Cleared(m).(activityOpen := IsLive(s) || s.mic.activityOpen)
    else if IsEnd(event) then
      if s.mic.deferredActivity then Cleared(m) else m.(activityOpen := false)
    else m
  }

  /** `heard` is `s` after a frame was captured and the detector has heard it. */
  ghost predicate HasHeard(s: State, heard: State, event: Option<Vad.Event>) {
    && Inv(s) && !s.mic.muted && Wired(heard)
    && heard == s.(mic := heard.mic, vad := heard.vad, captured := heard.captured, pushes := heard.pushes)
    && heard.mic == s.mic.(preSpeech := heard.mic.preSpeech, preSpeechSamples := heard.mic.preSpeechSamples)
    && heard.vad.speaking == (s.vad.speaking != event.Some?)
    && (event.Some? ==> event.value.SpeechStart? == !s.vad.speaking)
  }

  lemma BoundaryIsSent(s: State, heard: State, event: Option<Vad.Event>)
    requires HasHeard(s, heard, event)
    ensures var t := HandleVad(heard, event);
            && t.trace == s.trace + Boundary(s, event, heard.mic.preSpeech)
            && t.mic == MicAfter(heard, event) && Inv(t)
            && t == heard.(mic := t.mic, trace := t.trace)
  {
    HandleVadKeeps(s, heard, event);
    var live := s.trace + [ActivityStart] + AudioOf(heard.mic.preSpeech);
    assert live == s.trace + ([ActivityStart] + AudioOf(heard.mic.preSpeech));
    assert s.trace + [] == s.trace;
  }

  /** The frame itself follows if an activity is open by now, unless it went out with what was held. */
  ghost function Sent(s: State, open: bool, event: Option<Vad.Event>, frame: Frame): seq<Item> {
    if IsLive(s) && open && event.None? then [Audio(frame)] else []
  }

  /** `said` comes first and `last` comes last. */
  ghost predicate IsFramed(said: seq<Item>, trace: seq<Item>, last: seq<Item>) {
    |said| + |last| <= |trace| && said <= trace && trace[|trace| - |last|..] == last
  }

  /** A frame that leaves things undecided: the detector's boundary, then the frame. */
  ghost predicate LeavesUndecided(s: State, heard: State, t: State, event: Option<Vad.Event>, voiced: bool, frame: Frame, atMs: real) {
    var mic := MicAfter(heard, event);
    && t.trace == s.trace + Boundary(s, event, heard.mic.preSpeech) + Sent(s, mic.activityOpen, event, frame)
    && t.floor == s.floor && t.request == s.request
    && t.mic == mic.(provisionalBargeAt := if Undecided(s, event).None? || voiced then Undecided(s, event) else Some(atMs))
  }

  /** A frame that confirms: the boundary, the confirmation with what was held, the shell's reaction, the frame. */
  ghost predicate Interrupts(s: State, heard: State, t: State, event: Option<Vad.Event>, frame: Frame, calls: seq<Call>) {
    var mic, frames := MicAfter(heard, event), heard.mic.preSpeech;
    var said := s.trace + Boundary(s, event, frames) + Confirming(s, IsHeldBack(s, event), frames);
    var last := Sent(s, mic.activityOpen || IsHeldBack(s, event), event, frame);
    && IsFramed(said, t.trace, last) && (calls == [] ==> t.trace == said + last)
    && Happens(s, t, Confirmed, calls, Floor(false, false, false))
    && t.mic == (if IsHeldBack(s, event) then Cleared(mic).(activityOpen := IsLive(s) || s.mic.activityOpen) else mic)
                .(provisionalBargeAt := None, deferredActivity := false)
  }

  lemma UndecidedFrame(s: State, heard: State, event: Option<Vad.Event>, frame: Frame, db: real, atMs: real, calls: seq<Call>)
    requires HasHeard(s, heard, event)
    requires !Decides(s, event, IsVoiced(heard.vad.noiseFloorDb, db), atMs)
    ensures var q := Resolve(HandleVad(heard, event), db, atMs, calls);
            var t := if SendsFrame(q, event) then Send(q, Audio(frame)) else q;
            LeavesUndecided(s, heard, t, event, IsVoiced(heard.vad.noiseFloorDb, db), frame, atMs)
  {
    hide HandleVad, Boundary, ConfirmBargeIn, Wired;
    BoundaryIsSent(s, heard, event);
    EndIsClosed(s, heard, event);
    var trace := s.trace + Boundary(s, event, heard.mic.preSpeech);
    assert trace + [] == trace;
  }

  lemma EndIsClosed(s: State, heard: State, event: Option<Vad.Event>)
    requires HasHeard(s, heard, event)
    ensures IsEnd(event) && IsLive(s) ==> !MicAfter(heard, event).activityOpen
  {
  }

  lemma ConfirmingFrame(s: State, heard: State, event: Option<Vad.Event>, frame: Frame, db: real, atMs: real, calls: seq<Call>)
    requires HasHeard(s, heard, event)
    requires Decides(s, event, IsVoiced(heard.vad.noiseFloorDb, db), atMs)
    ensures var q := Resolve(HandleVad(heard, event), db, atMs, calls);
            var t := if SendsFrame(q, event) then Send(q, Audio(frame)) else q;
            Interrupts(s, heard, t, event, frame, calls)
  {
    hide HandleVad, Boundary, Confirming, ConfirmBargeIn, Happens, OnlySpeech, Wired, Reacted, Yielded, MicAfter;
    BoundaryIsSent(s, heard, event);
    MicAfterIs(s, heard, event);
    var p := HandleVad(heard, event);
    ConfirmationHappens(p, calls);
    YieldedIs(p);
    SettledReaction(Yielded(p), calls);
    ReactionLeavesConnection(Yielded(p), calls);
    NoReaction(Yielded(p));
    var q := ConfirmBargeIn(p, calls);
    assert q == Resolve(p, db, atMs, calls);
    var t := if SendsFrame(q, event) then Send(q, Audio(frame)) else q;
    assert q.trace + [] == q.trace;
    assert t.trace == q.trace + Sent(s, q.mic.activityOpen, event, frame);
    ConfirmingIsSame(s, p, IsHeldBack(s, event), heard.mic.preSpeech, p.mic.preSpeech);
    FramedBy(p.trace + Confirming(s, IsHeldBack(s, event), heard.mic.preSpeech), q.trace, Sent(s, q.mic.activityOpen, event, frame));
    BoundaryGrows(s, event, heard.mic.preSpeech);
    SpeechGrown(q.trace, Audio(frame));
    NoSpeech(q.trace);
    HappensWithin(s, p, q, t, Confirmed, calls, Floor(false, false, false));
  }

  lemma MicAfterIs(s: State, heard: State, event: Option<Vad.Event>)
    requires HasHeard(s, heard, event)
    ensures var m := MicAfter(heard, event);
            && m.provisionalBargeAt == Undecided(s, event) && m.deferredActivity == IsHeldBack(s, event)
            && (IsHeldBack(s, event) ==> m.preSpeech == heard.mic.preSpeech && m.activityOpen == s.mic.activityOpen)
  {
  }

  lemma ConfirmingIsSame(s: State, t: State, heldBack: bool, frames: seq<Frame>, others: seq<Frame>)
    requires IsLive(s) == IsLive(t) && (heldBack ==> frames == others)
    ensures Confirming(s, heldBack, frames) == Confirming(t, heldBack, others)
  {
  }

  lemma FramedBy(said: seq<Item>, trace: seq<Item>, last: seq<Item>)
    requires said <= trace
    ensures IsFramed(said, trace + last, last)
  {
  }

  lemma ReactionLeavesConnection(s: State, calls: seq<Call>)
    ensures var t := Reacted(s, calls); t.phase == s.phase && t.ready == s.ready
  {
    ReactionTakesEffect(s, calls);
  }

  lemma BoundaryGrows(s: State, event: Option<Vad.Event>, frames: seq<Frame>)
    ensures OnlySpeech(s.trace, s.trace + Boundary(s, event, frames))
  {
    SpeechGrown(s.trace, ActivityStart);
    AudioGrown(s.trace + [ActivityStart], frames);
    assert s.trace + ([ActivityStart] + AudioOf(frames)) == s.trace + [ActivityStart] + AudioOf(frames);
    SpeechGrown(s.trace, ActivityEnd);
    assert s.trace + [] == s.trace;
  }

  lemma HappensWithin(s: State, p: State, q: State, t: State, what: Item, calls: seq<Call>, floor: Floor)
    requires OnlySpeech(s.trace, p.trace) && p.phase == s.phase && p.ready == s.ready
    requires Happens(p, q, what, calls, floor)
    requires OnlySpeech(q.trace, t.trace) && t == q.(mic := t.mic, trace := t.trace)
    ensures Happens(s, t, what, calls, floor)
  {
    hide Requests, Cancellations, LocalAfter, ModelAfter, OnlyRequests;
  }

  /** `kept` is as much of what was held, with the frame behind it, as fits the limit. */
  ghost predicate IsKept(held: seq<Frame>, frame: Frame, limit: nat, kept: seq<Frame>) {
    var all := held + [Sliced(frame, limit)];
    exists k: nat :: IsLongestFit(all, k, limit) && kept == all[k..]
  }

  /** The limits are 160 ms and 1.5 s of samples, rounded up. */
  lemma LimitIsCeiling(c: Config)
    ensures 2 * Limit(c, true) - 2 < 3 * c.captureRate <= 2 * Limit(c, true)
    ensures 100 * Limit(c, false) - 100 < 16 * c.captureRate <= 100 * Limit(c, false)
  {
  }

  lemma CaptureKeepsAllThatFits(c: Config, s: State, frame: Frame, vad: Vad.State) returns (kept: seq<Frame>)
    requires HoldsLatest(c, s)
    ensures s.mic.activityOpen ==> kept == []
    ensures !s.mic.activityOpen ==> IsKept(s.mic.preSpeech, frame, Limit(c, s.mic.deferredActivity), kept)
    ensures Captured(c, s, frame, vad).mic == s.mic.(preSpeech := kept, preSpeechSamples := |Flatten(kept)|)
  {
    var limit := Limit(c, s.mic.deferredActivity);
    var copy := Sliced(frame, limit);
    FlattenPushed(s.mic.preSpeech, copy);
    if s.mic.activityOpen {
      kept := [];
    } else {
      var all := s.mic.preSpeech + [copy];
      var k := TrimKeepsAllThatFits(all, limit);
      kept := all[k..];
    }
  }

  /** `s` with `kept` as what is held. */
  ghost function Holding(s: State, kept: seq<Frame>): State {
    s.(mic := s.mic.(preSpeech := kept, preSpeechSamples := |Flatten(kept)|))
  }

  /**
   In every run, with the microphone on: a frame is held, together with as much as fits of what
   was held before, unless an activity is open. A frame confirms an undecided interruption exactly
   if it is loud and the last 400 ms were; then the held boundary opens with all that is held and
   the shell's calls take effect. Otherwise a start of speech opens the boundary with all that is
   held, or holds it back while an answer is outstanding; an end closes it; and the clock of an
   interruption starts again at a frame that is too quiet. The frame itself follows if an activity
   is open by then and the detector found no boundary in it.
   */
  lemma FramesTakeEffect(h: History, n: nat) returns (kept: seq<Frame>)
    requires IsRun(h) && n < |h.inputs| && h.inputs[n].Push? && !h.states[n].mic.muted && h.config.captureRate > 0
    ensures h.states[n].mic.activityOpen ==> kept == []
    ensures var s := h.states[n];
            !s.mic.activityOpen ==> IsKept(s.mic.preSpeech, h.inputs[n].frame, Limit(h.config, s.mic.deferredActivity), kept)
    ensures var s, t, event, input := h.states[n], h.states[n + 1], Detected(h, n).1, h.inputs[n];
            if ConfirmsAt(h, n)
            then Interrupts(s, Holding(s, kept), t, event, input.frame, input.onBargeIn)
            else LeavesUndecided(s, Holding(s, kept), t, event, VoicedAt(h, n), input.frame, input.atMs)
  {
    hide Vad.Step, HandleVad, Resolve, Captured, Interrupts, LeavesUndecided, IsKept, HoldsLatest;
    var c, s, input := h.config, h.states[n], h.inputs[n];
    InvHolds(h, n);
    assert IsStep(h, n);
    HeldAudioIsTheLatest(h, n);
    var (vad, event) := Detected(h, n);
    Vad.EventsFlip(c.vad, s.vad, Vad.Frame(input.db, input.atMs));
    kept := CaptureKeepsAllThatFits(c, s, input.frame, vad);
    CaptureKeeps(c, s, input.frame, vad);
    var heard := Captured(c, s, input.frame, vad);
    if ConfirmsAt(h, n) {
      ConfirmingFrame(s, heard, event, input.frame, input.db, input.atMs, input.onBargeIn);
      SameInterrupts(s, heard, Holding(s, kept), h.states[n + 1], event, input.frame, input.onBargeIn);
    } else {
      UndecidedFrame(s, heard, event, input.frame, input.db, input.atMs, input.onBargeIn);
      SameUndecided(s, heard, Holding(s, kept), h.states[n + 1], event, VoicedAt(h, n), input.frame, input.atMs);
    }
  }

  lemma SameInterrupts(s: State, a: State, b: State, t: State, event: Option<Vad.Event>, frame: Frame, calls: seq<Call>)
    requires Interrupts(s, a, t, event, frame, calls)
    requires a == b.(vad := a.vad, captured := a.captured, pushes := a.pushes)
    ensures Interrupts(s, b, t, event, frame, calls)
  {
    hide Happens, Boundary, Confirming;
  }

  lemma SameUndecided(s: State, a: State, b: State, t: State, event: Option<Vad.Event>, voiced: bool, frame: Frame, atMs: real)
    requires LeavesUndecided(s, a, t, event, voiced, frame, atMs)
    requires a == b.(vad := a.vad, captured := a.captured, pushes := a.pushes)
    ensures LeavesUndecided(s, b, t, event, voiced, frame, atMs)
  {
    hide Boundary;
  }

  // ----- 400 ms of loud voice interrupt -----

  /** Frame `j` is heard, loud enough, and does not end the candidate's speech. */
  ghost predicate IsLoud(h: History, j: nat)
    requires j < |h.inputs|
  {
    h.inputs[j].Push? && !h.states[j].mic.muted && VoicedAt(h, j) && !IsEnd(Detected(h, j).1)
  }

  ghost predicate IsLate(h: History, j: nat, start: real)
    requires j < |h.inputs|
  {
    h.inputs[j].Push? && h.inputs[j].atMs - start >= BARGE_CONFIRM_MS
  }

  lemma LoudFrame(h: History, j: nat, start: real)
    requires IsRun(h) && h.config.captureRate > 0 && j < |h.inputs| && IsLoud(h, j)
    requires h.states[j].mic.provisionalBargeAt == Some(start)
    ensures var s, t := h.states[j], h.states[j + 1];
            if h.inputs[j].atMs - start >= BARGE_CONFIRM_MS
            then HowMany(t.trace, Confirmed) == HowMany(s.trace, Confirmed) + 1
            else t.mic.provisionalBargeAt == Some(start) && HowMany(t.trace, Confirmed) == HowMany(s.trace, Confirmed)
  {
    hide Vad.Step, Step, Boundary, Confirming, IsKept, Requests, Cancellations, LocalAfter, ModelAfter, OnlyRequests;
    var s, input := h.states[j], h.inputs[j];
    InvHolds(h, j);
    Vad.EventsFlip(h.config.vad, s.vad, Vad.Frame(input.db, input.atMs));
    var kept := FramesTakeEffect(h, j);
    var event := Detected(h, j).1;
    BoundaryGrows(s, event, kept);
    SpeechGrown(s.trace + Boundary(s, event, kept), Audio(input.frame));
    var trace := s.trace + Boundary(s, event, kept);
    assert trace + [] == trace;
  }

  /**
   In every run: once an interruption is undecided, counted from `start`, frames that are all loud
   enough confirm it, exactly once, and exactly at the first frame that is 400 ms after `start`.
   */
  lemma {:induction false} LoudVoiceConfirms(h: History, i: nat, k: nat, start: real)
    requires IsRun(h) && h.config.captureRate > 0 && i <= k < |h.inputs|
    requires h.states[i].mic.provisionalBargeAt == Some(start)
    requires forall j: nat :: i <= j <= k ==> IsLoud(h, j)
    requires forall j: nat :: i <= j <= k ==> IsLate(h, j, start) == (j == k)
    ensures forall j: nat :: i <= j <= k ==> HowMany(h.states[j].trace, Confirmed) == HowMany(h.states[i].trace, Confirmed)
    ensures HowMany(h.states[k + 1].trace, Confirmed) == HowMany(h.states[i].trace, Confirmed) + 1
    decreases k - i
  {
    assert IsLoud(h, i) && IsLate(h, i, start) == (i == k);
    LoudFrame(h, i, start);
    if i < k {
      LoudVoiceConfirms(h, i + 1, k, start);
    }
  }

  // ----- Calls and the boundary that is held back -----

  /**
   In every run: a call that leaves the interviewer speaking, or an answer outstanding, leaves the
   microphone alone. Any other call but a request opens the boundary that was held back, if there
   was one, with all that was held, and nothing is undecided any more.
   */
  lemma QuietOpensTheHeldBoundary(h: History, n: nat)
    requires IsRun(h) && n < |h.inputs| && h.inputs[n].Shell?
    ensures var s, t, call := h.states[n], h.states[n + 1], h.inputs[n].call;
            if t.floor.interviewerSpeaking || !Generating(t.trace).Idle? || call.RequestSpeech? then t.mic == s.mic
            else
              && t.trace == s.trace + (if call.CancelSpeech? then [Cancelled] else [])
                            + (if s.mic.deferredActivity then Opening(s, s.mic.preSpeech) else [])
              && t.mic.provisionalBargeAt.None? && !t.mic.deferredActivity
              && t.mic.preSpeech == (if s.mic.deferredActivity then [] else s.mic.preSpeech)
  {
    var s, call := h.states[n], h.inputs[n].call;
    InvHolds(h, n);
    assert IsStep(h, n);
    InvHolds(h, n + 1);
    CallOpens(s, call);
  }

  lemma ChangeOpens(s: State)
    requires Inv(s)
    ensures var t := AfterInterviewerChange(s);
            if s.floor.interviewerSpeaking || s.request.generating then t == s
            else
              && t.trace == s.trace + (if s.mic.deferredActivity then Opening(s, s.mic.preSpeech) else [])
              && t.mic.provisionalBargeAt.None? && !t.mic.deferredActivity
              && t.mic.preSpeech == (if s.mic.deferredActivity then [] else s.mic.preSpeech)
              && t == s.(mic := t.mic, trace := t.trace)
  {
    assert s.trace + [ActivityStart] + AudioOf(s.mic.preSpeech) == s.trace + ([ActivityStart] + AudioOf(s.mic.preSpeech));
    assert s.trace + [] == s.trace;
  }

  lemma CallOpens(s: State, call: Call)
    requires Inv(s)
    ensures var t := Called(s, call);
            if t.floor.interviewerSpeaking || t.request.generating || call.RequestSpeech? then t.mic == s.mic
            else
              && t.trace == s.trace + (if call.CancelSpeech? then [Cancelled] else [])
                            + (if s.mic.deferredActivity then Opening(s, s.mic.preSpeech) else [])
              && t.mic.provisionalBargeAt.None? && !t.mic.deferredActivity
              && t.mic.preSpeech == (if s.mic.deferredActivity then [] else s.mic.preSpeech)
  {
    hide AfterInterviewerChange, Opening, Wired, Settled;
    assert s.trace + [] == s.trace;
    match call {
      case RequestSpeech(_) =>
      case CancelSpeech =>
        InvalidateKeeps(s, Cancelled);
        CancelledIs(s);
        ChangeOpens(Invalidated(s, Cancelled).(floor := Heard(s.floor.localPlayback, s.floor.modelPlayback)));
      case NoteLocalPlayback(active) => NotedIs(s, active, s.floor.modelPlayback);
      case NoteModelPlayback(active) => NotedIs(s, s.floor.localPlayback, active);
    }
  }

  lemma NotedIs(s: State, localPlayback: bool, modelPlayback: bool)
    requires Inv(s)
    ensures var u := s.(floor := Heard(localPlayback, modelPlayback)); var t := AfterInterviewerChange(u);
            if t.floor.interviewerSpeaking || t.request.generating then t == u
            else
              && t.trace == s.trace + [] + (if s.mic.deferredActivity then Opening(s, s.mic.preSpeech) else [])
              && t.mic.provisionalBargeAt.None? && !t.mic.deferredActivity
              && t.mic.preSpeech == (if s.mic.deferredActivity then [] else s.mic.preSpeech)
  {
    hide AfterInterviewerChange;
    assert s.trace + [] == s.trace;
    ChangeOpens(s.(floor := Heard(localPlayback, modelPlayback)));
  }

  lemma CancelledIs(s: State)
    requires Inv(s)
    ensures var u := Invalidated(s, Cancelled).(floor := Heard(s.floor.localPlayback, s.floor.modelPlayback));
            Inv(u) && Opening(u, s.mic.preSpeech) == Opening(s, s.mic.preSpeech)
  {
    InvalidateKeeps(s, Cancelled);
  }

  /** Calls made in a callback act like calls made right after it, one after the other. */
  lemma CallbacksAreCalls(c: Config, s: State, m: Content, calls: seq<Call>, call: Call)
    requires Inv(s)
    ensures m.audio && !Generating(s.trace).Idle? ==>
              Step(c, s, Provider(Cut(m.(onAudio := calls + [call]), 1))) ==
              Step(c, Step(c, s, Provider(Cut(m.(onAudio := calls), 1))), Shell(call))
    ensures m.interrupted && !Generating(s.trace).Idle? && !s.floor.localPlayback && !m.audio ==>
              Step(c, s, Provider(Cut(m.(onInterrupted := calls + [call]), 2))) ==
              Step(c, Step(c, s, Provider(Cut(m.(onInterrupted := calls), 2))), Shell(call))
    ensures m.stopWord && s.mic.provisionalBargeAt.Some? && !m.audio && !m.interrupted ==>
              Step(c, s, Provider(Cut(m.(onConfirmed := calls + [call]), 3))) ==
              Step(c, Step(c, s, Provider(Cut(m.(onConfirmed := calls), 3))), Shell(call))
  {
    hide Called, Released;
    assert (calls + [call])[..|calls|] == calls;
    CutSteps(c, s, m.(onAudio := calls + [call]));
    CutSteps(c, s, m.(onAudio := calls));
    CutSteps(c, s, m.(onInterrupted := calls + [call]));
    CutSteps(c, s, m.(onInterrupted := calls));
    CutSteps(c, s, m.(onConfirmed := calls + [call]));
    CutSteps(c, s, m.(onConfirmed := calls));
  }

  // ----- The current request -----

  /** The request names the utterance that is pending. */
  ghost predicate IsNamed(s: State) {
    s.request.utteranceId == Pending(s.trace)
  }

  /** `t` is `s` with another microphone, and only speech was sent. */
  ghost predicate Speaks(s: State, t: State) {
    OnlySpeech(s.trace, t.trace) && t.request == s.request
  }

  lemma ClosingSpeaks(s: State)
    ensures Speaks(s, CloseInput(s)) && Speaks(s, EndActivity(s))
  {
    SpeechGrown(s.trace, ActivityEnd);
    NoSpeech(s.trace);
  }

  lemma SilencedSpeaks(c: Config, s: State, now: real)
    ensures Speaks(s, Silenced(c, s, now))
  {
    hide CloseInput, OnlySpeech;
    NoSpeech(s.trace);
    ClosingSpeaks(s.(vad := Vad.Step(c.vad, s.vad, Vad.Reset(now)).0));
  }

  lemma VadSpeaks(s: State, event: Option<Vad.Event>)
    ensures Speaks(s, HandleVad(s, event))
  {
    hide OpenInput, CloseInput, OnlySpeech;
    NoSpeech(s.trace);
    OpenGrows(s);
    ClosingSpeaks(NoBarge(s));
    if event.Some? { OpenGrows(s.(mic := s.mic.(provisionalBargeAt := Some(event.value.atMs)))); }
  }

  lemma {:induction false} ReactionIsNamed(s: State, calls: seq<Call>)
    requires IsNamed(s)
    ensures IsNamed(Reacted(s, calls))
  {
    if calls != [] {
      ReactionIsNamed(s, calls[..|calls| - 1]);
      CallIsNamed(Reacted(s, calls[..|calls| - 1]), calls[|calls| - 1]);
    }
  }

  lemma CallIsNamed(s: State, call: Call)
    requires IsNamed(s)
    ensures IsNamed(Called(s, call))
  {
    hide AfterInterviewerChange, HowMany, Asked, Pending;
    Grown(s.trace, Cancelled);
    match call {
      case RequestSpeech(utteranceId) => Grown(s.trace + [Cancelled], Ask(utteranceId));
      case CancelSpeech =>
        ChangeGrows(Invalidated(s, Cancelled).(floor := Heard(s.floor.localPlayback, s.floor.modelPlayback)));
      case NoteLocalPlayback(active) => ChangeGrows(s.(floor := Heard(active, s.floor.modelPlayback)));
      case NoteModelPlayback(active) => ChangeGrows(s.(floor := Heard(s.floor.localPlayback, active)));
    }
  }

  lemma ConfirmIsNamed(s: State, calls: seq<Call>)
    requires IsNamed(s)
    ensures IsNamed(ConfirmBargeIn(s, calls))
  {
    hide Reacted, Released;
    var t := Invalidated(NoBarge(s).(floor := Heard(false, false)), Confirmed);
    Grown(s.trace, Confirmed);
    ReleaseGrows(t);
    if s.mic.provisionalBargeAt.Some? { ReactionIsNamed(Released(t), calls); }
  }

  lemma ContentIsNamed(s: State, m: Content)
    requires IsNamed(s)
    ensures IsNamed(OnContent(s, m))
  {
    hide Reacted, AfterInterviewerChange, ConfirmBargeIn, HowMany, Asked, Pending;
    Grown(s.trace, ModelAudio);
    ReactionIsNamed(s.(floor := s.floor.(interviewerSpeaking := true),
      request := s.request.(audioThisTurn := true), trace := s.trace + [ModelAudio]), m.onAudio);
    var t := OnAudio(s, m);
    Grown(t.trace, Interrupted);
    ReactionIsNamed(Invalidated(t.(floor := t.floor.(interviewerSpeaking := false)), Interrupted), m.onInterrupted);
    var u := OnInterrupted(t, m);
    ConfirmIsNamed(u, m.onConfirmed);
    var v := OnTranscript(u, m);
    Grown(v.trace, TurnComplete);
    var w := v.(request := TurnOver(v.request), floor := Heard(v.floor.localPlayback, v.floor.modelPlayback),
                trace := v.trace + [TurnComplete]);
    ReactionIsNamed(w, m.onComplete);
    ChangeGrows(Reacted(w, m.onComplete));
  }

  lemma PushIsNamed(c: Config, s: State, frame: Frame, db: real, atMs: real, calls: seq<Call>)
    requires IsNamed(s)
    ensures IsNamed(PushAudio(c, s, frame, db, atMs, calls))
  {
    hide Vad.Step, HandleVad, ConfirmBargeIn, Buffer;
    var (vad, event) := Vad.Step(c.vad, s.vad, Vad.Frame(db, atMs));
    var t := HandleVad(Captured(c, s, frame, vad), event);
    VadSpeaks(Captured(c, s, frame, vad), event);
    ConfirmIsNamed(t, calls);
    SpeechGrown(Resolve(t, db, atMs, calls).trace, Audio(frame));
  }

  lemma StepIsNamed(c: Config, s: State, input: Input)
    requires IsNamed(s)
    ensures IsNamed(Step(c, s, input))
  {
    hide PushAudio, OnContent, Called, Silenced;
    match input {
      case Push(frame, db, atMs, calls) => PushIsNamed(c, s, frame, db, atMs, calls);
      case Shell(call) => CallIsNamed(s, call);
      case Provider(m) => ContentIsNamed(s, m);
      case SetupComplete => SetupIsNamed(s);
      case SocketClosed => Grown(s.trace, Lost);
      case Disconnect(now) =>
        SilencedSpeaks(c, NoBarge(s), now);
        Grown(Silenced(c, NoBarge(s), now).trace, Lost);
      case Mute(muted, now) =>
        SilencedSpeaks(c, s.(mic := Cleared(s.mic).(muted := true, provisionalBargeAt := None)), now);
      case ToolAnswered(i) => Grown(s.trace, ToolResponse(i));
      case _ =>
    }
  }

  lemma SetupIsNamed(s: State)
    requires IsNamed(s)
    ensures IsNamed(OnSetupComplete(s))
  {
    SpeechGrown(s.trace, ActivityStart);
    AudioGrown(s.trace, s.mic.preSpeech);
    AudioGrown(s.trace + [ActivityStart], s.mic.preSpeech);
  }

  /** In every run, model audio and the end of a turn are credited to the utterance asked for last, if it has not ended. */
  lemma {:induction false} RequestsAreNamed(h: History, n: nat)
    requires IsRun(h) && n <= |h.inputs|
    ensures h.states[n].request.utteranceId == Pending(h.states[n].trace)
  {
    hide Step;
    if n > 0 {
      RequestsAreNamed(h, n - 1);
      assert IsStep(h, n - 1);
      StepIsNamed(h.config, h.states[n - 1], h.inputs[n - 1]);
    }
  }
}
