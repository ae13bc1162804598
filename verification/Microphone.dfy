/**
 The candidate's microphone and the connection it feeds, in every run: muting, the handshake,
 and both ways a connection ends (apps/web/lib/realtime-voice.ts).
 */
module Microphone {
  import opened Wrappers
  import opened RealtimeVoice
  import opened BargeIn
  import Interruptions
  import Vad

  /** What the microphone was set to last. */
  ghost function LastMute(inputs: seq<Input>): bool {
    if inputs == [] then false
    else if inputs[|inputs| - 1].Mute? then inputs[|inputs| - 1].muted
    else LastMute(inputs[..|inputs| - 1])
  }

  lemma MutedFollows(c: Config, s: State, input: Input)
    requires Inv(s) && Possible(s, input)
    ensures Step(c, s, input).mic.muted == if input.Mute? then input.muted else s.mic.muted
  {
    hide PushAudio, OnContent, Called, Vad.Step;
    match input {
      case Push(frame, db, atMs, calls) => PushLeavesMuted(c, s, frame, db, atMs, calls);
      case Shell(call) => CallKeeps(s, call);
      case Provider(m) => ContentLeavesMuted(s, m);
      case _ =>
    }
  }

  lemma PushLeavesMuted(c: Config, s: State, frame: Frame, db: real, atMs: real, calls: seq<Call>)
    requires Inv(s)
    ensures PushAudio(c, s, frame, db, atMs, calls).mic.muted == s.mic.muted
  {
    hide Vad.Step, HandleVad, Captured, Wired;
    var input := Vad.Frame(db, atMs);
    var (vad, event) := Vad.Step(c.vad, s.vad, input);
    if !s.mic.muted {
      Vad.EventsFlip(c.vad, s.vad, input);
      CaptureKeeps(c, s, frame, vad);
      var t := HandleVad(Captured(c, s, frame, vad), event);
      HandleVadKeeps(s, Captured(c, s, frame, vad), event);
      ConfirmLeavesMuted(t, calls);
    }
  }

  lemma ConfirmLeavesMuted(s: State, calls: seq<Call>)
    requires Inv(s)
    ensures ConfirmBargeIn(s, calls).mic.muted == s.mic.muted
  {
    hide Reacted, Released;
    if s.mic.provisionalBargeAt.Some? {
      var t := NoBarge(s).(floor := Heard(false, false));
      InvalidateKeeps(t, Confirmed);
      ReleaseKeeps(Invalidated(t, Confirmed));
      ReactionKeeps(Released(Invalidated(t, Confirmed)), calls);
    }
  }

  lemma ContentLeavesMuted(s: State, m: Content)
    requires Inv(s)
    ensures OnContent(s, m).mic.muted == s.mic.muted
  {
    AudioKeeps(s, m);
    InterruptedKeeps(OnAudio(s, m), m);
    var u := OnInterrupted(OnAudio(s, m), m);
    ConfirmKeeps(u, m.onConfirmed);
    ConfirmLeavesMuted(u, m.onConfirmed);
    TurnCompleteKeeps(OnTranscript(u, m), m);
  }

  /** In every run the microphone is muted exactly if it was set so last. */
  lemma {:induction false} MutedAsSet(h: History, n: nat)
    requires IsRun(h) && n <= |h.inputs|
    ensures h.states[n].mic.muted == LastMute(h.inputs[..n])
  {
    hide Step;
    if n > 0 {
      MutedAsSet(h, n - 1);
      InvHolds(h, n - 1);
      assert IsStep(h, n - 1);
      MutedFollows(h.config, h.states[n - 1], h.inputs[n - 1]);
      assert h.inputs[..n][..n - 1] == h.inputs[..n - 1];
    }
  }

  /** What closing the candidate's turn puts on the wire. */
  ghost function Closing(s: State): seq<Item> {
    if Interruptions.IsLive(s) && IsOpen(s.trace) then [ActivityEnd] else []
  }

  /** No turn is open, and nothing is held, held back or undecided. */
  ghost predicate IsAtRest(s: State) {
    && !s.vad.speaking && s.mic.preSpeech == [] && !s.mic.deferredActivity && s.mic.provisionalBargeAt.None?
    && (Interruptions.IsLive(s) ==> !IsOpen(s.trace))
  }

  lemma SilencedRests(c: Config, s: State, now: real)
    requires Inv(s)
    ensures var t := Silenced(c, s.(mic := Cleared(s.mic).(muted := true, provisionalBargeAt := None)), now);
            && t.trace == s.trace + Closing(s) && t.mic.preSpeech == [] && !t.mic.deferredActivity && !t.vad.speaking
    ensures Silenced(c, NoBarge(s), now).trace == s.trace + Closing(s) && !Silenced(c, NoBarge(s), now).vad.speaking
  {
    assert s.trace + [] == s.trace;
  }

  /**
   In every run: muting ends the candidate's turn on the wire if it is open, and leaves nothing
   held, held back or undecided; frames are dropped until the microphone is turned on again,
   which changes nothing else.
   */
  lemma MutingEndsTheTurn(h: History, n: nat)
    requires IsRun(h) && n < |h.inputs|
    ensures var s, t := h.states[n], h.states[n + 1];
            && (h.inputs[n].Mute? && h.inputs[n].muted && !s.mic.muted ==>
                  t.trace == s.trace + Closing(s) && IsAtRest(t) && t.floor == s.floor && t.request == s.request)
            && (h.inputs[n].Mute? && !h.inputs[n].muted ==> t == s.(mic := s.mic.(muted := false)))
            && (h.inputs[n].Push? && s.mic.muted ==> t == s.(pushes := s.pushes + 1))
  {
    var c, s, input := h.config, h.states[n], h.inputs[n];
    InvHolds(h, n);
    assert IsStep(h, n);
    InvHolds(h, n + 1);
    if input.Mute? { SilencedRests(c, s, input.now); }
  }

  // ----- The connection -----

  /** What was said during the handshake gets its boundary, and all that is held follows. */
  lemma HandshakeSpeechIsSent(h: History, n: nat)
    requires IsRun(h) && n < |h.inputs| && h.inputs[n].SetupComplete?
    ensures var s, t := h.states[n], h.states[n + 1];
            && t.ready && t.phase == s.phase && t.floor == s.floor && t.request == s.request
            && t.trace == s.trace + (if s.vad.speaking then Interruptions.Opening(s.(ready := true), s.mic.preSpeech) else [])
            && t.mic.preSpeech == if s.vad.speaking then [] else s.mic.preSpeech
  {
    var s := h.states[n];
    InvHolds(h, n);
    assert IsStep(h, n);
    assert s.trace + [ActivityStart] + AudioOf(s.mic.preSpeech) == s.trace + ([ActivityStart] + AudioOf(s.mic.preSpeech));
    assert s.trace + [] == s.trace;
  }

  /**
   In every run: when the socket closes, the request is lost, nothing is held any more, and the
   interviewer is heard only as long as playback goes on. When the page hangs up, an open turn is
   ended first, while the connection still carries it.
   */
  lemma ConnectionsEndCleanly(h: History, n: nat)
    requires IsRun(h) && n < |h.inputs| && (h.inputs[n].SocketClosed? || h.inputs[n].Disconnect?)
    ensures var s, t := h.states[n], h.states[n + 1];
            && t.phase.Closed? && !t.ready && t.mic == CLOSED_MIC.(muted := s.mic.muted)
            && t.floor.localPlayback == s.floor.localPlayback && t.floor.modelPlayback == s.floor.modelPlayback
            && t.request == Request(false, false, false, None, s.request.epoch + 1)
    ensures var s, t := h.states[n], h.states[n + 1];
            if h.inputs[n].SocketClosed?
            then t.trace == s.trace + [Lost] && t.vad == s.vad
                 && t.floor.interviewerSpeaking == (s.floor.localPlayback || s.floor.modelPlayback)
            else t.trace == s.trace + Closing(s) + [Lost] && !t.vad.speaking && t.floor == s.floor
  {
    var c, s, input := h.config, h.states[n], h.inputs[n];
    InvHolds(h, n);
    assert IsStep(h, n);
    if input.Disconnect? { SilencedRests(c, s, input.now); }
  }

  /** Where the connection stands is what the transport reported last. */
  ghost function PhaseAfter(phase: Phase, input: Input): Phase {
    match input
    case Connect => Connecting
    case Opened => Open
    case Drop => Failing
    case SocketClosed => Closed
    case Disconnect(_) => Closed
    case _ => phase
  }

  lemma PhaseFollows(c: Config, s: State, input: Input)
    ensures var t := Step(c, s, input);
            && t.phase == PhaseAfter(s.phase, input)
            && t.ready == if input.SetupComplete? then true else s.ready && !input.SocketClosed? && !input.Disconnect?
  {
    hide PushAudio, OnContent, Called;
    match input {
      case Push(frame, db, atMs, calls) => PushLeavesConnection(c, s, frame, db, atMs, calls);
      case Shell(call) => Interruptions.CallHasEffect(s, call);
      case Provider(m) => ContentLeavesConnection(s, m);
      case _ =>
    }
  }

  lemma PushLeavesConnection(c: Config, s: State, frame: Frame, db: real, atMs: real, calls: seq<Call>)
    ensures var t := PushAudio(c, s, frame, db, atMs, calls); t.phase == s.phase && t.ready == s.ready
  {
    hide Vad.Step, HandleVad, Captured, ConfirmBargeIn;
    var (vad, event) := Vad.Step(c.vad, s.vad, Vad.Frame(db, atMs));
    VadLeavesConnection(c, s, frame, vad, event);
    ConfirmLeavesConnection(HandleVad(Captured(c, s, frame, vad), event), calls);
  }

  lemma VadLeavesConnection(c: Config, s: State, frame: Frame, vad: Vad.State, event: Option<Vad.Event>)
    ensures var t := HandleVad(Captured(c, s, frame, vad), event); t.phase == s.phase && t.ready == s.ready
  {
    hide Buffer, AudioOf, Cleared, NoBarge;
    NoBargeLeavesConnection(Captured(c, s, frame, vad));
  }

  lemma NoBargeLeavesConnection(s: State)
    ensures NoBarge(s) == s.(mic := NoBarge(s).mic)
  {
  }

  lemma ConfirmLeavesConnection(s: State, calls: seq<Call>)
    ensures var t := ConfirmBargeIn(s, calls); t.phase == s.phase && t.ready == s.ready
  {
    hide Reacted, Released;
    var t := Invalidated(NoBarge(s).(floor := Heard(false, false)), Confirmed);
    Interruptions.ReleaseGrows(t);
    Interruptions.ReactionLeavesConnection(Released(t), calls);
  }

  lemma ContentLeavesConnection(s: State, m: Content)
    ensures var t := OnContent(s, m); t.phase == s.phase && t.ready == s.ready
  {
    hide Reacted, AfterInterviewerChange, Interruptions.Happens;
    var t := OnAudio(s, m);
    Interruptions.ReactionLeavesConnection(s.(floor := s.floor.(interviewerSpeaking := true),
      request := s.request.(audioThisTurn := true), trace := s.trace + [ModelAudio]), m.onAudio);
    var u := OnInterrupted(t, m);
    Interruptions.ReactionLeavesConnection(
      Invalidated(t.(floor := t.floor.(interviewerSpeaking := false)), Interrupted), m.onInterrupted);
    var v := OnTranscript(u, m);
    ConfirmLeavesConnection(u, m.onConfirmed);
    var w := v.(request := TurnOver(v.request), floor := Heard(v.floor.localPlayback, v.floor.modelPlayback),
                trace := v.trace + [TurnComplete]);
    Interruptions.ReactionLeavesConnection(w, m.onComplete);
    Interruptions.ChangeGrows(Reacted(w, m.onComplete));
  }

  /** In every run the connection stands where the transport's reports left it. */
  lemma {:induction false} ConnectionFollows(h: History, n: nat)
    requires IsRun(h) && n < |h.inputs|
    ensures var s, t, input := h.states[n], h.states[n + 1], h.inputs[n];
            && t.phase == PhaseAfter(s.phase, input)
            && t.ready == if input.SetupComplete? then true else s.ready && !input.SocketClosed? && !input.Disconnect?
  {
    hide Step;
    assert IsStep(h, n);
    PhaseFollows(h.config, h.states[n], h.inputs[n]);
  }

  /** What goes to the provider, as against what is only noted. */
  predicate IsSent(item: Item) {
    item.ActivityStart? || item.ActivityEnd? || item.Audio? || item.Ask? || item.ToolResponse?
  }

  ghost function Wire(trace: seq<Item>): seq<Item> {
    if trace == [] then []
    else Wire(trace[..|trace| - 1]) + if IsSent(trace[|trace| - 1]) then [trace[|trace| - 1]] else []
  }

  lemma Noted(trace: seq<Item>, item: Item)
    requires !IsSent(item)
    ensures Wire(trace + [item]) == Wire(trace)
  {
    assert (trace + [item])[..|trace|] == trace;
  }

  /** From `s` to `t` nothing was sent, and nothing can be sent now. */
  ghost predicate IsSilent(s: State, t: State) {
    t.phase == s.phase && Wire(t.trace) == Wire(s.trace)
  }

  lemma ChangeIsSilent(s: State)
    requires !s.phase.Open?
    ensures AfterInterviewerChange(s).trace == s.trace == Released(s).trace
    ensures AfterInterviewerChange(s).phase == s.phase == Released(s).phase
  {
  }

  lemma {:induction false} ReactionIsSilent(s: State, calls: seq<Call>)
    requires !s.phase.Open?
    ensures IsSilent(s, Reacted(s, calls))
  {
    if calls != [] {
      var t := Reacted(s, calls[..|calls| - 1]);
      ReactionIsSilent(s, calls[..|calls| - 1]);
      CallIsSilent(t, calls[|calls| - 1]);
    }
  }

  lemma CallIsSilent(s: State, call: Call)
    requires !s.phase.Open?
    ensures IsSilent(s, Called(s, call))
  {
    hide AfterInterviewerChange;
    Noted(s.trace, Cancelled);
    match call {
      case RequestSpeech(_) =>
      case CancelSpeech => ChangeIsSilent(Invalidated(s, Cancelled).(floor := Heard(s.floor.localPlayback, s.floor.modelPlayback)));
      case NoteLocalPlayback(active) => ChangeIsSilent(s.(floor := Heard(active, s.floor.modelPlayback)));
      case NoteModelPlayback(active) => ChangeIsSilent(s.(floor := Heard(s.floor.localPlayback, active)));
    }
  }

  lemma ConfirmIsSilent(s: State, calls: seq<Call>)
    requires !s.phase.Open?
    ensures IsSilent(s, ConfirmBargeIn(s, calls))
  {
    hide Reacted, Released;
    var t := Invalidated(NoBarge(s).(floor := Heard(false, false)), Confirmed);
    Noted(s.trace, Confirmed);
    ChangeIsSilent(t);
    ReactionIsSilent(Released(t), calls);
  }

  lemma ContentIsSilent(s: State, m: Content)
    requires !s.phase.Open?
    ensures IsSilent(s, OnContent(s, m))
  {
    hide Reacted, AfterInterviewerChange, ConfirmBargeIn;
    Noted(s.trace, ModelAudio);
    ReactionIsSilent(s.(floor := s.floor.(interviewerSpeaking := true),
      request := s.request.(audioThisTurn := true), trace := s.trace + [ModelAudio]), m.onAudio);
    var t := OnAudio(s, m);
    Noted(t.trace, Interrupted);
    ReactionIsSilent(Invalidated(t.(floor := t.floor.(interviewerSpeaking := false)), Interrupted), m.onInterrupted);
    var u := OnInterrupted(t, m);
    ConfirmIsSilent(u, m.onConfirmed);
    var v := OnTranscript(u, m);
    Noted(v.trace, TurnComplete);
    var w := v.(request := TurnOver(v.request), floor := Heard(v.floor.localPlayback, v.floor.modelPlayback),
                trace := v.trace + [TurnComplete]);
    ReactionIsSilent(w, m.onComplete);
    ChangeIsSilent(Reacted(w, m.onComplete));
  }

  lemma PushIsSilent(c: Config, s: State, frame: Frame, db: real, atMs: real, calls: seq<Call>)
    requires !s.phase.Open?
    ensures IsSilent(s, PushAudio(c, s, frame, db, atMs, calls))
  {
    hide Vad.Step, HandleVad, Captured, ConfirmBargeIn;
    var (vad, event) := Vad.Step(c.vad, s.vad, Vad.Frame(db, atMs));
    VadIsSilent(c, s, frame, vad, event);
    ConfirmIsSilent(HandleVad(Captured(c, s, frame, vad), event), calls);
  }

  lemma VadIsSilent(c: Config, s: State, frame: Frame, vad: Vad.State, event: Option<Vad.Event>)
    requires !s.phase.Open?
    ensures IsSilent(s, HandleVad(Captured(c, s, frame, vad), event))
  {
    hide Buffer;
  }

  lemma StepIsSilent(c: Config, s: State, input: Input)
    requires !s.phase.Open?
    ensures Wire(Step(c, s, input).trace) == Wire(s.trace)
  {
    hide PushAudio, OnContent, Called, Wire, OnSetupComplete, SetMuted, OnClose, Disconnected;
    match input {
      case SetupComplete => ConnectionIsSilent(c, s, input);
      case SocketClosed => ConnectionIsSilent(c, s, input);
      case Disconnect(_) => ConnectionIsSilent(c, s, input);
      case Mute(_, _) => ConnectionIsSilent(c, s, input);
      case Push(frame, db, atMs, calls) => PushIsSilent(c, s, frame, db, atMs, calls);
      case Shell(call) => CallIsSilent(s, call);
      case Provider(m) => ContentIsSilent(s, m);
      case _ =>
    }
  }

  lemma ConnectionIsSilent(c: Config, s: State, input: Input)
    requires !s.phase.Open? && (input.SetupComplete? || input.SocketClosed? || input.Disconnect? || input.Mute?)
    ensures Wire(Step(c, s, input).trace) == Wire(s.trace)
  {
    hide Wire;
    Noted(s.trace, Lost);
  }

  /** In every run, nothing is sent on a connection that has not opened, or that has ended, ever again. */
  lemma {:induction false} NothingIsSentAfterTheEnd(h: History, m: nat, n: nat)
    requires IsRun(h) && m <= n <= |h.inputs|
    requires h.states[m].phase.Closed? || h.states[m].phase.Failing?
    ensures h.states[n].phase.Closed? || h.states[n].phase.Failing?
    ensures Wire(h.states[n].trace) == Wire(h.states[m].trace)
  {
    hide Step;
    if m < n {
      NothingIsSentAfterTheEnd(h, m, n - 1);
      assert IsStep(h, n - 1);
      PhaseFollows(h.config, h.states[n - 1], h.inputs[n - 1]);
      StepIsSilent(h.config, h.states[n - 1], h.inputs[n - 1]);
    }
  }

  lemma {:induction false} NothingIsSentBeforeTheOpening(h: History, n: nat)
    requires IsRun(h) && n <= |h.inputs| && (h.states[n].phase.Fresh? || h.states[n].phase.Connecting?)
    ensures Wire(h.states[n].trace) == []
  {
    hide Step;
    if n > 0 {
      assert IsStep(h, n - 1);
      PhaseFollows(h.config, h.states[n - 1], h.inputs[n - 1]);
      NothingIsSentBeforeTheOpening(h, n - 1);
      StepIsSilent(h.config, h.states[n - 1], h.inputs[n - 1]);
    }
  }

  // ----- What the detector hears -----

  /** What input `n` feeds to the detector: a frame while the microphone is on, or silence when the turn is cut. */
  ghost function FedAt(h: History, n: nat): seq<Vad.Input>
    requires n < |h.inputs|
  {
    var muted := h.states[n].mic.muted;
    match h.inputs[n]
    case Push(_, db, atMs, _) => if muted then [] else [Vad.Frame(db, atMs)]
    case Mute(on, now) => if on && !muted then [Vad.Reset(now)] else []
    case Disconnect(now) => [Vad.Reset(now)]
    case _ => []
  }

  ghost function Fed(h: History, n: nat): seq<Vad.Input>
    requires n <= |h.inputs|
  {
    if n == 0 then [] else Fed(h, n - 1) + FedAt(h, n - 1)
  }

  lemma {:induction false} EarlierInputsDecide(c: Vad.Config, inputs: seq<Vad.Input>, more: seq<Vad.Input>, n: nat)
    requires n <= |inputs|
    ensures Vad.StateAt(c, inputs + more, n) == Vad.StateAt(c, inputs, n)
  {
    if n > 0 {
      EarlierInputsDecide(c, inputs, more, n - 1);
    }
  }

  lemma OneMoreInput(c: Vad.Config, inputs: seq<Vad.Input>, input: Vad.Input)
    ensures Vad.StateAt(c, inputs + [input], |inputs| + 1) == Vad.Step(c, Vad.StateAt(c, inputs, |inputs|), input).0
  {
    EarlierInputsDecide(c, inputs, [input], |inputs|);
  }

  /** One input of the connection, as the detector hears it. */
  lemma DetectorStep(c: Config, s: State, input: Input)
    requires Inv(s)
    ensures var t := Step(c, s, input);
            match input
            case Push(_, db, atMs, _) =>
              t.vad == if s.mic.muted then s.vad else Vad.Step(c.vad, s.vad, Vad.Frame(db, atMs)).0
            case Mute(on, now) => t.vad == if on && !s.mic.muted then Vad.Step(c.vad, s.vad, Vad.Reset(now)).0 else s.vad
            case Disconnect(now) => t.vad == Vad.Step(c.vad, s.vad, Vad.Reset(now)).0
            case _ => t.vad == s.vad
  {
    hide PushAudio, OnContent, Called, Vad.Step;
    match input {
      case Push(frame, db, atMs, calls) => PushHears(c, s, frame, db, atMs, calls);
      case Shell(call) => CallKeeps(s, call);
      case Provider(m) => ContentHearsNothing(s, m);
      case _ =>
    }
  }

  lemma PushHears(c: Config, s: State, frame: Frame, db: real, atMs: real, calls: seq<Call>)
    requires Inv(s)
    ensures PushAudio(c, s, frame, db, atMs, calls).vad ==
              if s.mic.muted then s.vad else Vad.Step(c.vad, s.vad, Vad.Frame(db, atMs)).0
  {
    hide Vad.Step, HandleVad, Captured, Wired;
    var input := Vad.Frame(db, atMs);
    var (vad, event) := Vad.Step(c.vad, s.vad, input);
    if !s.mic.muted {
      Vad.EventsFlip(c.vad, s.vad, input);
      CaptureKeeps(c, s, frame, vad);
      var t := HandleVad(Captured(c, s, frame, vad), event);
      HandleVadKeeps(s, Captured(c, s, frame, vad), event);
      ConfirmHearsNothing(t, calls);
    }
  }

  lemma ConfirmHearsNothing(s: State, calls: seq<Call>)
    requires Inv(s)
    ensures ConfirmBargeIn(s, calls).vad == s.vad
  {
    hide Reacted, Released;
    if s.mic.provisionalBargeAt.Some? {
      var t := NoBarge(s).(floor := Heard(false, false));
      InvalidateKeeps(t, Confirmed);
      ReleaseKeeps(Invalidated(t, Confirmed));
      ReactionKeeps(Released(Invalidated(t, Confirmed)), calls);
    }
  }

  lemma ContentHearsNothing(s: State, m: Content)
    requires Inv(s)
    ensures OnContent(s, m).vad == s.vad
  {
    AudioKeeps(s, m);
    InterruptedKeeps(OnAudio(s, m), m);
    var u := OnInterrupted(OnAudio(s, m), m);
    ConfirmKeeps(u, m.onConfirmed);
    ConfirmHearsNothing(u, m.onConfirmed);
    TurnCompleteKeeps(OnTranscript(u, m), m);
  }

  /**
   In every run the detector stands where exactly the frames captured with the microphone on, and
   a reset at each muting and at the end, leave it: all that `Vad` says holds of this sequence.
   */
  lemma {:induction false} DetectorHearsWhatIsCaptured(h: History, n: nat)
    requires IsRun(h) && n <= |h.inputs|
    ensures h.states[n].vad == Vad.StateAt(h.config.vad, Fed(h, n), |Fed(h, n)|)
  {
    hide Step, Vad.Step;
    if n > 0 {
      DetectorHearsWhatIsCaptured(h, n - 1);
      InvHolds(h, n - 1);
      assert IsStep(h, n - 1);
      DetectorStep(h.config, h.states[n - 1], h.inputs[n - 1]);
      var fed, more := Fed(h, n - 1), FedAt(h, n - 1);
      if more == [] {
        assert fed + more == fed;
      } else {
        assert more == [more[0]];
        OneMoreInput(h.config.vad, fed, more[0]);
      }
    }
  }
}
