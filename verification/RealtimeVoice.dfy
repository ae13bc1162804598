/**
 The browser's live connection for the candidate's voice: local voice detection, activity
 boundaries on the wire, and interruptions of the model that wait for confirmation
 (apps/web/lib/realtime-voice.ts).

 One object serves one provider connection, as the voice session creates it. `trace` is the
 ghost history of what reached the provider and what happened to the current request. The
 shell may call back into the object from its callbacks; the calls it makes are inputs.
 Setup, resumption and GoAway messages, encoding and parsing are left out.
 */
module RealtimeVoice {
  import opened Wrappers
  import Vad

  /** The transport: `Failing` has stopped carrying data but has not reported its close. */
  datatype Phase = Fresh | Connecting | Open | Failing | Closed

  /** A captured frame; `id` stands for the identity of the buffer, which slicing it keeps here. */
  datatype Frame = Frame(id: nat, samples: seq<int>)

  datatype Item =
    | ActivityStart | ActivityEnd | Audio(frame: Frame) | Ask(utteranceId: string) | ToolResponse(relay: nat)
    | ModelAudio | TurnComplete
    | Confirmed | Interrupted | Cancelled | Lost

  /** What the shell may do from inside a callback or at any other time. */
  datatype Call =
    | RequestSpeech(utteranceId: string) | CancelSpeech
    | NoteLocalPlayback(active: bool) | NoteModelPlayback(active: bool)

  /** The part of a provider message that concerns speech, with the shell's calls at each callback. */
  datatype Content = Content(
    audio: bool, onAudio: seq<Call>, interrupted: bool, onInterrupted: seq<Call>,
    stopWord: bool, onConfirmed: seq<Call>, turnComplete: bool, onComplete: seq<Call>)

  datatype Input =
    | Connect | Opened | SetupComplete | Drop | SocketClosed | Disconnect(now: real)
    | Mute(muted: bool, now: real)
    | Push(frame: Frame, db: real, atMs: real, onBargeIn: seq<Call>)
    | Shell(call: Call)
    | Provider(content: Content)
    | ToolCalled | ToolAnswered(relay: nat)

  datatype Config = Config(captureRate: nat, vad: Vad.Config)

  /** The object's fields, grouped: who is being heard, the current request, and the candidate's microphone. */
  datatype Floor = Floor(interviewerSpeaking: bool, localPlayback: bool, modelPlayback: bool)

  datatype Request = Request(accepting: bool, generating: bool, audioThisTurn: bool, utteranceId: Option<string>, epoch: nat)

  datatype Mic = Mic(
    muted: bool, activityOpen: bool, preSpeech: seq<Frame>, preSpeechSamples: int,
    provisionalBargeAt: Option<real>, deferredActivity: bool)

  datatype State = State(
    phase: Phase, setUp: bool, ready: bool, floor: Floor, request: Request, mic: Mic,
    relays: seq<nat>, vad: Vad.State, trace: seq<Item>, captured: seq<int>, pushes: nat)

  const BARGE_CONFIRM_MS := 400.0
  const CONTINUE_MARGIN_DB := 5.0

  const NO_REQUEST := Request(false, false, false, None, 0)
  const CLOSED_MIC := Mic(false, false, [], 0, None, false)

  function Init(c: Config): State {
    State(Fresh, false, false, Floor(false, false, false), NO_REQUEST, CLOSED_MIC, [], Vad.Init(c.vad), [], [], 0)
  }

  // ----- Held audio -----

  /** 160 ms of samples, or 1.5 s while an interruption is undecided, rounded up. */
  function Limit(c: Config, deferred: bool): nat {
    if deferred then (c.captureRate * 3 + 1) / 2 else (c.captureRate * 4 + 24) / 25
  }

  /** JavaScript's `slice(-limit)`, where `slice(-0)` is everything. */
  function LastSamples(samples: seq<int>, limit: nat): seq<int> {
    if limit == 0 || |samples| <= limit then samples else samples[|samples| - limit..]
  }

  function Sliced(frame: Frame, limit: nat): Frame {
    frame.(samples := LastSamples(frame.samples, limit))
  }

  function Trimmed(frames: seq<Frame>, samples: int, limit: nat): (seq<Frame>, int) {
    if |frames| > 1 && samples > limit then Trimmed(frames[1..], samples - |frames[0].samples|, limit) else (frames, samples)
  }

  function Buffer(c: Config, mic: Mic, frame: Frame): Mic {
    var limit := Limit(c, mic.deferredActivity);
    var copy := Sliced(frame, limit);
    var (frames, total) := Trimmed(mic.preSpeech + [copy], mic.preSpeechSamples + |copy.samples|, limit);
    mic.(preSpeech := frames, preSpeechSamples := total)
  }

  function Cleared(mic: Mic): Mic {
    mic.(preSpeech := [], preSpeechSamples := 0)
  }

  // ----- The wire -----

  function Send(s: State, item: Item): State {
    if s.phase.Open? then s.(trace := s.trace + [item]) else s
  }

  function AudioOf(frames: seq<Frame>): seq<Item> {
    if frames == [] then [] else AudioOf(frames[..|frames| - 1]) + [Audio(frames[|frames| - 1])]
  }

  function SendFrames(s: State, frames: seq<Frame>): State {
    if s.phase.Open? then s.(trace := s.trace + AudioOf(frames)) else s
  }

  function StartActivity(s: State): State {
    if !s.ready || !s.phase.Open? then s else Send(s, ActivityStart).(mic := s.mic.(activityOpen := true))
  }

  function EndActivity(s: State): State {
    var t := s.(mic := s.mic.(activityOpen := false));
    if !s.ready || !s.phase.Open? then t else Send(t, ActivityEnd)
  }

  function OpenInput(s: State): State {
    var t := StartActivity(s);
    var u := if t.mic.activityOpen then SendFrames(t, t.mic.preSpeech) else t;
    u.(mic := Cleared(u.mic))
  }

  /** A boundary that was held back is dropped; an open one is closed. */
  function CloseInput(s: State): State {
    if s.mic.deferredActivity then s.(mic := Cleared(s.mic).(deferredActivity := false)) else EndActivity(s)
  }

  // ----- Requests -----

  function Invalidated(s: State, why: Item): State {
    s.(request := Request(false, false, false, None, s.request.epoch + 1), trace := s.trace + [why])
  }

  /** Opens a boundary that was held back, if the candidate is still talking. */
  function Released(s: State): State {
    if !s.mic.deferredActivity then s
    else
      var t := s.(mic := s.mic.(deferredActivity := false));
      if t.vad.speaking && !t.mic.muted then OpenInput(t) else t.(mic := Cleared(t.mic))
  }

  function NoBarge(s: State): State {
    s.(mic := s.mic.(provisionalBargeAt := None))
  }

  function AfterInterviewerChange(s: State): State {
    if s.floor.interviewerSpeaking || s.request.generating then s else NoBarge(Released(s))
  }

  function Requested(s: State, utteranceId: string): State {
    if !s.ready || !s.phase.Open? then s
    else
      var t := Invalidated(s, Cancelled);
      Send(t.(request := Request(true, true, false, Some(utteranceId), t.request.epoch)), Ask(utteranceId))
  }

  function Heard(localPlayback: bool, modelPlayback: bool): Floor {
    Floor(localPlayback || modelPlayback, localPlayback, modelPlayback)
  }

  function Called(s: State, call: Call): State {
    match call
    case RequestSpeech(utteranceId) => Requested(s, utteranceId)
    case CancelSpeech =>
      AfterInterviewerChange(Invalidated(s, Cancelled).(floor := Heard(s.floor.localPlayback, s.floor.modelPlayback)))
    case NoteLocalPlayback(active) => AfterInterviewerChange(s.(floor := Heard(active, s.floor.modelPlayback)))
    case NoteModelPlayback(active) => AfterInterviewerChange(s.(floor := Heard(s.floor.localPlayback, active)))
  }

  function Reacted(s: State, calls: seq<Call>): State {
    if calls == [] then s else Called(Reacted(s, calls[..|calls| - 1]), calls[|calls| - 1])
  }

  // ----- Interruptions -----

  function ConfirmBargeIn(s: State, reaction: seq<Call>): State {
    if s.mic.provisionalBargeAt.None? then s
    else
      var t := Invalidated(NoBarge(s).(floor := Heard(false, false)), Confirmed);
      Reacted(Released(t), reaction)
  }

  function HandleVad(s: State, event: Option<Vad.Event>): State {
    match event
    case None => s
    case Some(SpeechStart(at)) =>
      if s.request.generating then s.(mic := s.mic.(provisionalBargeAt := Some(at), deferredActivity := true))
      else if s.floor.interviewerSpeaking then OpenInput(s.(mic := s.mic.(provisionalBargeAt := Some(at))))
      else OpenInput(s)
    case Some(SpeechEnd(_)) => CloseInput(NoBarge(s))
  }

  predicate IsVoiced(floorDb: real, db: real) {
    db >= floorDb + CONTINUE_MARGIN_DB
  }

  function Resolve(s: State, db: real, atMs: real, reaction: seq<Call>): State {
    if s.mic.provisionalBargeAt.None? then s
    else if !IsVoiced(s.vad.noiseFloorDb, db) then s.(mic := s.mic.(provisionalBargeAt := Some(atMs)))
    else if atMs - s.mic.provisionalBargeAt.value < BARGE_CONFIRM_MS then s
    else ConfirmBargeIn(s, reaction)
  }

  /** The frame is in the pre-roll, unless a boundary is open already, and the detector has heard it. */
  function Captured(c: Config, s: State, frame: Frame, vad: Vad.State): State {
    s.(mic := if s.mic.activityOpen then s.mic else Buffer(c, s.mic, frame), vad := vad,
       captured := s.captured + frame.samples, pushes := s.pushes + 1)
  }

  predicate SendsFrame(s: State, event: Option<Vad.Event>) {
    s.ready && s.phase.Open? && s.mic.activityOpen && (event.None? || event.value.SpeechEnd?)
  }

  function PushAudio(c: Config, s: State, frame: Frame, db: real, atMs: real, reaction: seq<Call>): State {
    if s.mic.muted then s.(pushes := s.pushes + 1)
    else
      var (vad, event) := Vad.Step(c.vad, s.vad, Vad.Frame(db, atMs));
      var t := Resolve(HandleVad(Captured(c, s, frame, vad), event), db, atMs, reaction);
      if SendsFrame(t, event) then Send(t, Audio(frame)) else t
  }

  /** The detector is forced silent; an open turn is closed honestly. */
  function Silenced(c: Config, s: State, now: real): State {
    var (vad, closing) := Vad.Step(c.vad, s.vad, Vad.Reset(now));
    if closing.Some? then CloseInput(s.(vad := vad)) else s.(vad := vad)
  }

  function SetMuted(c: Config, s: State, muted: bool, now: real): State {
    if muted == s.mic.muted then s
    else if !muted then s.(mic := s.mic.(muted := false))
    else Silenced(c, s.(mic := Cleared(s.mic).(muted := true, provisionalBargeAt := None)), now)
  }

  // ----- The connection -----

  function OnSetupComplete(s: State): State {
    var t := s.(ready := true, setUp := true);
    if !t.vad.speaking || t.mic.muted then t
    else
      var u := SendFrames(StartActivity(t), t.mic.preSpeech);
      u.(mic := Cleared(u.mic))
  }

  /** A microphone with no boundary, nothing held and nothing undecided. */
  function Shut(mic: Mic): Mic {
    CLOSED_MIC.(muted := mic.muted)
  }

  function OnClose(s: State): State {
    Invalidated(s, Lost).(phase := Closed, ready := false, mic := Shut(s.mic),
                          floor := Heard(s.floor.localPlayback, s.floor.modelPlayback))
  }

  function Disconnected(c: Config, s: State, now: real): State {
    var t := Silenced(c, NoBarge(s), now);
    Invalidated(t, Lost).(phase := Closed, ready := false, mic := Shut(t.mic))
  }

  // ----- Provider messages -----

  function OnAudio(s: State, m: Content): State {
    if m.audio && s.request.accepting then
      Reacted(s.(floor := s.floor.(interviewerSpeaking := true), request := s.request.(audioThisTurn := true),
                 trace := s.trace + [ModelAudio]), m.onAudio)
    else s
  }

  function OnInterrupted(s: State, m: Content): State {
    if m.interrupted && s.request.accepting && !s.floor.localPlayback then
      Reacted(Invalidated(s.(floor := s.floor.(interviewerSpeaking := false)), Interrupted), m.onInterrupted)
    else s
  }

  function OnTranscript(s: State, m: Content): State {
    if m.stopWord then ConfirmBargeIn(s, m.onConfirmed) else s
  }

  /** A turn that ends without audio stays open. */
  function TurnOver(r: Request): Request {
    if r.audioThisTurn || !r.generating then r.(accepting := false, generating := false) else r
  }

  function OnTurnComplete(s: State, m: Content): State {
    if !m.turnComplete then s
    else
      var t := s.(request := TurnOver(s.request), floor := Heard(s.floor.localPlayback, s.floor.modelPlayback),
                  trace := s.trace + [TurnComplete]);
      AfterInterviewerChange(Reacted(t, m.onComplete))
  }

  function OnContent(s: State, m: Content): State {
    OnTurnComplete(OnTranscript(OnInterrupted(OnAudio(s, m), m), m), m)
  }

  function Step(c: Config, s: State, input: Input): State {
    match input
    case Connect => s.(phase := Connecting)
    case Opened => s.(phase := Open)
    case SetupComplete => OnSetupComplete(s)
    case Drop => s.(phase := Failing)
    case SocketClosed => OnClose(s)
    case Disconnect(now) => Disconnected(c, s, now)
    case Mute(muted, now) => SetMuted(c, s, muted, now)
    case Push(frame, db, at, reaction) => PushAudio(c, s, frame, db, at, reaction)
    case Shell(call) => Called(s, call)
    case Provider(content) => OnContent(s, content)
    case ToolCalled => s.(relays := s.relays + [s.request.epoch])
    case ToolAnswered(i) => if i < |s.relays| && s.relays[i] == s.request.epoch then Send(s, ToolResponse(i)) else s
  }

  // ----- The object as the shell holds it -----

  class Voice {
    const config: Config
    const vad: Vad.Detector
    var phase: Phase
    ghost var setUp: bool
    var ready: bool
    var floor: Floor
    var request: Request
    var mic: Mic
    var relays: seq<nat>
    ghost var trace: seq<Item>
    ghost var captured: seq<int>
    ghost var pushes: nat

    ghost function View(): State
      reads this, vad
    {
      State(phase, setUp, ready, floor, request, mic, relays, vad.View(), trace, captured, pushes)
    }

    ghost predicate Valid()
      reads this
    {
      vad.config == config.vad
    }

    constructor (config: Config)
      ensures this.config == config && Valid() && fresh(vad) && View() == Init(config)
    {
      this.config := config;
      vad := new Vad.Detector(config.vad);
      phase, setUp, ready := Fresh, false, false;
      floor, request, mic := Heard(false, false), NO_REQUEST, CLOSED_MIC;
      relays, trace, captured, pushes := [], [], [], 0;
    }

    method SendOne(item: Item)
      modifies this`trace
      ensures View() == Send(old(View()), item)
    {
      if phase.Open? { trace := trace + [item]; }
    }

    method SendAll(frames: seq<Frame>)
      modifies this`trace
      ensures View() == SendFrames(old(View()), frames)
    {
      for i := 0 to |frames|
        invariant trace == old(trace) + if phase.Open? then AudioOf(frames[..i]) else []
      {
        assert frames[..i + 1][..i] == frames[..i];
        SendOne(Audio(frames[i]));
      }
      assert frames[..|frames|] == frames;
    }

    method BufferPreSpeech(frame: Frame)
      modifies this`mic
      ensures mic == Buffer(config, old(mic), frame)
    {
      var limit := Limit(config, mic.deferredActivity);
      var copy := Sliced(frame, limit);
      var frames, total := mic.preSpeech + [copy], mic.preSpeechSamples + |copy.samples|;
      while |frames| > 1 && total > limit
        invariant Trimmed(frames, total, limit) == Trimmed(mic.preSpeech + [copy], mic.preSpeechSamples + |copy.samples|, limit)
        decreases |frames|
      {
        total := total - |frames[0].samples|;
        frames := frames[1..];
      }
      mic := mic.(preSpeech := frames, preSpeechSamples := total);
    }

    method SendActivity(start: bool)
      modifies this`trace, this`mic
      ensures View() == if start then StartActivity(old(View())) else EndActivity(old(View()))
    {
      if !start { mic := mic.(activityOpen := false); }
      if !ready || !phase.Open? { return; }
      SendOne(if start then ActivityStart else ActivityEnd);
      mic := mic.(activityOpen := start);
    }

    method OpenInputActivity()
      modifies this`trace, this`mic
      ensures View() == OpenInput(old(View()))
    {
      SendActivity(true);
      if mic.activityOpen { SendAll(mic.preSpeech); }
      mic := Cleared(mic);
    }

    method CloseInputActivity()
      modifies this`trace, this`mic
      ensures View() == CloseInput(old(View()))
    {
      if mic.deferredActivity {
        mic := Cleared(mic).(deferredActivity := false);
        return;
      }
      SendActivity(false);
    }

    method InvalidateRequest(ghost why: Item)
      modifies this`trace, this`request
      ensures View() == Invalidated(old(View()), why)
    {
      request := Request(false, false, false, None, request.epoch + 1);
      trace := trace + [why];
    }

    method ReleaseDeferred()
      modifies this`trace, this`mic
      ensures View() == Released(old(View()))
    {
      if mic.deferredActivity {
        mic := mic.(deferredActivity := false);
        if vad.speaking && !mic.muted { OpenInputActivity(); } else { mic := Cleared(mic); }
      }
    }

    method InterviewerChanged()
      modifies this`trace, this`mic
      ensures View() == AfterInterviewerChange(old(View()))
    {
      if floor.interviewerSpeaking || request.generating { return; }
      ReleaseDeferred();
      mic := mic.(provisionalBargeAt := None);
    }

    method RequestModelSpeech(utteranceId: string) returns (asked: bool)
      modifies this`trace, this`request
      ensures View() == Requested(old(View()), utteranceId)
      ensures asked == (ready && phase.Open?)
    {
      if !ready || !phase.Open? { return false; }
      InvalidateRequest(Cancelled);
      request := Request(true, true, false, Some(utteranceId), request.epoch);
      SendOne(Ask(utteranceId));
      return true;
    }

    method Do(call: Call)
      modifies this`trace, this`mic, this`request, this`floor
      ensures View() == Called(old(View()), call)
    {
      match call {
        case RequestSpeech(utteranceId) => var _ := RequestModelSpeech(utteranceId);
        case CancelSpeech =>
          InvalidateRequest(Cancelled);
          floor := Heard(floor.localPlayback, floor.modelPlayback);
          InterviewerChanged();
        case NoteLocalPlayback(active) =>
          floor := Heard(active, floor.modelPlayback);
          InterviewerChanged();
        case NoteModelPlayback(active) =>
          floor := Heard(floor.localPlayback, active);
          InterviewerChanged();
      }
    }

    /** A callback during which the shell makes these calls. */
    method CallBack(calls: seq<Call>)
      modifies this`trace, this`mic, this`request, this`floor
      ensures View() == Reacted(old(View()), calls)
    {
      for i := 0 to |calls|
        invariant View() == Reacted(old(View()), calls[..i])
      {
        assert calls[..i + 1][..i] == calls[..i];
        Do(calls[i]);
      }
      assert calls[..|calls|] == calls;
    }

    method Confirm(reaction: seq<Call>)
      modifies this`trace, this`mic, this`request, this`floor
      ensures View() == ConfirmBargeIn(old(View()), reaction)
    {
      if mic.provisionalBargeAt.None? { return; }
      mic := mic.(provisionalBargeAt := None);
      floor := Heard(false, false);
      InvalidateRequest(Confirmed);
      ReleaseDeferred();
      CallBack(reaction);
    }

    method HandleVadEvent(event: Option<Vad.Event>)
      modifies this`trace, this`mic
      ensures View() == HandleVad(old(View()), event)
    {
      match event {
        case None =>
        case Some(SpeechStart(at)) =>
          if floor.interviewerSpeaking || request.generating {
            mic := mic.(provisionalBargeAt := Some(at));
            if request.generating {
              mic := mic.(deferredActivity := true);
              return;
            }
          }
          OpenInputActivity();
        case Some(SpeechEnd(_)) =>
          mic := mic.(provisionalBargeAt := None);
          CloseInputActivity();
      }
    }

    method ResolveProvisionalBarge(db: real, atMs: real, reaction: seq<Call>)
      modifies this`trace, this`mic, this`request, this`floor
      ensures View() == Resolve(old(View()), db, atMs, reaction)
    {
      if mic.provisionalBargeAt.None? { return; }
      var start := mic.provisionalBargeAt.value;
      if db < vad.noiseFloorDb + CONTINUE_MARGIN_DB {
        mic := mic.(provisionalBargeAt := Some(atMs));
        return;
      }
      if atMs - start < BARGE_CONFIRM_MS { return; }
      Confirm(reaction);
    }

    method Capture(frame: Frame, db: real, atMs: real) returns (event: Option<Vad.Event>)
      requires Valid()
      modifies this`mic, this`captured, this`pushes, vad
      ensures Valid() && (vad.View(), event) == Vad.Step(config.vad, old(vad.View()), Vad.Frame(db, atMs))
      ensures View() == Captured(config, old(View()), frame, vad.View())
    {
      if !mic.activityOpen { BufferPreSpeech(frame); }
      captured, pushes := captured + frame.samples, pushes + 1;
      event := vad.PushDb(db, atMs);
    }

    method OnFrame(frame: Frame, db: real, atMs: real, reaction: seq<Call>)
      requires Valid()
      modifies this, vad
      ensures Valid() && View() == PushAudio(config, old(View()), frame, db, atMs, reaction)
    {
      if mic.muted {
        pushes := pushes + 1;
        return;
      }
      var event := Capture(frame, db, atMs);
      HandleVadEvent(event);
      ResolveProvisionalBarge(db, atMs, reaction);
      if !ready || !phase.Open? || !mic.activityOpen { return; }
      if event.None? || !event.value.SpeechStart? { SendOne(Audio(frame)); }
    }

    method Silence(now: real)
      requires Valid()
      modifies this`trace, this`mic, vad
      ensures Valid() && View() == Silenced(config, old(View()), now)
      ensures mic.provisionalBargeAt == old(mic.provisionalBargeAt)
    {
      var closing := vad.ForceSilence(now);
      if closing.Some? { CloseInputActivity(); }
    }

    method MuteMicrophone(mute: bool, now: real)
      requires Valid()
      modifies this`trace, this`mic, vad
      ensures Valid() && View() == SetMuted(config, old(View()), mute, now)
    {
      if mute == mic.muted { return; }
      mic := mic.(muted := mute);
      if mute {
        mic := Cleared(mic).(provisionalBargeAt := None);
        Silence(now);
      }
    }

    method SetupCompleted()
      modifies this
      ensures View() == OnSetupComplete(old(View()))
    {
      ready, setUp := true, true;
      if vad.speaking && !mic.muted {
        SendActivity(true);
        SendAll(mic.preSpeech);
        mic := Cleared(mic);
      }
    }

    method TransportClosed()
      modifies this
      ensures View() == OnClose(old(View()))
    {
      phase, ready := Closed, false;
      mic := mic.(activityOpen := false, deferredActivity := false);
      InvalidateRequest(Lost);
      mic := Cleared(mic);
      floor := Heard(floor.localPlayback, floor.modelPlayback);
      mic := mic.(provisionalBargeAt := None);
    }

    method HangUp(now: real)
      requires Valid()
      modifies this, vad
      ensures Valid() && View() == Disconnected(config, old(View()), now)
    {
      hide Silenced;
      mic := mic.(provisionalBargeAt := None);
      Silence(now);
      InvalidateRequest(Lost);
      ready := false;
      mic := Cleared(mic).(deferredActivity := false, activityOpen := false);
      phase := Closed;
    }

    method HandleAudio(m: Content)
      modifies this`trace, this`mic, this`request, this`floor
      ensures View() == OnAudio(old(View()), m)
    {
      if m.audio && request.accepting {
        floor, request := floor.(interviewerSpeaking := true), request.(audioThisTurn := true);
        trace := trace + [ModelAudio];
        CallBack(m.onAudio);
      }
    }

    method HandleInterrupted(m: Content)
      modifies this`trace, this`mic, this`request, this`floor
      ensures View() == OnInterrupted(old(View()), m)
    {
      if m.interrupted && request.accepting && !floor.localPlayback {
        floor := floor.(interviewerSpeaking := false);
        InvalidateRequest(Interrupted);
        CallBack(m.onInterrupted);
      }
    }

    method HandleTurnComplete(m: Content)
      modifies this`trace, this`mic, this`request, this`floor
      ensures View() == OnTurnComplete(old(View()), m)
    {
      if m.turnComplete {
        if request.audioThisTurn || !request.generating {
          request := request.(accepting := false, generating := false);
        }
        floor := Heard(floor.localPlayback, floor.modelPlayback);
        trace := trace + [TurnComplete];
        CallBack(m.onComplete);
        InterviewerChanged();
      }
    }

    method HandleContent(m: Content)
      modifies this`trace, this`mic, this`request, this`floor
      ensures View() == OnContent(old(View()), m)
    {
      HandleAudio(m);
      HandleInterrupted(m);
      if m.stopWord { Confirm(m.onConfirmed); }
      HandleTurnComplete(m);
    }

    method ToolRelayStarted() returns (relay: nat)
      modifies this`relays
      ensures View() == old(View()).(relays := old(relays) + [request.epoch]) && relay == old(|relays|)
    {
      relay := |relays|;
      relays := relays + [request.epoch];
    }

    /** The relay came back: its answer goes out only under the epoch it was asked in. */
    method ToolRelayEnded(relay: nat)
      requires relay < |relays|
      modifies this`trace
      ensures View() == Step(config, old(View()), ToolAnswered(relay))
    {
      if relays[relay] == request.epoch { SendOne(ToolResponse(relay)); }
    }
  }
}
