/**
 How often a captured frame reaches the provider (apps/web/lib/realtime-voice.ts, `pushAudio`,
 `openInputActivity`, `confirmBargeIn`): at most once, except for the frame that confirms an
 interruption that was held back.
 */
module SentOnce {
  import opened Wrappers
  import opened RealtimeVoice
  import opened BargeIn
  import Vad

  /** How many times a frame has been sent. */
  ghost function Copies(trace: seq<Item>, id: nat): nat {
    if trace == [] then 0
    else
      var last := trace[|trace| - 1];
      Copies(trace[..|trace| - 1], id) + if last.Audio? && last.frame.id == id then 1 else 0
  }

  /** How many times a frame is held. */
  ghost function Held(frames: seq<Frame>, id: nat): nat {
    if frames == [] then 0 else Held(frames[..|frames| - 1], id) + if frames[|frames| - 1].id == id then 1 else 0
  }

  lemma CopiesAppended(trace: seq<Item>, item: Item, id: nat)
    ensures Copies(trace + [item], id) == Copies(trace, id) + if item.Audio? && item.frame.id == id then 1 else 0
  {
    assert (trace + [item])[..|trace|] == trace;
  }

  lemma {:induction false} CopiesOfFrames(trace: seq<Item>, frames: seq<Frame>, id: nat)
    ensures Copies(trace + AudioOf(frames), id) == Copies(trace, id) + Held(frames, id)
  {
    if frames == [] {
      assert trace + [] == trace;
    } else {
      var init, last := frames[..|frames| - 1], Audio(frames[|frames| - 1]);
      CopiesOfFrames(trace, init, id);
      assert trace + AudioOf(frames) == trace + AudioOf(init) + [last];
      CopiesAppended(trace + AudioOf(init), last, id);
    }
  }

  // ----- A held frame is sent and given up together -----

  /** From `s` to `t` a frame may have gone from being held to being sent, or have been given up. */
  ghost predicate Moves(s: State, t: State, id: nat) {
    var sent, sent', held, held' := Copies(s.trace, id), Copies(t.trace, id), Held(s.mic.preSpeech, id), Held(t.mic.preSpeech, id);
    sent <= sent' && sent' + held' <= sent + held && held' in {0, held}
  }

  lemma OpenMoves(s: State, id: nat)
    ensures Moves(s, OpenInput(s), id)
    ensures s.ready && s.phase.Open? ==>
      Copies(OpenInput(s).trace, id) == Copies(s.trace, id) + Held(s.mic.preSpeech, id) && Held(OpenInput(s).mic.preSpeech, id) == 0
  {
    var t := StartActivity(s);
    CopiesAppended(s.trace, ActivityStart, id);
    CopiesOfFrames(t.trace, t.mic.preSpeech, id);
  }

  lemma CloseMoves(s: State, id: nat)
    ensures Moves(s, CloseInput(s), id)
  {
    CopiesAppended(s.trace, ActivityEnd, id);
  }

  lemma ReleaseMoves(s: State, id: nat)
    ensures Moves(s, Released(s), id) && Moves(s, AfterInterviewerChange(s), id)
  {
    hide OpenInput;
    OpenMoves(s.(mic := s.mic.(deferredActivity := false)), id);
  }

  lemma InvalidateMoves(s: State, why: Item, id: nat)
    requires !why.Audio?
    ensures Copies(Invalidated(s, why).trace, id) == Copies(s.trace, id) && Moves(s, Invalidated(s, why), id)
  {
    CopiesAppended(s.trace, why, id);
  }

  lemma CallMoves(s: State, call: Call, id: nat)
    ensures Moves(s, Called(s, call), id)
  {
    hide AfterInterviewerChange;
    InvalidateMoves(s, Cancelled, id);
    match call {
      case RequestSpeech(utteranceId) => CopiesAppended(s.trace + [Cancelled], Ask(utteranceId), id);
      case CancelSpeech =>
        ReleaseMoves(Invalidated(s, Cancelled).(floor := Heard(s.floor.localPlayback, s.floor.modelPlayback)), id);
      case NoteLocalPlayback(active) => ReleaseMoves(s.(floor := Heard(active, s.floor.modelPlayback)), id);
      case NoteModelPlayback(active) => ReleaseMoves(s.(floor := Heard(s.floor.localPlayback, active)), id);
    }
  }

  lemma {:induction false} ReactionMoves(s: State, calls: seq<Call>, id: nat)
    ensures Moves(s, Reacted(s, calls), id)
  {
    if calls != [] {
      ReactionMoves(s, calls[..|calls| - 1], id);
      CallMoves(Reacted(s, calls[..|calls| - 1]), calls[|calls| - 1], id);
    }
  }

  lemma ConfirmMoves(s: State, reaction: seq<Call>, id: nat)
    ensures Moves(s, ConfirmBargeIn(s, reaction), id)
  {
    hide Released, Reacted;
    var t := NoBarge(s).(floor := Heard(false, false));
    InvalidateMoves(t, Confirmed, id);
    ReleaseMoves(Invalidated(t, Confirmed), id);
    ReactionMoves(Released(Invalidated(t, Confirmed)), reaction, id);
  }

  lemma HandleVadMoves(s: State, event: Option<Vad.Event>, id: nat)
    ensures Moves(s, HandleVad(s, event), id)
  {
    hide OpenInput, CloseInput;
    OpenMoves(s, id);
    CloseMoves(NoBarge(s), id);
    if event.Some? {
      OpenMoves(s.(mic := s.mic.(provisionalBargeAt := Some(event.value.atMs))), id);
    }
  }

  lemma ResolveMoves(s: State, db: real, atMs: real, reaction: seq<Call>, id: nat)
    ensures Moves(s, Resolve(s, db, atMs, reaction), id)
  {
    hide ConfirmBargeIn;
    ConfirmMoves(s, reaction, id);
  }

  lemma ContentMoves(s: State, m: Content, id: nat)
    ensures Moves(s, OnContent(s, m), id)
  {
    hide Reacted, ConfirmBargeIn, AfterInterviewerChange;
    CopiesAppended(s.trace, ModelAudio, id);
    ReactionMoves(s.(floor := s.floor.(interviewerSpeaking := true), request := s.request.(audioThisTurn := true),
                     trace := s.trace + [ModelAudio]), m.onAudio, id);
    var t := OnAudio(s, m);
    var interrupted := Invalidated(t.(floor := t.floor.(interviewerSpeaking := false)), Interrupted);
    InvalidateMoves(t.(floor := t.floor.(interviewerSpeaking := false)), Interrupted, id);
    ReactionMoves(interrupted, m.onInterrupted, id);
    var u := OnInterrupted(t, m);
    ConfirmMoves(u, m.onConfirmed, id);
    TurnCompleteMoves(OnTranscript(u, m), m, id);
  }

  lemma TurnCompleteMoves(s: State, m: Content, id: nat)
    ensures Moves(s, OnTurnComplete(s, m), id)
  {
    hide Reacted, AfterInterviewerChange;
    CopiesAppended(s.trace, TurnComplete, id);
    var t := s.(request := TurnOver(s.request), floor := Heard(s.floor.localPlayback, s.floor.modelPlayback),
                trace := s.trace + [TurnComplete]);
    ReactionMoves(t, m.onComplete, id);
    ReleaseMoves(Reacted(t, m.onComplete), id);
  }

  lemma SilenceMoves(c: Config, s: State, now: real, id: nat)
    ensures Moves(s, Silenced(c, s, now), id)
  {
    CloseMoves(s.(vad := Vad.Step(c.vad, s.vad, Vad.Reset(now)).0), id);
  }

  lemma SetupMoves(s: State, id: nat)
    ensures Moves(s, OnSetupComplete(s), id)
  {
    var t := StartActivity(s.(ready := true, setUp := true));
    CopiesAppended(s.trace, ActivityStart, id);
    CopiesOfFrames(t.trace, s.mic.preSpeech, id);
  }

  lemma OthersMove(c: Config, s: State, input: Input, id: nat)
    requires !input.Push?
    ensures Moves(s, Step(c, s, input), id) && Step(c, s, input).pushes == s.pushes
  {
    hide PushAudio, OnContent, Called, OnSetupComplete, Silenced;
    match input {
      case Shell(call) => CallMoves(s, call, id); CallKeepsPushes(s, call);
      case Provider(m) => ContentMoves(s, m, id); ContentKeepsPushes(s, m);
      case SetupComplete => SetupMoves(s, id); SetupKeepsPushes(s);
      case SocketClosed => CopiesAppended(s.trace, Lost, id);
      case Disconnect(now) =>
        SilenceMoves(c, NoBarge(s), now, id);
        SilenceKeepsPushes(c, NoBarge(s), now);
        CopiesAppended(Silenced(c, NoBarge(s), now).trace, Lost, id);
      case Mute(muted, now) =>
        var t := s.(mic := Cleared(s.mic).(muted := true, provisionalBargeAt := None));
        SilenceMoves(c, t, now, id);
        SilenceKeepsPushes(c, t, now);
      case ToolAnswered(i) => CopiesAppended(s.trace, ToolResponse(i), id);
      case _ =>
    }
  }

  // ----- Nothing but a frame counts as one -----

  lemma SilenceKeepsPushes(c: Config, s: State, now: real)
    ensures Silenced(c, s, now).pushes == s.pushes
  {
  }

  lemma SetupKeepsPushes(s: State)
    ensures OnSetupComplete(s).pushes == s.pushes
  {
  }

  lemma HandleVadKeepsPushes(s: State, event: Option<Vad.Event>)
    ensures HandleVad(s, event).pushes == s.pushes
  {
  }

  lemma ChangeKeepsPushes(s: State)
    ensures AfterInterviewerChange(s).pushes == s.pushes
    ensures AfterInterviewerChange(s).mic.deferredActivity ==> s.mic.deferredActivity
  {
  }

  lemma CallKeepsPushes(s: State, call: Call)
    ensures Called(s, call).pushes == s.pushes
    ensures Called(s, call).mic.deferredActivity ==> s.mic.deferredActivity
  {
    hide AfterInterviewerChange;
    ChangeKeepsPushes(Invalidated(s, Cancelled).(floor := Heard(s.floor.localPlayback, s.floor.modelPlayback)));
    if call.NoteLocalPlayback? {
      ChangeKeepsPushes(s.(floor := Heard(call.active, s.floor.modelPlayback)));
    } else if call.NoteModelPlayback? {
      ChangeKeepsPushes(s.(floor := Heard(s.floor.localPlayback, call.active)));
    }
  }

  lemma {:induction false} ReactionKeepsPushes(s: State, calls: seq<Call>)
    ensures Reacted(s, calls).pushes == s.pushes
    ensures Reacted(s, calls).mic.deferredActivity ==> s.mic.deferredActivity
  {
    if calls != [] {
      ReactionKeepsPushes(s, calls[..|calls| - 1]);
      CallKeepsPushes(Reacted(s, calls[..|calls| - 1]), calls[|calls| - 1]);
    }
  }

  lemma ConfirmKeepsPushes(s: State, reaction: seq<Call>)
    ensures ConfirmBargeIn(s, reaction).pushes == s.pushes
    ensures s.mic.provisionalBargeAt.Some? ==> !ConfirmBargeIn(s, reaction).mic.deferredActivity
  {
    hide Reacted;
    var t := NoBarge(s).(floor := Heard(false, false));
    ReactionKeepsPushes(Released(Invalidated(t, Confirmed)), reaction);
  }

  lemma ContentKeepsPushes(s: State, m: Content)
    ensures OnContent(s, m).pushes == s.pushes
  {
    hide OnAudio, OnInterrupted, ConfirmBargeIn, OnTurnComplete;
    AnswerKeepsPushes(s, m);
    var u := OnInterrupted(OnAudio(s, m), m);
    ConfirmKeepsPushes(u, m.onConfirmed);
    TurnCompleteKeepsPushes(OnTranscript(u, m), m);
  }

  lemma AnswerKeepsPushes(s: State, m: Content)
    ensures OnInterrupted(OnAudio(s, m), m).pushes == s.pushes
  {
    hide Reacted;
    ReactionKeepsPushes(s.(floor := s.floor.(interviewerSpeaking := true), request := s.request.(audioThisTurn := true),
                           trace := s.trace + [ModelAudio]), m.onAudio);
    var t := OnAudio(s, m);
    ReactionKeepsPushes(Invalidated(t.(floor := t.floor.(interviewerSpeaking := false)), Interrupted), m.onInterrupted);
  }

  lemma TurnCompleteKeepsPushes(s: State, m: Content)
    ensures OnTurnComplete(s, m).pushes == s.pushes
  {
    hide Reacted;
    ReactionKeepsPushes(s.(request := TurnOver(s.request), floor := Heard(s.floor.localPlayback, s.floor.modelPlayback),
                           trace := s.trace + [TurnComplete]), m.onComplete);
  }

  // ----- Pushing a frame -----

  /** `id` is not held twice, and not held any more once it has been sent; later ones are unknown. */
  ghost predicate Tracked(s: State, id: nat) {
    && Copies(s.trace, id) + Held(s.mic.preSpeech, id) <= 2
    && (Held(s.mic.preSpeech, id) > 0 ==> Held(s.mic.preSpeech, id) == 1 && Copies(s.trace, id) == 0)
    && (id >= s.pushes ==> Copies(s.trace, id) == 0 && Held(s.mic.preSpeech, id) == 0)
  }

  lemma HeldPushed(frames: seq<Frame>, frame: Frame, id: nat)
    ensures Held(frames + [frame], id) == Held(frames, id) + if frame.id == id then 1 else 0
  {
    assert (frames + [frame])[..|frames|] == frames;
  }

  lemma {:induction false} HeldTail(frames: seq<Frame>, id: nat)
    requires frames != []
    ensures Held(frames, id) == (if frames[0].id == id then 1 else 0) + Held(frames[1..], id)
  {
    if |frames| > 1 {
      HeldTail(frames[..|frames| - 1], id);
      assert frames[..|frames| - 1][1..] == frames[1..][..|frames| - 2];
    }
  }

  /** Trimming gives up frames from the front, never the last one. */
  lemma {:induction false} TrimHolds(frames: seq<Frame>, samples: int, limit: nat, id: nat)
    requires frames != []
    ensures var kept := Trimmed(frames, samples, limit).0;
            && kept != [] && kept[|kept| - 1] == frames[|frames| - 1] && Held(kept, id) <= Held(frames, id)
    decreases |frames|
  {
    if |frames| > 1 && samples > limit {
      HeldTail(frames, id);
      TrimHolds(frames[1..], samples - |frames[0].samples|, limit, id);
    }
  }

  lemma BufferTracks(c: Config, mic: Mic, frame: Frame, id: nat)
    requires Held(mic.preSpeech, id) <= 1 && (frame.id == id ==> Held(mic.preSpeech, id) == 0)
    ensures var held := Held(Buffer(c, mic, frame).preSpeech, id);
            if frame.id == id then held == 1 else held <= Held(mic.preSpeech, id)
  {
    var limit := Limit(c, mic.deferredActivity);
    var copy := Sliced(frame, limit);
    HeldPushed(mic.preSpeech, copy, id);
    TrimHolds(mic.preSpeech + [copy], mic.preSpeechSamples + |copy.samples|, limit, id);
    var kept := Buffer(c, mic, frame).preSpeech;
    assert kept == kept[..|kept| - 1] + [kept[|kept| - 1]];
  }

  /** The conditions under which a pushed frame confirms an interruption that was held back. */
  ghost predicate ConfirmsHeld(c: Config, s: State, db: real, atMs: real) {
    var (vad, event) := Vad.Step(c.vad, s.vad, Vad.Frame(db, atMs));
    && !s.mic.muted && s.ready && s.phase.Open?
    && s.mic.deferredActivity && event.None? && IsVoiced(vad.noiseFloorDb, db)
    && s.mic.provisionalBargeAt.Some? && atMs - s.mic.provisionalBargeAt.value >= BARGE_CONFIRM_MS
  }

  /** An interruption that is confirmed while its boundary was held back sends what is held, and leaves the boundary open. */
  lemma ConfirmSendsHeld(s: State, reaction: seq<Call>, id: nat)
    requires Inv(s) && s.ready && s.phase.Open? && s.mic.deferredActivity && !s.mic.muted && s.mic.provisionalBargeAt.Some?
    requires Held(s.mic.preSpeech, id) == 1 && Copies(s.trace, id) == 0
    ensures var t := ConfirmBargeIn(s, reaction);
            && Copies(t.trace, id) == 1 && Held(t.mic.preSpeech, id) == 0
            && t.ready && t.phase.Open? && t.mic.activityOpen
  {
    hide Reacted, OpenInput;
    var t := NoBarge(s).(floor := Heard(false, false));
    InvalidateMoves(t, Confirmed, id);
    InvalidateKeeps(t, Confirmed);
    var u := Invalidated(t, Confirmed);
    OpenMoves(u.(mic := u.mic.(deferredActivity := false)), id);
    ReleaseKeeps(u);
    ReactionMoves(Released(u), reaction, id);
    ReactionKeeps(Released(u), reaction);
    ReactionKeepsPushes(Released(u), reaction);
  }

  /** The frame being pushed: what becomes of it. */
  lemma PushOwnFrame(c: Config, s: State, frame: Frame, db: real, atMs: real, reaction: seq<Call>)
    requires Inv(s) && Tracked(s, frame.id) && frame.id == s.pushes
    ensures var t := PushAudio(c, s, frame, db, atMs, reaction);
            var sent, held := Copies(t.trace, frame.id), Held(t.mic.preSpeech, frame.id);
            if ConfirmsHeld(c, s, db, atMs) then sent == 2 && held == 0 else sent + held <= 1
  {
    if !s.mic.muted {
      hide Captured, HandleVad, Resolve, Vad.Step;
      var input := Vad.Frame(db, atMs);
      var (vad, event) := Vad.Step(c.vad, s.vad, input);
      Vad.EventsFlip(c.vad, s.vad, input);
      CaptureKeeps(c, s, frame, vad);
      CaptureTracks(c, s, frame, vad);
      var heard := Captured(c, s, frame, vad);
      HandleVadKeeps(s, heard, event);
      HandleVadMoves(heard, event, frame.id);
      var t := HandleVad(heard, event);
      ResolveMoves(t, db, atMs, reaction, frame.id);
      CopiesAppended(Resolve(t, db, atMs, reaction).trace, Audio(frame), frame.id);
      if event.None? {
        NoEvent(c, s, frame, heard, db, atMs, reaction);
      } else if event.value.SpeechEnd? {
        EndClosesFirst(heard, event, db, atMs, reaction);
      }
    }
  }

  lemma CaptureTracks(c: Config, s: State, frame: Frame, vad: Vad.State)
    requires Tracked(s, frame.id) && frame.id == s.pushes
    ensures var t := Captured(c, s, frame, vad);
            && Copies(t.trace, frame.id) == 0
            && Held(t.mic.preSpeech, frame.id) == (if s.mic.activityOpen then 0 else 1)
  {
    BufferTracks(c, s.mic, frame, frame.id);
  }

  /** A frame that ends speech is not sent after the boundary it closes. */
  lemma EndClosesFirst(heard: State, event: Option<Vad.Event>, db: real, atMs: real, reaction: seq<Call>)
    requires Wired(heard) && event.Some? && event.value.SpeechEnd? && Inv(HandleVad(heard, event))
    requires !HandleVad(heard, event).vad.speaking
    ensures !SendsFrame(Resolve(HandleVad(heard, event), db, atMs, reaction), event)
  {
  }

  /** No event: the frame is sent at the end if a boundary is open, and before that if confirming opens it. */
  lemma NoEvent(c: Config, s: State, frame: Frame, heard: State, db: real, atMs: real, reaction: seq<Call>)
    requires Inv(s) && Inv(heard) && !s.mic.muted && HandleVad(heard, None) == heard
    requires heard == s.(mic := heard.mic, vad := heard.vad, captured := heard.captured, pushes := heard.pushes)
    requires heard.mic == s.mic.(preSpeech := heard.mic.preSpeech, preSpeechSamples := heard.mic.preSpeechSamples)
    requires Vad.Step(c.vad, s.vad, Vad.Frame(db, atMs)) == (heard.vad, None)
    requires Copies(heard.trace, frame.id) == 0 && Held(heard.mic.preSpeech, frame.id) == if s.mic.activityOpen then 0 else 1
    ensures var t := Resolve(heard, db, atMs, reaction); var u := if SendsFrame(t, None) then Send(t, Audio(frame)) else t;
            var sent, held := Copies(u.trace, frame.id), Held(u.mic.preSpeech, frame.id);
            if ConfirmsHeld(c, s, db, atMs) then sent == 2 && held == 0 else sent + held <= 1
  {
    hide ConfirmBargeIn, Vad.Step;
    var t := Resolve(heard, db, atMs, reaction);
    ResolveMoves(heard, db, atMs, reaction, frame.id);
    CopiesAppended(t.trace, Audio(frame), frame.id);
    if ConfirmsHeld(c, s, db, atMs) {
      ConfirmSendsHeld(heard, reaction, frame.id);
    } else if !s.mic.activityOpen {
      ConfirmKeeps(heard, reaction);
      NothingToSend(heard, db, atMs, reaction);
    }
  }

  /** Without a held-back boundary, confirming opens nothing on a working connection. */
  lemma NothingToSend(s: State, db: real, atMs: real, reaction: seq<Call>)
    requires Inv(s) && !s.mic.activityOpen
    requires !(s.ready && s.phase.Open? && s.mic.deferredActivity && IsVoiced(s.vad.noiseFloorDb, db)
               && s.mic.provisionalBargeAt.Some? && atMs - s.mic.provisionalBargeAt.value >= BARGE_CONFIRM_MS)
    ensures !SendsFrame(Resolve(s, db, atMs, reaction), None)
  {
    hide ConfirmBargeIn;
    ConfirmKeepsPhase(s, reaction);
  }

  lemma ConfirmKeepsPhase(s: State, reaction: seq<Call>)
    requires Inv(s)
    ensures var t := ConfirmBargeIn(s, reaction); t.ready == s.ready && t.phase == s.phase
  {
    var t := NoBarge(s).(floor := Heard(false, false));
    InvalidateKeeps(t, Confirmed);
    ReleaseKeeps(Invalidated(t, Confirmed));
    ReactionKeeps(Released(Invalidated(t, Confirmed)), reaction);
  }

  // ----- Over every run -----

  /** Pushing another frame moves this one as everything else does. */
  lemma PushMovesOthers(c: Config, s: State, frame: Frame, db: real, atMs: real, reaction: seq<Call>, id: nat)
    requires Tracked(s, id) && id != frame.id
    ensures Moves(s, PushAudio(c, s, frame, db, atMs, reaction), id)
  {
    if !s.mic.muted {
      hide HandleVad, Resolve, Vad.Step, Buffer;
      var (vad, event) := Vad.Step(c.vad, s.vad, Vad.Frame(db, atMs));
      BufferTracks(c, s.mic, frame, id);
      var heard := Captured(c, s, frame, vad);
      HandleVadMoves(heard, event, id);
      var t := HandleVad(heard, event);
      ResolveMoves(t, db, atMs, reaction, id);
      CopiesAppended(Resolve(t, db, atMs, reaction).trace, Audio(frame), id);
    }
  }

  lemma PushCounts(c: Config, s: State, frame: Frame, db: real, atMs: real, reaction: seq<Call>)
    ensures PushAudio(c, s, frame, db, atMs, reaction).pushes == s.pushes + 1
  {
    if !s.mic.muted {
      hide HandleVad, ConfirmBargeIn, Vad.Step, Buffer;
      var (vad, event) := Vad.Step(c.vad, s.vad, Vad.Frame(db, atMs));
      HandleVadKeepsPushes(Captured(c, s, frame, vad), event);
      ConfirmKeepsPushes(HandleVad(Captured(c, s, frame, vad), event), reaction);
    }
  }

  lemma StepTracks(c: Config, s: State, input: Input, id: nat)
    requires Inv(s) && Possible(s, input) && Tracked(s, id)
    ensures Tracked(Step(c, s, input), id)
    ensures !(input.Push? && input.frame.id == id) ==> Moves(s, Step(c, s, input), id)
    ensures Step(c, s, input).pushes == s.pushes + if input.Push? then 1 else 0
  {
    match input {
      case Push(frame, db, atMs, reaction) =>
        hide PushAudio;
        PushCounts(c, s, frame, db, atMs, reaction);
        if frame.id == id {
          PushOwnFrame(c, s, frame, db, atMs, reaction);
        } else {
          PushMovesOthers(c, s, frame, db, atMs, reaction, id);
        }
      case _ =>
        hide Step;
        OthersMove(c, s, input, id);
    }
  }

  lemma {:induction false} TrackedHolds(h: History, n: nat, id: nat)
    requires IsRun(h) && n <= |h.inputs|
    ensures Tracked(h.states[n], id)
  {
    hide Step;
    if n > 0 {
      TrackedHolds(h, n - 1, id);
      InvHolds(h, n - 1);
      assert IsStep(h, n - 1);
      StepTracks(h.config, h.states[n - 1], h.inputs[n - 1], id);
    }
  }

  /** A frame that has been pushed is sent as often as it was then, or once more if it was still held. */
  lemma {:induction false} OnlyHeldFramesFollow(h: History, m: nat, n: nat, id: nat)
    requires IsRun(h) && m <= n <= |h.inputs| && id < h.states[m].pushes
    ensures h.states[m].pushes <= h.states[n].pushes
    ensures var s, t := h.states[m], h.states[n];
            && Copies(s.trace, id) <= Copies(t.trace, id)
            && Copies(t.trace, id) + Held(t.mic.preSpeech, id) <= Copies(s.trace, id) + Held(s.mic.preSpeech, id)
    decreases n
  {
    hide Step;
    if m < n {
      OnlyHeldFramesFollow(h, m, n - 1, id);
      TrackedHolds(h, n - 1, id);
      InvHolds(h, n - 1);
      assert IsStep(h, n - 1);
      StepTracks(h.config, h.states[n - 1], h.inputs[n - 1], id);
    }
  }

  /**
   In every run, a captured frame reaches the provider at most once, except that it does twice
   exactly if, when it was pushed, it confirmed an interruption that was held back on a working
   connection: microphone on, boundary deferred, no event of the detector, loud enough, and at
   least 400 ms since the clock.
   */
  lemma SentTwiceExactlyWhenConfirming(h: History, n: nat, m: nat)
    requires IsRun(h) && n < m <= |h.inputs| && h.inputs[n].Push?
    ensures var copies := Copies(h.states[m].trace, h.inputs[n].frame.id);
            && copies <= 2
            && (copies == 2 <==> ConfirmsHeld(h.config, h.states[n], h.inputs[n].db, h.inputs[n].atMs))
  {
    hide PushAudio;
    var Push(frame, db, atMs, reaction) := h.inputs[n];
    InvHolds(h, n);
    TrackedHolds(h, n, frame.id);
    assert IsStep(h, n);
    PushOwnFrame(h.config, h.states[n], frame, db, atMs, reaction);
    PushCounts(h.config, h.states[n], frame, db, atMs, reaction);
    OnlyHeldFramesFollow(h, n + 1, m, frame.id);
  }

  // ----- It happens -----

  /** The detector's default configuration, and the usual capture rate. */
  const DEFAULTS := Config(48000, Vad.Config(9.0, 5.0, 40.0, 350.0, 0.02, 500.0, 0.25, -55.0))

  lemma Longer(h: History, input: Input) returns (longer: History)
    requires IsRun(h) && Possible(h.states[|h.inputs|], input)
    ensures IsRun(longer) && longer.config == h.config && longer.inputs == h.inputs + [input]
    ensures longer.states == h.states + [Step(h.config, h.states[|h.inputs|], input)]
  {
    hide Step;
    RunsGoOn(h, input);
    longer := h.(inputs := h.inputs + [input], states := h.states + [Step(h.config, h.states[|h.inputs|], input)]);
  }

  /** A connection on which an answer has been requested and nothing but room tone was heard. */
  ghost predicate IsAnswering(s: State, vad: Vad.State) {
    && s.phase.Open? && s.ready && s.setUp && !s.mic.muted && !s.mic.activityOpen && !s.mic.deferredActivity
    && s.mic.provisionalBargeAt.None? && s.request.generating && s.vad == vad
  }

  lemma AnswerRequested() returns (h: History)
    ensures IsRun(h) && h.config == DEFAULTS && |h.inputs| == 5 && h.states[5].pushes == 1
    ensures IsAnswering(h.states[5], Vad.State(-55.0, false, None, None, Some(0.0)))
  {
    h := Recorded(DEFAULTS, [], [Init(DEFAULTS)]);
    h := Longer(h, Connect);
    h := Longer(h, Opened);
    h := Longer(h, SetupComplete);
    assert h.states[3] == Init(DEFAULTS).(phase := Open, ready := true, setUp := true);
    h := Longer(h, Push(Frame(0, [0]), -55.0, 0.0, []));
    h := Longer(h, Shell(RequestSpeech("u")));
  }

  /** Two loud frames, 40 ms apart: speech sets in, and its boundary is held back. */
  lemma SpeechSetsIn(s: State, one: Frame, two: Frame)
    requires IsAnswering(s, Vad.State(-55.0, false, None, None, Some(0.0)))
    ensures var t := Step(DEFAULTS, s, Push(one, -30.0, 500.0, []));
            && IsAnswering(t, Vad.State(-55.0, false, Some(500.0), None, Some(0.0))) && t.pushes == s.pushes + 1
            && var u := Step(DEFAULTS, t, Push(two, -30.0, 540.0, []));
               && u.ready && u.phase.Open? && !u.mic.muted && u.mic.deferredActivity && u.pushes == s.pushes + 2
               && u.mic.provisionalBargeAt == Some(500.0)
               && u.vad == Vad.State(-55.0, true, None, None, Some(0.0))
  {
    hide Trimmed, LastSamples;
    var t := Step(DEFAULTS, s, Push(one, -30.0, 500.0, []));
    assert IsAnswering(t, Vad.State(-55.0, false, Some(500.0), None, Some(0.0)));
  }

  /** From a new connection: an answer is requested, the candidate talks over it, and the frame at 400 ms goes out twice. */
  lemma ConfirmingFrameIsSentTwice() returns (h: History)
    ensures IsRun(h) && |h.inputs| == 8 && h.inputs[7].Push? && Copies(h.states[8].trace, h.inputs[7].frame.id) == 2
  {
    hide Step;
    h := AnswerRequested();
    SpeechSetsIn(h.states[5], Frame(1, [0]), Frame(2, [0]));
    h := Longer(h, Push(Frame(1, [0]), -30.0, 500.0, []));
    h := Longer(h, Push(Frame(2, [0]), -30.0, 540.0, []));
    assert ConfirmsHeld(DEFAULTS, h.states[7], -30.0, 900.0);
    h := Longer(h, Push(Frame(3, [0]), -30.0, 900.0, []));
    SentTwiceExactlyWhenConfirming(h, 7, 8);
  }
}
