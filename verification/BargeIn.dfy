/**
 What the live voice connection guarantees on the wire, over every run of frames, mutes,
 requests, shell calls and provider messages (apps/web/lib/realtime-voice.ts).
 */
module BargeIn {
  import opened Wrappers
  import opened RealtimeVoice
  import Vad

  // ----- Reading the wire -----

  /** Whether the provider has an activity open. */
  ghost predicate IsOpen(trace: seq<Item>) {
    trace != [] &&
    match trace[|trace| - 1]
    case ActivityStart => true
    case ActivityEnd => false
    case _ => IsOpen(trace[..|trace| - 1])
  }

  /** What the provider is doing for us: nothing, preparing a requested answer, or giving it. */
  datatype Generation = Idle | Waiting | Answering

  ghost function Generating(trace: seq<Item>): Generation {
    if trace == [] then Idle
    else
      var before := Generating(trace[..|trace| - 1]);
      match trace[|trace| - 1]
      case Ask(_) => Waiting
      case ModelAudio => if before.Idle? then Idle else Answering
      case TurnComplete => if before.Answering? then Idle else before
      case Confirmed => Idle
      case Interrupted => Idle
      case Cancelled => Idle
      case Lost => Idle
      case _ => before
  }

  /** `item` may follow `trace`: boundaries alternate around audio, and no start cuts a generation off. */
  ghost predicate MayFollow(trace: seq<Item>, item: Item) {
    match item
    case ActivityStart => !IsOpen(trace) && Generating(trace).Idle?
    case ActivityEnd => IsOpen(trace)
    case Audio(_) => IsOpen(trace)
    case _ => true
  }

  ghost predicate IsOrderly(trace: seq<Item>) {
    trace == [] || (IsOrderly(trace[..|trace| - 1]) && MayFollow(trace[..|trace| - 1], trace[|trace| - 1]))
  }

  predicate EndsRequest(item: Item) {
    item.Confirmed? || item.Interrupted? || item.Cancelled? || item.Lost?
  }

  ghost function Endings(trace: seq<Item>): nat {
    if trace == [] then 0 else Endings(trace[..|trace| - 1]) + if EndsRequest(trace[|trace| - 1]) then 1 else 0
  }

  ghost function Confirmations(trace: seq<Item>): nat {
    if trace == [] then 0 else Confirmations(trace[..|trace| - 1]) + if trace[|trace| - 1].Confirmed? then 1 else 0
  }

  lemma Appended(trace: seq<Item>, item: Item)
    ensures IsOrderly(trace + [item]) <==> IsOrderly(trace) && MayFollow(trace, item)
    ensures IsOpen(trace + [item]) == (if item.ActivityStart? then true else if item.ActivityEnd? then false else IsOpen(trace))
    ensures Endings(trace + [item]) == Endings(trace) + if EndsRequest(item) then 1 else 0
    ensures Confirmations(trace + [item]) == Confirmations(trace) + if item.Confirmed? then 1 else 0
    ensures EndsRequest(item) ==> Generating(trace + [item]).Idle?
    ensures item.Ask? ==> Generating(trace + [item]).Waiting?
    ensures item.ModelAudio? ==> Generating(trace + [item]) == if Generating(trace).Idle? then Idle else Answering
    ensures item.TurnComplete? ==> Generating(trace + [item]) == if Generating(trace).Answering? then Idle else Generating(trace)
    ensures item.ActivityStart? || item.ActivityEnd? || item.Audio? || item.ToolResponse? ==>
      Generating(trace + [item]) == Generating(trace)
  {
    assert (trace + [item])[..|trace|] == trace;
  }

  lemma {:induction false} AudioAppended(trace: seq<Item>, frames: seq<Frame>)
    ensures Endings(trace + AudioOf(frames)) == Endings(trace)
    ensures Confirmations(trace + AudioOf(frames)) == Confirmations(trace)
    ensures Generating(trace + AudioOf(frames)) == Generating(trace)
    ensures IsOpen(trace + AudioOf(frames)) == IsOpen(trace)
    ensures IsOrderly(trace) && IsOpen(trace) ==> IsOrderly(trace + AudioOf(frames))
  {
    if frames == [] {
      assert trace + [] == trace;
    } else {
      var init, last := frames[..|frames| - 1], Audio(frames[|frames| - 1]);
      AudioAppended(trace, init);
      assert trace + AudioOf(frames) == trace + AudioOf(init) + [last];
      Appended(trace + AudioOf(init), last);
    }
  }

  // ----- The invariant -----

  /** What holds even between two statements. */
  ghost predicate Wired(s: State) {
    && IsOrderly(s.trace) && Endings(s.trace) == s.request.epoch
    && (s.phase.Open? ==> IsOpen(s.trace) == s.mic.activityOpen)
    && (s.phase.Fresh? || s.phase.Connecting? ==> !IsOpen(s.trace) && !s.setUp)
    && s.request.accepting == s.request.generating == !Generating(s.trace).Idle?
    && (s.request.generating ==> s.ready && s.request.audioThisTurn == Generating(s.trace).Answering?)
    && (s.ready ==> s.setUp) && (!s.ready ==> !s.mic.activityOpen && !s.mic.deferredActivity)
  }

  /** How the microphone stands with the detector, whenever a call has returned. */
  ghost predicate Settled(s: State) {
    && (s.mic.deferredActivity ==> s.vad.speaking)
    && (s.mic.provisionalBargeAt.Some? ==> s.vad.speaking)
    && (s.mic.muted ==> !s.vad.speaking)
    && (s.ready && s.phase.Open? ==> s.mic.activityOpen == (s.vad.speaking && !s.mic.deferredActivity))
  }

  ghost predicate Inv(s: State) {
    Wired(s) && Settled(s)
  }

  /** Opening and closing touch only the microphone and the wire, never the request. */
  ghost predicate SameBut(s: State, t: State) {
    t == s.(mic := t.mic, trace := t.trace) && Confirmations(t.trace) == Confirmations(s.trace)
  }

  lemma OpenKeeps(s: State)
    requires Wired(s) && !s.request.generating && (s.ready && s.phase.Open? ==> !s.mic.activityOpen)
    ensures var t := OpenInput(s);
            && Wired(t) && SameBut(s, t)
            && t.mic == Cleared(s.mic).(activityOpen := s.mic.activityOpen || (s.ready && s.phase.Open?))
  {
    Appended(s.trace, ActivityStart);
    AudioAppended(StartActivity(s).trace, s.mic.preSpeech);
  }

  lemma CloseKeeps(s: State)
    requires Wired(s) && (s.mic.deferredActivity || (s.ready && s.phase.Open? ==> s.mic.activityOpen))
    requires s.mic.deferredActivity ==> !s.mic.activityOpen || !s.phase.Open? || !s.ready
    ensures var t := CloseInput(s);
            && Wired(t) && SameBut(s, t) && !t.mic.deferredActivity && t.mic.muted == s.mic.muted
            && t.mic.provisionalBargeAt == s.mic.provisionalBargeAt
            && (s.ready && s.phase.Open? ==> !t.mic.activityOpen)
  {
    Appended(s.trace, ActivityEnd);
  }

  lemma ReleaseKeeps(s: State)
    requires Inv(s) && !s.request.generating
    ensures var t := Released(s);
            && Inv(t) && SameBut(s, t) && !t.mic.deferredActivity
            && t.mic.provisionalBargeAt == s.mic.provisionalBargeAt && t.mic.muted == s.mic.muted
  {
    if s.mic.deferredActivity {
      OpenKeeps(s.(mic := s.mic.(deferredActivity := false)));
    }
  }

  lemma InvalidateKeeps(s: State, why: Item)
    requires Inv(s) && EndsRequest(why)
    ensures Inv(Invalidated(s, why))
    ensures Confirmations(Invalidated(s, why).trace) == Confirmations(s.trace) + if why.Confirmed? then 1 else 0
  {
    Appended(s.trace, why);
  }

  lemma ChangeKeeps(s: State)
    requires Inv(s)
    ensures Inv(AfterInterviewerChange(s)) && SameBut(s, AfterInterviewerChange(s))
    ensures AfterInterviewerChange(s).mic.provisionalBargeAt in {s.mic.provisionalBargeAt, None}
  {
    if !s.floor.interviewerSpeaking && !s.request.generating {
      ReleaseKeeps(s);
    }
  }

  /** Calls from the shell never confirm an interruption and never start one. */
  ghost predicate Quietly(s: State, t: State) {
    && t.phase == s.phase && t.setUp == s.setUp && t.ready == s.ready && t.vad == s.vad && t.relays == s.relays
    && t.captured == s.captured && t.mic.muted == s.mic.muted
    && t.mic.provisionalBargeAt in {s.mic.provisionalBargeAt, None}
    && Confirmations(t.trace) == Confirmations(s.trace)
  }

  lemma CallKeeps(s: State, call: Call)
    requires Inv(s)
    ensures Inv(Called(s, call)) && Quietly(s, Called(s, call))
  {
    match call {
      case RequestSpeech(utteranceId) =>
        InvalidateKeeps(s, Cancelled);
        Appended(Invalidated(s, Cancelled).trace, Ask(utteranceId));
      case CancelSpeech =>
        InvalidateKeeps(s, Cancelled);
        ChangeKeeps(Invalidated(s, Cancelled).(floor := Heard(s.floor.localPlayback, s.floor.modelPlayback)));
      case NoteLocalPlayback(active) => ChangeKeeps(s.(floor := Heard(active, s.floor.modelPlayback)));
      case NoteModelPlayback(active) => ChangeKeeps(s.(floor := Heard(s.floor.localPlayback, active)));
    }
  }

  lemma {:induction false} ReactionKeeps(s: State, calls: seq<Call>)
    requires Inv(s)
    ensures Inv(Reacted(s, calls)) && Quietly(s, Reacted(s, calls))
  {
    if calls != [] {
      ReactionKeeps(s, calls[..|calls| - 1]);
      CallKeeps(Reacted(s, calls[..|calls| - 1]), calls[|calls| - 1]);
    }
  }

  lemma ConfirmKeeps(s: State, reaction: seq<Call>)
    requires Inv(s)
    ensures Inv(ConfirmBargeIn(s, reaction)) && ConfirmBargeIn(s, reaction).relays == s.relays
    ensures s.mic.provisionalBargeAt.None? ==> ConfirmBargeIn(s, reaction) == s
    ensures s.mic.provisionalBargeAt.Some? ==>
      && Confirmations(ConfirmBargeIn(s, reaction).trace) == Confirmations(s.trace) + 1
      && ConfirmBargeIn(s, reaction).mic.provisionalBargeAt.None?
  {
    if s.mic.provisionalBargeAt.Some? {
      var t := NoBarge(s).(floor := Heard(false, false));
      InvalidateKeeps(t, Confirmed);
      ReleaseKeeps(Invalidated(t, Confirmed));
      ReactionKeeps(Released(Invalidated(t, Confirmed)), reaction);
    }
  }

  // ----- Each input keeps it -----

  /** An event of the detector brings the microphone back in step with it. */
  lemma HandleVadKeeps(s: State, heard: State, event: Option<Vad.Event>)
    requires Inv(s) && !s.mic.muted && Wired(heard)
    requires heard == s.(mic := heard.mic, vad := heard.vad, captured := heard.captured, pushes := heard.pushes)
    requires heard.mic == s.mic.(preSpeech := heard.mic.preSpeech, preSpeechSamples := heard.mic.preSpeechSamples)
    requires heard.vad.speaking == (s.vad.speaking != event.Some?)
    requires event.Some? ==> event.value.SpeechStart? == !s.vad.speaking
    ensures var t := HandleVad(heard, event);
            && Inv(t) && SameBut(heard, t) && !t.mic.muted
            && t.mic.provisionalBargeAt in
               {s.mic.provisionalBargeAt, None, if event.Some? then Some(event.value.atMs) else None}
            && (t.mic.provisionalBargeAt.Some? && t.mic.provisionalBargeAt != s.mic.provisionalBargeAt ==>
                  event.Some? && event.value.SpeechStart?)
            && (event.Some? && event.value.SpeechStart? ==>
                  t.mic.provisionalBargeAt in {None, Some(event.value.atMs)})
  {
    match event {
      case None =>
      case Some(SpeechStart(at)) =>
        if !s.request.generating {
          OpenKeeps(heard);
          OpenKeeps(heard.(mic := heard.mic.(provisionalBargeAt := Some(at))));
        }
      case Some(SpeechEnd(_)) => CloseKeeps(NoBarge(heard));
    }
  }

  lemma CaptureKeeps(c: Config, s: State, frame: Frame, vad: Vad.State)
    requires Wired(s)
    ensures var t := Captured(c, s, frame, vad);
            && Wired(t) && t == s.(mic := t.mic, vad := vad, captured := s.captured + frame.samples, pushes := s.pushes + 1)
            && t.mic == s.mic.(preSpeech := t.mic.preSpeech, preSpeechSamples := t.mic.preSpeechSamples)
  {
  }

  lemma PushKeeps(c: Config, s: State, frame: Frame, db: real, atMs: real, reaction: seq<Call>)
    requires Inv(s)
    ensures Inv(PushAudio(c, s, frame, db, atMs, reaction))
  {
    if !s.mic.muted {
      var input := Vad.Frame(db, atMs);
      var (vad, event) := Vad.Step(c.vad, s.vad, input);
      Vad.EventsFlip(c.vad, s.vad, input);
      var heard := Captured(c, s, frame, vad);
      CaptureKeeps(c, s, frame, vad);
      HandleVadKeeps(s, heard, event);
      var t := HandleVad(heard, event);
      ConfirmKeeps(t, reaction);
      ResolveKeeps(t, db, atMs, reaction);
      var u := Resolve(t, db, atMs, reaction);
      Appended(u.trace, Audio(frame));
    }
  }

  lemma ResolveKeeps(s: State, db: real, atMs: real, reaction: seq<Call>)
    requires Inv(s)
    ensures Inv(Resolve(s, db, atMs, reaction))
  {
    ConfirmKeeps(s, reaction);
  }

  /** Forcing silence closes what was open, whatever else has been reset just before. */
  lemma SilenceKeeps(c: Config, s: State, now: real)
    requires Wired(s) && s.mic.provisionalBargeAt.None?
    requires s.mic.deferredActivity ==> s.vad.speaking
    requires s.ready && s.phase.Open? ==> s.mic.activityOpen == (s.vad.speaking && !s.mic.deferredActivity)
    ensures Inv(Silenced(c, s, now))
  {
    var t := s.(vad := Vad.Step(c.vad, s.vad, Vad.Reset(now)).0);
    if s.vad.speaking { CloseKeeps(t); }
  }

  lemma SetupKeeps(s: State)
    requires Inv(s) && !s.setUp && !s.phase.Fresh? && !s.phase.Connecting?
    ensures Inv(OnSetupComplete(s))
  {
    var t := s.(ready := true, setUp := true);
    if t.vad.speaking && !t.mic.muted {
      Appended(t.trace, ActivityStart);
      AudioAppended(StartActivity(t).trace, t.mic.preSpeech);
    }
  }

  lemma SocketClosedKeeps(s: State)
    requires Inv(s)
    ensures Inv(OnClose(s))
  {
    Appended(s.trace, Lost);
  }

  lemma DisconnectKeeps(c: Config, s: State, now: real)
    requires Inv(s)
    ensures Inv(Disconnected(c, s, now))
  {
    SilenceKeeps(c, NoBarge(s), now);
    Appended(Silenced(c, NoBarge(s), now).trace, Lost);
  }

  lemma ContentKeeps(s: State, m: Content)
    requires Inv(s)
    ensures Inv(OnContent(s, m))
  {
    AudioKeeps(s, m);
    var t := OnAudio(s, m);
    InterruptedKeeps(t, m);
    var u := OnInterrupted(t, m);
    ConfirmKeeps(u, m.onConfirmed);
    TurnCompleteKeeps(OnTranscript(u, m), m);
  }

  lemma AudioKeeps(s: State, m: Content)
    requires Inv(s)
    ensures Inv(OnAudio(s, m)) && Quietly(s, OnAudio(s, m))
  {
    if m.audio && s.request.accepting {
      Appended(s.trace, ModelAudio);
      ReactionKeeps(s.(floor := s.floor.(interviewerSpeaking := true), request := s.request.(audioThisTurn := true),
                       trace := s.trace + [ModelAudio]), m.onAudio);
    }
  }

  lemma InterruptedKeeps(s: State, m: Content)
    requires Inv(s)
    ensures Inv(OnInterrupted(s, m)) && Quietly(s, OnInterrupted(s, m))
  {
    var t := s.(floor := s.floor.(interviewerSpeaking := false));
    InvalidateKeeps(t, Interrupted);
    ReactionKeeps(Invalidated(t, Interrupted), m.onInterrupted);
  }

  lemma TurnCompleteKeeps(s: State, m: Content)
    requires Inv(s)
    ensures Inv(OnTurnComplete(s, m)) && Quietly(s, OnTurnComplete(s, m))
  {
    if m.turnComplete {
      Appended(s.trace, TurnComplete);
      var t := s.(request := TurnOver(s.request), floor := Heard(s.floor.localPlayback, s.floor.modelPlayback),
                  trace := s.trace + [TurnComplete]);
      ReactionKeeps(t, m.onComplete);
      ChangeKeeps(Reacted(t, m.onComplete));
    }
  }

  // ----- Runs -----

  /** One connection per object, set up once; data stops flowing before the close is reported; frames are numbered. */
  ghost predicate Possible(s: State, input: Input) {
    match input
    case Connect => s.phase.Fresh?
    case Opened => s.phase.Connecting?
    case SetupComplete => !s.setUp && !s.phase.Fresh? && !s.phase.Connecting?
    case Drop => s.phase.Open?
    case SocketClosed => !s.phase.Fresh?
    case Push(frame, _, _, _) => frame.id == s.pushes
    case _ => true
  }

  /** A run: what came in, and the states it led through. */
  datatype Recorded = Recorded(config: Config, inputs: seq<Input>, states: seq<State>)

  const SOME_CONFIG := Config(1, Vad.Config(0.0, 0.0, 0.0, 0.0, 0.0, 0.0, 0.0, 0.0))

  type History = h: Recorded | |h.states| == |h.inputs| + 1 witness Recorded(SOME_CONFIG, [], [Init(SOME_CONFIG)])

  ghost predicate IsStep(h: History, i: nat)
    requires i < |h.inputs|
  {
    Possible(h.states[i], h.inputs[i]) && h.states[i + 1] == Step(h.config, h.states[i], h.inputs[i])
  }

  ghost predicate IsRun(h: History) {
    h.states[0] == Init(h.config) && forall i: nat :: i < |h.inputs| ==> IsStep(h, i)
  }

  /** Every run can go on with any input the environment may deliver. */
  lemma RunsGoOn(h: History, input: Input)
    requires IsRun(h) && Possible(h.states[|h.inputs|], input)
    ensures IsRun(h.(inputs := h.inputs + [input], states := h.states + [Step(h.config, h.states[|h.inputs|], input)]))
  {
    hide Step;
    var longer: History := h.(inputs := h.inputs + [input], states := h.states + [Step(h.config, h.states[|h.inputs|], input)]);
    forall i: nat | i < |longer.inputs| ensures IsStep(longer, i) {
      assert i < |h.inputs| ==> IsStep(h, i);
    }
  }

  lemma InvStep(c: Config, s: State, input: Input)
    requires Inv(s) && Possible(s, input)
    ensures Inv(Step(c, s, input))
  {
    match input {
      case SetupComplete => SetupKeeps(s);
      case SocketClosed => SocketClosedKeeps(s);
      case Disconnect(now) => DisconnectKeeps(c, s, now);
      case Mute(muted, now) =>
        if muted && !s.mic.muted {
          SilenceKeeps(c, s.(mic := Cleared(s.mic).(muted := true, provisionalBargeAt := None)), now);
        }
      case Push(frame, db, at, reaction) => PushKeeps(c, s, frame, db, at, reaction);
      case Shell(call) => CallKeeps(s, call);
      case Provider(content) => ContentKeeps(s, content);
      case ToolAnswered(i) => Appended(s.trace, ToolResponse(i));
      case _ =>
    }
  }

  lemma {:induction false} InvHolds(h: History, n: nat)
    requires IsRun(h) && n <= |h.inputs|
    ensures Inv(h.states[n])
  {
    hide Step;
    if n > 0 {
      InvHolds(h, n - 1);
      assert IsStep(h, n - 1);
      InvStep(h.config, h.states[n - 1], h.inputs[n - 1]);
    }
  }

  // ----- The wire is bracketed -----

  /** Between a start before position `j` and `j` there is no end. */
  ghost predicate InActivity(trace: seq<Item>, j: nat)
    requires j <= |trace|
  {
    exists i :: StaysOpen(trace, i, j)
  }

  ghost predicate StaysOpen(trace: seq<Item>, i: int, j: nat)
    requires j <= |trace|
  {
    0 <= i < j && trace[i].ActivityStart? && forall k :: i < k < j ==> !trace[k].ActivityEnd?
  }

  lemma {:induction false} OpenMeansInActivity(trace: seq<Item>, j: nat)
    requires j <= |trace|
    ensures IsOpen(trace[..j]) <==> InActivity(trace, j)
  {
    if j > 0 {
      OpenMeansInActivity(trace, j - 1);
      assert trace[..j][..j - 1] == trace[..j - 1];
      if IsOpen(trace[..j]) {
        if trace[j - 1].ActivityStart? {
          assert StaysOpen(trace, j - 1, j);
        } else {
          var i :| StaysOpen(trace, i, j - 1);
          assert StaysOpen(trace, i, j);
        }
      }
      if InActivity(trace, j) {
        var i :| StaysOpen(trace, i, j);
        assert i < j - 1 ==> StaysOpen(trace, i, j - 1);
      }
    }
  }

  lemma {:induction false} OrderlyAt(trace: seq<Item>, j: nat)
    requires IsOrderly(trace) && j < |trace|
    ensures MayFollow(trace[..j], trace[j])
    decreases |trace|
  {
    var init := trace[..|trace| - 1];
    if j < |init| {
      OrderlyAt(init, j);
      assert init[..j] == trace[..j];
    }
  }

  /** On an orderly wire an activity starts only outside an activity; it ends, and audio is sent, only inside one. */
  lemma OrderlyIsBracketed(trace: seq<Item>, j: nat)
    requires IsOrderly(trace) && j < |trace|
    ensures trace[j].ActivityStart? ==> !InActivity(trace, j)
    ensures trace[j].ActivityEnd? || trace[j].Audio? ==> InActivity(trace, j)
  {
    OrderlyAt(trace, j);
    OpenMeansInActivity(trace, j);
  }

  /**
   In every run: an activity starts only outside an activity, and it ends, and audio is sent,
   only inside one. So starts and ends strictly alternate, beginning with a start.
   */
  lemma WireIsBracketed(h: History, n: nat, j: nat)
    requires IsRun(h) && n <= |h.inputs| && j < |h.states[n].trace|
    ensures var trace := h.states[n].trace;
            && (trace[j].ActivityStart? ==> !InActivity(trace, j))
            && (trace[j].ActivityEnd? || trace[j].Audio? ==> InActivity(trace, j))
  {
    hide Step;
    InvHolds(h, n);
    OrderlyIsBracketed(h.states[n].trace, j);
  }

  // ----- An answer is never cut off by an unconfirmed sound -----

  /** Between positions `i` and `j` the request asked for at `i` came to an end. */
  ghost predicate IsOverBy(trace: seq<Item>, i: nat, j: nat)
    requires j <= |trace|
  {
    exists k :: i < k < j && (EndsRequest(trace[k]) || IsGenerated(trace, i, k))
  }

  /** The provider completed a turn at `k` in which it had sent audio. */
  ghost predicate IsGenerated(trace: seq<Item>, i: nat, k: nat)
    requires k < |trace|
  {
    trace[k].TurnComplete? && exists a :: i < a < k && trace[a].ModelAudio?
  }

  lemma {:induction false} GenerationGoesOn(trace: seq<Item>, i: nat, j: nat)
    requires i < j <= |trace| && trace[i].Ask? && !IsOverBy(trace, i, j)
    ensures !Generating(trace[..j]).Idle?
    ensures Generating(trace[..j]).Answering? ==> exists a :: i < a < j && trace[a].ModelAudio?
  {
    assert trace[..j][..j - 1] == trace[..j - 1];
    if i < j - 1 {
      GenerationGoesOn(trace, i, j - 1);
      assert !EndsRequest(trace[j - 1]) && !IsGenerated(trace, i, j - 1);
    }
  }

  /** On an orderly wire no activity starts while an answer that was asked for is outstanding. */
  lemma OrderlyLeavesGenerationAlone(trace: seq<Item>, i: nat, j: nat)
    requires IsOrderly(trace) && i < j < |trace| && trace[i].Ask? && trace[j].ActivityStart?
    ensures IsOverBy(trace, i, j)
  {
    OrderlyAt(trace, j);
    if !IsOverBy(trace, i, j) {
      GenerationGoesOn(trace, i, j);
    }
  }

  /**
   In every run: whenever an activity starts, every answer asked for before has been generated
   with audio, or its request was cancelled, interrupted by the provider, lost with its
   connection, or overruled by a confirmed interruption. Provider messages carry no request:
   late audio or a late completion of a superseded request is credited to the one that
   superseded it, here as in the code.
   */
  lemma StartsLeaveGenerationAlone(h: History, n: nat, i: nat, j: nat)
    requires IsRun(h) && n <= |h.inputs| && i < j < |h.states[n].trace|
    requires h.states[n].trace[i].Ask? && h.states[n].trace[j].ActivityStart?
    ensures IsOverBy(h.states[n].trace, i, j)
  {
    hide Step;
    InvHolds(h, n);
    OrderlyLeavesGenerationAlone(h.states[n].trace, i, j);
  }

  /** What the detector makes of input `i`, a frame. */
  ghost function Detected(h: History, i: nat): (Vad.State, Option<Vad.Event>)
    requires i < |h.inputs| && h.inputs[i].Push?
  {
    Vad.Step(h.config.vad, h.states[i].vad, Vad.Frame(h.inputs[i].db, h.inputs[i].atMs))
  }

  /** Frame `i` is loud enough to count towards an interruption, if the microphone is on. */
  ghost predicate VoicedAt(h: History, i: nat)
    requires i < |h.inputs|
  {
    h.inputs[i].Push? && !h.states[i].mic.muted ==> IsVoiced(Detected(h, i).0.noiseFloorDb, h.inputs[i].db)
  }

  /** Input `i` is where the clock of an interruption starts: speech sets in, or a frame is not loud enough. */
  ghost predicate IsOnset(h: History, i: nat, start: real)
    requires i < |h.inputs|
  {
    && h.inputs[i].Push? && !h.states[i].mic.muted
    && (Detected(h, i).1 == Some(Vad.SpeechStart(start)) || (!VoicedAt(h, i) && h.inputs[i].atMs == start))
  }

  ghost predicate VoicedSince(h: History, from: nat, to: nat, start: real) {
    && 0 < from <= to <= |h.inputs| && IsOnset(h, from - 1, start)
    && (forall i: nat :: from <= i < to ==> VoicedAt(h, i))
  }

  /** The voice has been loud enough since `start` up to frame `n`, and long enough. */
  ghost predicate IsEarned(h: History, from: nat, start: real, n: nat)
    requires n < |h.inputs| && h.inputs[n].Push?
  {
    VoicedSince(h, from, n + 1, start) && h.inputs[n].atMs - start >= BARGE_CONFIRM_MS
  }

  ghost predicate ClockIsRight(h: History, n: nat)
    requires n <= |h.inputs|
  {
    var at := h.states[n].mic.provisionalBargeAt;
    at.Some? ==> exists from: nat :: VoicedSince(h, from, n, at.value)
  }

  /** Where the clock stands once a frame has been heard, before it is judged. */
  function ClockAt(s: State, event: Option<Vad.Event>): Option<real> {
    if event.Some? && event.value.SpeechStart? then Some(event.value.atMs) else s.mic.provisionalBargeAt
  }

  /** One frame: what it does to the clock, and what it takes for it to confirm. */
  lemma FrameAndClock(c: Config, s: State, frame: Frame, db: real, atMs: real, reaction: seq<Call>)
    requires Inv(s) && !s.mic.muted
    ensures var (vad, event) := Vad.Step(c.vad, s.vad, Vad.Frame(db, atMs));
            var t := PushAudio(c, s, frame, db, atMs, reaction);
            && t.mic.provisionalBargeAt in
                 {None, if IsVoiced(vad.noiseFloorDb, db) then ClockAt(s, event) else Some(atMs)}
            && t.relays == s.relays
            && (Confirmations(t.trace) > Confirmations(s.trace) ==>
                  && IsVoiced(vad.noiseFloorDb, db) && ClockAt(s, event).Some?
                  && atMs - ClockAt(s, event).value >= BARGE_CONFIRM_MS)
  {
    hide Resolve, HandleVad, Captured, Vad.Step;
    var input := Vad.Frame(db, atMs);
    var (vad, event) := Vad.Step(c.vad, s.vad, input);
    Vad.EventsFlip(c.vad, s.vad, input);
    CaptureKeeps(c, s, frame, vad);
    HandleVadKeeps(s, Captured(c, s, frame, vad), event);
    var t := HandleVad(Captured(c, s, frame, vad), event);
    ResolveAndClock(t, db, atMs, reaction);
    Appended(Resolve(t, db, atMs, reaction).trace, Audio(frame));
  }

  lemma ResolveAndClock(s: State, db: real, atMs: real, reaction: seq<Call>)
    requires Inv(s)
    ensures var t := Resolve(s, db, atMs, reaction); var voiced := IsVoiced(s.vad.noiseFloorDb, db);
            && t.mic.provisionalBargeAt in {None, if voiced then s.mic.provisionalBargeAt else Some(atMs)}
            && t.relays == s.relays
            && (Confirmations(t.trace) > Confirmations(s.trace) ==>
                  voiced && s.mic.provisionalBargeAt.Some? && atMs - s.mic.provisionalBargeAt.value >= BARGE_CONFIRM_MS)
  {
    ConfirmKeeps(s, reaction);
  }

  /** Neither starts the clock of an interruption nor confirms one. */
  ghost predicate LeavesClock(s: State, t: State) {
    && t.mic.provisionalBargeAt in {s.mic.provisionalBargeAt, None} && t.relays == s.relays
    && Confirmations(t.trace) == Confirmations(s.trace)
  }

  lemma MuteAndClock(c: Config, s: State, muted: bool, now: real)
    ensures LeavesClock(s, SetMuted(c, s, muted, now))
  {
    Appended(s.trace, ActivityEnd);
  }

  lemma CloseAndClock(s: State)
    ensures LeavesClock(s, OnClose(s))
  {
    Appended(s.trace, Lost);
  }

  lemma AnswerAndClock(s: State, relay: nat)
    ensures LeavesClock(s, Send(s, ToolResponse(relay)))
  {
    Appended(s.trace, ToolResponse(relay));
  }

  /** Neither opening nor closing the connection confirms an interruption. */
  lemma SetupAndClock(s: State)
    ensures LeavesClock(s, OnSetupComplete(s))
  {
    Appended(s.trace, ActivityStart);
    AudioAppended(s.trace + [ActivityStart], s.mic.preSpeech);
    AudioAppended(s.trace, s.mic.preSpeech);
  }

  lemma DisconnectAndClock(c: Config, s: State, now: real)
    ensures LeavesClock(s, Disconnected(c, s, now))
  {
    Appended(s.trace, ActivityEnd);
    Appended(Silenced(c, NoBarge(s), now).trace, Lost);
  }

  lemma ContentAndClock(s: State, m: Content)
    requires Inv(s)
    ensures var t := OnContent(s, m);
            && t.mic.provisionalBargeAt in {s.mic.provisionalBargeAt, None} && t.relays == s.relays
            && (Confirmations(t.trace) > Confirmations(s.trace) ==> m.stopWord)
  {
    AudioKeeps(s, m);
    InterruptedKeeps(OnAudio(s, m), m);
    var u := OnInterrupted(OnAudio(s, m), m);
    ConfirmKeeps(u, m.onConfirmed);
    TurnCompleteKeeps(OnTranscript(u, m), m);
  }

  /** Apart from frames and provider messages nothing touches the clock. */
  lemma OthersLeaveClock(c: Config, s: State, input: Input)
    requires Inv(s) && !input.Push? && !input.Provider? && !input.ToolCalled?
    ensures LeavesClock(s, Step(c, s, input))
  {
    hide PushAudio, OnContent, Called, OnSetupComplete, Disconnected, SetMuted, OnClose, Send;
    match input {
      case Shell(call) => CallKeeps(s, call);
      case SetupComplete => SetupAndClock(s);
      case SocketClosed => CloseAndClock(s);
      case Disconnect(now) => DisconnectAndClock(c, s, now);
      case Mute(muted, now) => MuteAndClock(c, s, muted, now);
      case ToolAnswered(i) => AnswerAndClock(s, i);
      case _ =>
    }
  }

  lemma ClockStep(h: History, n: nat)
    requires n < |h.inputs| && ClockIsRight(h, n)
    requires var at, at' := h.states[n].mic.provisionalBargeAt, h.states[n + 1].mic.provisionalBargeAt;
             at'.Some? ==> IsOnset(h, n, at'.value) || (at' == at && VoicedAt(h, n))
    ensures ClockIsRight(h, n + 1)
  {
    hide Step;
    var at, at' := h.states[n].mic.provisionalBargeAt, h.states[n + 1].mic.provisionalBargeAt;
    if at'.Some? {
      if IsOnset(h, n, at'.value) {
        assert VoicedSince(h, n + 1, n + 1, at'.value);
      } else {
        var from: nat :| VoicedSince(h, from, n, at.value);
        assert VoicedSince(h, from, n + 1, at'.value);
      }
    }
  }

  lemma ClockMoves(h: History, n: nat)
    requires IsRun(h) && n < |h.inputs| && ClockIsRight(h, n)
    ensures ClockIsRight(h, n + 1)
  {
    hide Step, Vad.Step, ClockIsRight, VoicedSince;
    InvHolds(h, n);
    assert IsStep(h, n);
    StepAndClock(h.config, h.states[n], h.inputs[n]);
    ClockStep(h, n);
  }

  lemma {:induction false} ClockHolds(h: History, n: nat)
    requires IsRun(h) && n <= |h.inputs|
    ensures ClockIsRight(h, n)
  {
    hide Step;
    if n > 0 {
      ClockHolds(h, n - 1);
      ClockMoves(h, n - 1);
    }
  }

  lemma StepAndClock(c: Config, s: State, input: Input)
    requires Inv(s) && Possible(s, input)
    ensures var t := Step(c, s, input);
            && t.relays == s.relays + (if input.ToolCalled? then [s.request.epoch] else [])
            && match input
               case Push(_, db, atMs, _) =>
                 var (vad, event) := Vad.Step(c.vad, s.vad, Vad.Frame(db, atMs));
                 && (s.mic.muted ==> t == s.(pushes := s.pushes + 1))
                 && (s.mic.muted || t.mic.provisionalBargeAt in
                       {None, if IsVoiced(vad.noiseFloorDb, db) then ClockAt(s, event) else Some(atMs)})
                 && (Confirmations(t.trace) > Confirmations(s.trace) ==>
                       && !s.mic.muted && IsVoiced(vad.noiseFloorDb, db) && ClockAt(s, event).Some?
                       && atMs - ClockAt(s, event).value >= BARGE_CONFIRM_MS)
               case _ =>
                 && t.mic.provisionalBargeAt in {s.mic.provisionalBargeAt, None}
                 && (Confirmations(t.trace) > Confirmations(s.trace) ==> input.Provider? && input.content.stopWord)
  {
    match input {
      case Push(frame, db, atMs, reaction) =>
        if !s.mic.muted { FrameAndClock(c, s, frame, db, atMs, reaction); }
      case Provider(m) => ContentAndClock(s, m);
      case ToolCalled =>
      case _ => OthersLeaveClock(c, s, input);
    }
  }

  /**
   In every run, an interruption is confirmed by a frame only if the voice has been loud
   enough in every frame for at least 400 ms, counted from where speech set in or from the
   last frame that was too quiet; and by a provider message only if it carries a stop word.
   */
  lemma ConfirmationsAreEarned(h: History, n: nat)
    requires IsRun(h) && n < |h.inputs|
    requires Confirmations(h.states[n + 1].trace) > Confirmations(h.states[n].trace)
    ensures h.inputs[n].Push? || (h.inputs[n].Provider? && h.inputs[n].content.stopWord)
    ensures h.inputs[n].Push? ==> exists from: nat, start :: IsEarned(h, from, start, n)
  {
    hide Step;
    ClockHolds(h, n);
    InvHolds(h, n);
    assert IsStep(h, n);
    StepAndClock(h.config, h.states[n], h.inputs[n]);
    if h.inputs[n].Push? {
      FrameEarns(h, n, ClockAt(h.states[n], Detected(h, n).1).value);
    }
  }

  lemma FrameEarns(h: History, n: nat, start: real)
    requires n < |h.inputs| && h.inputs[n].Push? && ClockIsRight(h, n) && VoicedAt(h, n)
    requires !h.states[n].mic.muted && ClockAt(h.states[n], Detected(h, n).1) == Some(start)
    requires h.inputs[n].atMs - start >= BARGE_CONFIRM_MS
    ensures exists from: nat, start :: IsEarned(h, from, start, n)
  {
    hide Step;
    var event := Detected(h, n).1;
    if event.Some? && event.value.SpeechStart? {
      assert IsOnset(h, n, start);
      assert IsEarned(h, n + 1, start, n);
    } else {
      var from: nat :| VoicedSince(h, from, n, start);
      assert IsEarned(h, from, start, n);
    }
  }

  // ----- Late tool answers -----

  lemma {:induction false} RelaysGrow(h: History, m: nat, n: nat)
    requires IsRun(h) && m <= n <= |h.inputs|
    ensures h.states[m].relays <= h.states[n].relays
  {
    hide Step;
    if m < n {
      RelaysGrow(h, m, n - 1);
      InvHolds(h, n - 1);
      assert IsStep(h, n - 1);
      StepAndClock(h.config, h.states[n - 1], h.inputs[n - 1]);
    }
  }

  lemma AnswerIsChecked(c: Config, s: State, relay: nat)
    requires Wired(s) && relay < |s.relays|
    ensures Step(c, s, ToolAnswered(relay)).trace ==
              s.trace + if s.phase.Open? && s.relays[relay] == Endings(s.trace) then [ToolResponse(relay)] else []
  {
  }

  /**
   The answer to a tool call reaches the provider exactly when the connection still carries
   data and no request has been cancelled, replaced, interrupted or lost since the call.
   */
  lemma LateAnswersAreDropped(h: History, m: nat, n: nat)
    requires IsRun(h) && m < n < |h.inputs| && h.inputs[m].ToolCalled?
    requires h.inputs[n] == ToolAnswered(|h.states[m].relays|)
    ensures var asked, s := h.states[m], h.states[n];
            h.states[n + 1].trace == s.trace +
              if s.phase.Open? && Endings(s.trace) == Endings(asked.trace) then [ToolResponse(|asked.relays|)] else []
  {
    hide Step;
    InvHolds(h, m);
    InvHolds(h, n);
    assert IsStep(h, m) && IsStep(h, n);
    StepAndClock(h.config, h.states[m], h.inputs[m]);
    RelaysGrow(h, m + 1, n);
    AnswerIsChecked(h.config, h.states[n], |h.states[m].relays|);
  }

  // ----- A held boundary is not forgotten -----

  /**
   As soon as the interviewer is heard to be quiet and no answer is being generated, nothing
   is held back any more: on a working connection the provider has an activity open exactly
   while the candidate is speaking.
   */
  lemma QuietInterviewerYieldsTheFloor(h: History, n: nat)
    requires IsRun(h) && n < |h.inputs| && h.inputs[n].Shell? && !h.inputs[n].call.RequestSpeech?
    requires var t := h.states[n + 1]; !t.floor.interviewerSpeaking && !t.request.generating && t.ready && t.phase.Open?
    ensures var t := h.states[n + 1];
            !t.mic.deferredActivity && t.mic.provisionalBargeAt.None? && IsOpen(t.trace) == t.vad.speaking
  {
    hide Called;
    InvHolds(h, n);
    InvHolds(h, n + 1);
    assert IsStep(h, n);
    CallIsChange(h.states[n], h.inputs[n].call);
  }

  /** Every such call ends by taking stock of whether the interviewer is quiet. */
  lemma CallIsChange(s: State, call: Call)
    requires Inv(s) && !call.RequestSpeech?
    ensures Yields(Called(s, call))
  {
    InvalidateKeeps(s, Cancelled);
    var u := match call
      case CancelSpeech => Invalidated(s, Cancelled).(floor := Heard(s.floor.localPlayback, s.floor.modelPlayback))
      case NoteLocalPlayback(active) => s.(floor := Heard(active, s.floor.modelPlayback))
      case NoteModelPlayback(active) => s.(floor := Heard(s.floor.localPlayback, active))
      case RequestSpeech(_) => s;
    ChangeYields(u);
  }

  /** With the interviewer quiet and nothing being generated, nothing is held back or undecided. */
  ghost predicate Yields(t: State) {
    !t.floor.interviewerSpeaking && !t.request.generating ==> !t.mic.deferredActivity && t.mic.provisionalBargeAt.None?
  }

  lemma ChangeYields(u: State)
    requires Inv(u)
    ensures Yields(AfterInterviewerChange(u))
  {
    ChangeKeeps(u);
    if !u.floor.interviewerSpeaking && !u.request.generating {
      ReleaseKeeps(u);
    }
  }

  /**
   The same holds when the provider completes a turn, whatever else its message carries and
   whatever the shell does in its callbacks.
   */
  lemma CompletedTurnYieldsTheFloor(h: History, n: nat)
    requires IsRun(h) && n < |h.inputs| && h.inputs[n].Provider? && h.inputs[n].content.turnComplete
    requires var t := h.states[n + 1]; !t.floor.interviewerSpeaking && !t.request.generating && t.ready && t.phase.Open?
    ensures var t := h.states[n + 1];
            !t.mic.deferredActivity && t.mic.provisionalBargeAt.None? && IsOpen(t.trace) == t.vad.speaking
  {
    hide OnContent;
    InvHolds(h, n);
    InvHolds(h, n + 1);
    assert IsStep(h, n);
    ContentYields(h.states[n], h.inputs[n].content);
  }

  lemma ContentYields(s: State, m: Content)
    requires Inv(s) && m.turnComplete
    ensures Yields(OnContent(s, m))
  {
    AudioKeeps(s, m);
    InterruptedKeeps(OnAudio(s, m), m);
    var u := OnInterrupted(OnAudio(s, m), m);
    ConfirmKeeps(u, m.onConfirmed);
    TurnCompleteYields(OnTranscript(u, m), m);
  }

  lemma TurnCompleteYields(s: State, m: Content)
    requires Inv(s) && m.turnComplete
    ensures Yields(OnTurnComplete(s, m))
  {
    Appended(s.trace, TurnComplete);
    var t := s.(request := TurnOver(s.request), floor := Heard(s.floor.localPlayback, s.floor.modelPlayback),
                trace := s.trace + [TurnComplete]);
    ReactionKeeps(t, m.onComplete);
    ChangeYields(Reacted(t, m.onComplete));
  }
}
