/**
 The audio the voice connection holds back while no activity is open, so that the first
 consonant, or a whole interruption while it is undecided, is not lost
 (apps/web/lib/realtime-voice.ts).
 */
module PreRoll {
  import opened Wrappers
  import opened RealtimeVoice
  import opened BargeIn
  import Vad

  ghost function Flatten(frames: seq<Frame>): seq<int> {
    if frames == [] then [] else Flatten(frames[..|frames| - 1]) + frames[|frames| - 1].samples
  }

  ghost predicate IsSuffix(s: seq<int>, t: seq<int>) {
    |s| <= |t| && s == t[|t| - |s|..]
  }

  lemma {:induction false} FlattenTail(frames: seq<Frame>)
    requires frames != []
    ensures Flatten(frames) == frames[0].samples + Flatten(frames[1..])
  {
    if |frames| > 1 {
      FlattenTail(frames[..|frames| - 1]);
      assert frames[..|frames| - 1][1..] == frames[1..][..|frames| - 2];
    }
  }

  // ----- Trimming -----

  /** Dropping `k` frames leaves what fits, or one frame; dropping one fewer would not have fitted. */
  ghost predicate IsLongestFit(frames: seq<Frame>, k: nat, limit: nat) {
    && k < |frames|
    && (|Flatten(frames[k..])| <= limit || k == |frames| - 1)
    && (k > 0 ==> |Flatten(frames[k - 1..])| > limit)
  }

  /** The trim keeps as many of the latest frames as fit, and counts their samples. */
  lemma {:induction false} TrimKeepsAllThatFits(frames: seq<Frame>, limit: nat) returns (k: nat)
    requires frames != []
    ensures IsLongestFit(frames, k, limit)
    ensures Trimmed(frames, |Flatten(frames)|, limit) == (frames[k..], |Flatten(frames[k..])|)
  {
    assert frames[0..] == frames;
    if |frames| > 1 && |Flatten(frames)| > limit {
      hide IsLongestFit, Flatten;
      FlattenTail(frames);
      var rest := TrimKeepsAllThatFits(frames[1..], limit);
      FitsDropped(frames, rest, limit);
      k := rest + 1;
    } else {
      k := 0;
    }
  }

  lemma FitsDropped(frames: seq<Frame>, k: nat, limit: nat)
    requires |frames| > 1 && |Flatten(frames)| > limit && IsLongestFit(frames[1..], k, limit)
    ensures IsLongestFit(frames, k + 1, limit) && frames[1..][k..] == frames[k + 1..]
  {
    assert frames[0..] == frames;
    assert k > 0 ==> frames[1..][k - 1..] == frames[k..];
  }

  lemma {:induction false} FlattenDrop(frames: seq<Frame>, k: nat)
    requires k <= |frames|
    ensures IsSuffix(Flatten(frames[k..]), Flatten(frames))
  {
    if k == 0 {
      assert frames[0..] == frames;
    } else {
      FlattenTail(frames);
      FlattenDrop(frames[1..], k - 1);
      assert frames[1..][k - 1..] == frames[k..];
    }
  }

  // ----- Every run holds the latest audio, and no more than allowed -----

  /** What is held is the end of what was captured; nothing is held while an activity is open. */
  ghost predicate HoldsLatest(c: Config, s: State) {
    var held := Flatten(s.mic.preSpeech);
    && s.mic.preSpeechSamples == |held| <= Limit(c, s.mic.deferredActivity)
    && IsSuffix(held, s.captured)
    && (s.mic.activityOpen ==> s.mic.preSpeech == [])
  }

  /** From `s` to `t` the held audio was given up, or nothing about it changed. */
  ghost predicate ClearsOrKeeps(s: State, t: State) {
    && t.captured == s.captured
    && ((t.mic.preSpeech == [] && t.mic.preSpeechSamples == 0)
        || (&& t.mic.preSpeech == s.mic.preSpeech && t.mic.preSpeechSamples == s.mic.preSpeechSamples
            && t.mic.deferredActivity == s.mic.deferredActivity && (t.mic.activityOpen ==> s.mic.activityOpen)))
  }

  lemma OneFrameFits(frames: seq<Frame>, k: nat, limit: nat)
    requires IsLongestFit(frames, k, limit) && |frames[|frames| - 1].samples| <= limit
    ensures |Flatten(frames[k..])| <= limit
  {
    if k == |frames| - 1 {
      assert frames[k..] == [frames[k]];
      assert Flatten([frames[k]]) == [] + frames[k].samples;
    }
  }

  lemma SuffixOfAppended(held: seq<int>, before: seq<int>, copy: seq<int>, captured: seq<int>, samples: seq<int>)
    requires IsSuffix(before, captured) && IsSuffix(copy, samples) && IsSuffix(held, before + copy)
    requires copy == samples || |held| <= |copy|
    ensures IsSuffix(held, captured + samples)
  {
  }

  lemma LimitIsPositive(c: Config)
    requires c.captureRate > 0
    ensures 0 < Limit(c, false) <= Limit(c, true)
  {
  }

  lemma CopyIsTheEnd(samples: seq<int>, limit: nat)
    requires limit > 0
    ensures var copy := LastSamples(samples, limit);
            IsSuffix(copy, samples) && |copy| <= limit && (copy == samples || |copy| == limit)
  {
  }

  lemma BufferHoldsLatest(c: Config, mic: Mic, captured: seq<int>, frame: Frame)
    requires c.captureRate > 0
    requires mic.preSpeechSamples == |Flatten(mic.preSpeech)| && IsSuffix(Flatten(mic.preSpeech), captured)
    ensures var t := Buffer(c, mic, frame);
            && t.preSpeechSamples == |Flatten(t.preSpeech)| <= Limit(c, mic.deferredActivity)
            && IsSuffix(Flatten(t.preSpeech), captured + frame.samples)
  {
    var limit := Limit(c, mic.deferredActivity);
    LimitIsPositive(c);
    TrimHoldsLatest(mic.preSpeech, frame, captured, limit);
  }

  lemma TrimHoldsLatest(held: seq<Frame>, frame: Frame, captured: seq<int>, limit: nat)
    requires IsSuffix(Flatten(held), captured) && limit > 0
    ensures var copy := Sliced(frame, limit);
            var trimmed := Trimmed(held + [copy], |Flatten(held)| + |copy.samples|, limit);
            trimmed.1 == |Flatten(trimmed.0)| <= limit && IsSuffix(Flatten(trimmed.0), captured + frame.samples)
  {
    hide IsSuffix, LastSamples, Trimmed;
    var copy := Sliced(frame, limit);
    var frames := held + [copy];
    FlattenPushed(held, copy);
    CopyIsTheEnd(frame.samples, limit);
    var k := TrimKeepsAllThatFits(frames, limit);
    FlattenDrop(frames, k);
    OneFrameFits(frames, k, limit);
    var kept := Flatten(frames[k..]);
    SuffixOfAppended(kept, Flatten(held), copy.samples, captured, frame.samples);
  }

  lemma FlattenPushed(held: seq<Frame>, copy: Frame)
    ensures Flatten(held + [copy]) == Flatten(held) + copy.samples
  {
    assert (held + [copy])[..|held|] == held;
  }

  lemma CaptureHoldsLatest(c: Config, s: State, frame: Frame, vad: Vad.State)
    requires HoldsLatest(c, s) && c.captureRate > 0
    ensures HoldsLatest(c, Captured(c, s, frame, vad))
  {
    BufferHoldsLatest(c, s.mic, s.captured, frame);
  }

  // ----- Nothing else adds to it -----

  lemma OpenClears(s: State)
    ensures OpenInput(s).mic.preSpeech == [] && ClearsOrKeeps(s, OpenInput(s))
  {
  }

  lemma ChangeClearsOrKeeps(s: State)
    ensures ClearsOrKeeps(s, AfterInterviewerChange(s)) && ClearsOrKeeps(s, Released(s))
  {
    OpenClears(s.(mic := s.mic.(deferredActivity := false)));
  }

  lemma CallClearsOrKeeps(s: State, call: Call)
    ensures ClearsOrKeeps(s, Called(s, call))
  {
    match call {
      case RequestSpeech(_) =>
      case CancelSpeech =>
        ChangeClearsOrKeeps(Invalidated(s, Cancelled).(floor := Heard(s.floor.localPlayback, s.floor.modelPlayback)));
      case NoteLocalPlayback(active) => ChangeClearsOrKeeps(s.(floor := Heard(active, s.floor.modelPlayback)));
      case NoteModelPlayback(active) => ChangeClearsOrKeeps(s.(floor := Heard(s.floor.localPlayback, active)));
    }
  }

  lemma {:induction false} ReactionClearsOrKeeps(s: State, calls: seq<Call>)
    ensures ClearsOrKeeps(s, Reacted(s, calls))
  {
    if calls != [] {
      ReactionClearsOrKeeps(s, calls[..|calls| - 1]);
      CallClearsOrKeeps(Reacted(s, calls[..|calls| - 1]), calls[|calls| - 1]);
    }
  }

  lemma ConfirmClearsOrKeeps(s: State, reaction: seq<Call>)
    ensures ClearsOrKeeps(s, ConfirmBargeIn(s, reaction))
  {
    var t := Invalidated(NoBarge(s).(floor := Heard(false, false)), Confirmed);
    ChangeClearsOrKeeps(t);
    ReactionClearsOrKeeps(Released(t), reaction);
  }

  lemma ContentClearsOrKeeps(s: State, m: Content)
    ensures ClearsOrKeeps(s, OnContent(s, m))
  {
    ReactionClearsOrKeeps(s.(floor := s.floor.(interviewerSpeaking := true), request := s.request.(audioThisTurn := true),
                             trace := s.trace + [ModelAudio]), m.onAudio);
    var t := OnAudio(s, m);
    ReactionClearsOrKeeps(Invalidated(t.(floor := t.floor.(interviewerSpeaking := false)), Interrupted), m.onInterrupted);
    var u := OnInterrupted(t, m);
    ConfirmClearsOrKeeps(u, m.onConfirmed);
    TurnCompleteClearsOrKeeps(OnTranscript(u, m), m);
  }

  lemma TurnCompleteClearsOrKeeps(s: State, m: Content)
    ensures ClearsOrKeeps(s, OnTurnComplete(s, m))
  {
    var t := s.(request := TurnOver(s.request), floor := Heard(s.floor.localPlayback, s.floor.modelPlayback),
                trace := s.trace + [TurnComplete]);
    ReactionClearsOrKeeps(t, m.onComplete);
    ChangeClearsOrKeeps(Reacted(t, m.onComplete));
  }

  /** An event may lift the limit to a held-back interruption's; otherwise it clears or keeps. */
  lemma HandleVadHoldsLatest(c: Config, s: State, event: Option<Vad.Event>)
    requires HoldsLatest(c, s) && c.captureRate > 0
    ensures HoldsLatest(c, HandleVad(s, event))
  {
    hide OpenInput;
    LimitIsPositive(c);
    OpenClears(s);
    if event.Some? {
      OpenClears(s.(mic := s.mic.(provisionalBargeAt := Some(event.value.atMs))));
    }
  }

  lemma PushHoldsLatest(c: Config, s: State, frame: Frame, db: real, atMs: real, reaction: seq<Call>)
    requires HoldsLatest(c, s) && c.captureRate > 0
    ensures HoldsLatest(c, PushAudio(c, s, frame, db, atMs, reaction))
  {
    hide Vad.Step, HandleVad, Captured, Limit, ConfirmBargeIn;
    if !s.mic.muted {
      var (vad, event) := Vad.Step(c.vad, s.vad, Vad.Frame(db, atMs));
      CaptureHoldsLatest(c, s, frame, vad);
      HandleVadHoldsLatest(c, Captured(c, s, frame, vad), event);
      ConfirmClearsOrKeeps(HandleVad(Captured(c, s, frame, vad), event), reaction);
    }
  }

  lemma OthersClearOrKeep(c: Config, s: State, input: Input)
    requires !input.Push?
    ensures ClearsOrKeeps(s, Step(c, s, input))
  {
    hide PushAudio, OnContent, Called;
    match input {
      case Shell(call) => CallClearsOrKeeps(s, call);
      case Provider(m) => ContentClearsOrKeeps(s, m);
      case _ =>
    }
  }

  /**
   In every run: the held audio is always the very end of what the microphone captured, at
   most 160 ms of it, or 1.5 s while an interruption is undecided, and nothing is held while
   the provider has an activity open.
   */
  lemma {:induction false} HeldAudioIsTheLatest(h: History, n: nat)
    requires IsRun(h) && n <= |h.inputs| && h.config.captureRate > 0
    ensures HoldsLatest(h.config, h.states[n])
  {
    if n > 0 {
      HeldAudioIsTheLatest(h, n - 1);
      assert IsStep(h, n - 1);
      StepHoldsLatest(h.config, h.states[n - 1], h.inputs[n - 1]);
    }
  }

  lemma StepHoldsLatest(c: Config, s: State, input: Input)
    requires HoldsLatest(c, s) && c.captureRate > 0
    ensures HoldsLatest(c, Step(c, s, input))
  {
    match input {
      case Push(frame, db, atMs, reaction) => PushHoldsLatest(c, s, frame, db, atMs, reaction);
      case _ => OthersClearOrKeep(c, s, input);
    }
  }

  // ----- What an opening sends -----

  ghost function Spoken(items: seq<Item>): seq<int> {
    if items == [] then []
    else Spoken(items[..|items| - 1]) + if items[|items| - 1].Audio? then items[|items| - 1].frame.samples else []
  }

  lemma {:induction false} SpokenFrames(frames: seq<Frame>)
    ensures Spoken(AudioOf(frames)) == Flatten(frames)
  {
    if frames != [] {
      SpokenFrames(frames[..|frames| - 1]);
      assert AudioOf(frames)[..|AudioOf(frames)| - 1] == AudioOf(frames[..|frames| - 1]);
    }
  }

  /** An activity opens with the last that was captured, and all of what was held. */
  lemma OpeningSendsTheLatest(c: Config, s: State)
    requires HoldsLatest(c, s) && s.ready && s.phase.Open?
    ensures var sent := AudioOf(s.mic.preSpeech);
            && OpenInput(s).trace == s.trace + [ActivityStart] + sent
            && IsSuffix(Spoken(sent), s.captured) && |Spoken(sent)| == s.mic.preSpeechSamples
  {
    SpokenFrames(s.mic.preSpeech);
  }
}
