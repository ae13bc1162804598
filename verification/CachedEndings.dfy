/**
 How a cached utterance comes to an end: nothing is left hanging, a failure that had to wait is
 reported, and every byte of the tail is played
 (apps/web/lib/voice-session.ts, `streamCachedTail`, `failAfterDrain`, `onPlaybackProgress`).
 */
module CachedEndings {
  import opened CachedDelivery
  import opened Pcm16
  import opened UtteranceLifecycle
  import opened Wrappers

  /** An open utterance with no stream has something left to play, and knows how it will end. */
  ghost predicate Owes(s: Shell) {
    && (!s.utterance.IsTerminal() && !s.streaming ==>
          s.active != {} && (s.utterance.sourceComplete || s.pendingFailure.Some?))
    && (s.pendingFailure.Some? ==> !s.utterance.IsTerminal() && !s.streaming && s.active != {})
  }

  lemma ChunkOwes(s: Shell, samples: seq<Sample>, handle: Handle, elapsedMs: real)
    requires s.rate > 0.0 && !s.utterance.IsTerminal() && s.pendingFailure.None?
    ensures var t := Scheduled(s, samples, handle, elapsedMs);
            && t.streaming == s.streaming && t.pendingFailure.None? && !t.utterance.IsTerminal() && t.tail == s.tail
            && (samples != [] ==> t.active == s.active + {handle})
  {
  }

  lemma FailureOwes(s: Shell, reason: string, elapsedMs: real)
    requires !s.utterance.IsTerminal() && s.pendingFailure.None?
    ensures var t := FailAfterDrain(s, reason, elapsedMs);
            Owes(t) && Fails(t, reason) && t.tail == s.tail && !t.streaming && (t.pendingFailure.Some? <==> s.active != {})
  {
  }

  /** It waits to fail for `reason`, or has failed for it. */
  ghost predicate Fails(s: Shell, reason: string) {
    || (!s.utterance.IsTerminal() && s.pendingFailure == Some(reason) && !s.streaming && s.active != {})
    || HasFailed(s, reason)
  }

  ghost predicate HasFailed(s: Shell, reason: string) {
    && s.utterance.phase == Ended(Failed) && s.utterance.report.Some? && s.pendingFailure.None? && s.active == {}
    && s.utterance.report.value.outcome == Failed && s.utterance.report.value.reason == reason
  }

  lemma DoneOwes(a: Attached, s: Shell, total: Option<nat>, elapsedMs: real)
    requires Inv(a, s) && Owes(s) && s.rate > 0.0
    ensures Owes(Advance(a, s, TailDone(total), elapsedMs))
  {
    if s.streaming && a.tailFrom.Some? {
      HasAudioWhenActive(a, s);
      FailureOwes(s.(headerTotal := total), "CACHED_TAIL_TRUNCATED", elapsedMs);
    }
  }

  lemma BufferOwes(a: Attached, s: Shell, handle: Handle, elapsedMs: real)
    requires Inv(a, s) && Owes(s) && s.rate > 0.0
    ensures Owes(Advance(a, s, BufferEnded(handle), elapsedMs))
  {
  }

  lemma OwesStep(a: Attached, s: Shell, input: Input, elapsedMs: real)
    requires Inv(a, s) && Owes(s) && s.rate > 0.0
    ensures Owes(Advance(a, s, input, elapsedMs))
  {
    match input {
      case Chunk(bytes, handle) =>
        if s.streaming { ChunkOwes(Counted(s, bytes), Decode(Carried(s.carry) + bytes), handle, elapsedMs); }
      case TailDone(total) => DoneOwes(a, s, total, elapsedMs);
      case TailFailed => if s.streaming { FailureOwes(s, "CACHED_TAIL_FAILED", elapsedMs); }
      case BufferEnded(handle) => BufferOwes(a, s, handle, elapsedMs);
      case Outside(signal) =>
    }
  }

  lemma OpenOwes(a: Attached, handle: Handle, elapsedMs: real)
    requires IsValidHead(a)
    ensures Owes(Open(a, handle, elapsedMs).value)
  {
    var s := Idle(a);
    DecodeLength(a.head);
    ChunkOwes(s, Decode(a.head), handle, elapsedMs);
    var playing := Scheduled(s, Decode(a.head), handle, elapsedMs);
    assert handle in playing.active;
    HeadIsHeard(a, handle, elapsedMs);
    if a.tailFrom.None? && a.totalBytes.Some? && a.totalBytes.value != |a.head| {
      FailureOwes(playing, "CACHED_HEAD_TRUNCATED", elapsedMs);
    }
  }

  /** Once the head is scheduled it is audio, and playing. */
  lemma HeadIsHeard(a: Attached, handle: Handle, elapsedMs: real)
    requires IsValidHead(a)
    ensures var playing := Scheduled(Idle(a), Decode(a.head), handle, elapsedMs);
            && playing.utterance.receivedSeconds > 0.0 && playing.utterance.playbackActive && !playing.utterance.sourceComplete
            && playing.active == {handle} && playing.scheduled == Decode(a.head) && playing.handles == [handle] && playing.tail == []
            && playing.pendingFailure.None? && playing.streaming == a.tailFrom.Some? && !playing.utterance.IsTerminal()
  {
    DecodeLength(a.head);
    SecondsAdd(0, |Decode(a.head)|, a.rate);
  }

  lemma {:induction false} OwesHolds(h: History, n: nat)
    requires IsRun(h) && n <= |h.inputs|
    ensures Owes(h.states[n])
  {
    hide Advance, Inv, Owes, Open;
    if n == 0 {
      OpenOwes(h.attached, h.head, h.openedMs);
    } else {
      OwesHolds(h, n - 1);
      InvHolds(h, n - 1);
      assert IsStep(h, n - 1);
      OwesStep(h.attached, h.states[n - 1], h.inputs[n - 1].input, h.inputs[n - 1].elapsedMs);
    }
  }

  /** In every run nothing is left hanging: with nothing to play and no stream to come the utterance is over. */
  lemma NothingHangs(h: History, n: nat)
    requires IsRun(h) && n <= |h.inputs| && h.states[n].active == {} && !h.states[n].streaming
    ensures h.states[n].utterance.IsTerminal()
  {
    OwesHolds(h, n);
  }

  // ----- A failure that had to wait -----

  /** Why the source fails at input `i`, if it does: the tail breaks off, or it has not the declared length. */
  ghost function FailureAt(h: History, i: nat): Option<string>
    requires i < |h.inputs|
  {
    var s := h.states[i];
    if !s.streaming then None
    else
      match h.inputs[i].input
      case TailFailed => Some("CACHED_TAIL_FAILED")
      case TailDone(total) =>
        if |s.tail| % 2 == 0 && HasDeclaredLength(h.attached, total, |s.tail|) then None else Some("CACHED_TAIL_TRUNCATED")
      case _ => None
  }

  /** Nothing from outside ends the utterance between two inputs. */
  ghost predicate IsLeftAlone(h: History, m: nat, n: nat)
    requires n <= |h.inputs|
  {
    forall i :: m <= i < n ==> !(h.inputs[i].input.Outside? && IsOutside(h.inputs[i].input.signal))
  }

  lemma FailsStep(a: Attached, s: Shell, input: Input, elapsedMs: real, reason: string)
    requires s.rate > 0.0 && Fails(s, reason) && (input.Outside? ==> !IsOutside(input.signal))
    requires s.utterance.IsTerminal() ==> !s.streaming
    ensures Fails(Advance(a, s, input, elapsedMs), reason)
    ensures input.BufferEnded? && s.active == {input.handle} ==> HasFailed(Advance(a, s, input, elapsedMs), reason)
  {
  }

  lemma FailureStarts(a: Attached, s: Shell, input: Input, elapsedMs: real, reason: string)
    requires Inv(a, s) && Owes(s) && s.rate > 0.0 && s.streaming
    requires match input
             case TailFailed => reason == "CACHED_TAIL_FAILED"
             case TailDone(total) =>
               reason == "CACHED_TAIL_TRUNCATED" && a.tailFrom.Some? && !(|s.tail| % 2 == 0 && HasDeclaredLength(a, total, |s.tail|))
             case _ => false
    ensures Fails(Advance(a, s, input, elapsedMs), reason)
  {
    LeftoverIsOdd(s.tail);
    FailureOwes(s, reason, elapsedMs);
    if input.TailDone? { FailureOwes(s.(headerTotal := input.headerTotal), reason, elapsedMs); }
  }

  lemma {:induction false} KeepsFailing(h: History, m: nat, n: nat, reason: string)
    requires IsRun(h) && m <= n <= |h.inputs| && Fails(h.states[m], reason) && IsLeftAlone(h, m, n)
    ensures Fails(h.states[n], reason)
    decreases n
  {
    hide Advance, Inv, Fails;
    if m < n {
      KeepsFailing(h, m, n - 1, reason);
      InvHolds(h, n - 1);
      EndedStreamsNot(h.attached, h.states[n - 1]);
      assert IsStep(h, n - 1);
      FailsStep(h.attached, h.states[n - 1], h.inputs[n - 1].input, h.inputs[n - 1].elapsedMs, reason);
    }
  }

  lemma EndedStreamsNot(a: Attached, s: Shell)
    requires Inv(a, s)
    ensures s.utterance.IsTerminal() ==> !s.streaming
    ensures s.streaming ==> !s.utterance.IsTerminal()
  {
  }

  /**
   In every run a tail that breaks off or is not as long as declared makes the utterance fail for
   exactly that reason, as soon as nothing is left to play, unless something from outside ends it
   first; until then the failure is remembered.
   */
  lemma FailureIsReported(h: History, m: nat, n: nat)
    requires IsRun(h) && m < n <= |h.inputs| && FailureAt(h, m).Some? && IsLeftAlone(h, m, n)
    ensures var s, reason := h.states[n], FailureAt(h, m).value;
            if s.active == {} || s.utterance.IsTerminal() then HasFailed(s, reason) else s.pendingFailure == Some(reason)
  {
    hide Advance, Inv, Owes;
    InvHolds(h, m);
    OwesHolds(h, m);
    assert IsStep(h, m);
    StreamHasTail(h, m);
    FailureStarts(h.attached, h.states[m], h.inputs[m].input, h.inputs[m].elapsedMs, FailureAt(h, m).value);
    KeepsFailing(h, m + 1, n, FailureAt(h, m).value);
  }

  /** A head that is all there is and has not the declared length fails once it has played; any other is complete. */
  lemma HeadFollowsItsTotal(h: History, n: nat)
    requires IsRun(h) && n <= |h.inputs| && h.attached.tailFrom.None? && IsLeftAlone(h, 0, n)
    ensures var total, s := h.attached.totalBytes, h.states[n];
            if total.None? || total.value == |h.attached.head| then h.states[0].utterance.sourceComplete
            else if s.active == {} || s.utterance.IsTerminal() then HasFailed(s, "CACHED_HEAD_TRUNCATED")
            else s.pendingFailure == Some("CACHED_HEAD_TRUNCATED")
  {
    var a := h.attached;
    HeadIsHeard(a, h.head, h.openedMs);
    if a.totalBytes.Some? && a.totalBytes.value != |a.head| {
      FailureOwes(Scheduled(Idle(a), Decode(a.head), h.head, h.openedMs), "CACHED_HEAD_TRUNCATED", h.openedMs);
      KeepsFailing(h, 0, n, "CACHED_HEAD_TRUNCATED");
    }
  }

  /** Exactly a head of whole samples with a rate can be played, and then it is playing at once, whole. */
  lemma PlaysExactlyWholeHeads(a: Attached, handle: Handle, elapsedMs: real)
    ensures Open(a, handle, elapsedMs).Some? <==> |a.head| > 0 && |a.head| % 2 == 0 && a.rate > 0.0
    ensures Open(a, handle, elapsedMs).Some? ==>
      var s := Open(a, handle, elapsedMs).value;
      s.scheduled == Decode(a.head) && s.handles == [handle] && s.active == {handle} && !s.utterance.IsTerminal()
  {
    if IsValidHead(a) { HeadIsHeard(a, handle, elapsedMs); }
  }

  // ----- From outside -----

  /** In every run an interruption, a cancellation or a failure from outside ends an open utterance at once, with its own outcome, and silences it. */
  lemma OutsideEndsAtOnce(h: History, n: nat)
    requires IsRun(h) && n < |h.inputs| && h.inputs[n].input.Outside? && IsOutside(h.inputs[n].input.signal)
    requires !h.states[n].utterance.IsTerminal()
    ensures var t, signal := h.states[n + 1], h.inputs[n].input.signal;
            && t.active == {} && !t.streaming && t.pendingFailure.None?
            && t.utterance.phase == Ended(match signal
                                          case Interrupt(_) => Interrupted
                                          case Fail(_, _) => Failed
                                          case _ => Cancelled)
            && t.utterance.report.Some? && t.utterance.report.value.outcome == t.utterance.phase.outcome
            && (signal.Fail? || signal.Cancel? ==> t.utterance.report.value.reason == signal.reason)
  {
    InvHolds(h, n);
    assert IsStep(h, n);
    HasAudioWhenActive(h.attached, h.states[n]);
  }

  // ----- The stream -----

  ghost predicate EndsStream(input: Input) {
    input.TailDone? || input.TailFailed?
  }

  /** In every run the stream is open exactly while there is a tail, it has not ended, and neither has the utterance. */
  lemma {:induction false} StreamIsOpen(h: History, n: nat)
    requires IsRun(h) && n <= |h.inputs|
    ensures h.states[n].streaming <==>
      h.attached.tailFrom.Some? && !h.states[n].utterance.IsTerminal() && forall i :: 0 <= i < n ==> !EndsStream(h.inputs[i].input)
  {
    hide Advance, Inv;
    if n == 0 {
      HeadIsHeard(h.attached, h.head, h.openedMs);
    } else {
      var m := n - 1;
      StreamIsOpen(h, m);
      InvHolds(h, m);
      EndedStreamsNot(h.attached, h.states[m]);
      OwesHolds(h, m);
      assert IsStep(h, m);
      StreamStep(h.attached, h.states[m], h.inputs[m].input, h.inputs[m].elapsedMs);
    }
  }

  lemma StreamHasTail(h: History, n: nat)
    requires IsRun(h) && n <= |h.inputs|
    ensures h.states[n].streaming ==> h.attached.tailFrom.Some?
  {
    StreamIsOpen(h, n);
  }

  lemma StreamStep(a: Attached, s: Shell, input: Input, elapsedMs: real)
    requires Inv(a, s) && s.rate > 0.0 && Owes(s) && (s.streaming ==> a.tailFrom.Some?)
    ensures var t := Advance(a, s, input, elapsedMs);
            && (t.streaming <==> s.streaming && !EndsStream(input) && !t.utterance.IsTerminal())
            && (s.utterance.IsTerminal() ==> t.utterance.IsTerminal())
            && t.tail == if s.streaming && input.Chunk? then s.tail + input.bytes else s.tail
  {
    if input.Chunk? && s.streaming {
      ChunkOwes(Counted(s, input.bytes), Decode(Carried(s.carry) + input.bytes), input.handle, elapsedMs);
    }
  }

  /** The bytes of the chunks that arrived while the stream was open, in order. */
  ghost function Arrived(h: History, n: nat): seq<Byte>
    requires n <= |h.inputs|
  {
    if n == 0 then []
    else Arrived(h, n - 1) +
         if h.states[n - 1].streaming && h.inputs[n - 1].input.Chunk? then h.inputs[n - 1].input.bytes else []
  }

  lemma {:induction false} TailIsArrived(h: History, n: nat)
    requires IsRun(h) && n <= |h.inputs|
    ensures h.states[n].tail == Arrived(h, n)
  {
    hide Advance, Inv, Owes, Decode;
    if n == 0 {
      HeadIsHeard(h.attached, h.head, h.openedMs);
    } else {
      var m := n - 1;
      TailIsArrived(h, m);
      InvHolds(h, m);
      OwesHolds(h, m);
      StreamHasTail(h, m);
      assert IsStep(h, m);
      StreamStep(h.attached, h.states[m], h.inputs[m].input, h.inputs[m].elapsedMs);
    }
  }

  lemma ScheduledIsDecoded(a: Attached, s: Shell)
    requires Inv(a, s)
    ensures s.scheduled == Decode(a.head + s.tail)
  {
    DecodeSplits(a.head, s.tail);
  }

  /** In every run what was scheduled are the samples of the head and of every byte that arrived, as one stream. */
  lemma EverythingThatArrivesIsPlayed(h: History, n: nat)
    requires IsRun(h) && n <= |h.inputs|
    ensures h.states[n].scheduled == Decode(h.attached.head + Arrived(h, n))
  {
    hide Inv, Decode, Advance;
    InvHolds(h, n);
    TailIsArrived(h, n);
    ScheduledIsDecoded(h.attached, h.states[n]);
  }

  /**
   In every run a chunk that completes a sample becomes exactly one buffer, which is then waited
   for; any other chunk, and any other input, schedules nothing.
   */
  lemma EachChunkIsOneBuffer(h: History, n: nat)
    requires IsRun(h) && n < |h.inputs|
    ensures var s, t, input := h.states[n], h.states[n + 1], h.inputs[n].input;
            if input.Chunk? && s.streaming && |Carried(s.carry)| + |input.bytes| >= 2
            then t.handles == s.handles + [input.handle] && input.handle in t.active && |t.scheduled| > |s.scheduled|
            else t.handles == s.handles && t.scheduled == s.scheduled && t.active <= s.active
  {
    hide Inv;
    InvHolds(h, n);
    OwesHolds(h, n);
    assert IsStep(h, n);
    StreamHasTail(h, n);
    var s, input := h.states[n], h.inputs[n].input;
    if input.Chunk? && s.streaming {
      OpenStreamIsOpen(h, n);
      DecodeLength(Carried(s.carry) + input.bytes);
    }
  }

  lemma OpenStreamIsOpen(h: History, n: nat)
    requires IsRun(h) && n <= |h.inputs| && h.states[n].streaming
    ensures !h.states[n].utterance.IsTerminal()
  {
    StreamIsOpen(h, n);
  }
}
