/**
 Delivering a pre-rendered utterance: the head rides on the authorization, the tail is
 streamed, and the ending has to be honest (apps/web/lib/voice-session.ts, `speak`,
 `streamCachedTail`, `failAfterDrain`, `onPlaybackProgress`, `signal`, `finishUtterance`).

 The tail's chunks, their end or failure, finished buffers, and every other way an
 utterance can end arrive from outside, in any order.
 */
module CachedDelivery {
  import opened Wrappers
  import opened Reals
  import opened Pcm16
  import opened UtteranceLifecycle

  type Handle = nat

  /** What the server attached to the authorization. */
  datatype Attached = Attached(head: seq<Byte>, rate: real, tailFrom: Option<nat>, totalBytes: Option<nat>)

  datatype Input =
    | Chunk(bytes: seq<Byte>, handle: Handle)
    | TailDone(headerTotal: Option<nat>)
    | TailFailed
    | BufferEnded(handle: Handle)
    | Outside(signal: Signal)

  /**
   `scheduled` are the samples handed to playback so far and `handles` the buffers they are in,
   `ended` the buffers reported finished, `tail` the bytes received, and `headerTotal` the total
   declared by the response header once the whole tail has been read.
   */
  datatype Shell = Shell(
    utterance: UtteranceLifecycle.State, rate: real, active: set<Handle>, streaming: bool,
    carry: Option<Byte>, received: nat, pendingFailure: Option<string>,
    scheduled: seq<Sample>, handles: seq<Handle>, ended: set<Handle>, tail: seq<Byte>, headerTotal: Option<nat>)

  /** Signals that end an utterance from elsewhere: barge-in, deadlines, cancellation. */
  predicate IsOutside(signal: Signal) {
    signal.Interrupt? || signal.Fail? || signal.Cancel?
  }

  // ----- One input -----

  /** Feeds one signal; an ending stops the stream and, unless it is a completion, the sound. */
  function Signalled(s: Shell, signal: Signal, elapsedMs: real): Shell {
    if s.utterance.IsTerminal() then s
    else
      var (u, report) := UtteranceLifecycle.Step(s.utterance, signal, elapsedMs);
      if report.None? then s.(utterance := u)
      else s.(utterance := u, pendingFailure := None, streaming := false,
              active := if report.value.outcome == Completed then s.active else {})
  }

  function FailAfterDrain(s: Shell, reason: string, elapsedMs: real): Shell {
    if s.active != {} then s.(pendingFailure := Some(reason), streaming := false)
    else Signalled(s.(streaming := false), Fail(reason, 0.0), elapsedMs)
  }

  function Seconds(samples: nat, rate: real): real
    requires rate > 0.0
  {
    samples as real / rate
  }

  function Queued(s: Shell, samples: seq<Sample>, handle: Handle): Shell {
    s.(active := s.active + {handle}, scheduled := s.scheduled + samples, handles := s.handles + [handle])
  }

  /** Counts, schedules and announces decoded samples. */
  function Scheduled(s: Shell, samples: seq<Sample>, handle: Handle, elapsedMs: real): Shell
    requires s.rate > 0.0
  {
    if samples == [] then s
    else
      var heard := Signalled(s, AudioReceived(Seconds(|samples|, s.rate)), elapsedMs);
      Signalled(Queued(heard, samples, handle), PlaybackStarted, elapsedMs)
  }

  function Counted(s: Shell, bytes: seq<Byte>): Shell {
    s.(carry := Leftover(Carried(s.carry) + bytes), received := s.received + |bytes|, tail := s.tail + bytes)
  }

  predicate IsValidHead(a: Attached) {
    a.head != [] && |a.head| % 2 == 0 && a.rate > 0.0
  }

  function Idle(a: Attached): Shell {
    Shell(Fresh(Cached), a.rate, {}, a.tailFrom.Some?, None, 0, None, [], [], {}, [], None)
  }

  /** An utterance whose head is not playable is handed to the model and is not followed here. */
  function Open(a: Attached, handle: Handle, elapsedMs: real): Option<Shell> {
    if !IsValidHead(a) then None
    else
      var playing := Scheduled(Idle(a), Decode(a.head), handle, elapsedMs);
      if a.tailFrom.Some? then Some(playing)
      else if a.totalBytes.Some? && a.totalBytes.value != |a.head| then
        Some(FailAfterDrain(playing, "CACHED_HEAD_TRUNCATED", elapsedMs))
      else Some(Signalled(playing, SourceComplete, elapsedMs))
  }

  function DeclaredTotal(a: Attached, headerTotal: Option<nat>): Option<nat> {
    if a.totalBytes.Some? then a.totalBytes
    else if headerTotal.Some? && headerTotal.value > 0 then headerTotal else None
  }

  function Advance(a: Attached, s: Shell, input: Input, elapsedMs: real): Shell
    requires s.rate > 0.0
  {
    match input
    case Chunk(bytes, handle) =>
      if !s.streaming then s
      else
        Scheduled(Counted(s, bytes), Decode(Carried(s.carry) + bytes), handle, elapsedMs)
    case TailDone(headerTotal) =>
      if !s.streaming || a.tailFrom.None? then s
      else
        var total := DeclaredTotal(a, headerTotal);
        if s.carry.Some? || (total.Some? && a.tailFrom.value + s.received != total.value)
        then FailAfterDrain(s.(headerTotal := headerTotal), "CACHED_TAIL_TRUNCATED", elapsedMs)
        else Signalled(s.(streaming := false, headerTotal := headerTotal), SourceComplete, elapsedMs)
    case TailFailed =>
      if !s.streaming then s else FailAfterDrain(s, "CACHED_TAIL_FAILED", elapsedMs)
    case BufferEnded(handle) =>
      var t := s.(active := s.active - {handle}, ended := s.ended + {handle});
      if t.active != {} then t
      else if s.pendingFailure.Some? then Signalled(t, Fail(s.pendingFailure.value, 0.0), elapsedMs)
      else Signalled(t, PlaybackDrained, elapsedMs)
    case Outside(signal) =>
      if IsOutside(signal) then Signalled(s, signal, elapsedMs) else s
  }

  /** The page's side of a cached utterance. */
  class CachedPlayer {
    const attached: Attached
    const lifecycle: Lifecycle
    var active: set<Handle>
    var streaming: bool
    var carry: Option<Byte>
    var received: nat
    var pendingFailure: Option<string>
    ghost var scheduled: seq<Sample>
    ghost var handles: seq<Handle>
    ghost var ended: set<Handle>
    ghost var tail: seq<Byte>
    ghost var headerTotal: Option<nat>

    ghost function View(): Shell
      reads this, lifecycle
    {
      Shell(lifecycle.View(), attached.rate, active, streaming, carry, received, pendingFailure,
            scheduled, handles, ended, tail, headerTotal)
    }

    ghost function Elapsed(atMs: real): real {
      atMs - lifecycle.authorizedAtMs
    }

    constructor (attached: Attached, atMs: real)
      ensures fresh(lifecycle) && this.attached == attached && lifecycle.authorizedAtMs == atMs
      ensures View() == Idle(attached)
    {
      this.attached := attached;
      lifecycle := new Lifecycle(Cached, atMs);
      active, streaming, carry, received, pendingFailure := {}, attached.tailFrom.Some?, None, 0, None;
      scheduled, handles, ended, tail, headerTotal := [], [], {}, [], None;
    }

    /** Schedules the head at once; the caller has checked that it is playable. */
    method Begin(handle: Handle, atMs: real)
      requires IsValidHead(attached) && View() == Idle(attached)
      modifies this, lifecycle
      ensures View() == Open(attached, handle, Elapsed(atMs)).value
    {
      var head, _ := ToPcm16(attached.head, None);
      assert Carried(None) + attached.head == attached.head;
      Schedule(head[..], handle, atMs);
      if attached.tailFrom.None? {
        if attached.totalBytes.Some? && attached.totalBytes.value != |attached.head| {
          FailWhenDrained("CACHED_HEAD_TRUNCATED", atMs);
        } else {
          Signal(SourceComplete, atMs);
        }
      }
    }

    method Signal(signal: Signal, atMs: real)
      modifies this, lifecycle
      ensures View() == Signalled(old(View()), signal, Elapsed(atMs))
    {
      var report := lifecycle.Apply(signal, atMs);
      if report.Some? {
        pendingFailure, streaming := None, false;
        if report.value.outcome != Completed { active := {}; }
      }
    }

    method FailWhenDrained(reason: string, atMs: real)
      modifies this, lifecycle
      ensures View() == FailAfterDrain(old(View()), reason, Elapsed(atMs))
    {
      streaming := false;
      if active != {} {
        pendingFailure := Some(reason);
      } else {
        Signal(Fail(reason, 0.0), atMs);
      }
    }

    method Schedule(samples: seq<Sample>, handle: Handle, atMs: real)
      requires attached.rate > 0.0
      modifies this, lifecycle
      ensures View() == Scheduled(old(View()), samples, handle, Elapsed(atMs))
    {
      if |samples| == 0 { return; }
      Signal(AudioReceived(|samples| as real / attached.rate), atMs);
      active := active + {handle};
      scheduled, handles := scheduled + samples, handles + [handle];
      Signal(PlaybackStarted, atMs);
    }

    method OnChunk(bytes: seq<Byte>, handle: Handle, atMs: real)
      requires attached.rate > 0.0
      modifies this, lifecycle
      ensures View() == Advance(attached, old(View()), Chunk(bytes, handle), Elapsed(atMs))
    {
      if !streaming { return; }
      received := received + |bytes|;
      var pcm, remainder := ToPcm16(bytes, carry);
      carry := remainder;
      tail := tail + bytes;
      assert View() == Counted(old(View()), bytes);
      Schedule(pcm[..], handle, atMs);
    }

    method OnTailDone(total: Option<nat>, atMs: real)
      requires attached.rate > 0.0
      modifies this, lifecycle
      ensures View() == Advance(attached, old(View()), TailDone(total), Elapsed(atMs))
    {
      if !streaming || attached.tailFrom.None? { return; }
      headerTotal := total;
      var declared := DeclaredTotal(attached, total);
      if carry.Some? || (declared.Some? && attached.tailFrom.value + received != declared.value) {
        FailWhenDrained("CACHED_TAIL_TRUNCATED", atMs);
      } else {
        streaming := false;
        Signal(SourceComplete, atMs);
      }
    }

    method OnTailFailed(atMs: real)
      requires attached.rate > 0.0
      modifies this, lifecycle
      ensures View() == Advance(attached, old(View()), TailFailed, Elapsed(atMs))
    {
      if !streaming { return; }
      FailWhenDrained("CACHED_TAIL_FAILED", atMs);
    }

    /** The sink finished a buffer, on its own or because it was stopped. */
    method OnBufferEnded(handle: Handle, atMs: real)
      requires attached.rate > 0.0
      modifies this, lifecycle
      ensures View() == Advance(attached, old(View()), BufferEnded(handle), Elapsed(atMs))
    {
      active, ended := active - {handle}, ended + {handle};
      if active != {} { return; }
      if pendingFailure.Some? {
        Signal(Fail(pendingFailure.value, 0.0), atMs);
      } else {
        Signal(PlaybackDrained, atMs);
      }
    }
  }

  // ----- Runs -----

  datatype Timed = Timed(input: Input, elapsedMs: real)

  /** The sink plays every chunk under a handle of its own. */
  ghost predicate Possible(s: Shell, input: Input) {
    input.Chunk? ==> input.handle !in s.handles && input.handle !in s.ended
  }

  /** A run: what was attached, the handle of the head, what came in, and the states it led through. */
  datatype Recorded = Recorded(attached: Attached, head: Handle, openedMs: real, inputs: seq<Timed>, states: seq<Shell>)

  const NOTHING := Attached([], 1.0, None, None)

  type History = h: Recorded | |h.states| == |h.inputs| + 1 witness Recorded(NOTHING, 0, 0.0, [], [Idle(NOTHING)])

  ghost predicate IsStep(h: History, i: nat)
    requires i < |h.inputs|
  {
    && h.states[i].rate > 0.0 && Possible(h.states[i], h.inputs[i].input)
    && h.states[i + 1] == Advance(h.attached, h.states[i], h.inputs[i].input, h.inputs[i].elapsedMs)
  }

  ghost predicate IsRun(h: History) {
    && IsValidHead(h.attached) && Open(h.attached, h.head, h.openedMs) == Some(h.states[0])
    && (forall i: nat :: i < |h.inputs| ==> IsStep(h, i))
  }

  /** The source kept its word: a clean head, or a tail of the declared length ending on a sample boundary. */
  ghost predicate SourceIsWhole(a: Attached, s: Shell) {
    if a.tailFrom.None? then s.tail == [] && (a.totalBytes.Some? ==> a.totalBytes.value == |a.head|)
    else |s.tail| % 2 == 0 && HasDeclaredLength(a, s.headerTotal, |s.tail|)
  }

  /** Head and tail are as long as the authorization says, or else as a positive total of the response header does. */
  ghost predicate HasDeclaredLength(a: Attached, headerTotal: Option<nat>, tail: nat) {
    a.tailFrom.Some? ==>
      if a.totalBytes.Some? then a.tailFrom.value + tail == a.totalBytes.value
      else headerTotal.Some? && headerTotal.value > 0 ==> a.tailFrom.value + tail == headerTotal.value
  }

  /** The sink has reported the end of every buffer it was given. */
  ghost predicate AllEnded(s: Shell) {
    forall x :: x in s.handles ==> x in s.ended
  }

  ghost function StillPlaying(s: Shell): set<Handle> {
    set x | x in s.handles && x !in s.ended
  }

  ghost predicate AreDistinct(handles: seq<Handle>) {
    forall i, j :: 0 <= i < j < |handles| ==> handles[i] != handles[j]
  }

  /** The report of a completion: everything scheduled was received and played. */
  ghost predicate ReportsDelivery(s: Shell)
    requires s.rate > 0.0
  {
    var ms := Round(Seconds(|s.scheduled|, s.rate) * 1000.0);
    && s.utterance.report.Some? && s.utterance.report.value.outcome == Completed && s.utterance.report.value.firstAudio
    && s.utterance.report.value.receivedAudioMs == s.utterance.report.value.playedAudioMs == ms
  }

  ghost predicate Inv(a: Attached, s: Shell) {
    && s.rate == a.rate > 0.0 && IsValidHead(a) && AreDistinct(s.handles)
    && s.scheduled == Decode(a.head) + Decode(s.tail) && s.carry == Leftover(s.tail) && s.received == |s.tail|
    && s.utterance.receivedSeconds == Seconds(|s.scheduled|, s.rate)
    && (s.utterance.sourceComplete ==> !s.streaming && s.pendingFailure.None? && SourceIsWhole(a, s))
    && (s.streaming ==> s.pendingFailure.None? && !s.utterance.IsTerminal())
    && (!s.utterance.IsTerminal() ==>
          s.active == StillPlaying(s) && (s.utterance.playbackActive <==> s.active != {}))
    && (!s.utterance.IsTerminal() && s.utterance.sourceComplete ==> s.active != {})
    && (s.utterance.phase == Ended(Completed) ==>
          s.active == {} && AllEnded(s) && s.utterance.sourceComplete && ReportsDelivery(s))
  }

  // ----- What one signal does -----

  lemma SecondsAdd(m: nat, n: nat, rate: real)
    requires rate > 0.0
    ensures Seconds(m + n, rate) == Seconds(m, rate) + Seconds(n, rate)
    ensures n > 0 ==> Seconds(n, rate) > 0.0
  {
    DivUndo(m as real, rate);
    DivUndo(n as real, rate);
    DivAtLeast((m + n) as real, rate, Seconds(m, rate) + Seconds(n, rate));
    DivLess(0.0, n as real, rate);
    DivAtLeast(0.0, rate, 0.0);
  }

  /** Scheduling decoded samples keeps the books. */
  lemma ScheduledKeepsBooks(s: Shell, samples: seq<Sample>, handle: Handle, elapsedMs: real)
    requires s.rate > 0.0 && !s.utterance.IsTerminal()
    requires s.utterance.receivedSeconds == Seconds(|s.scheduled|, s.rate)
    requires s.utterance.playbackActive <==> s.active != {}
    requires s.active == StillPlaying(s) && AreDistinct(s.handles) && handle !in s.handles && handle !in s.ended
    ensures var t := Scheduled(s, samples, handle, elapsedMs);
            && t.scheduled == s.scheduled + samples && !t.utterance.IsTerminal()
            && t.utterance.receivedSeconds == Seconds(|t.scheduled|, t.rate)
            && (t.utterance.playbackActive <==> t.active != {})
            && t.utterance.sourceComplete == s.utterance.sourceComplete
            && t == s.(utterance := t.utterance, active := t.active, scheduled := t.scheduled, handles := t.handles)
            && t.active == StillPlaying(t) && AreDistinct(t.handles) && (samples != [] ==> handle in t.active)
  {
    SecondsAdd(|s.scheduled|, |samples|, s.rate);
    PlayingOneMore(s, samples, handle);
  }

  lemma PlayingOneMore(s: Shell, samples: seq<Sample>, handle: Handle)
    requires handle !in s.ended
    ensures StillPlaying(Queued(s, samples, handle)) == StillPlaying(s) + {handle}
  {
  }

  /** A signal from outside, or a failure, ends an open utterance as anything but a completion. */
  lemma OutsideEnds(s: Shell, signal: Signal, elapsedMs: real)
    requires IsOutside(signal) && !s.utterance.IsTerminal()
    ensures var t := Signalled(s, signal, elapsedMs);
            && t.utterance.phase.Ended? && t.utterance.phase.outcome != Completed
            && t == s.(utterance := t.utterance, pendingFailure := None, streaming := false, active := {})
            && t.utterance.receivedSeconds == s.utterance.receivedSeconds
            && t.utterance.sourceComplete == s.utterance.sourceComplete
  {
  }

  lemma InvFailAfterDrain(a: Attached, s: Shell, reason: string, elapsedMs: real)
    requires Inv(a, s) && !s.utterance.IsTerminal() && !s.utterance.sourceComplete
    ensures Inv(a, FailAfterDrain(s, reason, elapsedMs))
  {
    if s.active == {} {
      OutsideEnds(s.(streaming := false), Fail(reason, 0.0), elapsedMs);
    }
  }

  lemma InvSourceComplete(a: Attached, s: Shell, elapsedMs: real)
    requires Inv(a, s) && !s.utterance.IsTerminal() && s.pendingFailure.None? && SourceIsWhole(a, s)
    ensures Inv(a, Signalled(s.(streaming := false), SourceComplete, elapsedMs))
  {
    CompletionReports(s, elapsedMs);
    SilentMeansEnded(s);
  }

  lemma SilentMeansEnded(s: Shell)
    ensures StillPlaying(s) == {} <==> AllEnded(s)
  {
    forall x | x in s.handles ensures x in s.ended || x in StillPlaying(s) {}
  }

  /** A completion reports exactly what was scheduled as received and as played. */
  lemma CompletionReports(s: Shell, elapsedMs: real)
    requires s.rate > 0.0 && s.utterance.receivedSeconds == Seconds(|s.scheduled|, s.rate) > 0.0
    ensures var r := MakeReport(s.utterance, Completed, "", 0.0, elapsedMs);
            r.receivedAudioMs == r.playedAudioMs == Round(Seconds(|s.scheduled|, s.rate) * 1000.0)
  {
    assert Round(0.0 * 1000.0) == 0;
    RoundsUp(Seconds(|s.scheduled|, s.rate) * 1000.0);
  }

  lemma RoundsUp(x: real)
    requires x >= 0.0
    ensures Round(x) >= 0
  {
  }

  lemma InvChunk(a: Attached, s: Shell, bytes: seq<Byte>, handle: Handle, elapsedMs: real)
    requires Inv(a, s) && s.streaming && handle !in s.handles && handle !in s.ended
    ensures Inv(a, Advance(a, s, Chunk(bytes, handle), elapsedMs))
  {
    hide SourceIsWhole, ReportsDelivery, Scheduled, Decode, AllEnded;
    var stream := Carried(s.carry) + bytes;
    CarryIsExact(s.tail, bytes);
    ScheduledKeepsBooks(Counted(s, bytes), Decode(stream), handle, elapsedMs);
    assert Decode(a.head) + Decode(s.tail) + Decode(stream) == Decode(a.head) + (Decode(s.tail) + Decode(stream));
  }

  lemma InvBufferEnded(a: Attached, s: Shell, handle: Handle, elapsedMs: real)
    requires Inv(a, s)
    ensures Inv(a, Advance(a, s, BufferEnded(handle), elapsedMs))
  {
    hide Decode, Seconds, AreDistinct, HasDeclaredLength, Leftover;
    var t := s.(active := s.active - {handle}, ended := s.ended + {handle});
    assert StillPlaying(t) == StillPlaying(s) - {handle};
    SilentMeansEnded(t);
    if s.utterance.playbackActive && s.utterance.sourceComplete && !s.utterance.IsTerminal() {
      HasAudioWhenActive(a, s);
      CompletionReports(s.(utterance := s.utterance.(playbackActive := false)), elapsedMs);
    }
  }

  /** The head alone is audio. */
  lemma HasAudioWhenActive(a: Attached, s: Shell)
    requires Inv(a, s)
    ensures s.utterance.receivedSeconds > 0.0
  {
    DecodeLength(a.head);
    SecondsAdd(0, |s.scheduled|, s.rate);
  }

  lemma InvOutside(a: Attached, s: Shell, signal: Signal, elapsedMs: real)
    requires Inv(a, s)
    ensures Inv(a, Advance(a, s, Outside(signal), elapsedMs))
  {
    if IsOutside(signal) && !s.utterance.IsTerminal() {
      OutsideEnds(s, signal, elapsedMs);
    }
  }

  lemma InvStep(a: Attached, s: Shell, input: Input, elapsedMs: real)
    requires Inv(a, s) && Possible(s, input)
    ensures Inv(a, Advance(a, s, input, elapsedMs))
  {
    match input
    case Chunk(bytes, handle) => if s.streaming { InvChunk(a, s, bytes, handle, elapsedMs); }
    case TailDone(headerTotal) =>
      if s.streaming && a.tailFrom.Some? {
        var total := DeclaredTotal(a, headerTotal);
        if s.carry.Some? || (total.Some? && a.tailFrom.value + s.received != total.value) {
          InvFailAfterDrain(a, s.(headerTotal := headerTotal), "CACHED_TAIL_TRUNCATED", elapsedMs);
        } else {
          InvSourceComplete(a, s.(headerTotal := headerTotal), elapsedMs);
        }
      }
    case TailFailed => if s.streaming { InvFailAfterDrain(a, s, "CACHED_TAIL_FAILED", elapsedMs); }
    case BufferEnded(handle) => InvBufferEnded(a, s, handle, elapsedMs);
    case Outside(signal) => InvOutside(a, s, signal, elapsedMs);
  }

  lemma InvOpen(a: Attached, handle: Handle, elapsedMs: real)
    requires IsValidHead(a)
    ensures Inv(a, Open(a, handle, elapsedMs).value)
  {
    var s := Idle(a);
    DivAtLeast(0.0, a.rate, 0.0);
    ScheduledKeepsBooks(s, Decode(a.head), handle, elapsedMs);
    var playing := Scheduled(s, Decode(a.head), handle, elapsedMs);
    assert Decode([]) == [] && [] + Decode(a.head) == Decode(a.head) + Decode([]);
    assert Inv(a, playing);
    if a.tailFrom.None? {
      if a.totalBytes.Some? && a.totalBytes.value != |a.head| {
        InvFailAfterDrain(a, playing, "CACHED_HEAD_TRUNCATED", elapsedMs);
      } else {
        assert playing.(streaming := false) == playing;
        InvSourceComplete(a, playing, elapsedMs);
      }
    }
  }

  lemma {:induction false} InvHolds(h: History, n: nat)
    requires IsRun(h) && n <= |h.inputs|
    ensures Inv(h.attached, h.states[n])
  {
    hide Advance, Inv;
    if n == 0 {
      InvOpen(h.attached, h.head, h.openedMs);
    } else {
      InvHolds(h, n - 1);
      assert IsStep(h, n - 1);
      InvStep(h.attached, h.states[n - 1], h.inputs[n - 1].input, h.inputs[n - 1].elapsedMs);
    }
  }

  // ----- Honest endings -----

  lemma CompletedMeansWhole(a: Attached, s: Shell)
    requires Inv(a, s) && s.utterance.phase == Ended(Completed)
    ensures SourceIsWhole(a, s) && s.active == {} && AllEnded(s) && AreDistinct(s.handles)
    ensures s.scheduled == Decode(a.head + s.tail) && ReportsDelivery(s)
  {
    DecodeSplits(a.head, s.tail);
  }

  /**
   A cached utterance that ends COMPLETED played out completely: the source was whole by the
   total that was declared, in the authorization or else in the response header; the sink has
   reported the end of each buffer it was given; these held exactly the samples of head and tail
   read as one stream; and the report says that all of it was received and played.
   */
  lemma CompletedWasDelivered(h: History, n: nat)
    requires IsRun(h) && n <= |h.inputs| && h.states[n].utterance.phase == Ended(Completed)
    ensures var s := h.states[n];
            && SourceIsWhole(h.attached, s) && s.active == {} && AllEnded(s) && AreDistinct(s.handles)
            && s.scheduled == Decode(h.attached.head + s.tail) && s.rate > 0.0 && ReportsDelivery(s)
  {
    InvHolds(h, n);
    CompletedMeansWhole(h.attached, h.states[n]);
  }

  /**
   Conversely no length but the declared one passes: when the whole tail has been read, the
   utterance goes on towards completion exactly if it ends on a sample boundary and has the
   declared length.
   */
  lemma OnlyTheDeclaredLengthPasses(h: History, n: nat, total: Option<nat>)
    requires IsRun(h) && n < |h.inputs| && h.inputs[n].input == TailDone(total)
    requires h.states[n].streaming && h.attached.tailFrom.Some?
    ensures var s := h.states[n];
            h.states[n + 1].utterance.sourceComplete <==> |s.tail| % 2 == 0 && HasDeclaredLength(h.attached, total, |s.tail|)
  {
    InvHolds(h, n);
    assert IsStep(h, n);
    LeftoverIsOdd(h.states[n].tail);
    HasAudioWhenActive(h.attached, h.states[n]);
  }

  lemma LeftoverIsOdd(tail: seq<Byte>)
    ensures Leftover(tail).None? <==> |tail| % 2 == 0
  {
  }

  /** Nothing is left hanging: while a whole utterance is open, something of it is still playing. */
  lemma WholeAndDrainedIsOver(h: History, n: nat)
    requires IsRun(h) && n <= |h.inputs|
    ensures h.states[n].utterance.sourceComplete && AllEnded(h.states[n]) ==> h.states[n].utterance.IsTerminal()
  {
    InvHolds(h, n);
    SilentMeansEnded(h.states[n]);
  }

  /** The end is final: whatever arrives later changes neither the outcome nor what was scheduled. */
  lemma {:induction false} NothingAfterTheEnd(h: History, m: nat, n: nat)
    requires IsRun(h) && m <= n <= |h.inputs| && h.states[m].utterance.IsTerminal()
    ensures var s, t := h.states[m], h.states[n];
            t.utterance == s.utterance && t.scheduled == s.scheduled && t.handles == s.handles && t.active <= s.active
    decreases n
  {
    if m < n {
      NothingAfterTheEnd(h, m, n - 1);
      InvHolds(h, n - 1);
      assert IsStep(h, n - 1);
    }
  }
}
