/**
 Gapless playback of interviewer audio (apps/web/lib/playback.ts).

 The audio sink is the environment: it supplies the clock, whether the output context runs,
 whether it has a gain stage, and a fresh handle for every buffer it is asked to play.
 */
module Playback {
  import opened Wrappers
  import opened Reals

  type Handle = nat

  datatype Config = Config(leadSeconds: real, runningLeadSeconds: real)

  datatype State = State(cursor: Option<real>, active: set<Handle>, ducked: bool)

  /** Everything that can happen to a scheduler, with the sink's clock at that moment. */
  datatype Op =
    | Enqueue(now: real, running: bool, samples: nat, rate: real, handle: Handle)
    | Release(now: real, handle: Handle)
    | Stop(now: real)
    | Duck(now: real, hasGain: bool)
    | Restore(now: real)

  // ----- One operation -----

  function StartTime(c: Config, s: State, now: real, running: bool): real {
    if s.cursor.Some? && s.cursor.value > now then s.cursor.value
    else now + if running then c.runningLeadSeconds else c.leadSeconds
  }

  function Duration(samples: nat, rate: real): real
    requires rate > 0.0
  {
    samples as real / rate
  }

  predicate IsPlayable(op: Op) {
    op.Enqueue? ==> op.rate > 0.0
  }

  function Step(c: Config, s: State, op: Op): State
    requires IsPlayable(op)
  {
    match op
    case Enqueue(now, running, samples, rate, handle) =>
      if samples == 0 then s
      else State(Some(StartTime(c, s, now, running) + Duration(samples, rate)), s.active + {handle}, s.ducked)
    case Release(now, handle) =>
      if handle !in s.active then s
      else if s.active == {handle} then State(None, {}, s.ducked)
      else s.(active := s.active - {handle})
    case Stop(_) => State(None, {}, false)
    case Duck(_, hasGain) => if hasGain then s.(ducked := true) else State(None, {}, false)
    case Restore(_) => s.(ducked := false)
  }

  /** Whether the drain callback fires. */
  predicate Drains(s: State, op: Op) {
    op.Release? && s.active == {op.handle}
  }

  /** Whether the operation cancels everything that is scheduled. */
  predicate Cancels(op: Op) {
    op.Stop? || (op.Duck? && !op.hasGain)
  }

  /** The scheduler as the page holds it. */
  class PlaybackScheduler {
    const config: Config
    var cursor: Option<real>
    var active: set<Handle>
    var ducked: bool

    ghost function View(): State
      reads this
    {
      State(cursor, active, ducked)
    }

    constructor (config: Config)
      ensures this.config == config && View() == State(None, {}, false)
    {
      this.config := config;
      cursor, active, ducked := None, {}, false;
    }

    /** `handle` is what the sink returns for the buffer, if it is asked to play one. */
    method EnqueueAt(samples: nat, rate: real, now: real, running: bool, handle: Handle) returns (startAt: Option<real>)
      requires rate > 0.0
      modifies this
      ensures View() == Step(config, old(View()), Enqueue(now, running, samples, rate, handle))
      ensures startAt == if samples == 0 then None else Some(StartTime(config, old(View()), now, running))
    {
      if samples == 0 { return None; }
      var lead := if running then config.runningLeadSeconds else config.leadSeconds;
      var start := if cursor.Some? && cursor.value > now then cursor.value else now + lead;
      active := active + {handle};
      cursor := Some(start + samples as real / rate);
      startAt := Some(start);
    }

    method ReleaseSource(handle: Handle, ghost now: real) returns (drained: bool)
      modifies this
      ensures View() == Step(config, old(View()), Release(now, handle))
      ensures drained == Drains(old(View()), Release(now, handle))
    {
      if handle !in active { return false; }
      active := active - {handle};
      drained := active == {};
      if drained { cursor := None; }
    }

    method DuckOutput(hasGain: bool, ghost now: real)
      modifies this
      ensures View() == Step(config, old(View()), Duck(now, hasGain))
    {
      if !hasGain { StopAll(now); return; }
      ducked := true;
    }

    method RestoreOutput(ghost now: real)
      modifies this
      ensures View() == Step(config, old(View()), Restore(now))
    {
      ducked := false;
    }

    method StopAll(ghost now: real)
      modifies this
      ensures View() == Step(config, old(View()), Stop(now))
    {
      ducked := false;
      active := {};
      cursor := None;
    }

    method QueuedSeconds(now: real) returns (seconds: real)
      ensures seconds == Queued(View(), now)
    {
      if cursor.None? { return 0.0; }
      return if cursor.value - now > 0.0 then cursor.value - now else 0.0;
    }
  }

  function Queued(s: State, now: real): real {
    if s.cursor.None? || s.cursor.value <= now then 0.0 else s.cursor.value - now
  }

  // ----- What is heard -----

  /** A scheduled buffer; `cut` is when it was cancelled, if it was. */
  datatype Buffer = Buffer(handle: Handle, start: real, end: real, cut: Option<real>)

  /** The end of what can be heard of a buffer. */
  ghost function AudibleEnd(b: Buffer): real {
    if b.cut.Some? && b.cut.value < b.end then b.cut.value else b.end
  }

  datatype Run = Run(state: State, buffers: seq<Buffer>, now: real)

  ghost function CutActive(buffers: seq<Buffer>, active: set<Handle>, now: real): seq<Buffer> {
    seq(|buffers|, i requires 0 <= i < |buffers| =>
      if buffers[i].handle in active && buffers[i].cut.None? then buffers[i].(cut := Some(now)) else buffers[i])
  }

  ghost function Apply(c: Config, run: Run, op: Op): Run
    requires IsPlayable(op)
  {
    var s := Step(c, run.state, op);
    if op.Enqueue? && op.samples > 0 then
      var start := StartTime(c, run.state, op.now, op.running);
      Run(s, run.buffers + [Buffer(op.handle, start, start + Duration(op.samples, op.rate), None)], op.now)
    else if Cancels(op) then Run(s, CutActive(run.buffers, run.state.active, op.now), op.now)
    else Run(s, run.buffers, op.now)
  }

  /** What the sink promises: its clock does not go back, handles are fresh, and a buffer is released after its end. */
  ghost predicate SinkBehaves(run: Run, op: Op) {
    && IsPlayable(op) && run.now <= op.now
    && (op.Enqueue? ==> forall i :: 0 <= i < |run.buffers| ==> run.buffers[i].handle != op.handle)
    && (op.Release? ==> forall i :: 0 <= i < |run.buffers| && run.buffers[i].handle == op.handle ==>
          run.buffers[i].cut.Some? || run.buffers[i].end <= op.now)
  }

  /** A run: the operations, and the states they led through. */
  datatype Recorded = Recorded(config: Config, ops: seq<Op>, runs: seq<Run>)

  type History = h: Recorded | |h.runs| == |h.ops| + 1
    witness Recorded(Config(0.0, 0.0), [], [Run(State(None, {}, false), [], 0.0)])

  ghost predicate IsStep(h: History, i: nat)
    requires i < |h.ops|
  {
    SinkBehaves(h.runs[i], h.ops[i]) && h.runs[i + 1] == Apply(h.config, h.runs[i], h.ops[i])
  }

  ghost predicate IsRun(h: History) {
    && h.config.leadSeconds >= 0.0 && h.config.runningLeadSeconds >= 0.0
    && h.runs[0] == Run(State(None, {}, false), [], 0.0)
    && (forall i: nat :: i < |h.ops| ==> IsStep(h, i))
  }

  // ----- Nothing overlaps -----

  /** In scheduling order, each buffer has gone silent before the next one begins. */
  ghost predicate NothingOverlaps(buffers: seq<Buffer>) {
    forall i, j :: 0 <= i < j < |buffers| ==> AudibleEnd(buffers[i]) <= buffers[j].start
  }

  ghost predicate HandlesAreDistinct(buffers: seq<Buffer>) {
    forall i, j :: 0 <= i < j < |buffers| ==> buffers[i].handle != buffers[j].handle
  }

  /** What has left the active set has gone silent, and what is in it ends by the cursor. */
  ghost predicate ActiveIsRight(run: Run) {
    forall i :: 0 <= i < |run.buffers| ==>
      var b := run.buffers[i];
      if b.handle in run.state.active
      then b.cut.None? && run.state.cursor.Some? && b.end <= run.state.cursor.value
      else AudibleEnd(b) <= run.now
  }

  /** The cursor is the end of the last buffer scheduled, and only a drained or stopped queue has none. */
  ghost predicate CursorIsRight(run: Run) {
    match run.state.cursor
    case None => run.state.active == {}
    case Some(end) => run.buffers != [] && Last(run.buffers).cut.None? && Last(run.buffers).end == end
  }

  ghost function Last(buffers: seq<Buffer>): Buffer
    requires buffers != []
  {
    buffers[|buffers| - 1]
  }

  ghost predicate Inv(run: Run) {
    NothingOverlaps(run.buffers) && HandlesAreDistinct(run.buffers) && ActiveIsRight(run) && CursorIsRight(run)
  }

  lemma DurationIsPositive(samples: nat, rate: real)
    requires samples > 0 && rate > 0.0
    ensures Duration(samples, rate) > 0.0
  {
    DivLess(0.0, samples as real, rate);
    DivAtLeast(0.0, rate, 0.0);
  }

  /** A new buffer begins when everything scheduled before it has gone silent. */
  lemma StartsAfterAll(c: Config, run: Run, now: real, running: bool, i: nat)
    requires c.leadSeconds >= 0.0 && c.runningLeadSeconds >= 0.0
    requires Inv(run) && run.now <= now && i < |run.buffers|
    ensures AudibleEnd(run.buffers[i]) <= StartTime(c, run.state, now, running)
    ensures run.buffers[i].handle in run.state.active ==> run.buffers[i].end <= StartTime(c, run.state, now, running)
  {
  }

  lemma InvAfterEnqueue(c: Config, run: Run, op: Op)
    requires c.leadSeconds >= 0.0 && c.runningLeadSeconds >= 0.0
    requires Inv(run) && SinkBehaves(run, op) && op.Enqueue? && op.samples > 0
    ensures Inv(Apply(c, run, op))
  {
    DurationIsPositive(op.samples, op.rate);
    var after := Apply(c, run, op);
    forall i | 0 <= i < |run.buffers|
      ensures AudibleEnd(run.buffers[i]) <= Last(after.buffers).start && run.buffers[i].handle != op.handle
      ensures run.buffers[i].handle in run.state.active ==> run.buffers[i].end <= Last(after.buffers).start
    {
      StartsAfterAll(c, run, op.now, op.running, i);
    }
  }

  lemma InvAfterCancel(c: Config, run: Run, op: Op)
    requires Inv(run) && SinkBehaves(run, op) && Cancels(op)
    ensures Inv(Apply(c, run, op))
  {
    var after := Apply(c, run, op);
    forall i | 0 <= i < |after.buffers|
      ensures AudibleEnd(after.buffers[i]) <= AudibleEnd(run.buffers[i])
      ensures AudibleEnd(after.buffers[i]) <= after.now
    {
    }
  }

  lemma InvAfterRelease(c: Config, run: Run, op: Op)
    requires Inv(run) && SinkBehaves(run, op) && op.Release?
    ensures Inv(Apply(c, run, op))
  {
  }

  lemma InvStep(c: Config, run: Run, op: Op)
    requires c.leadSeconds >= 0.0 && c.runningLeadSeconds >= 0.0
    requires Inv(run) && SinkBehaves(run, op)
    ensures Inv(Apply(c, run, op))
  {
    if op.Enqueue? && op.samples > 0 {
      InvAfterEnqueue(c, run, op);
    } else if Cancels(op) {
      InvAfterCancel(c, run, op);
    } else if op.Release? {
      InvAfterRelease(c, run, op);
    }
  }

  lemma {:induction false} InvHolds(h: History, n: nat)
    requires IsRun(h) && n <= |h.ops|
    ensures Inv(h.runs[n])
  {
    if n > 0 {
      InvHolds(h, n - 1);
      assert IsStep(h, n - 1);
      InvStep(h.config, h.runs[n - 1], h.ops[n - 1]);
    }
  }

  predicate Schedules(op: Op) {
    op.Enqueue? && op.samples > 0
  }

  /**
   Over every run: what is heard never overlaps, and a buffer scheduled while the cursor is
   still ahead of the clock begins exactly where the last one ends.
   */
  lemma NeverOverlapsAndStaysGapless(h: History, n: nat)
    requires IsRun(h) && n < |h.ops|
    ensures NothingOverlaps(h.runs[n + 1].buffers)
    ensures Schedules(h.ops[n]) && Queued(h.runs[n].state, h.ops[n].now) > 0.0 ==>
      h.runs[n].buffers != [] && h.runs[n + 1].buffers != [] && Last(h.runs[n + 1].buffers).start == Last(h.runs[n].buffers).end
  {
    InvHolds(h, n);
    InvHolds(h, n + 1);
    assert IsStep(h, n);
  }

  /** Nothing that was scheduled can be heard from `now` on. */
  ghost predicate IsSilentFrom(buffers: seq<Buffer>, now: real) {
    forall i :: 0 <= i < |buffers| ==> AudibleEnd(buffers[i]) <= now
  }

  lemma InvMeansStart(c: Config, run: Run, now: real, running: bool)
    requires Inv(run) && run.now <= now
    ensures var start := StartTime(c, run.state, now, running);
            if IsSilentFrom(run.buffers, now) then start == now + (if running then c.runningLeadSeconds else c.leadSeconds)
            else run.buffers != [] && start == Last(run.buffers).end
  {
    if run.state.cursor.Some? && run.state.cursor.value > now {
      assert AudibleEnd(Last(run.buffers)) > now;
    } else {
      InvMeansQueued(run, now);
    }
  }

  /**
   Over every run a chunk with samples starts where the last buffer ends while anything can still
   be heard, and otherwise the lead after now, the short one if the output is running; it lasts
   as long as its samples.
   */
  lemma StartsAtTheEndOrAfterTheLead(h: History, n: nat)
    requires IsRun(h) && n < |h.ops| && Schedules(h.ops[n]) && IsPlayable(h.ops[n])
    ensures var before, after, op := h.runs[n].buffers, h.runs[n + 1].buffers, h.ops[n];
            && |after| == |before| + 1 && after[..|before|] == before
            && Last(after).handle == op.handle && Last(after).cut.None?
            && Last(after).end == Last(after).start + op.samples as real / op.rate
            && (if IsSilentFrom(before, op.now)
                then Last(after).start == op.now + (if op.running then h.config.runningLeadSeconds else h.config.leadSeconds)
                else before != [] && Last(after).start == Last(before).end)
  {
    InvHolds(h, n);
    assert IsStep(h, n);
    InvMeansStart(h.config, h.runs[n], h.ops[n].now, h.ops[n].running);
  }

  // ----- What the operations say of the rest -----

  /** The output is ducked: the last operation to duck, restore or stop it ducked its gain. */
  ghost predicate IsDucked(ops: seq<Op>) {
    ops != [] &&
    match ops[|ops| - 1]
    case Duck(_, hasGain) => hasGain
    case Restore(_) => false
    case Stop(_) => false
    case _ => IsDucked(ops[..|ops| - 1])
  }

  lemma {:induction false} DuckingFollowsTheOperations(h: History, n: nat)
    requires IsRun(h) && n <= |h.ops|
    ensures h.runs[n].state.ducked <==> IsDucked(h.ops[..n])
  {
    if n > 0 {
      DuckingFollowsTheOperations(h, n - 1);
      assert IsStep(h, n - 1);
      assert h.ops[..n][..n - 1] == h.ops[..n - 1];
    }
  }

  /** Over every run there is a cursor exactly while a buffer is playing or due. */
  lemma {:induction false} CursorExactlyWhileActive(h: History, n: nat)
    requires IsRun(h) && n <= |h.ops|
    ensures h.runs[n].state.cursor.Some? <==> h.runs[n].state.active != {}
  {
    if n > 0 {
      CursorExactlyWhileActive(h, n - 1);
      assert IsStep(h, n - 1);
    }
  }

  lemma InvMeansQueued(run: Run, now: real)
    requires Inv(run) && run.now <= now
    ensures Queued(run.state, now) > 0.0 ==> run.buffers != [] && Last(run.buffers).end == now + Queued(run.state, now)
    ensures forall i :: 0 <= i < |run.buffers| ==> AudibleEnd(run.buffers[i]) <= now + Queued(run.state, now)
  {
  }

  /** The queue depth is the time until the last scheduled buffer ends; nothing uncancelled ends later. */
  lemma QueuedIsTimeToEnd(h: History, n: nat, now: real)
    requires IsRun(h) && n <= |h.ops| && h.runs[n].now <= now
    ensures var run := h.runs[n]; var queued := Queued(run.state, now);
            && (queued > 0.0 ==> run.buffers != [] && Last(run.buffers).end == now + queued)
            && (forall i :: 0 <= i < |run.buffers| ==> AudibleEnd(run.buffers[i]) <= now + queued)
  {
    InvHolds(h, n);
    InvMeansQueued(h.runs[n], now);
  }

  // ----- A burst adds up -----

  ghost function TotalDuration(buffers: seq<Buffer>): real {
    if buffers == [] then 0.0
    else TotalDuration(buffers[..|buffers| - 1]) + (Last(buffers).end - Last(buffers).start)
  }

  ghost predicate IsGapless(buffers: seq<Buffer>) {
    forall i :: 0 < i < |buffers| ==> buffers[i].start == buffers[i - 1].end
  }

  /** From the start of a gapless stretch to its end is exactly what its buffers last together. */
  lemma {:induction false} BurstAddsUp(buffers: seq<Buffer>)
    requires buffers != [] && IsGapless(buffers)
    ensures Last(buffers).end - buffers[0].start == TotalDuration(buffers)
  {
    var init := buffers[..|buffers| - 1];
    if init != [] {
      BurstAddsUp(init);
    } else {
      assert TotalDuration(init) == 0.0;
    }
  }

  ghost function Lasts(op: Op): real
    requires IsPlayable(op)
  {
    if Schedules(op) then Duration(op.samples, op.rate) else 0.0
  }

  /** How many chunks operations `m` to `n` schedule, and how long these last together. */
  ghost function Chunks(h: History, m: nat, n: nat): nat
    requires m <= n <= |h.ops|
    decreases n
  {
    if m == n then 0 else Chunks(h, m, n - 1) + if Schedules(h.ops[n - 1]) then 1 else 0
  }

  ghost function PlayingTime(h: History, m: nat, n: nat): real
    requires IsRun(h) && m <= n <= |h.ops|
    decreases n
  {
    if m == n then 0.0
    else
      assert IsStep(h, n - 1);
      PlayingTime(h, m, n - 1) + Lasts(h.ops[n - 1])
  }

  /**
   Nothing cancels operations `m` to `n`, and every chunk after the first of them arrives while
   audio is still queued. Buffers may end and the output may be ducked in between.
   */
  ghost predicate StaysAhead(h: History, m: nat, n: nat)
    requires m <= n <= |h.ops|
  {
    forall i :: m <= i < n ==>
      && !Cancels(h.ops[i])
      && (Schedules(h.ops[i]) && Chunks(h, m, i) > 0 ==> Queued(h.runs[i].state, h.ops[i].now) > 0.0)
  }

  /** One operation that does not cancel: a chunk in time makes the burst longer, anything else leaves it. */
  lemma BurstGrows(c: Config, run: Run, op: Op, start: seq<Buffer>, before: seq<Buffer>) returns (burst: seq<Buffer>)
    requires Inv(run) && SinkBehaves(run, op) && !Cancels(op) && run.buffers == start + before && IsGapless(before)
    requires Schedules(op) && before != [] ==> Queued(run.state, op.now) > 0.0
    ensures Apply(c, run, op).buffers == start + burst && IsGapless(burst)
    ensures |burst| == |before| + (if Schedules(op) then 1 else 0) && TotalDuration(burst) == TotalDuration(before) + Lasts(op)
  {
    burst := before;
    if Schedules(op) {
      var next := Last(Apply(c, run, op).buffers);
      burst := before + [next];
      assert burst[..|before|] == before;
      if before != [] {
        assert Last(run.buffers) == Last(before);
      }
    }
  }

  lemma CursorEndsBurst(run: Run, start: seq<Buffer>, burst: seq<Buffer>)
    requires Inv(run) && run.buffers == start + burst && burst != [] && run.state.cursor.Some?
    ensures run.state.cursor.value == Last(burst).end
  {
    assert Last(run.buffers) == Last(burst);
  }

  /**
   Over any stretch of a run without a cancellation in which chunks keep arriving in time, what
   it schedules is one gapless burst: from its start to its end, and to the cursor unless the
   queue has drained, is exactly what its chunks last together.
   */
  lemma {:induction false} ChunksInTimeAreGapless(h: History, m: nat, n: nat) returns (burst: seq<Buffer>)
    requires IsRun(h) && m <= n <= |h.ops| && StaysAhead(h, m, n)
    ensures h.runs[n].buffers == h.runs[m].buffers + burst && |burst| == Chunks(h, m, n)
    ensures IsGapless(burst) && TotalDuration(burst) == PlayingTime(h, m, n)
    ensures burst != [] ==> Last(burst).end - burst[0].start == PlayingTime(h, m, n)
    ensures burst != [] && h.runs[n].state.cursor.Some? ==>
      h.runs[n].state.cursor.value - burst[0].start == PlayingTime(h, m, n)
    decreases n
  {
    hide Inv, Apply, SinkBehaves, IsGapless;
    InvHolds(h, n);
    if m == n {
      burst := [];
      assert IsGapless([]) by { NothingIsGapless(); }
      assert h.runs[m].buffers + [] == h.runs[m].buffers;
    } else {
      var before := ChunksInTimeAreGapless(h, m, n - 1);
      InvHolds(h, n - 1);
      assert IsStep(h, n - 1);
      burst := BurstGrows(h.config, h.runs[n - 1], h.ops[n - 1], h.runs[m].buffers, before);
    }
    if burst != [] {
      BurstAddsUp(burst);
      if h.runs[n].state.cursor.Some? { CursorEndsBurst(h.runs[n], h.runs[m].buffers, burst); }
    }
  }

  lemma NothingIsGapless()
    ensures IsGapless([])
  {
  }

  // ----- When the drain callback fires -----

  /** Buffers scheduled since the last cancellation and not yet released, read off the operations alone. */
  ghost function Outstanding(ops: seq<Op>, n: nat): set<Handle>
    requires n <= |ops|
  {
    if n == 0 then {}
    else
      var before, op := Outstanding(ops, n - 1), ops[n - 1];
      if Cancels(op) then {}
      else if Schedules(op) then before + {op.handle}
      else if op.Release? then before - {op.handle}
      else before
  }

  lemma {:induction false} ActiveIsOutstanding(h: History, n: nat)
    requires IsRun(h) && n <= |h.ops|
    ensures h.runs[n].state.active == Outstanding(h.ops, n)
  {
    if n > 0 {
      ActiveIsOutstanding(h, n - 1);
      assert IsStep(h, n - 1);
    }
  }

  /**
   The drain fires exactly when the release of one buffer leaves none outstanding: once for
   a burst that ended on its own, and never through a cancellation.
   */
  lemma DrainsExactlyAtNaturalEnds(h: History, n: nat)
    requires IsRun(h) && n < |h.ops|
    ensures Drains(h.runs[n].state, h.ops[n]) <==>
      !Cancels(h.ops[n]) && Outstanding(h.ops, n) != {} && Outstanding(h.ops, n + 1) == {}
  {
    ActiveIsOutstanding(h, n);
  }

  /** When the drain fires everything scheduled has gone silent, and the last buffer played to its end. */
  lemma DrainsInSilence(h: History, n: nat)
    requires IsRun(h) && n < |h.ops| && Drains(h.runs[n].state, h.ops[n])
    ensures var buffers, now := h.runs[n].buffers, h.ops[n].now;
            && buffers != [] && Last(buffers).cut.None? && Last(buffers).end <= now
            && forall i :: 0 <= i < |buffers| ==> AudibleEnd(buffers[i]) <= now
  {
    InvHolds(h, n);
    InvHolds(h, n + 1);
    ActiveIsScheduled(h, n);
    assert IsStep(h, n);
  }

  lemma {:induction false} ActiveIsScheduled(h: History, n: nat)
    requires IsRun(h) && n <= |h.ops|
    ensures forall x :: x in h.runs[n].state.active ==> x in HandlesOf(h.runs[n].buffers)
    ensures h.runs[n].state.active != {} ==> h.runs[n].state.cursor.Some?
  {
    if n > 0 {
      ActiveIsScheduled(h, n - 1);
      assert IsStep(h, n - 1);
      HandlesGrow(h.config, h.runs[n - 1], h.ops[n - 1]);
    }
  }

  ghost function HandlesOf(buffers: seq<Buffer>): set<Handle> {
    set i | 0 <= i < |buffers| :: buffers[i].handle
  }

  lemma HandlesGrow(c: Config, run: Run, op: Op)
    requires IsPlayable(op)
    ensures HandlesOf(Apply(c, run, op).buffers) == HandlesOf(run.buffers) + if Schedules(op) then {op.handle} else {}
  {
    var after := Apply(c, run, op);
    forall x ensures x in HandlesOf(after.buffers) <==> x in HandlesOf(run.buffers) || (Schedules(op) && x == op.handle) {
      if x in HandlesOf(run.buffers) {
        var i :| 0 <= i < |run.buffers| && run.buffers[i].handle == x;
        assert after.buffers[i].handle == x;
      }
      if Schedules(op) { assert after.buffers[|run.buffers|].handle == op.handle; }
    }
  }

  /** Between two drains a new buffer was scheduled; it starts after the first and ends by the second. */
  lemma OneDrainPerBurst(h: History, i: nat, j: nat)
    requires IsRun(h) && i < j < |h.ops|
    requires Drains(h.runs[i].state, h.ops[i]) && Drains(h.runs[j].state, h.ops[j])
    ensures exists k :: i < k < j && Schedules(h.ops[k])
    ensures |h.runs[i].buffers| < |h.runs[j].buffers| &&
            forall k :: |h.runs[i].buffers| <= k < |h.runs[j].buffers| ==>
              h.ops[i].now <= h.runs[j].buffers[k].start && AudibleEnd(h.runs[j].buffers[k]) <= h.ops[j].now
  {
    assert IsStep(h, i);
    var k := j;
    while k > i + 1 && !Schedules(h.ops[k - 1])
      invariant i < k <= j && h.runs[k].state.active != {}
    {
      assert IsStep(h, k - 1);
      k := k - 1;
    }
    if k == i + 1 {
      assert false;
    }
    assert Schedules(h.ops[k - 1]);
    ScheduledLater(h, i + 1, k - 1);
    ScheduledLater(h, i + 1, j);
    ScheduledLater(h, k, j);
    assert IsStep(h, k - 1);
    DrainsInSilence(h, j);
  }

  /** Buffers are only added, each starting no earlier than the clock stood before. */
  lemma {:induction false} ScheduledLater(h: History, m: nat, n: nat)
    requires IsRun(h) && m <= n <= |h.ops|
    ensures h.runs[m].now <= h.runs[n].now && |h.runs[m].buffers| <= |h.runs[n].buffers|
    ensures forall k :: |h.runs[m].buffers| <= k < |h.runs[n].buffers| ==> h.runs[m].now <= h.runs[n].buffers[k].start
    decreases n
  {
    if m < n {
      ScheduledLater(h, m, n - 1);
      assert IsStep(h, n - 1);
    }
  }
}
