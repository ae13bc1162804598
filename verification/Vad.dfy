/**
 Voice activity detection by energy with hysteresis (apps/web/lib/vad.ts).

 Levels and times are reals. The prosody that may ride on an end event does not influence
 the detector and is left out.
 */
module Vad {
  import opened Wrappers
  import opened Reals

  datatype Config = Config(
    startMarginDb: real, continueMarginDb: real, minSpeechMs: real, endHangoverMs: real,
    noiseAdaptRate: real, calibrationMs: real, calibrationAdaptRate: real, initialNoiseFloorDb: real)

  datatype Event = SpeechStart(atMs: real) | SpeechEnd(atMs: real)

  /** One captured frame, or a forced return to silence. */
  datatype Input = Frame(db: real, atMs: real) | Reset(atMs: real)

  datatype State = State(
    noiseFloorDb: real, speaking: bool,
    voiceRunStartedAt: Option<real>, quietRunStartedAt: Option<real>, firstFrameAt: Option<real>)

  // ----- One input -----

  function Init(c: Config): State {
    State(c.initialNoiseFloorDb, false, None, None, None)
  }

  function FirstFrame(s: State, atMs: real): real {
    if s.firstFrameAt.None? then atMs else s.firstFrameAt.value
  }

  predicate Calibrates(c: Config, s: State, atMs: real) {
    atMs - FirstFrame(s, atMs) < c.calibrationMs
  }

  predicate IsVoice(c: Config, s: State, db: real) {
    db > s.noiseFloorDb + if s.speaking then c.continueMarginDb else c.startMarginDb
  }

  function Adapted(floor: real, db: real, rate: real): real {
    floor + (db - floor) * rate
  }

  function Step(c: Config, s: State, input: Input): (State, Option<Event>) {
    match input
    case Reset(at) =>
      (s.(speaking := false, voiceRunStartedAt := None, quietRunStartedAt := None),
       if s.speaking then Some(SpeechEnd(at)) else None)
    case Frame(db, at) =>
      var t := s.(firstFrameAt := Some(FirstFrame(s, at)));
      if Calibrates(c, s, at) then (t.(noiseFloorDb := Adapted(s.noiseFloorDb, db, c.calibrationAdaptRate)), None)
      else if s.speaking then
        if IsVoice(c, s, db) then (t.(quietRunStartedAt := None), None)
        else
          var since := if s.quietRunStartedAt.None? then at else s.quietRunStartedAt.value;
          if at - since >= c.endHangoverMs then
            (t.(speaking := false, quietRunStartedAt := None, voiceRunStartedAt := None), Some(SpeechEnd(since)))
          else (t.(quietRunStartedAt := Some(since)), None)
      else if !IsVoice(c, s, db) then
        (t.(noiseFloorDb := Adapted(s.noiseFloorDb, db, c.noiseAdaptRate), voiceRunStartedAt := None), None)
      else
        var since := if s.voiceRunStartedAt.None? then at else s.voiceRunStartedAt.value;
        if at - since >= c.minSpeechMs then
          (t.(speaking := true, voiceRunStartedAt := None, quietRunStartedAt := None), Some(SpeechStart(since)))
        else (t.(voiceRunStartedAt := Some(since)), None)
  }

  /** The detector as the page holds it. */
  class Detector {
    const config: Config
    var noiseFloorDb: real
    var speaking: bool
    var voiceRunStartedAt: Option<real>
    var quietRunStartedAt: Option<real>
    var firstFrameAt: Option<real>

    ghost function View(): State
      reads this
    {
      State(noiseFloorDb, speaking, voiceRunStartedAt, quietRunStartedAt, firstFrameAt)
    }

    constructor (config: Config)
      ensures this.config == config && View() == Init(config)
    {
      this.config := config;
      noiseFloorDb := config.initialNoiseFloorDb;
      speaking := false;
      voiceRunStartedAt, quietRunStartedAt, firstFrameAt := None, None, None;
    }

    method PushDb(db: real, atMs: real) returns (event: Option<Event>)
      modifies this
      ensures (View(), event) == Step(config, old(View()), Frame(db, atMs))
    {
      if firstFrameAt.None? { firstFrameAt := Some(atMs); }
      if atMs - firstFrameAt.value < config.calibrationMs {
        noiseFloorDb := Adapted(noiseFloorDb, db, config.calibrationAdaptRate);
        return None;
      }
      var margin := if speaking then config.continueMarginDb else config.startMarginDb;
      var isVoice := db > noiseFloorDb + margin;
      if !isVoice && !speaking {
        noiseFloorDb := Adapted(noiseFloorDb, db, config.noiseAdaptRate);
      }
      if speaking {
        event := WhileSpeaking(isVoice, atMs);
      } else {
        event := WhileSilent(isVoice, atMs);
      }
    }

    method WhileSilent(isVoice: bool, atMs: real) returns (event: Option<Event>)
      modifies this
      ensures noiseFloorDb == old(noiseFloorDb) && firstFrameAt == old(firstFrameAt)
      ensures !isVoice ==> event == None && View() == old(View()).(voiceRunStartedAt := None)
      ensures var since := if old(voiceRunStartedAt).None? then atMs else old(voiceRunStartedAt).value;
              isVoice && atMs - since >= config.minSpeechMs ==>
                event == Some(SpeechStart(since)) &&
                View() == old(View()).(speaking := true, voiceRunStartedAt := None, quietRunStartedAt := None)
      ensures var since := if old(voiceRunStartedAt).None? then atMs else old(voiceRunStartedAt).value;
              isVoice && atMs - since < config.minSpeechMs ==>
                event == None && View() == old(View()).(voiceRunStartedAt := Some(since))
    {
      if !isVoice {
        voiceRunStartedAt := None;
        return None;
      }
      if voiceRunStartedAt.None? { voiceRunStartedAt := Some(atMs); }
      if atMs - voiceRunStartedAt.value >= config.minSpeechMs {
        speaking := true;
        var startedAt := voiceRunStartedAt.value;
        voiceRunStartedAt, quietRunStartedAt := None, None;
        return Some(SpeechStart(startedAt));
      }
      return None;
    }

    method WhileSpeaking(isVoice: bool, atMs: real) returns (event: Option<Event>)
      modifies this
      ensures noiseFloorDb == old(noiseFloorDb) && firstFrameAt == old(firstFrameAt)
      ensures isVoice ==> event == None && View() == old(View()).(quietRunStartedAt := None)
      ensures var since := if old(quietRunStartedAt).None? then atMs else old(quietRunStartedAt).value;
              !isVoice && atMs - since >= config.endHangoverMs ==>
                event == Some(SpeechEnd(since)) &&
                View() == old(View()).(speaking := false, voiceRunStartedAt := None, quietRunStartedAt := None)
      ensures var since := if old(quietRunStartedAt).None? then atMs else old(quietRunStartedAt).value;
              !isVoice && atMs - since < config.endHangoverMs ==>
                event == None && View() == old(View()).(quietRunStartedAt := Some(since))
    {
      if isVoice {
        quietRunStartedAt := None;
        return None;
      }
      if quietRunStartedAt.None? { quietRunStartedAt := Some(atMs); }
      if atMs - quietRunStartedAt.value >= config.endHangoverMs {
        speaking := false;
        var endedAt := quietRunStartedAt.value;
        quietRunStartedAt, voiceRunStartedAt := None, None;
        return Some(SpeechEnd(endedAt));
      }
      return None;
    }

    method ForceSilence(atMs: real) returns (event: Option<Event>)
      modifies this
      ensures (View(), event) == Step(config, old(View()), Reset(atMs))
    {
      var wasSpeaking := speaking;
      speaking := false;
      voiceRunStartedAt, quietRunStartedAt := None, None;
      event := if wasSpeaking then Some(SpeechEnd(atMs)) else None;
    }
  }

  // ----- Runs -----

  ghost predicate InTimeOrder(inputs: seq<Input>) {
    forall i, j :: 0 <= i < j < |inputs| ==> inputs[i].atMs <= inputs[j].atMs
  }

  /** The state before input `n`. */
  ghost function StateAt(c: Config, inputs: seq<Input>, n: nat): State
    requires n <= |inputs|
  {
    if n == 0 then Init(c) else Step(c, StateAt(c, inputs, n - 1), inputs[n - 1]).0
  }

  ghost function EventAt(c: Config, inputs: seq<Input>, i: nat): Option<Event>
    requires i < |inputs|
  {
    Step(c, StateAt(c, inputs, i), inputs[i]).1
  }

  /** An event together with the position of the input that raised it. */
  datatype Raised = Raised(event: Event, index: nat)

  ghost function Events(c: Config, inputs: seq<Input>, n: nat): seq<Raised>
    requires n <= |inputs|
  {
    if n == 0 then []
    else if EventAt(c, inputs, n - 1).None? then Events(c, inputs, n - 1)
    else Events(c, inputs, n - 1) + [Raised(EventAt(c, inputs, n - 1).value, n - 1)]
  }

  // ----- Where events lie -----

  /** The level above which a frame is voice: speech goes on at a lower one than it takes to start. */
  ghost function VoiceLevel(c: Config, floor: real, speaking: bool): real {
    floor + if speaking then c.continueMarginDb else c.startMarginDb
  }

  /** Input `i` is a frame past calibration, heard as voice (or not) in the mode `speaking`. */
  ghost predicate Heard(c: Config, inputs: seq<Input>, i: nat, speaking: bool, voice: bool)
    requires i < |inputs|
  {
    var s := StateAt(c, inputs, i);
    && inputs[i].Frame? && !Calibrates(c, s, inputs[i].atMs)
    && s.speaking == speaking && (inputs[i].db > VoiceLevel(c, s.noiseFloorDb, speaking)) == voice
  }

  /** `[from, to)` is an unbroken run of such frames, and begins where it does because the one before was not one. */
  ghost predicate IsRun(c: Config, inputs: seq<Input>, from: nat, to: nat, speaking: bool, voice: bool) {
    && from < to <= |inputs|
    && (forall i :: from <= i < to ==> Heard(c, inputs, i, speaking, voice))
    && (from > 0 ==> !Heard(c, inputs, from - 1, speaking, voice))
  }

  ghost function LengthNeeded(c: Config, speaking: bool): real {
    if speaking then c.endHangoverMs else c.minSpeechMs
  }

  ghost function RunStart(s: State, speaking: bool): Option<real> {
    if speaking then s.quietRunStartedAt else s.voiceRunStartedAt
  }

  /** Frames `[from, to)` are an unbroken run and none of them is long enough after its start. */
  ghost predicate IsShortRun(c: Config, inputs: seq<Input>, from: nat, to: nat, speaking: bool) {
    && IsRun(c, inputs, from, to, speaking, !speaking)
    && (forall m :: from <= m < to ==> inputs[m].atMs - inputs[from].atMs < LengthNeeded(c, speaking))
  }

  /** The run an event is backdated to: it reaches the required length at frame `last`, and not before. */
  ghost predicate CompletesRun(c: Config, inputs: seq<Input>, from: nat, last: nat, speaking: bool) {
    && from <= last < |inputs| && IsRun(c, inputs, from, last + 1, speaking, !speaking)
    && inputs[last].atMs - inputs[from].atMs >= LengthNeeded(c, speaking)
    && (forall m :: from <= m < last ==> inputs[m].atMs - inputs[from].atMs < LengthNeeded(c, speaking))
  }

  /** A remembered run start is the time of the first frame of the run going on. */
  ghost predicate RemembersRun(c: Config, inputs: seq<Input>, n: nat, speaking: bool)
    requires n <= |inputs|
  {
    var s := StateAt(c, inputs, n);
    match RunStart(s, speaking)
    case Some(since) =>
      s.speaking == speaking &&
      exists from: nat :: IsShortRun(c, inputs, from, n, speaking) && inputs[from].atMs == since
    case None => s.speaking == speaking && n > 0 ==> !Heard(c, inputs, n - 1, speaking, !speaking)
  }

  lemma {:induction false} FirstFrameStays(c: Config, inputs: seq<Input>, i: nat, j: nat)
    requires i < j <= |inputs| && inputs[i].Frame?
    ensures StateAt(c, inputs, j).firstFrameAt == Some(FirstFrame(StateAt(c, inputs, i), inputs[i].atMs))
  {
    if j > i + 1 {
      FirstFrameStays(c, inputs, i, j - 1);
    }
  }

  /** When the first frame of the first `n` inputs was captured. */
  ghost function FirstTime(inputs: seq<Input>, n: nat): Option<real>
    requires n <= |inputs|
  {
    if n == 0 then None
    else if FirstTime(inputs, n - 1).Some? then FirstTime(inputs, n - 1)
    else if inputs[n - 1].Frame? then Some(inputs[n - 1].atMs) else None
  }

  lemma {:induction false} FirstTimeIsRemembered(c: Config, inputs: seq<Input>, n: nat)
    requires n <= |inputs|
    ensures StateAt(c, inputs, n).firstFrameAt == FirstTime(inputs, n)
  {
    if n > 0 {
      FirstTimeIsRemembered(c, inputs, n - 1);
    }
  }

  /** A frame falls into calibration exactly if it comes soon enough after the first frame of all. */
  ghost predicate IsEarly(c: Config, inputs: seq<Input>, i: nat)
    requires i < |inputs| && inputs[i].Frame?
  {
    inputs[i].atMs - FirstTime(inputs, i + 1).value < c.calibrationMs
  }

  lemma CalibratesExactlyAtFirst(c: Config, inputs: seq<Input>, i: nat)
    requires i < |inputs| && inputs[i].Frame?
    ensures Calibrates(c, StateAt(c, inputs, i), inputs[i].atMs) <==> IsEarly(c, inputs, i)
  {
    FirstTimeIsRemembered(c, inputs, i);
  }

  /** Once past calibration, always past it. */
  lemma CalibrationEndsOnce(c: Config, inputs: seq<Input>, i: nat, j: nat)
    requires InTimeOrder(inputs) && i <= j < |inputs| && inputs[i].Frame? && inputs[j].Frame?
    requires !Calibrates(c, StateAt(c, inputs, i), inputs[i].atMs)
    ensures !Calibrates(c, StateAt(c, inputs, j), inputs[j].atMs)
  {
    if i < j {
      FirstFrameStays(c, inputs, i, j);
    }
  }

  /** A frame that is heard in the right way continues the run, or completes it and raises the event. */
  lemma RunGoesOn(c: Config, inputs: seq<Input>, n: nat, speaking: bool)
    requires n < |inputs| && RemembersRun(c, inputs, n, speaking)
    requires Heard(c, inputs, n, speaking, !speaking)
    ensures RemembersRun(c, inputs, n + 1, speaking)
    ensures match EventAt(c, inputs, n)
            case None => StateAt(c, inputs, n + 1).speaking == speaking
            case Some(e) =>
              && e.SpeechEnd? == speaking && StateAt(c, inputs, n + 1).speaking == !speaking
              && exists from: nat :: CompletesRun(c, inputs, from, n, speaking) && e.atMs == inputs[from].atMs
  {
    var since := RunStart(StateAt(c, inputs, n), speaking);
    var from: nat := n;
    if since.Some? {
      from :| IsShortRun(c, inputs, from, n, speaking) && inputs[from].atMs == since.value;
    }
    assert IsRun(c, inputs, from, n + 1, speaking, !speaking);
    if inputs[n].atMs - inputs[from].atMs < LengthNeeded(c, speaking) {
      assert IsShortRun(c, inputs, from, n + 1, speaking);
    } else {
      assert CompletesRun(c, inputs, from, n, speaking);
    }
  }

  /** Any other input ends the run, and raises no event unless it is a reset. */
  lemma RunEnds(c: Config, inputs: seq<Input>, n: nat, speaking: bool)
    requires InTimeOrder(inputs) && n < |inputs| && RemembersRun(c, inputs, n, speaking)
    requires !Heard(c, inputs, n, speaking, !speaking)
    ensures StateAt(c, inputs, n + 1).speaking == speaking ==> RunStart(StateAt(c, inputs, n + 1), speaking).None?
    ensures StateAt(c, inputs, n + 1).speaking != speaking ==> RunStart(StateAt(c, inputs, n + 1), speaking).None?
  {
    var s := StateAt(c, inputs, n);
    if RunStart(s, speaking).Some? && inputs[n].Frame? {
      var from: nat :| IsShortRun(c, inputs, from, n, speaking) && inputs[from].atMs == RunStart(s, speaking).value;
      assert Heard(c, inputs, from, speaking, !speaking);
      CalibrationEndsOnce(c, inputs, from, n);
    }
  }

  lemma {:induction false} RunsAreRemembered(c: Config, inputs: seq<Input>, n: nat)
    requires InTimeOrder(inputs) && n <= |inputs|
    ensures RemembersRun(c, inputs, n, true) && RemembersRun(c, inputs, n, false)
  {
    if n > 0 {
      RunsAreRemembered(c, inputs, n - 1);
      RunStep(c, inputs, n - 1, true);
      RunStep(c, inputs, n - 1, false);
    }
  }

  lemma RunStep(c: Config, inputs: seq<Input>, n: nat, speaking: bool)
    requires InTimeOrder(inputs) && n < |inputs| && RemembersRun(c, inputs, n, speaking)
    ensures RemembersRun(c, inputs, n + 1, speaking)
  {
    if Heard(c, inputs, n, speaking, !speaking) {
      RunGoesOn(c, inputs, n, speaking);
    } else {
      RunEnds(c, inputs, n, speaking);
    }
  }

  /**
   Every event raised by a frame is backdated to the first frame of an unbroken run, voiced
   for a start and quiet for an end, and is raised by the first frame that makes the run long
   enough. No frame of the run is inside the calibration window, so nothing fires there.
   */
  lemma EventsAreBackdated(c: Config, inputs: seq<Input>, n: nat)
    requires InTimeOrder(inputs) && n < |inputs| && inputs[n].Frame? && EventAt(c, inputs, n).Some?
    ensures var e := EventAt(c, inputs, n).value;
            exists from: nat :: CompletesRun(c, inputs, from, n, e.SpeechEnd?) && e.atMs == inputs[from].atMs
    ensures !Calibrates(c, StateAt(c, inputs, n), inputs[n].atMs)
  {
    var speaking := StateAt(c, inputs, n).speaking;
    RunsAreRemembered(c, inputs, n);
    RunGoesOn(c, inputs, n, speaking);
  }

  /** Conversely, whenever a run becomes long enough, the event is raised there and then. */
  lemma CompletedRunsAreReported(c: Config, inputs: seq<Input>, from: nat, n: nat, speaking: bool)
    requires InTimeOrder(inputs) && CompletesRun(c, inputs, from, n, speaking)
    ensures EventAt(c, inputs, n) == Some(if speaking then SpeechEnd(inputs[from].atMs) else SpeechStart(inputs[from].atMs))
  {
    RunsAreRemembered(c, inputs, n);
    var since := RunStart(StateAt(c, inputs, n), speaking);
    assert Heard(c, inputs, n, speaking, !speaking);
    if since.Some? {
      var k: nat :| IsShortRun(c, inputs, k, n, speaking) && inputs[k].atMs == since.value;
    }
  }

  // ----- How events follow one another -----

  /** Starts and ends take turns, and each keeps its distance from the one before. */
  ghost predicate IsSpaced(c: Config, inputs: seq<Input>, events: seq<Raised>) {
    && AreRaised(c, inputs, events) && TakeTurns(events)
    && (forall k :: 0 < k < |events| ==> IsApart(c, inputs, events[k - 1], events[k]))
  }

  /** Starts are at the even places and ends at the odd ones. */
  ghost predicate TakeTurns(events: seq<Raised>) {
    forall k :: 0 <= k < |events| ==> (events[k].event.SpeechStart? <==> k % 2 == 0)
  }

  /** Each event is what the input at its index raised, and the indices ascend. */
  ghost predicate AreRaised(c: Config, inputs: seq<Input>, events: seq<Raised>) {
    && (forall k :: 0 <= k < |events| ==>
          events[k].index < |inputs| && EventAt(c, inputs, events[k].index) == Some(events[k].event))
    && (forall j, k :: 0 <= j < k < |events| ==> events[j].index < events[k].index)
  }

  ghost predicate IsApart(c: Config, inputs: seq<Input>, earlier: Raised, later: Raised)
    requires earlier.index < |inputs| && later.index < |inputs|
  {
    && (later.event.SpeechEnd? ==> later.event.atMs >= earlier.event.atMs + c.minSpeechMs)
    && (later.event.SpeechStart? && inputs[earlier.index].Frame? ==> later.event.atMs >= earlier.event.atMs + c.endHangoverMs)
  }

  /** An event's run lies wholly after the input that raised an event of the other kind. */
  lemma OppositeEventsAreApart(c: Config, inputs: seq<Input>, i: nat, j: nat)
    requires InTimeOrder(inputs) && i < j < |inputs|
    requires EventAt(c, inputs, i).Some? && EventAt(c, inputs, j).Some?
    requires EventAt(c, inputs, i).value.SpeechStart? != EventAt(c, inputs, j).value.SpeechStart?
    ensures IsApart(c, inputs, Raised(EventAt(c, inputs, i).value, i), Raised(EventAt(c, inputs, j).value, j))
  {
    if inputs[i].Frame? { EventsAreBackdated(c, inputs, i); }
    if inputs[j].Frame? {
      EventsAreBackdated(c, inputs, j);
      var speaking := EventAt(c, inputs, j).value.SpeechEnd?;
      var from: nat :| CompletesRun(c, inputs, from, j, speaking) && EventAt(c, inputs, j).value.atMs == inputs[from].atMs;
      assert !Heard(c, inputs, i, speaking, !speaking);
      assert i < from;
    }
  }

  /** An event always flips the mode, and nothing else does. */
  lemma EventsFlip(c: Config, s: State, input: Input)
    ensures Step(c, s, input).0.speaking == (s.speaking != Step(c, s, input).1.Some?)
    ensures Step(c, s, input).1.Some? ==> Step(c, s, input).1.value.SpeechStart? == !s.speaking
  {
  }

  /** The detector is speaking exactly after an odd number of events. */
  lemma {:induction false} EventsTakeTurns(c: Config, inputs: seq<Input>, n: nat)
    requires n <= |inputs|
    ensures TakeTurns(Events(c, inputs, n))
    ensures StateAt(c, inputs, n).speaking <==> |Events(c, inputs, n)| % 2 == 1
  {
    if n > 0 {
      EventsTakeTurns(c, inputs, n - 1);
      EventsFlip(c, StateAt(c, inputs, n - 1), inputs[n - 1]);
    }
  }

  lemma {:induction false} EventsAreRaised(c: Config, inputs: seq<Input>, n: nat)
    requires n <= |inputs|
    ensures AreRaised(c, inputs, Events(c, inputs, n))
    ensures forall k :: 0 <= k < |Events(c, inputs, n)| ==> Events(c, inputs, n)[k].index < n
  {
    hide EventAt;
    if n > 0 {
      EventsAreRaised(c, inputs, n - 1);
    }
  }

  /** Over any inputs in time order: events alternate, and each is far enough from the one before. */
  lemma EventsAreSpaced(c: Config, inputs: seq<Input>)
    requires InTimeOrder(inputs)
    ensures IsSpaced(c, inputs, Events(c, inputs, |inputs|))
    ensures StateAt(c, inputs, |inputs|).speaking <==> |Events(c, inputs, |inputs|)| % 2 == 1
  {
    var events := Events(c, inputs, |inputs|);
    EventsTakeTurns(c, inputs, |inputs|);
    EventsAreRaised(c, inputs, |inputs|);
    forall k | 0 < k < |events| ensures IsApart(c, inputs, events[k - 1], events[k]) {
      OppositeEventsAreApart(c, inputs, events[k - 1].index, events[k].index);
    }
  }

  // ----- The noise floor -----

  ghost predicate LevelsWithin(c: Config, inputs: seq<Input>, low: real, high: real) {
    && low <= c.initialNoiseFloorDb <= high
    && (forall i :: 0 <= i < |inputs| && inputs[i].Frame? ==> low <= inputs[i].db <= high)
  }

  lemma AdaptedStaysBetween(floor: real, db: real, rate: real, low: real, high: real)
    requires low <= floor <= high && low <= db <= high && 0.0 <= rate <= 1.0
    ensures low <= Adapted(floor, db, rate) <= high
  {
    var d := if db >= floor then db - floor else floor - db;
    MulNonNegative(d, rate);
    MulNonNegative(d, 1.0 - rate);
    assert d * (1.0 - rate) == d - d * rate;
    assert (db - floor) * rate == if db >= floor then d * rate else -(d * rate);
  }

  /** The floor never leaves the range of its first value and the levels heard. */
  lemma {:induction false} FloorStaysInRange(c: Config, inputs: seq<Input>, n: nat, low: real, high: real)
    requires n <= |inputs| && LevelsWithin(c, inputs, low, high)
    requires 0.0 <= c.noiseAdaptRate <= 1.0 && 0.0 <= c.calibrationAdaptRate <= 1.0
    ensures low <= StateAt(c, inputs, n).noiseFloorDb <= high
  {
    if n > 0 {
      FloorStaysInRange(c, inputs, n - 1, low, high);
      if inputs[n - 1].Frame? {
        var floor := StateAt(c, inputs, n - 1).noiseFloorDb;
        AdaptedStaysBetween(floor, inputs[n - 1].db, c.noiseAdaptRate, low, high);
        AdaptedStaysBetween(floor, inputs[n - 1].db, c.calibrationAdaptRate, low, high);
      }
    }
  }

  /** How much of the distance to the level heard the floor covers at frame `i`. */
  ghost function Rate(c: Config, inputs: seq<Input>, i: nat): real
    requires i < |inputs|
  {
    var s := StateAt(c, inputs, i);
    if inputs[i].Reset? then 0.0
    else if IsEarly(c, inputs, i) then c.calibrationAdaptRate
    else if s.speaking || inputs[i].db > VoiceLevel(c, s.noiseFloorDb, false) then 0.0
    else c.noiseAdaptRate
  }

  /**
   Each frame moves the floor towards the level heard: by the calibration's share of the distance
   at first, later by the adaptation's share if it is heard as quiet while nobody speaks, and by
   none of it otherwise.
   */
  lemma FloorCoversItsShare(c: Config, inputs: seq<Input>, i: nat)
    requires i < |inputs|
    ensures var before, after := StateAt(c, inputs, i).noiseFloorDb, StateAt(c, inputs, i + 1).noiseFloorDb;
            if inputs[i].Reset? then after == before
            else inputs[i].db - after == (1.0 - Rate(c, inputs, i)) * (inputs[i].db - before)
  {
    if inputs[i].Frame? {
      CalibratesExactlyAtFirst(c, inputs, i);
      var before, db := StateAt(c, inputs, i).noiseFloorDb, inputs[i].db;
      assert db - (before + (db - before) * c.calibrationAdaptRate) == (1.0 - c.calibrationAdaptRate) * (db - before);
      assert db - (before + (db - before) * c.noiseAdaptRate) == (1.0 - c.noiseAdaptRate) * (db - before);
    }
  }

  /** A distance of which the same share is left over `times` times. */
  ghost function Shrunk(distance: real, left: real, times: nat): real {
    if times == 0 then distance else left * Shrunk(distance, left, times - 1)
  }

  /** Over a stretch of frames at one level and one rate the floor approaches that level geometrically. */
  lemma {:induction false} FloorConverges(c: Config, inputs: seq<Input>, m: nat, n: nat, level: real, rate: real)
    requires m <= n <= |inputs|
    requires forall i :: m <= i < n ==> inputs[i].Frame? && inputs[i].db == level && Rate(c, inputs, i) == rate
    ensures level - StateAt(c, inputs, n).noiseFloorDb ==
      Shrunk(level - StateAt(c, inputs, m).noiseFloorDb, 1.0 - rate, n - m)
    decreases n
  {
    hide StateAt, Rate;
    if m < n {
      FloorConverges(c, inputs, m, n - 1, level, rate);
      FloorCoversItsShare(c, inputs, n - 1);
    }
  }

  /** While the detector is speaking the floor does not move. */
  lemma FloorIsFrozenWhileSpeaking(c: Config, inputs: seq<Input>, n: nat)
    requires InTimeOrder(inputs) && n < |inputs| && StateAt(c, inputs, n).speaking
    ensures StateAt(c, inputs, n + 1).noiseFloorDb == StateAt(c, inputs, n).noiseFloorDb
  {
    if inputs[n].Frame? { SpeakingIsPastCalibration(c, inputs, n); }
  }

  lemma SpeakingIsPastCalibration(c: Config, inputs: seq<Input>, n: nat)
    requires InTimeOrder(inputs) && n < |inputs| && StateAt(c, inputs, n).speaking && inputs[n].Frame?
    ensures !Calibrates(c, StateAt(c, inputs, n), inputs[n].atMs)
  {
    var i := n - 1;
    while !(inputs[i].Frame? && EventAt(c, inputs, i).Some?)
      invariant 0 <= i < n && StateAt(c, inputs, i + 1).speaking
      decreases i
    {
      i := i - 1;
    }
    CalibrationEndsOnce(c, inputs, i, n);
  }
}
