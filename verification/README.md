# Verified model of the interview platform's core

The repository runs a spoken coding interview: a browser page streams code edits and voice to an
API, a per-session runtime decides when the interviewer may speak, and authored reference
solutions are the ground truth of the interview questions. This project models the parts whose
correctness is not visible in any one function and proves what they are for:

- **Reference algorithms** (`JobOrder`, `CourierGrid`, `PackingCapacity`, `ArchiveStitch`,
  `SensorBalance`, `ServiceWindows`, and the transcript `Accuracy`): full functional correctness
  including optimality, against definitions that do not mention the algorithm.
- **The outbox protocol** (`SessionClient`, `Outbox`, `Transport`, `Waiting`, `RunAttribution`,
  `FailedResume`): the page's client, the server's channel, and a connection that loses, repeats and
  reorders, as one transition system.
- **The live voice connection** (`Vad`, `RealtimeVoice`, `BargeIn`, `PreRoll`, `SentOnce`,
  `Interruptions`, `Microphone`): the detector, the wire protocol around it, interruptions that wait
  for confirmation, what each message and each frame brings about, and what becomes of the frames.
- **Playback and delivery** (`Playback`, `Pcm16`, `UtteranceLifecycle`, `CachedDelivery` with
  `CachedEndings`).
- **The orchestrator** (`TurnCompletion`, `Gate`, `ObserverLoop` with `FailedSnapshots`, `Opening`
  with `Tellings`, `HeldTurns`, and `TurnQueue` with `SilencedTurns`, `LostOpening`,
  `ForgottenOpening` and `Rejudgement`): real
  arithmetic of the turn-end window, and state machines whose steps are the segments between two awaits.

`Wrappers` and `Reals` hold an option type and a few facts about real arithmetic.

## How it is modelled

The source's objects are classes with its fields. Each class has a `View()` of its fields as a
value, and each method's contract ties the new view to a step function of the old one; the
properties are then proved about runs of those step functions, given by their inputs or as a
`History` of inputs and states. Fields that the source does not
have are ghosts: what was sent, enqueued, scheduled, spoken. Loops of the source are loops. Pure
functions of the source are functions.

A continuation suspended at an `await` is a frame in the state, and any frame may go on next, so
the theorems of `ObserverLoop` and `Opening` hold for every interleaving. `TurnQueue` adds what the
session promises about the order of events: one at a time through the dispatch queue, past it only
the timers of held turns and the reports about playback. The shell's calls from inside a callback of
the voice connection are inputs too. JavaScript numbers are reals in
`TurnCompletion`, `Vad`, `Playback` and `CachedDelivery`, and unbounded integers where the source
counts. Clocks, sockets, timers, random identifiers and the audio sink are the environment; what
is assumed of it is a predicate over runs (`KeysAreNew`, `Possible`, `SinkBehaves`, `InTimeOrder`).

## Where the code falls short of its comments

- `silenceRequiredFor` is documented as the inverse of the ceiling. It is exactly when the turn-end
  window is not empty (`TurnCompletion.InverseIsExact`); all three modes have non-empty windows.
- An opening that was not heard is meant to be told again. It is forgotten, which means neither heard
  nor under way nor owed, exactly if one of these happened: the log entry of its telling, of its
  redelivery or of its report failed; its report came when the budget was used up; or, before its
  outcome was reported, something else was said or found to have no words
  (`ForgottenOpening.ForgottenExactlyIfDropped` over every interleaving, `ForgottenUnderTheQueue` over
  every run of the session's queue). Examples with the budget left are `ForgottenOpening.ReportIsLost`,
  `RedeliveryIsLost` and `AnswerTakesOver`. If the first telling's own log entry fails, nothing is ever
  spoken as the opening at all, and only then (`LostOpening.OpeningIsLostExactlyWithItsLogEntry`, an
  example in `LostOpening.OpeningCanBeLost`). Nothing overtakes the first telling
  (`TurnQueue.FirstTellingIsMarked`).
- A new turn is meant to supersede whatever still waits on silence. An older turn waits again exactly
  if the timer's silent verdict on it is logged after the new turn arrived and was worth another wait
  (`Rejudgement.OlderTurnWaitsExactlyIfItComesBack`, an example in `Rejudgement.OlderTurnComesBack`).
- The frame that confirms a held-back interruption is sent twice; no other frame is
  (`SentOnce.SentTwiceExactlyWhenConfirming`, an example in `SentOnce.ConfirmingFrameIsSentTwice`).
- A pass of the observer loop whose snapshot fails drops the runs and transcripts it took, all of
  them, and nothing else drops any (`FailedSnapshots.DroppedExactlyWithAFailedSnapshot`,
  `FailedSnapshots.PassDisposesOfWhatItTook`, an example in `FailedSnapshots.FailedSnapshotDrops`).
- The cursor that seals a session is meant to cover every event up to it. A page whose resume request
  failed numbers its events from 0, and the highest acknowledged number then vouches for events that
  were never accepted. Every resolved cursor of every run is sealed if and only if the page's first
  number is not below the end of the session's log (`FailedResume.SealedExactlyFromTheEndOn`, a run for
  every smaller number in `FailedResume.UnsealedFromBelow`).
- For a page that resumed with the server's numbers, an accepted run executes what the page had told
  its client. That is what the editor shows exactly unless the editor still shows a text from before
  the client was created: the starter text the page seeds it with, or an edit made before the resume
  request was answered (`RunAttribution.RunExecutesTheEditor`, an example in
  `RunAttribution.UntouchedStarterIsNotExecuted`). After a failed resume a run may find no code at all
  (`FailedResume.FailedResumeFindsNoCode`). The page in this tree does not request runs yet.

## Model

| member | source | states |
|---|---|---|
| JobOrder.JobOrder | content/scenario-drafts/batch-prerequisites/reference.py:4-20 | the result is a permutation of the jobs that respects every prerequisite and is lexicographically smallest among all such orders; for a positive count it is empty exactly when no valid order exists, and exactly when the prerequisites contain a cycle (duplicates and self-loops included) |
| JobOrder.CountPrerequisites | content/scenario-drafts/batch-prerequisites/reference.py:5-9 | after the set of pairs is read, each job lists its dependents and counts its distinct prerequisites |
| JobOrder.InitialHeap | content/scenario-drafts/batch-prerequisites/reference.py:10-11 | the heap holds each job without prerequisites once and nothing else |
| JobOrder.HeapPop | content/scenario-drafts/batch-prerequisites/reference.py:14 | takes one copy of the least element off the heap |
| JobOrder.Release | content/scenario-drafts/batch-prerequisites/reference.py:16-19 | after a job is placed the counts are what still waits and exactly the newly ready jobs join the heap |
| JobOrder.SmallestReadyLeads | content/scenario-drafts/batch-prerequisites/reference.py:13-19 | among all valid orders, one that starts with the chosen prefix followed by the smallest ready job is never beaten: the greedy choice leads every valid order |
| JobOrder.StuckMeansImpossible | content/scenario-drafts/batch-prerequisites/reference.py:20 | if nothing is ready before all jobs are placed, no valid order exists |
| JobOrder.StuckMeansCycle | content/scenario-drafts/batch-prerequisites/reference.py:20 | if nothing is ready before all jobs are placed, the prerequisites contain a cycle |
| JobOrder.CycleMeansImpossible | content/scenario-drafts/batch-prerequisites/reference.py:20 | a cycle, a self-loop included, rules out every valid order |
| CourierGrid.FewestMoves | content/scenario-drafts/courier-grid/reference.py:4-19 | the result is the least number of four-neighbour moves over paths whose cells after the start are in bounds and free, and -1 exactly when there is no such path |
| CourierGrid.Expand | content/scenario-drafts/courier-grid/reference.py:13-18 | expanding a cell keeps the queue in layers and every recorded distance achieved, and leaves all its open neighbours seen |
| CourierGrid.LookAt | content/scenario-drafts/courier-grid/reference.py:14-18 | exactly if the neighbour is in bounds, free and unseen, it alone joins the end of the queue, one layer further; it is marked seen, and every other distance stays |
| CourierGrid.ShortPathIsSeen | content/scenario-drafts/courier-grid/reference.py:9-18 | every cell on a path shorter than the queue's front has been seen at no greater distance |
| CourierGrid.FrontIsNearest | content/scenario-drafts/courier-grid/reference.py:10-12 | when the goal is dequeued no path is shorter than its distance |
| CourierGrid.ExhaustedMeansUnreachable | content/scenario-drafts/courier-grid/reference.py:19 | when the queue is empty no path reaches the goal |
| PackingCapacity.MinimumCapacity | content/scenario-drafts/packing-capacity/reference.py:2-17 | the result is the least capacity for which the weights split into at most that many contiguous groups, each within capacity; 0 for no weights |
| PackingCapacity.GroupsUsed | content/scenario-drafts/packing-capacity/reference.py:8-12 | the inner loop counts the groups the greedy split opens |
| PackingCapacity.GreedyIsOptimal | content/scenario-drafts/packing-capacity/reference.py:8-12 | no split of the same weights within capacity uses fewer groups than the greedy one |
| PackingCapacity.GreedyPlan | content/scenario-drafts/packing-capacity/reference.py:8-12 | the greedy count is reached by an actual split into contiguous groups within capacity |
| PackingCapacity.GreedyDecides | content/scenario-drafts/packing-capacity/reference.py:13-16 | for a capacity no lighter than the heaviest weight, the weights fit into the days exactly if the greedy count does |
| PackingCapacity.Monotone | content/scenario-drafts/packing-capacity/reference.py:13-16 | what fits within a capacity fits within every larger one |
| PackingCapacity.NothingBelowTheHeaviest | content/scenario-drafts/packing-capacity/reference.py:5 | no capacity below the heaviest weight fits, so the search may start there |
| ArchiveStitch.MinimumLabels | content/scenario-drafts/archive-stitch/reference.py:2-14 | the result is the least number of labels, with reuse, whose concatenation is the message, and -1 exactly when there is none, empty labels included |
| ArchiveStitch.RelaxAll | content/scenario-drafts/archive-stitch/reference.py:10-13 | relaxing one index settles it against every label and keeps every entry reached by a real concatenation |
| ArchiveStitch.NoShorterStitching | content/scenario-drafts/archive-stitch/reference.py:7-13 | in a settled table no concatenation of labels reaches a position with fewer labels than its entry |
| ArchiveStitch.AtMostOneLabelPerCharacter | content/scenario-drafts/archive-stitch/reference.py:5 | every concatenation can be replaced by one with at most one label per character, so n+1 is never a real answer |
| ArchiveStitch.SettledTableIsExact | content/scenario-drafts/archive-stitch/reference.py:14 | the last entry of a settled table is the least count, and the sentinel exactly when there is none |
| SensorBalance.CalibrationBlock | content/scenario-drafts/sensor-balance/reference.py:2-15 | the result is the longest non-empty block with the target sum and among the longest the one that starts first; (-1, -1) exactly when there is none, target 0 and negative values included |
| SensorBalance.SumOfBlock | content/scenario-drafts/sensor-balance/reference.py:8-9 | a block's sum is the difference of two prefix sums |
| SensorBalance.RememberOne | content/scenario-drafts/sensor-balance/reference.py:14 | `setdefault` keeps, for every prefix sum, the first position that has it |
| SensorBalance.NoBetterEndsHere | content/scenario-drafts/sensor-balance/reference.py:9-13 | of the blocks ending at one position, none is longer than the one starting at the first position with the needed prefix sum |
| ServiceWindows.MergeWindows | content/scenario-drafts/service-windows/reference.py:2-9 | the result covers exactly the union of the non-empty half-open windows with sorted windows separated by strict gaps |
| ServiceWindows.CanonicalIsUnique | content/scenario-drafts/service-windows/reference.py:2-9 | two lists of sorted windows with strict gaps that cover the same points are equal |
| ServiceWindows.ResultDependsOnCoverageOnly | content/scenario-drafts/service-windows/reference.py:2-9 | inputs that cover the same points are merged into the same list |
| ServiceWindows.OrderDoesNotMatter | content/scenario-drafts/service-windows/reference.py:4 | permuted inputs are merged into the same list |
| ServiceWindows.MergingAgainChangesNothing | content/scenario-drafts/service-windows/reference.py:2-9 | merging the result again returns it |
| ServiceWindows.Stretch | content/scenario-drafts/service-windows/reference.py:5-6 | a window that starts by the end of the last one extends it to the union of both |
| Accuracy.Ratio | apps/api/scripts/live-transcription-probe.ts:46-61 | the ratio is the length of a longest common subsequence over the number of expected words; it lies in [0, 1] and is 1 exactly if the expected words are a non-empty subsequence of the actual ones |
| Accuracy.Rows | apps/api/scripts/live-transcription-probe.ts:51-59 | two rolling rows compute the last entry of the full table |
| Accuracy.NextRow | apps/api/scripts/live-transcription-probe.ts:53-57 | one row of the table is computed from the row before it alone |
| Accuracy.TableIsUpperBound | apps/api/scripts/live-transcription-probe.ts:55-56 | no common subsequence is longer than the table's entry |
| Accuracy.TableIsReached | apps/api/scripts/live-transcription-probe.ts:55-56 | some common subsequence is as long as the table's entry |
| Accuracy.FullLengthMeansSubsequence | apps/api/scripts/live-transcription-probe.ts:60 | the entry equals the number of expected words exactly if they are a subsequence of the actual ones |
| SessionClient.Client.constructor | apps/web/lib/session-client.ts:98-106 | a client resumes with the given numbers and nothing pending |
| SessionClient.Client.CodeChanged | apps/web/lib/session-client.ts:163-167 | a later edit replaces the pending one |
| SessionClient.Client.FlushEdits | apps/web/lib/session-client.ts:176-196 | pending edits become numbered events, code first under the next revision, each once |
| SessionClient.Client.RequestARun | apps/web/lib/session-client.ts:223-230 | edits are flushed first and the request carries the resulting revision |
| SessionClient.Client.FlushAndWaitForAcknowledgement | apps/web/lib/session-client.ts:202-221 | resolves at once if everything is settled, else waits for the cursor of the last event |
| SessionClient.Client.EnqueueEvent | apps/web/lib/session-client.ts:286-303 | an event takes the next number, joins the outbox and is sent if connected |
| SessionClient.Client.OnAck | apps/web/lib/session-client.ts:323-345 | an acknowledgement removes exactly its event, advances the cursors and resolves the waiters that are due |
| SessionClient.Client.ResolveWaiters | apps/web/lib/session-client.ts:371-378 | a waiter is resolved exactly when nothing up to its target is pending |
| SessionClient.Client.OnReplayFrom | apps/web/lib/session-client.ts:346-351 | a replay request sends what is pending from the given number on; that this is all of it, oldest first, is `Outbox.ReplaySendsFromThere` |
| SessionClient.Client.OnOpen | apps/web/lib/session-client.ts:318-321 | opening the transport sends what is pending through `Opened`; that this is all of it, oldest first, is `Outbox.ReopeningSendsThePending` |
| SessionClient.SortedIsIdentity | apps/web/lib/session-client.ts:318-321 | an outbox already in order is sent in that order |
| SessionClient.SortedIsInOrder | apps/web/lib/session-client.ts:318-321 | sorting any outbox loses, adds and repeats nothing and puts older numbers first |
| SessionClient.WithoutRemovesExactly | apps/web/lib/session-client.ts:332-342 | an acknowledgement keeps every other event and their order |
| SessionClient.WaitersSplit | apps/web/lib/session-client.ts:371-378 | each waiter is resolved or kept, by whether something up to its target is pending |
| Outbox.SessionChannel.HandleClientEvent | apps/api/src/modules/session/channel.ts:60-147 | a gap asks for a replay, a known key is acknowledged with the place its event was first given, a taken number is a conflict, anything else is appended; the cached watermark is kept in step |
| Outbox.SessionChannel.LatestClientSeq | apps/api/src/modules/session/event-log.ts:147-162 | the highest number in the log, -1 for an empty one |
| Outbox.SessionChannel.Lookup | apps/api/src/modules/session/event-log.ts:100-136 | where the event with this key is in the log, or its end if the key is new, and whether the number is taken |
| Outbox.SessionChannel.Forget | apps/api/src/modules/session/channel.ts:182-184 | closing the socket drops the cached watermark |
| Outbox.InvStep | apps/web/lib/session-client.ts:286-378 | every step of client, server and connection keeps, wherever the page's numbers start: a gap-free log that goes on with this page's events under their own numbers, everything unaccepted in the outbox, only this page's accepted events acknowledged |
| Outbox.InvHolds | apps/web/lib/session-client.ts:98-106 | and so every run from a page load keeps it, whether the page resumed or not |
| Outbox.AcceptedGoesOn | apps/api/src/modules/session/channel.ts:60-147 | in every run over a connection that loses, repeats and reorders, wherever the page's numbers start, the accepted log has no gaps and no duplicates, and what it adds to the earlier log are this page's events under the numbers they were enqueued with |
| Outbox.AcceptedIsAPrefix | packages/contracts/src/session-event.ts:213-218 | for a page that resumed the accepted log is everything enqueued up to some point, in order |
| Outbox.NothingIsLost | apps/web/lib/session-client.ts:286-303 | in every run each enqueued event has been accepted or is still in the outbox |
| Outbox.ResolvedMeansAccepted | apps/web/lib/session-client.ts:202-221 | in every run of a page whose first number is not below the end of the log, a cursor that was resolved, through the shortcut or a waiter, has every event up to it accepted |
| Outbox.RetryIsHarmless | apps/api/src/modules/session/event-log.ts:100-104 | in every run an accepted event that arrives again is acknowledged with the place it was given the first time and leaves the log as it is |
| Outbox.InvMeansSealed | apps/web/lib/session-client.ts:202-221 | wherever the invariant holds with such a first number, a resolved cursor has every event up to it accepted |
| FailedResume.SealedExactlyFromTheEndOn | apps/web/lib/session-client.ts:98-221 | every resolved cursor of every run is sealed if and only if the page's first number is not below the end of the session's log |
| FailedResume.UnsealedFromBelow | apps/web/app/interview/[sessionId]/page.tsx:141-172 | for every session and every smaller first number, 0 after a failed resume included, a run that resolves past events never accepted |
| FailedResume.FailedResumeFindsNoCode | apps/web/app/interview/[sessionId]/page.tsx:141-172 | for every code and input a run in which an accepted request of a page that failed to resume finds no code |
| Outbox.CleanReconnectHeals | apps/web/lib/session-client.ts:318-345 | from every reachable state of a page that resumed, one reconnect in which nothing is lost: what the client sends on opening is exactly what is pending in ascending order, it makes the server's log everything that was enqueued, and the server's replies empty the outbox |
| Outbox.RoundTripHeals | apps/web/lib/session-client.ts:318-345 | the same from any state that keeps the invariant |
| Outbox.ReopeningSendsThePending | apps/web/lib/session-client.ts:318-321 | wherever the invariant holds, opening the transport sends each pending event once, in ascending order, sends nothing else and changes nothing else |
| Outbox.ReplaySendsFromThere | apps/web/lib/session-client.ts:346-351 | a replay request is answered, while connected, with exactly the pending events from that number on in ascending order |
| Outbox.ReplayHeals | apps/api/src/modules/session/channel.ts:60-80 | from every reachable state of a page that resumed, a replay the server asked for, however late it comes, makes the log complete; after the replies nothing is pending but what the log had before |
| Outbox.ReplayIsDue | apps/api/src/modules/session/channel.ts:60-80 | wherever the invariant holds the server asks for no replay from beyond the end of its log |
| Transport.WhatEachStepSends | apps/web/lib/session-client.ts:286-351 | in every run: while the transport is open each event is sent as it is enqueued, opening it sends exactly what is pending and a replay request exactly what is pending from there on, oldest first, and while it is closed nothing is sent |
| Transport.ConnectionFollowsSteps | apps/web/lib/session-client.ts:108-140 | in every run the client counts as connected exactly if the transport opened and has not closed since |
| Transport.EveryDeliveryIsAnswered | apps/api/src/modules/session/channel.ts:60-147 | in every run each event that reaches a live server is answered at once: an append, a repeated acknowledgement, a conflict or a replay request, each exactly when it is due; an ended server takes and says nothing |
| Transport.NothingAfterTheEnd | apps/api/src/modules/session/channel.ts:60-147 | in every run the log of a session that has ended never changes again and nothing is answered |
| Transport.WatermarkIsTheEndOfTheLog | apps/api/src/modules/session/channel.ts:60-184 | in every run the cached watermark is the end of the log, known from the first event after it was dropped on |
| Waiting.PendingIsUnacknowledged | apps/web/lib/session-client.ts:286-345 | in every run the outbox holds exactly the events that were enqueued and whose number was not acknowledged |
| Waiting.CursorsAreHighest | apps/web/lib/session-client.ts:323-345 | in every run the cursors are the highest numbers acknowledged so far |
| Waiting.EveryWaitIsAccountedFor | apps/web/lib/session-client.ts:202-221 | in every run each wait is resolved once or still waiting, under the number of the last event enqueued when it began, unless it gave up |
| Waiting.NoWaiterIsOverdue | apps/web/lib/session-client.ts:371-378 | in every run nobody waits for something that is no longer pending |
| Waiting.WaitResolvesAtOnceExactly | apps/web/lib/session-client.ts:202-221 | in every run a wait ships all edits and resolves at once if and only if nothing is pending then, or an acknowledgement of that event or a later one has come |
| Waiting.EachEditIsShippedOnce | apps/web/lib/session-client.ts:176-230 | in every run a flush, a wait and a run request ship each pending edit exactly once and leave none, under one new revision if there was code; the run request follows and names the revision |
| Waiting.LastNotesAreKept | apps/web/lib/session-client.ts:169-196 | in every run the last notes written are pending or the last ones shipped |
| Outbox.InOrderIsAcceptedWhole | apps/api/src/modules/session/channel.ts:60-147 | a list that skips nothing the server lacks is accepted to its end, and each event of it is acknowledged in turn |
| Outbox.AcksDrain | apps/web/lib/session-client.ts:323-345 | handling a list of acknowledgements leaves exactly the other events in the outbox |
| RunAttribution.Runtime.constructor | apps/api/src/modules/session/resume.ts:34-76 | replaying a log yields its folded revision and code |
| RunAttribution.Runtime.Ingest | apps/api/src/modules/orchestrator/runtime.ts:666-677 | a delta older than the latest is ignored, any other replaces revision and text; the revision never falls |
| RunAttribution.Runtime.CodeAtRevision | apps/api/src/modules/orchestrator/runtime.ts:404-407 | the latest text if asked for the latest revision, nothing otherwise |
| RunAttribution.FoldIsNewest | apps/api/src/modules/orchestrator/runtime.ts:666-677 | whatever the order of arrival, the fold ends with the last of the deltas with the highest revision |
| RunAttribution.ReplayNeverRewinds | apps/api/src/modules/orchestrator/runtime.ts:668-670 | ingesting again any delta ingested before changes nothing |
| RunAttribution.AcceptedLogIsWellRevised | apps/web/lib/session-client.ts:176-230 | in every run the n-th accepted delta has revision n and each accepted run request names the delta before it |
| RunAttribution.RunFindsItsCode | apps/api/src/modules/session/runs.ts:88-119 | when an accepted run request is reached the lookup succeeds and returns the text of the delta with its revision |
| RunAttribution.RunsFindTheirCode | apps/api/src/modules/orchestrator/runtime.ts:404-407 | in any log numbered like that, each run request finds the text of the delta with its revision |
| RunAttribution.RunExecutesWhatWasWritten | apps/web/lib/session-client.ts:163-230 | end to end, for a page that resumed with the server's numbers: whatever the connection did, an accepted run executes the last text the client had been told when the run was requested |
| RunAttribution.RunExecutesTheEditor | apps/web/app/interview/[sessionId]/page.tsx:48-306 | for a page that resumed with the server's numbers, an accepted run executes what the editor showed when it was requested if and only if that was not a non-empty text from before the client was created, starter or early edit |
| RunAttribution.UntouchedStarterIsNotExecuted | apps/web/app/interview/[sessionId]/page.tsx:48-152 | for every non-empty text the editor shows when the client is created there is a run of a new session that executes the empty text instead |
| Vad.Detector.PushDb | apps/web/lib/vad.ts:234-254 | one frame: calibration, hysteresis, floor adaptation while silent, and the event it raises |
| Vad.Detector.WhileSilent | apps/web/lib/vad.ts:256-276 | speech starts once a voiced run is long enough, backdated to its start |
| Vad.Detector.WhileSpeaking | apps/web/lib/vad.ts:278-303 | speech ends once a quiet run is long enough, backdated to its start |
| Vad.Detector.ForceSilence | apps/web/lib/vad.ts:317-329 | a reset ends open speech now and forgets the runs going on |
| Vad.EventsAreBackdated | apps/web/lib/vad.ts:256-303 | over frames in time order, each event carries the time of the first frame of an unbroken voiced or quiet run and is raised by the first frame that makes it long enough; none inside calibration |
| Vad.CompletedRunsAreReported | apps/web/lib/vad.ts:256-303 | conversely every run that becomes long enough raises its event there and then |
| Vad.EventsAreSpaced | apps/web/lib/vad.ts:211-329 | starts and ends alternate, an end is at least the minimum speech after its start, and a start at least the hangover after an end that no reset forced |
| Vad.FloorStaysInRange | apps/web/lib/vad.ts:238-252 | with rates in [0, 1] the noise floor stays within its first value and the levels heard |
| Vad.FloorIsFrozenWhileSpeaking | apps/web/lib/vad.ts:250-252 | the noise floor does not move while speech is open |
| Vad.FloorCoversItsShare | apps/web/lib/vad.ts:234-254 | each frame moves the floor by its share of the distance to the level heard: the calibration's share at first, the adaptation's if it is quiet while nobody speaks, none otherwise |
| Vad.FloorConverges | apps/web/lib/vad.ts:234-254 | over frames at one level and rate the distance to that level shrinks geometrically |
| Vad.CalibratesExactlyAtFirst | apps/web/lib/vad.ts:234-243 | a frame calibrates exactly if it comes less than the calibration time after the first frame of the run |
| Vad.CalibrationEndsOnce | apps/web/lib/vad.ts:211-213 | once past calibration, always past it |
| RealtimeVoice.Voice.OnFrame | apps/web/lib/realtime-voice.ts:291-306 | one captured frame: buffered while no activity is open, heard by the detector, judged as an interruption, and sent inside an activity |
| RealtimeVoice.Voice.BufferPreSpeech | apps/web/lib/realtime-voice.ts:316-325 | the pre-roll gains the end of the frame and loses its oldest frames down to the limit |
| RealtimeVoice.Voice.HandleVadEvent | apps/web/lib/realtime-voice.ts:429-460 | a start opens an activity, or is held back while an answer is being generated; an end closes or drops it |
| RealtimeVoice.Voice.OpenInputActivity | apps/web/lib/realtime-voice.ts:462-468 | an opening is followed by the held frames |
| RealtimeVoice.Voice.CloseInputActivity | apps/web/lib/realtime-voice.ts:470-478 | a held-back boundary is dropped, an open one is closed |
| RealtimeVoice.Voice.ResolveProvisionalBarge | apps/web/lib/realtime-voice.ts:480-490 | a quiet frame restarts the clock; a loud one confirms after 400 ms |
| RealtimeVoice.Voice.Confirm | apps/web/lib/realtime-voice.ts:492-507 | a confirmed interruption ends the request and opens the boundary that was held back |
| RealtimeVoice.Voice.MuteMicrophone | apps/web/lib/realtime-voice.ts:270-283 | muting ends an open turn and drops what is undecided |
| RealtimeVoice.Voice.RequestModelSpeech | apps/web/lib/realtime-voice.ts:347-367 | a request replaces the one before and is refused without a ready, working connection |
| RealtimeVoice.Voice.Do | apps/web/lib/realtime-voice.ts:347-393 | the calls of the shell: requests, cancellations and playback notes |
| RealtimeVoice.Voice.InterviewerChanged | apps/web/lib/realtime-voice.ts:410-418 | with the interviewer quiet and nothing being generated, a held-back boundary is opened |
| RealtimeVoice.Voice.SetupCompleted | apps/web/lib/realtime-voice.ts:612-623 | speech that began during the handshake gets its boundary and its held audio |
| RealtimeVoice.Voice.TransportClosed | apps/web/lib/realtime-voice.ts:225-235 | a closed socket ends the request and everything held or undecided |
| RealtimeVoice.Voice.HangUp | apps/web/lib/realtime-voice.ts:240-261 | disconnecting closes an open turn before the socket |
| RealtimeVoice.Voice.HandleContent | apps/web/lib/realtime-voice.ts:654-692 | audio, interruption, stop words and turn completion of one message, in that order, with the shell's calls in between; what each part brings about is `Interruptions.MessagesTakeEffect` and `Interruptions.StopWordConfirms` |
| RealtimeVoice.Voice.ToolRelayEnded | apps/web/lib/realtime-voice.ts:582-594 | an answer goes out only under the epoch it was asked in |
| BargeIn.WireIsBracketed | apps/web/lib/realtime-voice.ts:523-528 | in every run an activity starts only outside an activity, and ends, and audio is sent, only inside one |
| BargeIn.OrderlyIsBracketed | apps/web/lib/realtime-voice.ts:523-528 | the step-by-step discipline of the wire means bracketing as a whole |
| BargeIn.StartsLeaveGenerationAlone | apps/web/lib/realtime-voice.ts:177-192 | in every run an activity starts only when every answer asked for before was generated with audio or its request ended: cancelled, interrupted, lost, or overruled by a confirmed interruption |
| BargeIn.OrderlyLeavesGenerationAlone | apps/web/lib/realtime-voice.ts:443-455 | the step-by-step discipline of the wire means that no start falls into an outstanding generation |
| BargeIn.ConfirmationsAreEarned | apps/web/lib/realtime-voice.ts:480-507 | in every run a frame confirms an interruption only after at least 400 ms in which every frame was loud enough, and a message only with a stop word |
| BargeIn.QuietInterviewerYieldsTheFloor | apps/web/lib/realtime-voice.ts:405-418 | in every run, after a shell call that leaves the interviewer quiet and nothing generating, the provider has an activity open exactly while the candidate is speaking |
| BargeIn.CompletedTurnYieldsTheFloor | apps/web/lib/realtime-voice.ts:654-692 | the same after a provider message that completes its turn, whatever else it carries and whatever the shell does in its callbacks |
| BargeIn.LateAnswersAreDropped | apps/web/lib/realtime-voice.ts:541-595 | in every run a tool answer is sent exactly if the connection carries data and no request ended since the call |
| BargeIn.InvStep | apps/web/lib/realtime-voice.ts:161-694 | every input keeps the wire orderly, the flags in step with it, and the microphone in step with the detector |
| BargeIn.InvHolds | apps/web/lib/realtime-voice.ts:161-694 | and so every run keeps it |
| Interruptions.StopWordConfirms | apps/web/lib/realtime-voice.ts:666-675 | in every run a message whose transcript has a stop word and finds an interruption undecided confirms it at once, exactly once; a boundary that was held back opens on a live connection with all that was held; after that nothing is undecided or held back, and without further parts or reactions the interviewer is quiet and no answer is outstanding; if nothing is undecided it confirms nothing |
| Interruptions.EarlierPartsLeaveMicrophone | apps/web/lib/realtime-voice.ts:654-669 | in every run the parts of a message before the transcript leave the microphone alone, unless the shell reacts to them |
| Interruptions.FramesTakeEffect | apps/web/lib/realtime-voice.ts:291-507 | in every run, with the microphone on: as much as fits is held; a frame confirms exactly if an interruption is undecided and the voice has been loud for 400 ms, and then the held boundary opens with all that is held and the shell's calls take effect; otherwise a start opens a boundary, or holds it back while an answer is outstanding, an end closes it, and a quiet frame restarts the clock; the frame itself follows inside an activity |
| Interruptions.LoudVoiceConfirms | apps/web/lib/realtime-voice.ts:480-490 | in every run an undecided interruption is confirmed by frames that stay loud, exactly once and exactly at the first one 400 ms after the clock began |
| Interruptions.MessagesTakeEffect | apps/web/lib/realtime-voice.ts:654-692 | in every run a message acts part by part: audio counts exactly while an answer is outstanding, an interruption by the provider exactly while one is outstanding and no cached speech plays, a stop word exactly while an interruption is undecided, the end of a turn always; each sets who is heard to speak, and the shell's calls of exactly those parts take effect in order |
| Interruptions.CallbacksAreCalls | apps/web/lib/realtime-voice.ts:654-675 | calls made in a callback act like the same calls made right after it, one by one |
| Interruptions.CallsTakeEffect | apps/web/lib/realtime-voice.ts:347-405 | in every run a request is sent and cancels the one before exactly on a live connection, a cancellation always counts, and playback notes set who is heard to speak |
| Interruptions.QuietOpensTheHeldBoundary | apps/web/lib/realtime-voice.ts:405-418 | in every run a call that leaves the interviewer quiet and nothing outstanding opens the boundary that was held back with all that was held; any other leaves the microphone alone |
| Interruptions.RequestsAreNamed | apps/web/lib/realtime-voice.ts:347-405 | in every run the request names the utterance asked for last, until that request ends |
| Interruptions.LimitIsCeiling | apps/web/lib/realtime-voice.ts:154-158 | the limits on held audio are 1.5 s and 160 ms of samples, rounded up |
| Microphone.MutedAsSet | apps/web/lib/realtime-voice.ts:270-283 | in every run the microphone is muted exactly if it was set so last |
| Microphone.MutingEndsTheTurn | apps/web/lib/realtime-voice.ts:270-292 | in every run muting ends an open turn on the wire and leaves nothing held, held back or undecided; muted frames are dropped, and turning the microphone on changes nothing else |
| Microphone.DetectorHearsWhatIsCaptured | apps/web/lib/realtime-voice.ts:240-306 | in every run the detector stands where exactly the frames captured with the microphone on, and a reset at each muting and at the end, leave it |
| Microphone.HandshakeSpeechIsSent | apps/web/lib/realtime-voice.ts:612-623 | in every run speech that began during the handshake gets its boundary and then all that is held |
| Microphone.ConnectionsEndCleanly | apps/web/lib/realtime-voice.ts:225-261 | in every run both ways to end lose the request and what is held; hanging up ends an open turn first, and a closed socket leaves the interviewer heard exactly as long as playback goes on |
| Microphone.ConnectionFollows | apps/web/lib/realtime-voice.ts:212-261 | in every run the connection stands where the transport's reports and the end of the setup left it |
| Microphone.NothingIsSentAfterTheEnd | apps/web/lib/realtime-voice.ts:523-528 | in every run nothing is sent once the connection has failed or closed |
| Microphone.NothingIsSentBeforeTheOpening | apps/web/lib/realtime-voice.ts:523-528 | in every run nothing is sent before the connection opens |
| PreRoll.HeldAudioIsTheLatest | apps/web/lib/realtime-voice.ts:294-332 | in every run the held audio is the very end of what was captured, within 160 ms or 1.5 s, and empty while an activity is open |
| PreRoll.TrimKeepsAllThatFits | apps/web/lib/realtime-voice.ts:322-325 | trimming keeps as many of the latest frames as fit, and at least one |
| PreRoll.OpeningSendsTheLatest | apps/web/lib/realtime-voice.ts:462-468 | an activity opens with the last samples captured, all that were held |
| SentOnce.SentTwiceExactlyWhenConfirming | apps/web/lib/realtime-voice.ts:291-325 | in every run a captured frame reaches the provider at most once, except twice exactly if it confirmed, on a working connection with the microphone on, an interruption that was held back |
| SentOnce.ConfirmingFrameIsSentTwice | apps/web/lib/realtime-voice.ts:301-305 | a run from a new connection in which that happens |
| SentOnce.OnlyHeldFramesFollow | apps/web/lib/realtime-voice.ts:462-468 | after it was pushed a frame is sent only by leaving the buffer, so its copies sent and held together never grow |
| SentOnce.TrackedHolds | apps/web/lib/realtime-voice.ts:291-325 | in every run a frame that is held is held once and not sent yet, and one not captured yet is neither |
| Playback.PlaybackScheduler.EnqueueAt | apps/web/lib/playback.ts:127-142 | a buffer starts at the cursor while that is ahead of the clock, else at the lead after now, and moves the cursor to its end |
| Playback.PlaybackScheduler.ReleaseSource | apps/web/lib/playback.ts:151-160 | a finished buffer leaves the active set; the drain fires if it was the last one |
| Playback.PlaybackScheduler.StopAll | apps/web/lib/playback.ts:186-202 | stopping silences every active buffer, clears the cursor and does not drain |
| Playback.PlaybackScheduler.QueuedSeconds | apps/web/lib/playback.ts:104-107 | the time until the cursor, never negative |
| Playback.NeverOverlapsAndStaysGapless | apps/web/lib/playback.ts:127-142 | over every run no two audible intervals overlap, and a buffer queued before the cursor passes starts exactly where the last one ends |
| Playback.StartsAtTheEndOrAfterTheLead | apps/web/lib/playback.ts:109-142 | over every run a chunk starts where the last buffer ends while anything can still be heard, and otherwise the lead after now, the short one if the output is running; it lasts as long as its samples |
| Playback.CursorExactlyWhileActive | apps/web/lib/playback.ts:127-202 | over every run there is a cursor exactly while a buffer is outstanding |
| Playback.DuckingFollowsTheOperations | apps/web/lib/playback.ts:162-184 | over every run playback is ducked exactly if it was ducked last and neither restored nor stopped since |
| Playback.InvHolds | apps/web/lib/playback.ts:127-202 | every run keeps: audible intervals apart, the active set the buffers not over, the cursor the end of the last one |
| Playback.QueuedIsTimeToEnd | apps/web/lib/playback.ts:104-107 | over every run the queue depth is the time until the last scheduled buffer ends, and nothing is heard after that |
| Playback.ChunksInTimeAreGapless | apps/web/lib/playback.ts:127-160 | over any stretch of a run without a cancellation, releases and ducking included, chunks that each arrive while audio is queued make one gapless burst whose length, from its start to the cursor, is the sum of their durations |
| Playback.BurstAddsUp | apps/web/lib/playback.ts:127-142 | a gapless stretch is as long as its buffers together |
| Playback.DrainsExactlyAtNaturalEnds | apps/web/lib/playback.ts:144-160 | over every run the drain fires exactly when a release leaves no buffer outstanding, never through a stop |
| Playback.DrainsInSilence | apps/web/lib/playback.ts:144-160 | over every run, when the drain fires every buffer scheduled has gone silent and the last one played to its end uncut |
| Playback.OneDrainPerBurst | apps/web/lib/playback.ts:144-160 | between two drains something new was scheduled; all of it starts after the first and is silent by the second |
| Pcm16.ToPcm16 | apps/web/lib/voice-session.ts:1493-1512 | the samples and the odd byte of the carried byte followed by the chunk, read as one stream |
| Pcm16.DecodeChunks | apps/web/lib/voice-session.ts:1028-1045 | however a stream is cut into chunks, threading the carry yields the samples of the undivided stream |
| Pcm16.CarryIsExact | apps/web/lib/voice-session.ts:1493-1512 | one more chunk extends the decoded samples by exactly its part of the stream |
| Pcm16.DecodeSplits | apps/web/lib/voice-session.ts:1493-1512 | a stream cut on a sample boundary decodes to its two halves |
| UtteranceLifecycle.Lifecycle.Apply | apps/web/lib/utterance-lifecycle.ts:158-209 | one signal: what it changes, when it ends the utterance, and with which report |
| UtteranceLifecycle.Lifecycle.End | apps/web/lib/utterance-lifecycle.ts:211-234 | ending sets the outcome and hands out the report |
| UtteranceLifecycle.Lifecycle.SwitchSource | apps/web/lib/utterance-lifecycle.ts:148-152 | the source changes only before any audio and before the end |
| UtteranceLifecycle.ReportedExactlyOnce | apps/web/lib/utterance-lifecycle.ts:154-234 | over any signals exactly one report is handed out, when the utterance ends, and it is the one kept |
| UtteranceLifecycle.EndIsFinal | apps/web/lib/utterance-lifecycle.ts:154-162 | after the end every signal is ignored |
| UtteranceLifecycle.NothingPlaysAfterTheEnd | apps/web/lib/utterance-lifecycle.ts:211-234 | over any signals an utterance that is over does not count as playing |
| UtteranceLifecycle.CompletesExactlyOnDelivery | apps/web/lib/utterance-lifecycle.ts:158-209 | an open utterance completes on exactly the signal after which the source is complete, audio was received and playback has drained |
| UtteranceLifecycle.CompletedMeansDelivered | apps/web/lib/utterance-lifecycle.ts:158-209 | an utterance that ended COMPLETED had been delivered by then |
| UtteranceLifecycle.OpenUtteranceTracks | apps/web/lib/utterance-lifecycle.ts:98-146 | while open, its fields are what the signals say |
| UtteranceLifecycle.OpenUtteranceProgresses | apps/web/lib/utterance-lifecycle.ts:98-209 | while open, it is in the phase its signals have brought it to and has counted each underrun |
| UtteranceLifecycle.ReportsWhatHappened | apps/web/lib/utterance-lifecycle.ts:154-234 | an open utterance ends on exactly the signals that end it, and its report says what they say: which ending, why, how much was received and played, how long it took |
| CachedDelivery.CachedPlayer.Begin | apps/web/lib/voice-session.ts:923-961 | a head that can be played starts playing; a tail is awaited, or the source is complete if the declared total matches |
| CachedDelivery.CachedPlayer.OnChunk | apps/web/lib/voice-session.ts:1028-1045 | a chunk is decoded behind the carried byte and scheduled |
| CachedDelivery.CachedPlayer.OnTailDone | apps/web/lib/voice-session.ts:1045-1060 | the source is complete only if the tail has the declared length and no odd byte is left; otherwise it fails after what is queued has played |
| CachedDelivery.CachedPlayer.OnTailFailed | apps/web/lib/voice-session.ts:989-1061 | a broken tail fails after what is queued has played |
| CachedDelivery.CachedPlayer.OnBufferEnded | apps/web/lib/voice-session.ts:644-654 | the last buffer to end signals the pending failure, or the drain; that every failure is reported is `CachedEndings.FailureIsReported` |
| CachedDelivery.CompletedWasDelivered | apps/web/lib/voice-session.ts:923-1061 | in every run, an utterance that ends COMPLETED had a whole source of the length declared by the authorization or else by the response header that arrived; the end of each buffer scheduled was reported; these are exactly the samples of head and tail as one stream; and the report says they were received and played |
| CachedDelivery.CompletedMeansWhole | apps/web/lib/voice-session.ts:923-1061 | wherever the books are kept, COMPLETED means a source whole by the total that arrived, each buffer ended, as one stream, and so reported |
| CachedDelivery.OnlyTheDeclaredLengthPasses | apps/web/lib/voice-session.ts:1045-1060 | in every run a tail that has been read makes the source complete if and only if it ends on a sample boundary and, with the head, has the length declared by the authorization or else by the response header |
| CachedDelivery.InvHolds | apps/web/lib/voice-session.ts:923-1061 | every run keeps the books: what was scheduled under which handles, what has ended, the total that was declared, and what the lifecycle knows |
| CachedDelivery.WholeAndDrainedIsOver | apps/web/lib/voice-session.ts:644-654 | in every run a complete source with nothing left to play has ended |
| CachedDelivery.NothingAfterTheEnd | apps/web/lib/voice-session.ts:635-641 | after the end no input changes the outcome or schedules anything |
| CachedEndings.NothingHangs | apps/web/lib/voice-session.ts:635-654 | in every run, with nothing playing and no stream open, the utterance is over |
| CachedEndings.FailureIsReported | apps/web/lib/voice-session.ts:644-654 | in every run a tail that breaks off or has not the declared length makes the utterance fail with one report of exactly that reason, as soon as nothing is left to play, unless something from outside ends it first; until then the failure is pending |
| CachedEndings.HeadFollowsItsTotal | apps/web/lib/voice-session.ts:923-961 | in every run a head that is all there is fails after it has played if it has not the declared length, and else completes the source |
| CachedEndings.PlaysExactlyWholeHeads | apps/web/lib/voice-session.ts:923-950 | exactly a head of whole samples with a rate can be played, and then it is playing at once |
| CachedEndings.OutsideEndsAtOnce | apps/web/lib/voice-session.ts:635-641 | in every run an interruption, a cancellation or a failure from outside ends an open utterance at once with its own outcome and reason, and silences it |
| CachedEndings.EachChunkIsOneBuffer | apps/web/lib/voice-session.ts:1028-1045 | in every run a chunk that completes a sample becomes exactly one buffer, which is then waited for; any other chunk or input schedules nothing |
| CachedEndings.EverythingThatArrivesIsPlayed | apps/web/lib/voice-session.ts:1028-1045 | in every run what was scheduled are the samples of the head and of every byte that arrived, as one stream |
| TurnCompletion.InverseIsExact | apps/api/src/modules/orchestrator/turn-completion.ts:182-308 | for thresholds in (0.35, 1] the ceiling reaches the threshold exactly from the required silence on, if and only if the window is not empty |
| TurnCompletion.InverseOnWindow | apps/api/src/modules/orchestrator/turn-completion.ts:293-308 | on a non-empty window the two agree to the point, inside the window |
| TurnCompletion.CeilingIsMonotone | apps/api/src/modules/orchestrator/turn-completion.ts:182-274 | for ordered policies the ceiling rises with the silence and with the pull of prosody |
| TurnCompletion.WindowFollowsPull | apps/api/src/modules/orchestrator/turn-completion.ts:223-264 | more evidence that the floor was yielded never opens the window later |
| TurnCompletion.CeilingRange | apps/api/src/modules/orchestrator/turn-completion.ts:182-202 | the ceiling stays within 0.35 and 1 |
| TurnCompletion.ProsodyPull | apps/api/src/modules/orchestrator/turn-completion.ts:266-274 | the pull lies in [-1, 1] whatever the estimator reports, non-numbers included; which way and how far it points is stated by the next rows |
| TurnCompletion.LikelierIsFaster | apps/api/src/modules/orchestrator/turn-completion.ts:223-308 | for ordered policies and equal confidence, a higher probability never lowers the ceiling and never lengthens the required silence |
| TurnCompletion.HalfIsNeutral | apps/api/src/modules/orchestrator/turn-completion.ts:223-308 | from one half on a verdict never asks for more silence, nor permits less, than no verdict; up to one half never for less, nor more |
| TurnCompletion.ConfidenceAmplifies | apps/api/src/modules/orchestrator/turn-completion.ts:223-308 | more confidence moves ceiling and required silence further the way the probability points |
| TurnCompletion.RequiredIsBlend | apps/api/src/modules/orchestrator/turn-completion.ts:223-308 | in every mode the required silence is the mean of the plain wait and the wait of a certain verdict the same way, weighted by confidence times twice the distance from one half |
| TurnCompletion.CertaintyAttains | apps/api/src/modules/orchestrator/turn-completion.ts:223-308 | in every mode certainty attains the confident wait or the patient one, as the verdict goes |
| TurnCompletion.CertaintyGivesThePair | apps/api/src/modules/orchestrator/turn-completion.ts:223-264 | in every mode probability 1 with confidence 1 gives exactly the confident pair, probability 0 the patient pair, and no prosody the plain one |
| TurnCompletion.OnlyRequestsSkipTheWait | apps/api/src/modules/orchestrator/turn-completion.ts:310-387 | a question, a request for clarification and one for a hint ask for no silence, and only these; for any other turn the estimate is capped by the ceiling |
| TurnCompletion.EstimateIsTheLeastCap | apps/api/src/modules/orchestrator/turn-completion.ts:310-387 | the estimate is the least of what the words say and every cap that applies |
| TurnCompletion.ClearingTakesSilence | apps/api/src/modules/orchestrator/turn-completion.ts:310-387 | a turn with known timing that hands nothing back clears the threshold exactly if its words do, it is not mid-thought, and the required silence has passed |
| TurnCompletion.ClockAloneHolds | apps/api/src/modules/orchestrator/runtime.ts:1096-1128 | a turn silenced by the clock alone is held, for exactly 25 ms past the crossing point |
| TurnCompletion.NeverHeldPastTheCrossing | apps/api/src/modules/orchestrator/runtime.ts:1096-1128 | exactly a turn below the threshold whose words are finished is held, until 25 ms past the crossing point and never again once that has passed |
| TurnCompletion.HeldTurnClears | apps/api/src/modules/orchestrator/runtime.ts:1138-1178 | judged again after its wait, a held turn clears the threshold if and only if it does not end mid-thought |
| TurnCompletion.ModesWait | apps/api/src/modules/orchestrator/policy.ts:15-134 | in all three modes and for every prosody the window is non-empty and the required silence is at least the mode's floor, which full confidence attains |
| TurnCompletion.MockFloor | apps/api/src/modules/orchestrator/policy.ts:56-93 | MOCK never accepts less than 300 ms plus 9/13 of the confident span, and exactly 2400 ms without prosody |
| Gate.NoEarlyReply | apps/api/src/modules/orchestrator/gate.ts:77-141 | in every mode a reply to a non-question turn with known timing comes only after the required silence, with the words finished and the candidate quiet, unless the opening is owed |
| Gate.EarlyTurnsHearOnlyTheOpening | apps/api/src/modules/orchestrator/gate.ts:77-141 | before that silence the gate speaks exactly when the brief was never delivered and the floor is free |
| Gate.HeldTurnIsAnswered | apps/api/src/modules/orchestrator/runtime.ts:1168-1178 | a held turn judged again on time gets the later rules' answer exactly if it does not end mid-thought and the stage allows it |
| ObserverLoop.Observer.OnCodeDelta | apps/api/src/modules/orchestrator/runtime.ts:666-677 | a delta that is not older replaces revision and code and schedules a pass; that these are the newest that arrived is `ObserverLoop.LatestIsNewest` |
| ObserverLoop.Observer.OnRunCompleted | apps/api/src/modules/orchestrator/runtime.ts:687-694 | a finished run is pending until a pass takes it |
| ObserverLoop.Observer.Schedule | apps/api/src/modules/orchestrator/runtime.ts:1631-1646 | a pass starts unless one is in flight, which will see the dirty flag |
| ObserverLoop.Observer.TakePending | apps/api/src/modules/orchestrator/runtime.ts:1648-1668 | a pass takes the latest code and everything pending and clears the flag before its first await |
| ObserverLoop.Observer.ContinueFrame | apps/api/src/modules/orchestrator/runtime.ts:1668-1776 | what a pass does after each await, successful or not |
| ObserverLoop.IdleMeansObserved | apps/api/src/modules/orchestrator/runtime.ts:1631-1719 | over every interleaving at most one pass is in flight, an idle loop has nothing pending, and unless the last snapshot failed it has observed the text and revision of the newest delta that arrived, if that text is not empty |
| ObserverLoop.LatestIsNewest | apps/api/src/modules/orchestrator/runtime.ts:666-677 | over every interleaving the latest revision and code are those of the last delta that arrived and that no earlier one exceeds |
| ObserverLoop.ObservationsArrived | apps/api/src/modules/orchestrator/runtime.ts:1648-1719 | over every interleaving whatever a pass observes is code that arrived, under its own revision |
| ObserverLoop.FlagIsLastSnapshot | apps/api/src/modules/orchestrator/runtime.ts:1668-1776 | over every interleaving the failure of a snapshot is remembered exactly until one succeeds |
| ObserverLoop.PassesBeginExactly | apps/api/src/modules/orchestrator/runtime.ts:1631-1776 | over every interleaving a pass begins exactly when something arrives while no loop runs, or when something has arrived since the last pass began and the loop goes on: its appends were written or it is entered anew |
| ObserverLoop.EveryResumptionAdvances | apps/api/src/modules/orchestrator/runtime.ts:1668-1776 | over every interleaving each await of the loop that ends, well or not, leaves fewer to come, so that without arrivals the loop is idle after at most six |
| ObserverLoop.InvHolds | apps/api/src/modules/orchestrator/runtime.ts:1631-1719 | every interleaving keeps at most one pass, no lost wake-up, and revisions in order |
| ObserverLoop.RevisionsNeverGoBack | apps/api/src/modules/orchestrator/runtime.ts:1648-1719 | over every interleaving the observed revision never decreases and never exceeds the latest |
| ObserverLoop.EverythingIsAccounted | apps/api/src/modules/orchestrator/runtime.ts:1648-1719 | over every interleaving the runs dealt with, taken and pending are together exactly those that arrived, in order, and so are the transcripts; the record was derived from exactly those that were not dropped |
| FailedSnapshots.EverythingIsFoldedOnce | apps/api/src/modules/orchestrator/runtime.ts:1648-1719 | when no snapshot has failed, the record of an idle loop was derived from every run and transcript exactly once, in order of arrival, and from the text and revision of the newest delta that arrived, if that text is not empty |
| FailedSnapshots.DroppedExactlyWithAFailedSnapshot | apps/api/src/modules/orchestrator/runtime.ts:1668-1719 | over every interleaving a run or transcript was dropped if and only if the snapshot of the pass that took it failed |
| FailedSnapshots.PassDisposesOfWhatItTook | apps/api/src/modules/orchestrator/runtime.ts:1648-1719 | over every interleaving a pass in flight keeps all it took, or has disposed of all of it in order, the one way or the other, for good |
| FailedSnapshots.FailedSnapshotDrops | apps/api/src/modules/orchestrator/runtime.ts:1668-1719 | for every run result and transcript an interleaving in which a failed snapshot loses both |
| FailedSnapshots.DisposalsHold | apps/api/src/modules/orchestrator/runtime.ts:1668-1719 | every interleaving keeps: what was disposed of belongs to passes that are over, dropped exactly with failed snapshots |
| ObserverLoop.FoldAppends | apps/api/src/modules/orchestrator/runtime.ts:1690-1719 | a fold adds its evidence to the record it reads and keeps the rest of that record |
| ObserverLoop.Observer.FoldRuns | apps/api/src/modules/orchestrator/runtime.ts:1690-1719 | one fold per run, the snapshot only with the first, one fold of its own without runs |
| ObserverLoop.Observer.FoldTranscripts | apps/api/src/modules/orchestrator/runtime.ts:1690-1719 | one fold per transcript, each on the record as the last one left it |
| ObserverLoop.NothingRecordedIsOverwritten | apps/api/src/modules/orchestrator/runtime.ts:1690-1719 | although every fold replaces the whole candidate state, over every interleaving it holds every hint given and every probe asked, in order |
| Opening.InterviewRuntime.OnAsk | apps/api/src/modules/orchestrator/runtime.ts:1270-1313 | readiness or a turn asks the gate with the state as it is then |
| Opening.InterviewRuntime.Continue | apps/api/src/modules/orchestrator/runtime.ts:1413-1553 | what a suspended call does after its await, successful or not |
| Opening.InterviewRuntime.ContinueWithoutWords | apps/api/src/modules/orchestrator/runtime.ts:1059-1065 | a decision without authored words clears the authorization and starts nothing |
| Opening.InterviewRuntime.StartTelling | apps/api/src/modules/orchestrator/runtime.ts:1413-1480 | a pending redelivery is spent on the opening script; any other telling counts as a delivery |
| Opening.InterviewRuntime.OnSpeechFinished | apps/api/src/modules/orchestrator/runtime.ts:1354-1397 | a finished utterance frees the floor and settles whether the opening is owed again |
| Opening.InterviewRuntime.OnReady | apps/api/src/modules/orchestrator/runtime.ts:1399-1411 | a page that no longer plays the authorized utterance reports it as lost |
| Opening.AtMostThreeOpenings | apps/api/src/modules/orchestrator/runtime.ts:1354-1404 | over every interleaving, redeliveries and a pending one together never exceed 2, so at most three utterances are marked as the opening |
| Opening.HeardIsFinal | apps/api/src/modules/orchestrator/runtime.ts:1354-1397 | once an opening is reported heard, none follows, whatever was under way |
| Opening.HeardStep | apps/api/src/modules/orchestrator/runtime.ts:1354-1397 | with the opening heard and the invariant kept, no single step marks another utterance as the opening |
| Opening.InvHolds | apps/api/src/modules/orchestrator/runtime.ts:1270-1553 | every interleaving keeps the opening in at most one place: being told, authorized, being settled, or owed |
| Opening.RedeliveriesAreNotDeliveries | apps/api/src/modules/orchestrator/runtime.ts:1413-1480 | each telling counts as a delivery or as a redelivery, never both |
| Opening.OpeningsSpeakTheScript | apps/api/src/modules/orchestrator/runtime.ts:1507-1542 | whatever is marked as the opening speaks the opening script |
| Opening.UnheardOpeningIsOwed | apps/api/src/modules/orchestrator/runtime.ts:1354-1397 | whatever comes between the report that an opening was not heard and its log entry, the opening is then owed if and only if the entry was written and the budget was not used up |
| Opening.StaysOwed | apps/api/src/modules/orchestrator/runtime.ts:1507-1526 | over every run an owed opening stays owed until the next brief is told |
| Opening.OwedOpeningIsToldNext | apps/api/src/modules/orchestrator/runtime.ts:1507-1526 | over every run the next brief told after an opening is owed is its redelivery and no new delivery; it is spoken in the opening's words if and only if its log entry is written, and otherwise is no longer under way or owed |
| Opening.OwedOpeningIsOffered | apps/api/src/modules/orchestrator/gate.ts:95-110 | over every run the next readiness with a clear floor decides to tell what is owed |
| Opening.FirstTellingIsMarkedUnlessOvertaken | apps/api/src/modules/orchestrator/runtime.ts:1507-1542 | however calls interleave, when the log entry of the first telling is written it is marked as the opening if and only if it is the only delivery begun in the run by then |
| Opening.CountIsDeliveries | apps/api/src/modules/orchestrator/runtime.ts:1528-1532 | over every run the delivery count is the number of tellings begun that were no redelivery |
| Tellings.RetellingsRotate | apps/api/src/modules/orchestrator/runtime.ts:1413-1480 | over every run a telling that is no redelivery logs the opening the first time and afterwards the next retelling: the first variant, then each one's successor, the last being followed by the first; the opening again if there are no variants |
| Tellings.EveryVariantComesRound | apps/api/src/modules/orchestrator/runtime.ts:1413-1480 | among any as many retellings in a row as there are variants each variant is told exactly once |
| Tellings.FloorFollowsWhatIsSaid | apps/api/src/modules/orchestrator/runtime.ts:1354-1411 | over every run what is said is authorized and takes the floor and nothing else does; the authorization ends with a report, a loss or a decision without words, and the floor is free after a report, a loss or a barge-in |
| Tellings.HeardExactlyIfReported | apps/api/src/modules/orchestrator/runtime.ts:1354-1397 | over every run the opening counts as heard if and only if a report about it said that audio played, or said nothing on that and the utterance was completed or interrupted, or there was no report to the outcome |
| Tellings.LostOpeningIsOwed | apps/api/src/modules/orchestrator/runtime.ts:1354-1411 | over every run an opening that the page came back without is owed again once that is logged, if and only if the entry was written and the budget was not used up |
| Tellings.ReadinessChangesNothingElse | apps/api/src/modules/orchestrator/runtime.ts:1399-1411 | over every run a page that comes back still speaking, or with nothing authorized, changes nothing |
| Tellings.FinishedTurnsAreAnswered | apps/api/src/modules/orchestrator/gate.ts:77-141 | over every run a finished turn that nobody speaks over gets the brief exactly if one is owed, it asks for one that was told, or the later rules want it, and otherwise what the later rules want, each only if the stage allows it |
| Tellings.OthersHearOnlyWhatIsOwed | apps/api/src/modules/orchestrator/gate.ts:77-141 | over every run readiness, and a turn that is unfinished or spoken over, gets nothing but the brief: the opening, or without a turn what is owed, and only while nobody speaks |
| Tellings.AllowedExactlyInItsStages | packages/contracts/src/interview-state.ts:63-115 | each action is allowed in exactly the stages listed for it |
| Tellings.CandidateSpeaksAsReported | apps/api/src/modules/orchestrator/runtime.ts:696-737 | over every run of the session's queue turns are judged with the candidate speaking exactly if the last speech boundary says so |
| HeldTurns.Runtime.constructor | apps/api/src/modules/orchestrator/runtime.ts:272-276 | nothing waits at first |
| HeldTurns.Runtime.ClearHeldTurn | apps/api/src/modules/orchestrator/runtime.ts:1180-1187 | whatever waits is dropped |
| HeldTurns.Runtime.OnSpeechStarted | apps/api/src/modules/orchestrator/runtime.ts:696-706 | new speech drops what waits |
| HeldTurns.Runtime.OnSpeechStopped | apps/api/src/modules/orchestrator/runtime.ts:708-737 | a turn silenced by ongoing speech waits for its second judgement, unless another one does |
| HeldTurns.Runtime.OnSilentVerdict | apps/api/src/modules/orchestrator/runtime.ts:1019-1030 | a silent verdict makes a turn wait for the end of speech, or for the clock at most twice |
| HeldTurns.Runtime.HoldForSilence | apps/api/src/modules/orchestrator/runtime.ts:1096-1129 | a turn that only the clock silenced is held for its next attempt |
| HeldTurns.Runtime.Reevaluate | apps/api/src/modules/orchestrator/runtime.ts:1168-1178 | a held turn is taken and judged at its attempt; without one nothing happens |
| SilencedTurns.WaitingTurnsFollow | apps/api/src/modules/orchestrator/runtime.ts:696-1187 | over every run of the session's queue: a turn silenced at its first verdict while the candidate speaks waits for the end of speech, one silenced by the clock alone is held for its next attempt up to the second, the end of speech holds the one that waited unless another is held, what makes waiting moot drops both, and nothing else moves either |
| SilencedTurns.TurnSilencedBySpeechIsHeldAtItsEnd | apps/api/src/modules/orchestrator/runtime.ts:708-737 | over every run a turn silenced while the candidate speaks, if left alone, is held for its second verdict when the speech ends |
| Tellings.NothingIsDecidedAfterTheEnd | packages/contracts/src/interview-state.ts:63-115 | over every run of the session's queue, once the session has ended and moved to no other stage, the gate lets nothing be said |
| TurnQueue.StepIsOpeningStep | apps/api/src/modules/session/index.ts:442-470 | every event under the dispatch queue is, to the opening, one of its own interleaved steps or none |
| TurnQueue.OpeningHolds | apps/api/src/modules/session/index.ts:442-470 | so every run under the queue keeps what `Opening` keeps |
| TurnQueue.InvStep | apps/api/src/modules/session/index.ts:442-470 | every event keeps: until the first telling has ended, at most that call is suspended and no turn is held |
| TurnQueue.InvHolds | apps/api/src/modules/session/index.ts:442-470 | and so every run keeps it |
| TurnQueue.FirstTellingIsMarked | apps/api/src/modules/session/index.ts:442-470 | over every run nothing overtakes the first telling: while it is being logged no other call that could speak is suspended, and once logged it is the first thing said and marked as the opening |
| LostOpening.OpeningIsLostExactlyWithItsLogEntry | apps/api/src/modules/orchestrator/runtime.ts:1532-1541 | over every run, once the first telling has ended, no utterance was marked as the opening if and only if its log entry failed, and then none ever is, nor is it owed |
| LostOpening.LostStep | apps/api/src/modules/orchestrator/runtime.ts:1507-1542 | however calls interleave, a lost opening stays lost |
| LostOpening.OpeningCanBeLost | apps/api/src/modules/session/index.ts:461-466 | a run that loses it |
| ForgottenOpening.ForgottenExactlyIfDropped | apps/api/src/modules/orchestrator/runtime.ts:1354-1397 | over every interleaving the opening is neither heard nor under way nor owed, though a brief counts as delivered, if and only if an earlier event dropped it: a failed log entry of its telling, redelivery or report, a used-up budget, or another utterance or wordless decision while it was authorized |
| ForgottenOpening.ForgottenUnderTheQueue | apps/api/src/modules/session/index.ts:442-470 | the same over every run of the session's queue |
| ForgottenOpening.ForgottenStep | apps/api/src/modules/orchestrator/runtime.ts:1413-1553 | one step forgets the opening exactly if it drops it, and a forgotten opening stays forgotten |
| ForgottenOpening.ReportIsLost | apps/api/src/modules/orchestrator/runtime.ts:1354-1397 | a run in which the log entry of the report fails: spoken, not heard, never owed, with budget left |
| ForgottenOpening.RedeliveryIsLost | apps/api/src/modules/orchestrator/runtime.ts:1512-1526 | a run in which the log entry of the redelivery fails |
| ForgottenOpening.AnswerTakesOver | apps/api/src/modules/orchestrator/runtime.ts:1050-1065 | a run in which an answer takes the authorization over before the outcome of the opening is reported |
| Rejudgement.EachVerdictIsGivenOnce | apps/api/src/modules/orchestrator/runtime.ts:938-1030 | over every run a turn is judged at attempts 0, 1 and 2 at most, each once and in this order, whatever timers, speech boundaries and log failures do |
| Rejudgement.PlacesHold | apps/api/src/modules/orchestrator/runtime.ts:811-1178 | over every run a turn is in at most one place: being judged, waiting for the end of speech, held, or being logged as silenced |
| Rejudgement.StaysSpent | apps/api/src/modules/orchestrator/runtime.ts:1096-1178 | over every run nothing is left that could give a verdict twice |
| Rejudgement.OlderTurnWaitsExactlyIfItComesBack | apps/api/src/modules/orchestrator/runtime.ts:811-815 | over every run a turn older than the latest starts to wait at exactly the events at which the timer's silent verdict on it, worth another wait, is logged after the later turn has arrived |
| Rejudgement.SupersededExactlyIfItCameBack | apps/api/src/modules/orchestrator/runtime.ts:811-815 | so wherever an older turn waits it came back at such an event, and nothing has touched it since |
| Rejudgement.OlderTurnComesBack | apps/api/src/modules/orchestrator/runtime.ts:1019-1030 | a run in which that happens |
| Rejudgement.ClockHeldTurnIsAnswered | apps/api/src/modules/orchestrator/runtime.ts:1096-1178 | over every run a turn that by the estimate only the clock silenced is held, and if it is left alone until its wait is over, its second judgement is answered if and only if it does not end mid-thought and the later rules have an answer the stage allows |

## Left out

- HTTP, databases, authentication, configuration, pages and components: plumbing without invariants of this kind.
- Wording and classification: Gemini, regex intents, stop words, mid-thought endings and transcript claims are inputs.
- Gate rules 4 to 10 and the hint budget: they depend on scenario look-ups; their verdict is the input `later`.
- What an observation concludes from code, runs and transcripts: the state keeps which of them it was derived from.
- The promise chain of `dispatch`, timer handles and stage advancement: `TurnQueue` takes the next event as soon as the last one has no part in the opening any more, and lets a timer fire whenever a turn is held, so its runs include all of the code's.
- Turn assembly, speculative classification and the silence clock: what a turn says and whether it is worth holding are inputs of `TurnQueue`; how long it is held is in `TurnCompletion`.
- Crash recovery from checkpoints: it recomputes some counters differently from the live path. `RunAttribution` covers the part about code.
- The outbox starts from a log that earlier pages of the same protocol left; two pages of one session at the same time are not modelled.
- Server sequence numbers: the length of the log stands for them. Events of other actors take no client numbers.
- The debounce of edits, reconnect back-off, watchdog deadlines and waiter timeouts: when they fire is the environment's choice.
- RealtimeVoice.Voice: one object serves one connection with one completed setup, as the voice session uses it; resumption handles, GoAway, errors and setup messages change none of its fields. The fields are grouped into records.
- Prosody riding on detector events, pitch estimation and audio encoding: floating-point signal processing; levels in dB are inputs.
- The model-source path of the voice session, device recovery and room tone: foreign calls.
- `accuracy` takes word lists; splitting text into words is left out.
- Bit-level Float32 and IEEE rounding: real arithmetic stands for it.
