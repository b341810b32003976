# Yuzu Jukebox: a verified model

Yuzu Jukebox plays one shared queue to everybody in a room. This project models the
parts of its server and client that promise exact behaviour, and proves those
promises for every input, every run and every interleaving the model allows. It is
plain Dafny 4.11; `dafny verify dfyconfig.toml` checks all of it.

## What is modelled

**The room.** `RoomModel` is the room's loop as a state machine: one event per action,
timer, source report, batch report or policy change. How the outside turned out (the
clock, whether a save succeeded, what a source delivered) is part of the event, so a
statement about all events covers all failures. `RoomActor` is the same loop as an
object whose methods change its fields step by step, loops included; every method is
proved to do what the model says, and `RoomActor.Actor.Handle` ties the whole loop to
`RoomModel.Step`. On the model are proved:

- `RoomShape`: every event is, apart from changes no restart would notice, at most one
  edit of the pending queue and then at most one advance, and its guards tell which
  beforehand. What follows is proved of those pieces.
- `RoomEvents`: what every event does to each part of the room (reply, policy, radio, the
  batches asked for, what is sent), by its guards.
- `RoomNetwork`: every mutation is one patch that any client can apply to the old queue
  and that gives exactly the new one; every connection is told in the right order.
- `RoomBooks`, `RoomGuarantees`: every accepted entry is in exactly one place; the store
  never lags behind memory nor memory behind the store; a track ends once; a failed
  save changes nothing.
- `RoomRadio`: at most one construction and one fetch run; only the newest source request
  that was not stopped is installed; an advance that waits for a batch waits for one
  that is coming, except on two occasions that are named exactly.
- `RoomClock`: a running timer is due exactly at the end of the playing track and fires
  once; exactly when a playing track is left without one, and what it takes then.
- `RoomTimeline`: every event is at most one command to a player that counts every
  millisecond, and the room's lazy position is that player's.
- `RoomLives`: nothing is lost or comes back across any number of crashes.
- `RoomRuns`, `RoomTheorems`: all of this over whole runs from any start, with a client on
  a network that loses, repeats and reorders at will, and across a crash in the
  middle of any event.

**The queue protocol.** `QueueWire`, `QueueChunking`, `QueuePatch`, `QueueReplica` and
`QueueAgreement` are the messages, the size-bounded splitting, the client's in-place
application of patches, its replica with the gaps it notices, and the agreement between
the two ends.

**The store and the policy.** `QueueStore` is the queue table and its decoding at
start-up; `RoomPolicy` the policy in force.

**The media cache.** `CacheTee` is one download, read by a listener and handed to a drain
at any byte; `CacheFlight` is the table of downloads under any interleaving, and the
eviction loop.

**Helpers that promise exactness.** `Playlist` (stored order and renumbering under a
uniqueness constraint), `RadioSource` (playlist sources and preview pages),
`Idempotency` (retried requests), `AccessCode` (rotating codes), `ProbeLimiter`
(limits with lazy cleanup), `Timeline` (the lazy position against a ticking player),
`ClockSync` (clock estimation).

## Where code and documentation differ

The model follows the code.

- A room can be left waiting for a radio batch that nobody fetches, with nothing
  playing: `refill` notes the pending start before it finds the queue full
  (internal/room/room.go:699-713). `RoomRadio.StepBacked` says exactly when,
  `RoomTheorems.WaitsForNothing` is a run without any failure that gets there, and
  `RoomRadio.UnbackedIsStuck` says what it takes to get out.
- An add to an idle room, and a refill that completes a waiting advance, save twice: a crash
  in between leaves a state that is neither the one before nor the one after
  (internal/room/room.go:1131-1140). `RoomGuarantees.StepCommits` says by the guards which
  events do, `RoomGuarantees.CrashIsBeforeOrAfterUnlessBetween` that there is no other
  such case, and `RoomTheorems.AddToIdleCommitsTwice` shows one.
- The timer of a track fires once, and nobody sets another when the advance it asks for
  cannot be saved or has to wait for a batch (internal/room/room.go:1249-1255): the track
  then stays current and plays on past its end. `RoomClock.StepClocked` says exactly which
  event does that and which ones rescue the track, `RoomTheorems.EndsOnTime` says so of
  whole runs, and `RoomTheorems.PlaysOnPastItsEnd` is a run in which one save fails.
- A pause stops the timer but does not call back an action of it that is already queued
  (internal/room/room.go:1202-1215): the paused track is then ended.
  `RoomClock.PauseKeepsFired` and `RoomTheorems.EndsWhilePaused` state it, and
  `RoomClock.StepResting` that a track paused before its timer fired rests.
- Looping playlists are not cyclic: a batch that goes on at the beginning resets the
  cursor to the beginning (internal/room/radio.go:124-131).
  `RadioSource.LoopingIsCyclicUnlessWrapped` is the exact condition.
- `MovePlaylistItem` is documented to leave ordinals consecutive from one; a move to the
  same place returns before any renumbering (internal/store/store.go:1392-1394), and
  `ReplacePlaylistItems` numbers from zero. `Playlist.PlaylistTable.Move` states both cases.
- A handler that outlives its reservation is not protected: `Idempotency.OneAtATime` and
  `Idempotency.NextProtects` say exactly when a second one may start. The late one's answer
  then goes under the other's body, and its server error frees the key although the other
  one still runs (internal/httpapi/idempotency.go:81-83):
  `Idempotency.AnswerMisfiledExactly`, `Idempotency.ErrorFreesOthers`, and a run in
  `Idempotency.LateHandlerHarms`.
- A client asks for a fresh baseline when a message is an error and it believes that no
  request is under way (internal/client/queue_protocol.go:222-250), and at no other time. A
  request that fails, or an error while one runs, can leave a baseline wanted that nobody
  asks for: `QueueReplica.UnaskedExactly` and `QueueReplica.SecondErrorUnasked`.
- The division that gives a code's window goes toward zero, so before the epoch the
  first code is accepted early: `AccessCode.AcceptedBeforeEpoch`.
- A stored policy that does not parse is announced as replaced by an empty one; the room
  runs with the values as parsed so far, which may mean no cap
  (internal/room/room.go:453-456). `RoomPolicy.Policy` is therefore not required to be valid.
- Rows that cannot be read at start-up count as an empty queue
  (internal/room/room.go:1391-1394); the model starts so as well, and does not then claim
  that the store matches.

- A room whose flagged track is of unknown duration drops it at start-up; if that cannot be
  saved, the row stays and the next start finds it again (internal/room/room.go:954-958).
  `RoomLives` is about rooms whose store is known to match, and `RoomTheorems.RunSettled`
  says when it is.

## Model

| member | source | states |
|---|---|---|
| `QueueChunking.SplitMessages` | internal/room/queue_protocol.go:63-139 | the two nested loops compute the greedy split, and fail where it does |
| `QueueChunking.SplitRoundTrip` | internal/room/queue_protocol.go:61-62 | joined again the parts give the list; numbered from zero; done on the last only; every one was measured within budget |
| `QueueChunking.SplitIsOptimal` | internal/room/queue_protocol.go:80-97 | the greedy loop fails only when no in-order split fits at all, and otherwise none uses fewer envelopes |
| `QueueChunking.SplitFailsOnOneItem` | internal/room/queue_protocol.go:87-89 | a failure names an item that does not fit an envelope of its own |
| `QueueChunking.SnapshotFitsIsHereditary` | internal/room/queue_protocol.go:64-69 | real snapshot envelopes: any stretch of what fits also fits, although "false" is longer than "true" |
| `QueueChunking.PatchFitsIsHereditary` | internal/room/queue_protocol.go:101-112 | the same for patch envelopes |
| `QueueChunking.EnvelopesAreMeasured` | internal/room/queue_protocol.go:14-58 | what is measured is the length of the envelope as it is written out, against 24 KiB |
| `QueueChunking.SnapshotSplitIsOptimal` | internal/room/queue_protocol.go:63-98 | optimality for the envelopes the room sends, under the 24 KiB budget |
| `QueueChunking.PatchSplitIsOptimal` | internal/room/queue_protocol.go:100-139 | the same for patches |
| `QueuePatch.ApplyQueuePatch` | internal/client/queue_protocol.go:254-295 | the loop over a shifted array computes the patch's meaning, and fails exactly when that is undefined |
| `QueuePatch.ApplyInPlace` | internal/client/queue_protocol.go:257-292 | one operation on the array prefix: result and errors of the abstract operation |
| `QueuePatch.ShiftMove` | internal/client/queue_protocol.go:275-286 | shifting between the two places equals taking out and putting back |
| `QueuePatch.ShiftInsert` | internal/client/queue_protocol.go:265-268 | appending a blank and shifting equals insertion |
| `QueuePatch.ShiftRemove` | internal/client/queue_protocol.go:273-274 | shifting and truncating equals removal |
| `QueuePatch.IndexOf` | internal/client/queue_protocol.go:297-307 | the first entry with the id; the empty id is never found |
| `QueuePatch.AddApplies` | internal/client/queue_protocol.go:259-268 | an addition is refused exactly outside the queue or for an id that is there; else the item is at its place and the others as they were |
| `QueuePatch.RemoveApplies` | internal/client/queue_protocol.go:269-274 | a removal is refused exactly for an id that is not there; else the first with it goes |
| `QueuePatch.MoveApplies` | internal/client/queue_protocol.go:275-286 | a move is refused exactly for an id that is not there or a place outside the queue; else the first with it is at that place and the others keep their order |
| `QueuePatch.MalformedRefused` | internal/client/queue_protocol.go:289-291 | a patch with an operation that cannot be read is refused whole |
| `QueuePatch.ApplyConcat` | internal/client/queue_protocol.go:256-294 | patches compose |
| `QueuePatch.ApplyKeepsUnique` | internal/client/queue_protocol.go:262-264 | whatever a client accepts keeps ids distinct |
| `QueuePatch.ApplyWire` | internal/room/room.go:555-565 | what a patch does to the queue, its wire form does to the wire form of the queue |
| `QueueWire.WireHidesCover` | internal/room/room.go:525-534 | clients see every field as it is but a cover, which then tells nothing but the track |
| `QueuePatch.AddOpsAppend` | internal/room/room.go:612-619 | the operations of a batch add append exactly the batch |
| `QueuePatch.RemoveOpsDropPrefix` | internal/room/room.go:621-627 | the operations of an advance drop exactly the prefix |
| `QueuePatch.RemoveOpRemoves` | internal/room/room.go:1161-1165 | the operation of a removal gives the room's own next queue |
| `QueuePatch.MoveOpMoves` | internal/room/room.go:1184-1194 | the operation of a move gives the room's own next queue |
| `QueuePatch.ClearOpClears` | internal/room/room.go:1198-1200 | the operation of a clear empties any queue |
| `QueueReplica.QueueClient.HandleQueueMessage` | internal/client/queue_protocol.go:132-166 | one message: the replica's step, and a resync requested exactly after an error with none running |
| `QueueReplica.QueueClient.AcceptSnapshot` | internal/client/queue_protocol.go:168-189 | a snapshot part is accepted exactly when it continues the assembly; the visible queue changes only with a complete snapshot |
| `QueueReplica.QueueClient.AcceptPatch` | internal/client/queue_protocol.go:191-220 | the same for patches; a failure leaves queue and revision as they were |
| `QueueReplica.QueueClient.MarkResync` | internal/client/queue_protocol.go:222-227 | both assemblies are given up, the visible queue stays |
| `QueueReplica.QueueClient.StartResync` | internal/client/queue_protocol.go:229-237 | at most one resync is outstanding |
| `QueueReplica.QueueClient.FinishResync` | internal/client/queue_protocol.go:245-250 | the end of a request is the client's step: a failed one leaves a baseline wanted |
| `QueueReplica.QueueClient.ResetRoom` | internal/client/queue_protocol.go:124-130 | leaving starts from nothing, and forgets a request under way |
| `QueueReplica.SnapshotCollector.Add` | internal/client/queue_protocol.go:326-342 | the one-shot collector accepts exactly consecutive parts of one revision, and gives list and revision with the last |
| `QueueReplica.HandleAllConcat` | internal/client/queue_protocol.go:132-166 | handling messages composes, and so does staying undisturbed |
| `QueueReplica.SnapshotAccepted` | internal/client/queue_protocol.go:168-189 | exactly when a snapshot part is accepted, and what shows then |
| `QueueReplica.PatchAccepted` | internal/client/queue_protocol.go:191-220 | exactly when a patch part is accepted: it continues, and at the end leads on from the very revision that shows; and what shows then |
| `QueueReplica.ErrorsKeepWhatShows` | internal/client/queue_protocol.go:222-227 | an error gives up what is being collected, is remembered, and leaves what shows |
| `QueueReplica.LastPartDecides` | internal/client/queue_protocol.go:205-220 | with the end of a message the replica shows the revision it leads to, or wants a fresh baseline |
| `QueueReplica.GapsAreNoticed` | internal/client/queue_protocol.go:132-220 | after any messages, lost, repeated or out of order: the replica shows the revision of the last message whose end it got, or wants a fresh baseline |
| `QueueReplica.GapsAreAskedAbout` | internal/client/queue_protocol.go:163-165 | a client that gets the end of a patch whose base it does not show has a resync under way |
| `QueueReplica.UnaskedExactly` | internal/client/queue_protocol.go:222-252 | exactly when a wanted baseline is left without a request: a request that failed or did not bring it has ended, and no message has brought it or been an error since |
| `QueueReplica.AskedUntilFinished` | internal/client/queue_protocol.go:163-165 | over any messages: whatever is wanted has been asked for as long as no request has ended |
| `QueueReplica.CountExactly` | internal/client/queue_protocol.go:124-130 | the client knows how many requests are under way until it leaves the room during one, and exactly until then |
| `QueueReplica.AtMostOneRequest` | internal/client/queue_protocol.go:229-237 | over any steps without leaving, at most one request is under way |
| `QueueReplica.SecondErrorUnasked` | internal/client/queue_protocol.go:245-250 | an error between a baseline and its acknowledgement is not asked about again |
| `QueueAgreement.CollectSplit` | internal/client/queue_protocol.go:168-206 | one more part of a well-cut message, from any assembly: the next prefix, and the whole message with the last part |
| `QueueAgreement.DeliverFaithful` | internal/client/queue_protocol.go:132-220 | delivering any part ever sent, in any state, keeps the replica equal to the queue at its revision |
| `QueueAgreement.GrowthKeepsFaithful` | internal/room/room.go:585-601 | later commits do not disturb a replica |
| `QueueAgreement.SnapshotHeals` | internal/client/queue_protocol.go:168-189 | a complete snapshot in order puts any replica right, without an error |
| `QueueAgreement.PatchAdvances` | internal/client/queue_protocol.go:191-220 | a complete patch in order takes a synced replica to the next revision, without an error |
| `QueueStore.QueueTable.ReplaceQueue` | internal/store/store.go:513-536 | the whole table is replaced or nothing is |
| `QueueStore.QueueTable.LoadQueue` | internal/room/room.go:1388-1422 | the two loops over the rows compute the decoding |
| `QueueStore.DecodeImage` | internal/room/room.go:570-581 | round trip: a restart decodes exactly what was committed |
| `QueueStore.RestartFinds` | internal/store/store.go:513-560 | the same field by field and place by place: id, track, duration, cover, requester, name and details as they were, size and bitrate zero |
| `QueueStore.PersistedKeeps` | internal/store/store.go:523-530 | exactly the fields without a column are lost |
| `QueueStore.LastFlagCounts` | internal/room/room.go:1396-1420 | of any rows the last flag counts, and the first row with its id is current with what follows pending |
| `QueueStore.NoFlagNoCurrent` | internal/room/room.go:1410-1412 | with no flag everything is pending |
| `RoomPolicy.ParsePolicy` | internal/room/policy.go:48-75 | accepted exactly when every number is in range, and then the cap is at least one |
| `RoomPolicy.AcceptedInForce` | internal/room/policy.go:48-83 | what an accepted policy puts in force: the values given, and fifty and six hundred milliseconds where none is |
| `RoomPolicy.QueueLimit` | internal/room/policy.go:87-102 | an explicit zero on any key wins, otherwise the largest matching limit |
| `RoomPolicy.SearchLimit` | internal/room/policy.go:87-102 | the loop that finds it |
| `RoomModel.Skimmed` | internal/room/room.go:854-867 | an advance takes off the entries of unknown duration and the first playable one, a hundred at most |
| `RoomShape.SkimsToTheFirst` | internal/room/room.go:854-867 | exactly how many: up to the first of known duration among the first hundred, or else a hundred or all |
| `RoomModel.UsefulTracks` | internal/room/room.go:1025-1036 | no more of a batch than asked for, nor than the queue has room for |
| `RoomModel.ClampSeek` | internal/room/room.go:1233-1239 | a seek goes to the nearest position within the track |
| `RoomModel.Find` | internal/room/room.go:1147-1153 | the first pending entry with an id |
| `RoomActor.Actor.Handle` | internal/room/room.go:963-1339 | one turn of the loop does what the model's step says, for every event |
| `RoomActor.Actor.Load` | internal/room/room.go:1388-1422 | start-up from the stored rows |
| `RoomActor.Actor.Begin` | internal/room/room.go:942-959 | resuming the flagged track, or advancing |
| `RoomActor.Actor.PersistQueue` | internal/room/room.go:570-581 | the saved rows are the image of current track and queue |
| `RoomActor.Actor.CommitQueueWithCurrent` | internal/room/room.go:585-601 | cut, save, adopt, broadcast; a failure of the first two changes nothing |
| `RoomActor.Actor.SendQueueSnapshot` | internal/room/room.go:544-553 | all parts of the current queue, or none |
| `RoomActor.Actor.Refill` | internal/room/room.go:699-733 | at most one fetch, of at most ten and of what fits |
| `RoomActor.Actor.ScheduleEnd` | internal/room/room.go:736-753 | the old timer stops; a new one only for a playing track of known duration |
| `RoomActor.Actor.Skim` | internal/room/room.go:854-867 | the loop finds the prefix an advance takes off |
| `RoomActor.Actor.AdvanceReady` | internal/room/room.go:835-914 | save first, then end the old track and start the next |
| `RoomActor.Actor.Advance` | internal/room/room.go:916-925 | waiting, refilling or advancing |
| `RoomActor.Actor.CompletePendingStart` | internal/room/room.go:927-937 | the waiting advance is carried out once |
| `RoomActor.Actor.Add` | internal/room/room.go:1098-1144 | cap and the quota of the policy in force on the whole batch, then one commit, then perhaps an advance |
| `RoomActor.Actor.Remove` | internal/room/room.go:1146-1167 | removal with its refusals |
| `RoomActor.Actor.Move` | internal/room/room.go:1169-1196 | move with its refusals |
| `RoomActor.Actor.Seek` | internal/room/room.go:1228-1244 | a clamped position is written down and the end rescheduled |
| `RoomActor.Actor.ReportUnplayable` | internal/room/room.go:1257-1269 | only a report about the current track advances |
| `RoomActor.Actor.PlayRadio` | internal/room/room.go:1271-1286 | the newest request replaces a waiting one, or is constructed at once |
| `RoomActor.Actor.StopRadio` | internal/room/room.go:1288-1297 | stop: the waiting request is cancelled and a waiting advance completed |
| `RoomActor.Actor.SourceResult` | internal/room/room.go:965-1002 | a finished construction is installed, reported or discarded, and the waiting one started |
| `RoomActor.Actor.RefillResult` | internal/room/room.go:1004-1055 | a finished fetch is taken, trimmed, appended, or starts over |
| `RoomActor.Actor.Join` | internal/room/room.go:1060-1082 | joining sends the snapshot |
| `RoomActor.Actor.QueueSync` | internal/room/room.go:1084-1089 | a sync is refused to strangers and otherwise sends the snapshot |
| `RoomNetwork.CommitInStep` | internal/room/room.go:585-601 | a committed mutation keeps the log and every connection in step |
| `RoomNetwork.StepInStep` | internal/room/room.go:963-1339 | every event does |
| `RoomNetwork.JoinGreets` | internal/room/room.go:1060-1077 | whoever joins is sent the whole queue of that moment, unless it cannot be cut |
| `RoomShape.AdvanceReadyShape` | internal/room/room.go:835-914 | everything an advance changes, in one statement |
| `RoomShape.StepDoes` | internal/room/room.go:963-1339 | every event: changes no restart would notice, perhaps one edit, perhaps one advance; which edit it makes (append, removal, move, clear) and whether it advances is told by the guards in its way, and so is the reason it names |
| `RoomEvents.RemoveExactly` | internal/room/room.go:1146-1167 | the reply by what is in the way; else one entry goes, saved and recorded as removed |
| `RoomEvents.MoveExactly` | internal/room/room.go:1169-1196 | the reply by what is in the way; else the entry is where asked, saved |
| `RoomEvents.ClearExactly` | internal/room/room.go:1198-1200 | a clear that can be cut and saved empties the queue and records every entry as removed; any other changes nothing |
| `RoomEvents.AddReplies` | internal/room/room.go:1098-1130 | the reply to an addition: full, over quota, not saved, or done |
| `RoomEvents.OtherReplies` | internal/room/room.go:1084-1337 | the reply to every other request, by guards |
| `RoomEvents.CountIsPlaces` | internal/room/room.go:1109-1120 | the count behind a quota is the number of places that hold an entry of that listener |
| `RoomEvents.StepPolicyExactly` | internal/room/room.go:1324-1337 | a policy comes into force exactly when it is valid and stored |
| `RoomEvents.StepRadio` | internal/room/room.go:699-733 | after every event, by guards: which radio is in force, who waits for a batch and why, and which batch is asked for, of ten or of what there is room for, when fewer than three are left |
| `RoomEvents.FetchRadio` | internal/room/room.go:1004-1055 | the radio in force ends with a report exactly if it failed, its batch could not be saved, or it is exhausted and delivered no more than asked for |
| `RoomEvents.RequestsTakeTurns` | internal/room/room.go:1271-1286 | a new source request is constructed at once or waits alone, and whoever waited is canceled |
| `RoomEvents.StopCancels` | internal/room/room.go:1288-1297 | a stop cancels whoever waits and leaves what is being constructed to run out |
| `RoomEvents.ReportMakesRoom` | internal/room/room.go:996-1001 | once a construction has reported, whoever waits is constructed and is the one wanted |
| `RoomEvents.StepSends` | internal/room/room.go:540-601 | every patch committed is sent once and in order to whoever is subscribed; who joins or asks is sent the whole queue, and who leaves nothing more |
| `RoomEvents.StartedIsTheEntry` | internal/room/room.go:895-900 | a track that was just started is its entry, but for size and bitrate where they are known |
| `RoomBooks.StepBooks` | internal/room/room.go:963-1339 | every event keeps: each accepted entry in exactly one place, the store equal to the room, the current track of known duration with the newest timer its own |
| `RoomGuarantees.StepCommits` | internal/room/room.go:585-601 | no event saves more than twice, and twice exactly when the guards let it append and then advance |
| `RoomGuarantees.CrashSafe` | internal/room/room.go:583-597 | what a crash leaves after any number of an event's saves: the state before it, the state after it, or, between two saves, the old track with the batch pending |
| `RoomGuarantees.CrashIsBeforeOrAfterUnlessBetween` | internal/room/room.go:1131-1140 | that is the state before or the state after, exactly unless it comes between the two saves of an event whose guards let it save twice |
| `RoomGuarantees.UnsavedUnchanged` | internal/room/room.go:591-597 | when nothing was saved, no entry moved and no patch went out |
| `RoomGuarantees.AddIsWhole` | internal/room/room.go:1098-1144 | a batch is accepted exactly when cap, quota and store let it through, and then whole |
| `RoomGuarantees.StepEndsOnce` | internal/room/room.go:756-763 | a track goes on, or is recorded once and is no longer current; it ends exactly when the event's guards let it advance, and is recorded with the event's reason and instant |
| `RoomGuarantees.SkipEndsAsSkipped` | internal/room/room.go:1246-1247 | a track a listener skips is recorded as skipped, and then |
| `RoomGuarantees.TimerEndsItsOwn` | internal/room/room.go:1249-1255 | a timer's action, however late, ends no track but its own, and that one as finished |
| `RoomGuarantees.UnplayableEndsItsOwn` | internal/room/room.go:1257-1269 | a report that a track cannot be played ends that track, as unplayable, or none |
| `RoomGuarantees.RemoveTakesOneOut` | internal/room/room.go:1146-1167 | one entry goes, the listener's own unless it may take any; all others keep their order |
| `RoomGuarantees.MovePlacesOne` | internal/room/room.go:1169-1196 | the entry ends up where asked; all others keep their order |
| `RoomGuarantees.QuotaHolds` | internal/room/room.go:1109-1120 | an accepted batch leaves whoever added it within the limit that the policy in force gives for its kind and roles |
| `RoomGuarantees.StepKeepsCap` | internal/room/room.go:1105-1108 | no event makes the queue longer than its cap |
| `RoomRadio.StepArbitrated` | internal/room/room.go:965-1002 | at most one construction runs, only the newest request waits, and every request is answered, running or waiting |
| `RoomRadio.AnsweredOnce` | internal/room/room.go:972-999 | every request is answered exactly once, unless it is still under way |
| `RoomRadio.SourceReportInstallsNewest` | internal/room/room.go:969-996 | a source is installed exactly when it was built, is the newest request and no stop came since; otherwise the radio stays |
| `RoomRadio.StopEndsRadio` | internal/room/room.go:1288-1297 | a stop ends radio mode and every wait; what is under construction will not be installed |
| `RoomRadio.StepFetchRefilling` | internal/room/room.go:1004-1055 | a report about the radio in force ends a wait; one about an earlier radio starts it over if the queue has room |
| `RoomRadio.StepBacked` | internal/room/room.go:699-733 | a wait stays backed by a fetch under way exactly when the event is not one of the two blocked ones |
| `RoomRadio.UnbackedIsStuck` | internal/room/room.go:916-925 | once unbacked, no event but a stop or another source starts or ends a track |
| `RoomClock.StepClocked` | internal/room/room.go:1249-1255 | every event keeps timers in order; a playing track is left to itself exactly by the newest timer's action when its advance cannot go through, and taken care of again exactly by a pause, a seek or an advance |
| `RoomClock.StepNotEarly` | internal/room/room.go:736-753 | the newest timer of a playing track has not fired before the track's end |
| `RoomClock.StepKeepsTimers` | internal/room/room.go:736-753 | an event leaves exactly the timer actions to come that its own firing or handling leaves, and all earlier timers as they were |
| `RoomClock.StepResting` | internal/room/room.go:1202-1226 | a track paused before its timer fired stays so exactly until it is resumed or something other than a timer advances |
| `RoomClock.PauseKeepsFired` | internal/room/room.go:1202-1215 | a timer that has fired before the pause still ends the track, exactly if the advance goes through |
| `RoomRuns.StepSane` | internal/room/room.go:963-1339 | every event keeps all invariants together |
| `RoomRuns.StartSane` | internal/room/room.go:942-959 | every start from good rows, readable or not, saved or not, establishes them |
| `RoomTheorems.ReplicaAgreement` | internal/client/queue_protocol.go:132-227 | over any run and any network: a ready replica at the revision of any moment shows exactly the queue of that moment, and is never ahead |
| `RoomTheorems.StaleIsNoticed` | internal/client/queue_protocol.go:132-227 | over any run: a client whose last completed message leads to the current revision shows the current queue, or knows that it does not |
| `RoomTheorems.LosslessDelivery` | internal/room/room.go:585-601 | in order and without loss no message is an error and the replica ends at the current queue |
| `RoomTheorems.SyncHeals` | internal/room/room.go:1084-1089 | what a successful sync sends puts any disturbed replica right |
| `RoomTheorems.ExactlyOnePlace` | internal/room/room.go:835-914 | over any run every accepted entry is current, pending, finished, removed or dropped, and only one of these, once |
| `RoomTheorems.EndedForGood` | internal/room/room.go:756-763 | what has been played, removed or dropped never plays or queues again |
| `RoomLives.LeftAccounted` | internal/room/room.go:585-601 | at every point of every event the rows a crash leaves and the ledger of that moment account for every accepted entry exactly once |
| `RoomLives.LifeConserves` | internal/room/room.go:1388-1422 | the room's next life begins with exactly what was accepted in this one and has not ended in it |
| `RoomLives.EndedInEveryLife` | internal/room/room.go:942-959 | over any number of crashes and lives, what has been played, removed or dropped is never current, pending or played again, unless it is added under its id again |
| `RoomTheorems.CurrentIsTimed` | internal/room/room.go:827-829 | a track of unknown duration is never current, and the newest timer belongs to the current track |
| `RoomTheorems.EndsOnTime` | internal/room/room.go:736-753 | over any run: a running timer is that of the playing track and due at the first instant at which its position is its duration; a playing track has neither a timer nor an action to come exactly when it has been abandoned and not rescued since |
| `RoomTheorems.EndsNotEarly` | internal/room/room.go:736-753 | over any run: when the newest timer's action is handled, a track still playing has been played to its end |
| `RoomTheorems.PlaysOnPastItsEnd` | internal/room/room.go:1249-1255 | a run with one failed save that leaves a track playing past its end with no timer |
| `RoomTheorems.EndsWhilePaused` | internal/room/room.go:1202-1215 | a run in which a paused track is ended by its timer |
| `RoomTheorems.StoreMatches` | internal/room/room.go:567-597 | once the store is known to match, it decodes to exactly the current track and queue after every event |
| `RoomTheorems.RunSettled` | internal/room/room.go:585-597 | it is known to match exactly if it was from the start or something has been saved since |
| `RoomTheorems.CrashRestarts` | internal/room/room.go:942-959 | the rows left by a crash anywhere start a room that keeps everything again; from readable rows of a matching store it has what the room had before the event, after it or between its two saves: that track taken up, or the first playable one started, or the queue pending |
| `RoomTheorems.StartRestarts` | internal/room/room.go:942-959 | every start, by guards: the flagged track from the top after its lead-in, with the rest of the queue unchanged; or the first track of known duration so; or nothing playing and the queue pending |
| `RoomTheorems.RadioSound` | internal/room/room.go:683-733 | over any run: one construction, one fetch, one answer each, and waits are backed unless a blocked event occurred |
| `RoomTheorems.AddToIdleCommitsTwice` | internal/room/room.go:1131-1140 | adding to an idle room is such an event: in between, the track is stored as pending |
| `RoomTheorems.CapHolds` | internal/room/room.go:1032-1037 | under an unchanged policy the queue stays within its cap over any run |
| `RoomTheorems.WaitsForNothing` | internal/room/room.go:700-713 | a run without failures that ends in a wait nobody fetches for |
| `CacheTee.Tee.Read` | internal/cache/cache.go:390-437 | the listener gets what the file gets; a clean end means cached; without failures cached exactly when it fits; otherwise the error says what was the matter |
| `CacheTee.Tee.Drain` | internal/cache/cache.go:459-488 | the drain finishes any download, cached exactly when it fits |
| `CacheTee.Tee.Close` | internal/cache/cache.go:441-456 | only a running download is handed over, and once |
| `CacheTee.Tee.Fail` | internal/cache/cache.go:490-504 | the first to end a download ends it; later ones change nothing |
| `CacheTee.Tee.Finalize` | internal/cache/cache.go:506-559 | stored whole with its row exactly when it fits and storing works; otherwise neither file nor row stays |
| `CacheTee.Tee.Serve` | internal/cache/cache.go:385-488 | any reads, a hand-over at any byte: cached exactly when the body fits limit and declared size, and then byte for byte the body |
| `CacheFlight.NextSound` | internal/cache/cache.go:222-329 | every step keeps the table equal to the live downloads, each under its own track |
| `CacheFlight.EnterFollowsOrStarts` | internal/cache/cache.go:222-261 | whoever enters follows the live download of the track, and starts one exactly if there is none |
| `CacheFlight.EndsAsItWent` | internal/cache/cache.go:490-559 | a download ends as its end went, with the row there exactly if storing worked |
| `CacheFlight.WakesByTheRow` | internal/cache/cache.go:245-257 | a follower is refused exactly if the download failed, and else served exactly if the row is still there |
| `CacheFlight.EvictTakesTheRow` | internal/cache/cache.go:580-592 | evicting a track takes its row and nothing else |
| `CacheFlight.OneLivePerTrack` | internal/cache/cache.go:243-261 | at any moment one live download per track |
| `CacheFlight.ClosedOnce` | internal/cache/cache.go:342-349 | a download's channel is closed exactly once, after it was settled |
| `CacheFlight.WokenTruly` | internal/cache/cache.go:245-257 | a follower is told of success only after the row was written, and refused only when it was not |
| `CacheFlight.OutcomeStands` | internal/cache/cache.go:490-559 | no late competitor changes how a download ended |
| `CacheFlight.EvictLru` | internal/cache/cache.go:569-595 | rows go in order of last use, no more than needed, until within the limit or nothing more can go; those in use or stuck stay, and none but those it came to go |
| `Playlist.PlaylistTable.Move` | internal/store/store.go:1360-1420 | the item is moved to the place asked for, or the nearest there is; the others keep their order; ordinals 1..n unless the item stays where it is; no update ever repeats an ordinal |
| `Playlist.MovedPlaces` | internal/store/store.go:1397-1399 | one item is at its new place, and all others keep their order |
| `Playlist.PlaylistTable.NegateAll` | internal/store/store.go:1404-1408 | negating row by row never meets another row's ordinal |
| `Playlist.PlaylistTable.PlaceAll` | internal/store/store.go:1409-1415 | placing row by row never does either, and ends in the new order |
| `Playlist.PlaylistTable.Renumber` | internal/store/store.go:1410-1412 | one row's update, allowed only onto a free ordinal |
| `Playlist.PlaylistTable.Delete` | internal/store/store.go:1335-1355 | the row with the ordinal goes, the others keep their order, and exactly the later ordinals go down by one |
| `Playlist.PlaylistTable.Append` | internal/store/store.go:1282-1310 | the batch is appended, numbered on from the largest ordinal or from one |
| `Playlist.NextOrdIsNext` | internal/store/store.go:1290-1300 | the number that is counted on from is the one after the largest |
| `Playlist.PlaylistTable.Replace` | internal/store/store.go:1228-1252 | the list is replaced, numbered from zero |
| `Playlist.PlaylistTable.Page` | internal/store/store.go:1313-1332 | a page in order |
| `Playlist.SliceIs` | internal/store/store.go:1313-1332 | as many as asked for, or to the end, each from its place |
| `Playlist.PlacedAll` | internal/store/store.go:1397-1415 | the placed rows read back as the moved list |
| `RadioSource.PlaylistSource.NextBatch` | internal/room/radio.go:90-104 | one batch, in either mode, from the list as it is then |
| `RadioSource.PlaylistSource.BatchSequential` | internal/room/radio.go:106-135 | the next stretch; looping goes on at the beginning |
| `RadioSource.PlaylistSource.BatchShuffle` | internal/room/radio.go:137-162 | the next of the bag, a new bag when it is empty |
| `RadioSource.OnceReadsOn` | internal/room/radio.go:106-135 | read once, a batch is the next stretch of the list, as long as asked for or to its end |
| `RadioSource.LoopingReadsOn` | internal/room/radio.go:118-132 | looping, a batch goes on at the beginning of the list, once |
| `RadioSource.ShrunkReadsAnew` | internal/room/radio.go:106-117 | a list that has become shorter than the cursor is started over, or over |
| `RadioSource.LoopingIsCyclicUnlessWrapped` | internal/room/radio.go:118-132 | looping is cyclic exactly when a batch does not go on at the beginning, or is asked for so much that it takes the whole list again |
| `RadioSource.PickedPermutation` | internal/room/radio.go:142-158 | a full bag is the list in another order |
| `RadioSource.DrainShuffled` | internal/room/radio.go:137-162 | shuffled and once, batches of any sizes together are the playlist, each track as often as in it |
| `RadioSource.DrainBag` | internal/room/radio.go:137-162 | shuffled, looping or not: batches of any sizes from an empty bag on are one whole bag, and only then is there a new one |
| `RadioSource.Materialize` | internal/httpapi/radio.go:165-212 | the preview's loop over any source: which batches it asks for, the page and total it makes of them, and its two errors |
| `RadioSource.PageIsExact` | internal/httpapi/radio.go:165-212 | of a source that reads out one list it is exactly the page of the list, with its true total unless the source never told and the page ended first |
| `RadioSource.Preview` | internal/httpapi/radio.go:124-127 | the preview of a playlist, empty or not, at any offset: it never fails and is exactly the page of the list with the true total |
| `RadioSource.PlaylistLists` | internal/room/radio.go:90-135 | a playlist read once reads out its list, and fails at no request before its end |
| `RadioSource.Answer` | internal/room/radio.go:69-135 | a fresh playlist source gives exactly those answers, request after request |
| `Idempotency.IdempotencyTable.Begin` | internal/store/idempotency.go:22-66 | expired records go, the key is reserved or the record there is returned |
| `Idempotency.IdempotencyTable.Complete` | internal/store/idempotency.go:68-79 | the answer is stored under the hash that is there |
| `Idempotency.IdempotencyTable.Prune` | internal/store/idempotency.go:92-95 | exactly the expired records go |
| `Idempotency.IdempotencyTable.Reserve` | internal/httpapi/idempotency.go:51-79 | run, wait, refuse or replay |
| `Idempotency.IdempotencyTable.Conclude` | internal/httpapi/idempotency.go:81-94 | a server error frees the key, anything else is kept for a day |
| `Idempotency.BufferedResponse.WriteHeader` | internal/httpapi/idempotency.go:109-115 | the first status counts |
| `Idempotency.BufferedResponse.Write` | internal/httpapi/idempotency.go:117-122 | the body is what was written; writing without a status means 200 |
| `Idempotency.NextProtects` | internal/httpapi/idempotency.go:44-94 | a step ends a key's protection exactly when somebody looks at the table after a handler of that key has outlived its reservation, or when its answer cannot be stored |
| `Idempotency.AnsweredOnce` | internal/httpapi/idempotency.go:59-79 | until a day after the reservation no handler runs again: same body, same answer exactly; different body, refusal; and from then on one does |
| `Idempotency.OneAtATime` | internal/httpapi/idempotency.go:64-71 | while a handler runs another one starts exactly if the pending time is over; before, the same body waits and a different one is refused |
| `Idempotency.AnswerStands` | internal/store/idempotency.go:68-79 | the answer that stands is not replaced during its day |
| `Idempotency.AnswerMisfiledExactly` | internal/store/idempotency.go:68-79 | exactly when another body is answered with a handler's answer: the record is that body's, until a day after the handler's reservation |
| `Idempotency.ErrorFreesOthers` | internal/httpapi/idempotency.go:81-83 | a server error of one of two handlers of a key takes the other's reservation |
| `Idempotency.LateHandlerHarms` | internal/httpapi/idempotency.go:53-94 | a run in which a late handler does the one or the other |
| `AccessCode.Normalize` | internal/shortcode/shortcode.go:27-43 | what is read is a canonical code |
| `AccessCode.FormatReadsBack` | internal/shortcode/shortcode.go:46-52 | round trip of writing and reading a code |
| `AccessCode.CanonicalReadsAsItself` | internal/shortcode/shortcode.go:27-43 | a canonical code reads as itself |
| `AccessCode.SpellingReads` | internal/shortcode/shortcode.go:27-43 | in either case, with hyphens and blanks anywhere, a code reads as itself |
| `AccessCode.PlainBlanks` | internal/shortcode/shortcode.go:27-43 | of the plain characters just the blanks are skipped, and just the small letters are raised |
| `AccessCode.FormatGroups` | internal/shortcode/shortcode.go:46-52 | a formatted code is its characters in three groups of four |
| `AccessCode.EncodeTakesSixtyBits` | internal/shortcode/shortcode.go:17-23 | two digests have the same code exactly when their first sixty bits agree |
| `AccessCode.EncodeIsNumber` | internal/shortcode/shortcode.go:17-23 | in base thirty-two a code is the number that the first sixty bits of the digest are |
| `AccessCode.AcceptedExactly` | internal/room/access.go:169-230 | a shown code is accepted exactly from the start of its window to fifteen seconds after its end |
| `AccessCode.AcceptedBeforeEpoch` | internal/room/access.go:213-216 | before the epoch, exactly the first code within one period |
| `AccessCode.PreviousCounter` | internal/room/access.go:187-188 | the counter just before a window |
| `ProbeLimiter.AccessLimiter.Allow` | internal/wsapi/access_limiter.go:42-78 | decides as a limiter that never forgets |
| `ProbeLimiter.PasswordLimiter.Allow` | internal/auth/limiter.go:52-102 | decides as a limiter that never forgets, against address, guests and all together |
| `ProbeLimiter.PasswordLimiter.CleanupExpired` | internal/auth/limiter.go:113-128 | cleaning up changes nothing that counts |
| `ProbeLimiter.AccessFailuresLimited` | internal/wsapi/access_limiter.go:66-77 | at most ten failures in a window, at most twenty in any stretch of its length |
| `ProbeLimiter.AddressLimited` | internal/auth/limiter.go:88-101 | the same for one address, until a right password |
| `ProbeLimiter.WrongPasswordsLimited` | internal/auth/limiter.go:72-86 | at most a hundred wrong passwords in one server-wide window, however many addresses |
| `ProbeLimiter.GuestsLimited` | internal/auth/limiter.go:56-70 | at most twenty logins without a password in a window from one address |
| `ProbeLimiter.WrongCountsAgainstAll` | internal/auth/limiter.go:72-86 | a wrong password counts against all, also when its own address is full |
| `ProbeLimiter.AdmittedBelowLimit` | internal/wsapi/access_limiter.go:58-77 | a right code is always let in, and a wrong one unless ten were tried within ten minutes and since the last right one |
| `ProbeLimiter.RefusedForAReason` | internal/auth/limiter.go:52-102 | a login is refused only for twenty, a hundred or ten reasons of the last ten minutes |
| `Timeline.LazyIsTicking` | internal/room/room.go:465-470 | after any commands the lazy position equals that of a player that counts every millisecond |
| `RoomTimeline.StepNoted` | internal/room/room.go:869-914 | every event does to the room's timeline what at most one command does, known from its guards: pause, resume, seek, the start of a certain entry, or stop |
| `RoomTimeline.RoomIsTicking` | internal/room/room.go:465-470 | over any run of the room whose clock does not go back, its lazy position is that of a player that was given those commands and counts every millisecond |
| `Timeline.TimerDueAtEnd` | internal/room/room.go:736-753 | a timer just set is due at the first instant at which the position is the duration |
| `Timeline.ClientAgrees` | internal/client/client.go:367-389 | the client computes the room's position; displayed minus pending is the position |
| `Timeline.LeadInEnds` | internal/room/room.go:892-894 | the wait before a track ends exactly with its lead-in |
| `ClockSync.Sync` | internal/client/client.go:159-185 | the first of the fastest exchanges decides, taken to have been answered halfway, and the estimate is within half its round trip, rounded up |
| `ClockSync.PositionWithin` | internal/client/client.go:367-372 | the client's position of a playing track is off by no more than its clock |
| `ClockSync.HalfIsReached` | internal/client/client.go:176-180 | the bound cannot be improved |

## Left out

- HTTP handlers, WebSocket transport, the command line, player control and configuration: plumbing.
- Providers and sidecars: a source is only what its construction and its batches report.
- SQL, files and hashing: tables are sequences and maps with atomic transactions, files are byte sequences, a body's digest is the body, and a MAC is any function without a collision among the counters compared.
- JSON: encoding is the identity on the fields a client sees, with any size per entry and operation; the envelopes around them are sized as written out. Escaping of the track reference in a cover address is left out.
- Goroutines and channels: the room's loop is a sequence of events, the cache a sequence of critical sections; a full send buffer is a connection that leaves.
- Revisions and timer numbers are unbounded; in the source they are 64 bits wide.
- A replica that outlives a restart of the room, and one client switching between rooms: parts carry no room id and revisions start again at zero.
- Entry ids are assumed fresh: the source draws 48 random bits.
- History rows, play reports, audit, prefetching and the playability check itself: nothing depends on their outcome.
- Listener lists, snapshots of playback and radio for display, roles and directory: no state of their own.
- Failures while reading a playlist in the middle of a batch.
- The retry around a failed download, its read timeout, the list of recent downloads and pruning by age.
- Access by static password or none, and the roles that need no code.
- RoomActor.Actor.ReceiveBatch: the tracks come as entries; making an entry of a track is not modelled.
- RadioSource.PageIsExact: of the finite sources only playlists are shown to read out one list; what others deliver is a provider's affair.
- RoomPolicy.ParsePolicy: works on decoded fields; JSON and the partly parsed value that comes with an error are left out.
- QueueReplica.QueueClient.HandleQueueMessage: noting an error and asking for a baseline is one step; in between, a request of an earlier stay in a room might end.
- Playlist.PlaylistTable.Delete: the store updates the later rows in ascending order, which the model takes as given.
- AccessCode.ToUpper: case folding is exact only where its result can be in the alphabet.
- Idempotency.IdempotencyTable.Reserve: the key's own limits and the size limit of a body come before it.
- ClockSync.Sync: a failed exchange ends the synchronisation and is not modelled.
