# A model of the runner's queues, handles and run lifecycle

The runner harness takes Jobs from a backend, runs their graphs, and reports back. Its hard
parts are small machines that share state behind locks and are driven from several tasks at
once: the delivery queue of a Run, the handle of a message stream, the queue of a thread, and
the records of the runs in flight. This project models each of them as a transition system and
proves what holds in every reachable state of every run.

One step is one critical section, one effect between two sections, or one reply from outside.
Backend replies, gate results, dropped futures, stop and cancel signals are inputs of steps, so a
theorem over all runs is a theorem over all interleavings and all answers. A check and the act
that follows it are two steps unless one lock covers both. History fields record what was handed
over, attempted, ended and reported. No section reads them, but for two parts that stand for
something real: the next free end, and what was sent on the one-shot channels of the ends, which
those who wait on an end read. Beside the machines,
classes hold the same state as mutable fields, one method per critical section or loop, each
proved against the functions the machines are made of.

| files | what they model |
|---|---|
| `Wrappers`, `Sequences`, `Writes` | an optional value, sequences with items left out, the writes of a Run, the dependency table, the rule that removes a write |
| `QueueState`, `QueueTask` | the locked state of the delivery queue and the sending task, as classes |
| `QueueMachine`, `QueueEffects` | the delivery queue as a transition system, and its steps field by field |
| `QueueConservation`, `QueueOutcomes`, `QueueOrder`, `QueueTables`, `QueueFollows`, `QueueReasons`, `QueueStops` | the invariants of the queue |
| `QueueTheorems` | what every run of the queue keeps |
| `RunClosing`, `ChildCall`, `ChildRaces`, `ReadMarks` | three users of the queue, composed with it |
| `Inbox` | the paged listing of an inbox while items are being marked |
| `EndWaits` | the ends of child Jobs and the waits on them |
| `Stream` | the handle of a message stream |
| `ThreadLine`, `ThreadWorker`, `ThreadWaits`, `ThreadTurns`, `ThreadSeals` | the queue of a thread, its worker, its waits, its turns and their seals |
| `Hooks`, `Instances`, `CancelOrders`, `ClaimSlots` | the lifecycle of runs on a pod |

What the models take from outside, as the source does:

- an executor reports an instance once;
- the ids of a child Job and of a claim are made afresh by the call that uses them; besides the
  call only a read marker names the child, whose notice exists after the create was handed over;
- the unread items of an inbox carry distinct ids, and while an agent's inbox is listed page by
  page no other listing of that agent is under way;
- a message belongs to one thread;
- a run says that its executor returned only before it is removed: a drain waits for the tasks of
  the runs before it removes any (crates/br-runner-toolkit/src/drain.rs:88-108);
- the closing writes of a Run are handed over only by its closing, and a read marker is held only
  by the marking of its item.

Four promises turned out to hold only under a condition, and each is stated exactly:

- After a feed of cancel orders said that its replay is complete, the known orders are the ones
  that stand, as long as it says so once. A feed that says so again replaces the known orders by
  none (`CancelOrders.RepeatedReplayForgets` is an equivalence; `CancelOrders.RepeatedReplayExample`
  is an instance). This is about what the consumer accepts: the feed of the live transport says it
  once (crates/br-runner-jobs/src/runner_transport/cancel.rs:54-62).
- Claims that are seen as stopped were stopped in the current mode. The other way round, a stop of
  the current mode can be undone by the store of an older one that passed its check before the mode
  changed (`ClaimSlots.StopStands` is an equivalence; `ClaimSlots.StopCanBeLost` is a run).
- A child call hands over no cancel once its create is known to be removed, unless its look at the
  create was before that and the cancel is due (`ChildRaces.NoCancelOfADeadCreate` is an
  equivalence; `ChildRaces.CancelAfterTheCreateDied` is a run). Such a cancel never reaches jobs
  (`ChildCall.NothingForARemovedCreate`).
- A child call hands over no finish once it is cancelled, unless its check was before that and the
  finish is due (`ChildRaces.NoFinishOfACancelledCall`, `ChildRaces.FinishAfterTheCancel`).

## Model

| member | source | states |
|---|---|---|
| `Writes.BlockedIffRemovedDependency` | crates/br-runner-jobs/src/queue/deps.rs:79-92 | A write is let through exactly when none of the dependencies that have ended so far was removed. |
| `Writes.KeysTellNeeds` | crates/br-runner-jobs/src/queue/deps.rs:41-77 | Which write needs which, told by their kinds and ids alone: the keys looked up for a write are those of exactly the writes it needs, and two ends are kept in one place exactly for the same kind and id. |
| `Writes.BlockedReason` | crates/br-runner-jobs/src/queue/deps.rs:53-92 | A removed write takes over a refusal exactly when it is a create whose upload was refused while Started stands, and then with that error; every other block is a removed dependency. |
| `Writes.BlockedLoop` | crates/br-runner-jobs/src/queue/deps.rs:79-92 | The pass over the dependencies with its early return computes that rule. |
| `QueueState.Shared.RegisterWrite` | crates/br-runner-jobs/src/queue/shared.rs:91-102 | A write gets the next number and is pending under it. |
| `QueueState.Shared.EnqueueWrite` | crates/br-runner-jobs/src/queue/shared.rs:112-132 | A write is queued, numbered, pending and last in the line, exactly if the queue runs and nothing it needs was removed; otherwise it is turned away and nothing changes. |
| `QueueState.Shared.HoldWrite` | crates/br-runner-jobs/src/queue/shared.rs:134-159 | A held write is numbered and pending and waits outside the line with its follow-up; only a stopped queue turns it away. |
| `QueueState.Shared.KeepUnqueued` | crates/br-runner-jobs/src/queue/shared.rs:169-182 | The end of a write that was never queued is recorded under its key, nothing else changes. |
| `QueueState.Shared.RecordEnd` | crates/br-runner-jobs/src/queue/shared.rs:184-209 | The number stops being pending, the end is recorded under the key of the write, and a last failure is cleared only if it was of this write. |
| `QueueState.Shared.RecordFailure` | crates/br-runner-jobs/src/queue/shared.rs:211-220 | The last failure is that of this write. |
| `QueueState.Shared.StopNow` | crates/br-runner-jobs/src/queue/shared.rs:231-234 | The queue is stopped and keeps what it has. |
| `QueueState.Shared.TakeHead` | crates/br-runner-jobs/src/queue/task.rs:52-68 | A stopped or empty queue gives nothing; otherwise the head leaves the line, with the reason why it must not be sent, if there is one. |
| `QueueState.Shared.ReleaseHeld` | crates/br-runner-jobs/src/queue/task.rs:70-102 | After a gate that said stored the follow-up joins the line, numbered and pending, and the held write right behind it; a stopped queue takes neither. |
| `QueueState.Shared.Waiting` | crates/br-runner-jobs/src/queue/shared.rs:236-256 | A drain wait goes on exactly while a number before its mark is pending. |
| `QueueState.SortBySeq` | crates/br-runner-jobs/src/queue/task.rs:187 | The entries of a dropped task in the order of their numbers, none lost and none twice. |
| `QueueTask.Task.TakeNewHeld` | crates/br-runner-jobs/src/queue/task.rs:123-132 | Every newly held write comes under the task by its number, and none is left behind. |
| `QueueTask.Task.TakeNext` | crates/br-runner-jobs/src/queue/task.rs:52-68 | The loop ends every head that a removed dependency blocks, each end seen by the next look, and gives back the first free one. |
| `QueueTask.Task.TakeHead` | crates/br-runner-jobs/src/queue/task.rs:134-141 | A task that is sending keeps its write; a free one takes the next free head. |
| `QueueTask.Task.Drop` | crates/br-runner-jobs/src/queue/task.rs:175-192 | What the task sent, held and had in the line is ended unsent, oldest number first, each once, and the queue is stopped and empty. |
| `QueueTask.RecordAllEnds` | crates/br-runner-jobs/src/queue/task.rs:187-190 | Exactly the numbers that a dropped task ends stop being pending. |
| `QueueTask.HeadLoopIsARun` | crates/br-runner-jobs/src/queue/task.rs:52-68 | The head loop, run alone, is a run of the transition system that ends in the state the loop computes. |
| `QueueTheorems.PendingIsExactlyTheLoad` | crates/br-runner-jobs/src/queue/shared.rs:91-209 | In every reachable state the line, the newly held, the held, the write in flight and those being ended are, as a multiset, exactly the pending entries; each number is in one place. |
| `QueueTheorems.ResultsNeverChange` | crates/br-runner-jobs/src/queue/shared.rs:169-209 | A terminal result, once recorded, is the same in every later state. |
| `QueueTheorems.AtMostOneEnd` | crates/br-runner-jobs/src/queue/shared.rs:184-209 | No write is reported or answered twice, and report, answer and record agree. |
| `QueueTheorems.DroppedQueueEndedAll` | crates/br-runner-jobs/src/queue/task.rs:175-192 | Once the task is dropped and no hand-over is under way, every write ever handed over has exactly one result, one report and one answer. |
| `QueueTheorems.DroppedForEver` | crates/br-runner-jobs/src/queue/task.rs:175-192 | After the drop nothing is pending ever again. |
| `QueueTheorems.AttemptedWasHandedOver` | crates/br-runner-jobs/src/queue/task.rs:52-102 | Every write that is attempted was handed over at some earlier step, itself or, for a follow-up, the held write in front of which it goes. |
| `QueueTheorems.AttemptsFollowHandOvers` | crates/br-runner-jobs/src/queue/task.rs:52-102 | When a write is attempted, follow-ups included, every write handed over by enqueue whose hand-over returned before that one began has ended. |
| `QueueTheorems.AttemptsAreStarts` | crates/br-runner-jobs/src/queue/task.rs:52-68 | A write is attempted when it is taken from the head of the line unblocked, and at no other step. |
| `QueueTheorems.AttemptsHaveDeliveredDependencies` | crates/br-runner-jobs/src/queue/deps.rs:53-92 | When a write is attempted, follow-ups included, each write it needs whose hand-over returned before that one began has ended, and the last end recorded in its place is a delivery. |
| `QueueTheorems.DeliveredKeyHasDeliveredWrite` | crates/br-runner-jobs/src/queue/shared.rs:193-198 | A key recorded as delivered names a write with that key that was delivered. |
| `QueueTheorems.NothingBeforeStarted` | crates/br-runner-jobs/src/queue/mod.rs:74-89 | No write but Started is ever attempted unless Started was delivered. |
| `QueueTheorems.GateBeforeAttempt` | crates/br-runner-jobs/src/queue/task.rs:70-102 | A held write or its follow-up is attempted only after the gate said stored. |
| `QueueTheorems.DroppedGateSendsNothing` | crates/br-runner-jobs/src/queue/task.rs:100 | A write whose gate said dropped is attempted in no state of the run. |
| `QueueTheorems.FollowEndsFirst` | crates/br-runner-jobs/src/queue/task.rs:79-96 | When a held write is attempted, its follow-up has ended. |
| `QueueTheorems.DrainedMeansEnded` | crates/br-runner-jobs/src/queue/shared.rs:236-256 | A drain wait that returned found everything it waits for ended and reported. |
| `QueueTheorems.DrainWaitsForAll` | crates/br-runner-jobs/src/queue/shared.rs:237-238 | What it waits for is every write whose hand-over had returned when it was called, held writes included. |
| `QueueTheorems.NoDrainIsLeftAsleep` | crates/br-runner-jobs/src/queue/shared.rs:207-256 | A drain wait with nothing left to wait for can wake, or the task is about to signal. |
| `QueueTheorems.NoWorkIsLeftAsleep` | crates/br-runner-jobs/src/queue/task.rs:143-172 | A parked task with work to take can wake, or a caller is about to notify it. |
| `QueueReasons.RemovalsHaveReasons` | crates/br-runner-jobs/src/queue/shared.rs:112-209 | Every write, however handed over. Left unsent: the queue was stopped. Removed for a dependency: its gate said dropped, or a write it needs was removed, otherwise than by the refusal of an upload; a gate that said dropped always ends its write that way. Delivered: it was attempted. Ended by an error: it was attempted and the error does not pass, or it is a create and its upload was refused with that error. |
| `QueueStops.HandOverQueues` | crates/br-runner-jobs/src/queue/shared.rs:112-132 | At its hand-over a write goes last into the line unless the queue is stopped or something it needs was removed. |
| `QueueStops.StopSendsNothing` | crates/br-runner-jobs/src/queue/shared.rs:231-234 | From a stop on nothing more is attempted. |
| `QueueStops.StoppedLeavesUnsent` | crates/br-runner-jobs/src/queue/shared.rs:112-118 | A write handed over after a stop can only end unsent. |
| `QueueStops.AttemptsFailFor` | crates/br-runner-jobs/src/queue/task.rs:18-50 | An attempt is made again exactly for an unavailable, lost or unreadable answer, a failed fetch of credentials, and for Started when the instance is unknown; every other answer ends it. |
| `QueueStops.LastFailureWaits` | crates/br-runner-jobs/src/queue/shared.rs:199-220 | The last failure is always that of a write still pending. |
| `QueueStops.LastFailureStays` | crates/br-runner-jobs/src/queue/shared.rs:199-220 | A failure stays the last one until another attempt fails or its write ends. |
| `QueueStops.DrainReturns` | crates/br-runner-jobs/src/queue/shared.rs:236-256 | A look of a drain wait ends it as soon as every write numbered before its mark has ended. |
| `RunClosing.AtMostOneTerminalFact` | crates/br-runner-toolkit/src/run/closing.rs:20-50 | Over the whole closing of a Run at most one of the completed and failed facts is delivered. |
| `RunClosing.ProducedIsHandedOver` | crates/br-runner-toolkit/src/run/finish.rs:63-88 | A Run that ended with an answer or a saved state has handed exactly these over, the answer first, both before the fact that it completed. |
| `RunClosing.ClosedWithItsFact` | crates/br-runner-toolkit/src/run/closing.rs:20-50 | A closing that is over has handed over the completed fact, and a failed one only if that was removed for a dependency; one failed fact with its code for a failed Run; none for a cancelled one. |
| `RunClosing.RemovedCompletedIsFollowedByFailed` | crates/br-runner-toolkit/src/run/closing.rs:20-50 | With Started delivered and the queue not stopped, a completed fact removed for a dependency is followed by exactly one failed fact, its cause the error of the answer, else that of the saved state. |
| `ChildCall.CallWritesInOrder` | crates/br-runner-as-node/src/instance.rs:49-113 | The writes of a call are a prefix of: the upload with its content if it has one, the create, with the address of a background call and synchronous otherwise, one cancel or finish; all of its own child. |
| `ChildCall.CallDoesItsPart` | crates/br-runner-as-tool/src/call/sync_call.rs:18-103 | A call that is over and was not left off has handed over its finish after a completed end unless it was cancelled, and its cancel after a failed wait or a cancel unless its create was removed. |
| `ChildCall.CancelIsHandedOver` | crates/br-runner-as-tool/src/call/background.rs:30-41 | A call of any kind that has turned to its cancel hands it over unless its create was removed. |
| `ChildCall.DueAfterItsLook` | crates/br-runner-as-tool/src/call/hand.rs:12-49 | A tool comes to its upload and its create only after a look that found the cancel view untriggered; a node does not look. |
| `ChildCall.CancelFollowsItsLook` | crates/br-runner-as-node/src/sync_call.rs:30-102 | A cancel is handed over only after the call, cancelled or with a failed wait, looked at its create and did not find it removed; in between only others made steps. |
| `ChildCall.FinishFollowsItsCheck` | crates/br-runner-as-node/src/finish.rs:8-21 | A finish is handed over only after a completed end and a check that found the cancel view untriggered; in between only others made steps. |
| `ChildCall.NothingForARemovedCreate` | crates/br-runner-as-tool/src/call/sync_call.rs:18-103 | Composed with the queue: a finish or cancel of the child, handed over by the call or held with a read marker, is attempted only after its create was delivered. |
| `ChildRaces.NoCancelOfADeadCreate` | crates/br-runner-as-tool/src/call/hand.rs:51-63 | When the create is known to be removed, no way for the run to go on hands over a cancel, if and only if no cancel is due already. |
| `ChildRaces.NoFinishOfACancelledCall` | crates/br-runner-as-tool/src/call/sync_call.rs:96-101 | When the call is cancelled, no way for the run to go on hands over a finish, if and only if no finish is due already. |
| `ChildRaces.CancelAfterTheCreateDied` | crates/br-runner-as-node/src/sync_call.rs:35-40 | A run in which the create is removed between the look and the cancel. |
| `ChildRaces.FinishAfterTheCancel` | crates/br-runner-as-node/src/finish.rs:14-19 | A run in which the cancel triggers between the check and the finish. |
| `Inbox.Book.Mark` | crates/br-runner-jobs/src/book/inbox.rs:77-79 | The first mark of an item by an agent is told apart from every later one; no other agent's marks change. |
| `Inbox.Book.RetainUnmarked` | crates/br-runner-jobs/src/adapter/inbox_port/listing.rs:25-28 | The items without the marked ones, in their order. |
| `Inbox.Book.Items` | crates/br-runner-jobs/src/adapter/inbox_port/listing.rs:73-108 | One page: what it lists, the cursor it gives, the read it keeps or lets go, the entries it records; nothing of that when an item cannot be read in full or the registration is still queued. |
| `Inbox.PageAdvances` | crates/br-runner-jobs/src/adapter/inbox_port/listing.rs:53-95 | A page with a next cursor goes strictly further in the first read; a page without one covers all of it. |
| `Inbox.RestIsWhatIsLeft` | crates/br-runner-jobs/src/adapter/inbox_port/listing.rs:38-71 | What a page starts from: all of the read without a cursor, what stands behind the cursor in the kept read or else in a new one, and the later items when neither holds the item of the cursor. |
| `Inbox.LaterThanKeepsLater` | crates/br-runner-jobs/src/adapter/inbox_port/listing.rs:45-51 | Exactly the items with a later id, in their order. |
| `Inbox.PageIsFull` | crates/br-runner-jobs/src/adapter/inbox_port/listing.rs:88-95 | A page has a next cursor exactly if more is left than the limit; it is then full and the cursor names its last item. |
| `Inbox.RecordedHoldsThePage` | crates/br-runner-jobs/src/adapter/inbox_port/listing.rs:102-107 | Every item of a page is recorded with the entry it was read with. |
| `Inbox.ListingIsTheReadWithoutMarked` | crates/br-runner-jobs/src/adapter/inbox_port/listing.rs:73-108 | Paging from no cursor with marks at any moment lists a subsequence of the first read, no item twice, at the end every item never marked, in at most one page more than there are items. |
| `ReadMarks.AtMostOneMarker` | crates/br-runner-jobs/src/adapter/inbox_port/marking.rs:23-52 | For each agent and item at most one read marker is ever handed to the queue. |
| `ReadMarks.MarkedHasItsMarker` | crates/br-runner-jobs/src/adapter/inbox_port/marking.rs:23-52 | With an inbox every marked item has its marker, handed over or about to be; so with the row above exactly one. |
| `ReadMarks.FoundIsMarked` | crates/br-runner-jobs/src/adapter/inbox_port/marking.rs:30-35 | A call that found its entry in the listing leaves the item of that entry marked. |
| `ReadMarks.FinishEndsBeforeItsMarker` | crates/br-runner-jobs/src/queue/task.rs:79-96 | When the marker of a completed call is attempted, the follow-up linked to it is that finish and has ended. |
| `ReadMarks.CompletedCallIsFinishedFirst` | crates/br-runner-jobs/src/adapter/inbox_port/marking.rs:10-52 | When the marker of the notice that a call completed is attempted, the finish of that call under the id of the notice was queued in front of it and has ended. |
| `ReadMarks.HeldFinishNeedsItsCreate` | crates/br-runner-jobs/src/queue/deps.rs:67-92 | When the finish held with a marker is attempted, every create of its child whose hand-over had returned when the marker was held has ended, and the last one recorded was delivered. |
| `ReadMarks.MarkerOnlyAfterStored` | crates/br-runner-jobs/src/queue/task.rs:70-102 | A marker is attempted only after the gate of its entry said stored. |
| `ReadMarks.DroppedGateSendsNeither` | crates/br-runner-jobs/src/queue/task.rs:70-102 | After a gate that said dropped the marker is never attempted and its finish never joins the line. |
| `EndWaits.EndStore.RecordEnd` | crates/br-runner-jobs/src/endwait/store.rs:47-58 | The first outcome of a child is kept and signalled, a later one changes nothing. |
| `EndWaits.EndStore.InfraIsMissing` | crates/br-runner-jobs/src/endwait/store.rs:60-68 | A loss starts a new generation, is kept until the feed reopens and remembered after. |
| `EndWaits.EndStore.Reopened` | crates/br-runner-jobs/src/endwait/store.rs:70-72 | The loss is no longer kept; its generation and its error stay. |
| `EndWaits.EndStore.DecideNow` | crates/br-runner-jobs/src/endwait/store.rs:86-100 | The decision for a wait: outcome, then kept loss, then a loss since it was opened. |
| `EndWaits.FirstOutcomeStands` | crates/br-runner-jobs/src/endwait/store.rs:47-100 | Once an outcome is recorded every wait on the child that looks later gets that first outcome, or that the book is gone when it is. |
| `EndWaits.FirstRecorded` | crates/br-runner-jobs/src/endwait/store.rs:47-58 | The outcome that stands for a child is the one recorded first. |
| `EndWaits.LookDecidesExactly` | crates/br-runner-jobs/src/endwait/store.rs:86-100 | A look decides if and only if the child has an outcome, the feed is declared missing and not reopened, it was declared missing since the wait was opened, or the book is gone; otherwise the wait is asleep. |
| `EndWaits.LossIsToldWithItsError` | crates/br-runner-jobs/src/endwait/store.rs:91-98 | A wait decided without an outcome while the book stands is given the error of the last loss. |
| `EndWaits.OpenWaitLearnsOfLoss` | crates/br-runner-jobs/src/endwait/store.rs:60-100 | A wait open when the feed is declared missing is decided by its next look, even if the feed reopened. |
| `EndWaits.LostUntilReopened` | crates/br-runner-jobs/src/endwait/store.rs:60-93 | From a loss until the feed reopens every look decides, also that of a wait opened in between. |
| `EndWaits.NoWaitIsLeftAsleep` | crates/br-runner-jobs/src/endwait/mod.rs:22-41 | A wait that could be decided can wake, or a signal is about to be given. |
| `EndWaits.FallbackIsUnreachable` | crates/br-runner-jobs/src/endwait/store.rs:94-98 | Without an outcome a decision is the error with which the feed was last declared missing; the error of last resort is never used. |
| `Stream.JudgeChunk` | crates/br-runner-threads/src/stream/shared.rs:55-67 | A chunk passes exactly when the handle is not broken and every closing was refused; it is told broken exactly when it is and no closing was confirmed. |
| `Stream.Core.Judge` | crates/br-runner-threads/src/stream/shared.rs:55-67 | The pass over the closings computes that verdict. |
| `Stream.Core.StartPush` | crates/br-runner-threads/src/stream/shared.rs:85-98 | A chunk that passes and could be built is appended under the number of chunks before it; otherwise nothing changes. |
| `Stream.Core.BreakHandle` | crates/br-runner-threads/src/stream/shared.rs:109-111 | The handle is broken and nothing else changes. |
| `Stream.Core.StartClosing` | crates/br-runner-threads/src/client/close.rs:49-65 | A closing begins exactly if none is confirmed, the command can be made, and, when it completes the message, the handle is unbroken with content; its seal is there exactly with content and when it completes, or on an unbroken handle with every closing refused. |
| `Stream.Core.SettleClosing` | crates/br-runner-threads/src/stream/shared.rs:125-135 | The outcome of one closing is kept, or the closing is forgotten when it was never sent. |
| `Stream.ClosedForEver` | crates/br-runner-threads/src/stream/shared.rs:161-195 | A closing that was lost or confirmed stays so, and no chunk is added any more. |
| `Stream.SealCoversFinalChunks` | crates/br-runner-threads/src/stream/shared.rs:55-195 | Its seal has the last number and hashes exactly the final chunks in order; they went out numbered from nought, and each was acknowledged. |
| `Stream.SealsAgree` | crates/br-runner-threads/src/client/close.rs:48-83 | However closings overlap, those that ended confirmed or lost carry the same seal or none. |
| `Stream.BegunAsJudged` | crates/br-runner-threads/src/client/close.rs:49-65 | A closing begins only after its judge found none confirmed, and the handle unbroken when it completes; it carries a seal exactly if there was content and it completes or the handle was unbroken with every closing refused. |
| `Stream.OutcomeStays` | crates/br-runner-threads/src/stream/shared.rs:125-195 | The outcome of a closing is kept for good, or the closing is forgotten for good when it was not sent. |
| `Stream.ConfirmedIsLast` | crates/br-runner-threads/src/stream/shared.rs:69-78 | After a closing was confirmed no other begins, but for one that had passed its judge before. |
| `Stream.NothingPassesAWaitingClosing` | crates/br-runner-threads/src/stream/shared.rs:55-123 | While a closing waits for its outcome the chunks are those it began with, and no push is past its judge. |
| `ThreadLine.QueueInner.Enqueue` | crates/br-runner-threads/src/adapter/accept.rs:26-52 | An item goes last, its entries stop counting as dropped, and a worker must be started exactly if none runs. |
| `ThreadLine.QueueInner.TakeHead` | crates/br-runner-threads/src/adapter/deliver.rs:101-110 | The worker gets the oldest item, or ends with the mark that says one runs. |
| `ThreadLine.QueueInner.EndItem` | crates/br-runner-threads/src/adapter/deliver.rs:67-78 | The oldest item leaves, and its entries count as dropped unless it was delivered. |
| `ThreadLine.QueueInner.Look` | crates/br-runner-threads/src/adapter/ops/waits.rs:23-48 | What one look answers to a drain wait or to a wait for an entry. |
| `ThreadWorker.ExactlyOneWorker` | crates/br-runner-threads/src/adapter/accept.rs:26-63 | While the adapter is not stopped a line that is not empty has exactly one worker, running or about to be started; never two. |
| `ThreadWorker.WorkerEndsItsHead` | crates/br-runner-threads/src/adapter/deliver.rs:67-145 | A worker takes out exactly the item it attempted, the oldest in the line. |
| `ThreadWorker.NothingIsLost` | crates/br-runner-threads/src/adapter/accept.rs:12-63 | What was queued is, in order, what ended followed by what waits; numbers strictly increase; until a stop everything accepted was queued. |
| `ThreadWorker.AttemptedBehindDeliveredOpening` | crates/br-runner-threads/src/adapter/deliver.rs:111-145 | An item is attempted only after every opening of its message ahead of it was delivered. |
| `ThreadWorker.UnsentBehindRefusedOpening` | crates/br-runner-threads/src/adapter/deliver.rs:111-142 | After a refused opening every later item of its message that is no opening ends unsent. |
| `ThreadWorker.UnsentOnlyWhenRefused` | crates/br-runner-threads/src/adapter/deliver.rs:111-115 | An item ends unsent only when its message is known to be refused, and no opening does. |
| `ThreadWorker.RefusedForGood` | crates/br-runner-threads/src/adapter/deliver.rs:17-25 | No chunk is given up for a broken stream, no other item for an unavailable, lost or unreadable answer, and no opening is left unsent. |
| `ThreadWorker.AnswersMean` | crates/br-runner-threads/src/adapter/deliver.rs:116-142 | Which answers end an item delivered, which are attempted again, and which give it up. |
| `ThreadWorker.LastFailureAtHead` | crates/br-runner-threads/src/adapter/deliver.rs:71-78 | The last failure is always that of the item at the head of the line. |
| `ThreadWorker.StopQueuesNothing` | crates/br-runner-threads/src/adapter/accept.rs:26-41 | Once the adapter is stopped nothing more is queued. |
| `ThreadWaits.EntryAnswerMeans` | crates/br-runner-threads/src/adapter/ops/waits.rs:23-48 | Stored exactly if no waiting item carries the entry and every item carrying it that was in the line at or after the last queueing of the entry was delivered; dropped exactly if one of those was not; else the wait sleeps. |
| `ThreadWaits.DrainedMeansEnded` | crates/br-runner-threads/src/adapter/ops/waits.rs:15-21 | A drain wait that returned found every item queued before it was called ended. |
| `ThreadWaits.DrainAnswersExactly` | crates/br-runner-threads/src/adapter/ops/waits.rs:15-21 | A look of a drain wait answers exactly when every item queued before it was called has ended. |
| `ThreadWaits.NoWaitIsLeftAsleep` | crates/br-runner-threads/src/adapter/ops/waits.rs:101-112 | A wait whose answer is there can wake, or a signal is about to be given. |
| `ThreadTurns.Mem.EnsureTurn` | crates/br-runner-threads/src/adapter/ops/turn.rs:48-101 | Succeeds exactly if the turn is open afterwards; an opening is made only for an unknown turn and remembered only if it was accepted. |
| `ThreadTurns.Mem.PushChunk` | crates/br-runner-threads/src/adapter/ops/turn.rs:103-135 | A chunk of an open turn gets the number of chunks accepted before it; one that was not accepted leaves the turn as it was. |
| `ThreadTurns.Mem.Annotate` | crates/br-runner-threads/src/adapter/ops/annotation.rs:24-41 | An annotation is a chunk of an open turn, taken exactly if the entry before it was queued into that turn. |
| `ThreadTurns.Mem.CloseTurn` | crates/br-runner-threads/src/adapter/ops/closing.rs:24-61 | When a closing is made, when it carries a seal, and that the seal fits the chunks remembered. |
| `ThreadTurns.Mem.ForgetAgent` | crates/br-runner-threads/src/adapter/ops/waits.rs:74-83 | Exactly the turns of the agent are forgotten. |
| `ThreadTurns.LifeIsNumberedAndSealed` | crates/br-runner-threads/src/adapter/ops/turn.rs:48-135 | The items accepted for one life of a turn are one opening, chunks 0, 1, 2 and so on without gap, then at most one closing and nothing after it, whose seal has the last number and hashes exactly those chunks. |
| `ThreadTurns.MemoryIsWhatWasAccepted` | crates/br-runner-threads/src/adapter/ops/turn.rs:103-135 | Between two calls the adapter remembers of a turn exactly the chunks, the entries and the closing it accepted for it. |
| `ThreadTurns.ClosingIsSealedExactly` | crates/br-runner-threads/src/adapter/ops/closing.rs:24-61 | When a call comes to a closing, and that it carries a seal exactly if there is content and it completes the turn or no loss of it is known. |
| `ThreadTurns.AcceptedAreQueued` | crates/br-runner-threads/src/adapter/accept.rs:12-63 | What was accepted is, in its order, what the line was given. |
| `ThreadTurns.ChunkAfterItsOpening` | crates/br-runner-threads/src/adapter/deliver.rs:99-145 | A chunk is on its way to the backend only after the opening of its own life was delivered. |
| `ThreadSeals.NoSealOverALostChunk` | crates/br-runner-threads/src/adapter/ops/closing.rs:38-43 | A closing that does not complete its turn carries no seal once a chunk of that life of the turn has ended undelivered. |
| `Hooks.RunRecord.InstanceCreated` | crates/br-runner-toolkit/src/record.rs:165-173 | A reported instance is recorded with its hook still to be given out. |
| `Hooks.RunRecord.ClaimHook` | crates/br-runner-toolkit/src/record.rs:184-206 | A hook is given out at most once, with exactly the agents of its node that the book holds, or held when it was taken. |
| `Hooks.RunRecord.UnhookedInstances` | crates/br-runner-toolkit/src/record.rs:175-182 | Exactly the reported instances whose hook was not given out. |
| `Hooks.RunRecord.TakeBook` | crates/br-runner-toolkit/src/record.rs:138-145 | Taking the book changes nothing for the hooks claimed later. |
| `Hooks.RunRecord.HookReturned` | crates/br-runner-toolkit/src/record.rs:208-211 | Every mention of the instance leaves the running hooks, the others keep their order. |
| `Hooks.NeverTwice` | crates/br-runner-toolkit/src/record.rs:184-206 | In no state was the hook of an instance given out twice. |
| `Hooks.ExactlyOnceAfterBoth` | crates/br-runner-toolkit/src/exec_observer.rs:14-38 | In every interleaving, once the report of an instance and a sweep have both run, its hook was given out exactly once. |
| `Instances.InstanceMap.Insert` | crates/br-runner-toolkit/src/instances.rs:39-48 | An instance of a removed run is not taken in; otherwise it is mapped and the generation moves on. |
| `Instances.InstanceMap.RemoveRun` | crates/br-runner-toolkit/src/instances.rs:50-53 | Exactly the instances of the run go. |
| `Instances.RemovedForGood` | crates/br-runner-toolkit/src/instances.rs:39-53 | After the removal of a run returned, no interleaving with late insertions maps an instance to it. |
| `Instances.InsertedStays` | crates/br-runner-toolkit/src/instances.rs:39-53 | An inserted instance stays mapped until it is inserted anew or its run is removed. |
| `Instances.AnswerWasLive` | crates/br-runner-toolkit/src/instances.rs:65-88 | A lookup that answered had found its instance mapped to the record and, after that, the record live and so not removed. |
| `Instances.LookAnswersExactly` | crates/br-runner-toolkit/src/instances.rs:74-81 | A lookup that found a record answers with it exactly if it is live, else that the run has ended. |
| `Instances.NoLookupIsLeftAsleep` | crates/br-runner-toolkit/src/instances.rs:65-88 | A lookup whose instance is there can wake, or an insertion is about to signal. |
| `CancelOrders.Shared.RegisterRun` | crates/br-runner-toolkit/src/shared.rs:114-132 | A run is put into the registry under its token unless it is there already, and triggered at once if its order is known. |
| `CancelOrders.Shared.ForgetRun` | crates/br-runner-toolkit/src/shared.rs:138-141 | A run leaves the registry; its order stays known. |
| `CancelOrders.Shared.OrderIsMade` | crates/br-runner-toolkit/src/shared.rs:143-149 | The order is known and its run, if registered, triggered in one section. |
| `CancelOrders.Shared.OrderIsDeleted` | crates/br-runner-toolkit/src/shared.rs:151-153 | The order is no longer known; nothing triggered is undone. |
| `CancelOrders.Shared.ReplaceOrders` | crates/br-runner-toolkit/src/shared.rs:155-163 | The known orders are replaced whole and every registered run among them is triggered. |
| `CancelOrders.Shared.FollowFeed` | crates/br-runner-toolkit/src/feeds.rs:47-82 | The loop over one feed leaves the known orders that the events mean, with every order heeded throughout. |
| `CancelOrders.OldOrdersUntilComplete` | crates/br-runner-toolkit/src/feeds.rs:47-72 | A new replay keeps the old orders until it is complete. |
| `CancelOrders.KnownIsWhatStands` | crates/br-runner-toolkit/src/feeds.rs:47-72 | After the one completed replay of a feed the known orders are those whose last event made them. |
| `CancelOrders.RepeatedReplayForgets` | crates/br-runner-toolkit/src/feeds.rs:66-72 | After a repeated completion that holds if and only if no order that stands was last made before it. |
| `CancelOrders.RepeatedReplayExample` | crates/br-runner-toolkit/src/feeds.rs:66-72 | One order and two completions: the order is forgotten. |
| `CancelOrders.OrdersReachTheirRuns` | crates/br-runner-toolkit/src/shared.rs:114-163 | In every interleaving each registered run with a known order has its token triggered, and that is never undone. |
| `CancelOrders.RegisteredStays` | crates/br-runner-toolkit/src/shared.rs:114-141 | A registered run stays in the registry until it is forgotten, under the token it first came with. |
| `CancelOrders.HeardOrderTriggers` | crates/br-runner-toolkit/src/shared.rs:143-149 | An order heard of a registered run, after the feed completed its replay, triggers its token for good. |
| `ClaimSlots.OpenClaimKeepsTheSlot` | crates/br-runner-toolkit/src/slot.rs:116-190 | A slot whose claim has no final answer takes no trigger and sends no other claim id; only a final answer ends that. |
| `ClaimSlots.AnswersMean` | crates/br-runner-toolkit/src/slot.rs:123-157 | What a slot does with each answer to its claim. |
| `ClaimSlots.SendsOnlyWhenAsked` | crates/br-runner-toolkit/src/slot.rs:160-186 | A claim is sent only if the last look of the slot found the replay complete and a mode in which work is given. |
| `ClaimSlots.TakesOnlyWhenPushed` | crates/br-runner-toolkit/src/slot.rs:160-186 | A trigger is taken only if the last look of the slot found the replay complete and the push mode. |
| `ClaimSlots.ChoosesExactly` | crates/br-runner-toolkit/src/slot.rs:160-186 | When a slot waits, when it claims, under which id, and when it goes to the triggers. |
| `ClaimSlots.ClaimIdsAreApart` | crates/br-runner-toolkit/src/slot.rs:116-121 | No two slots work under the same claim id. |
| `ClaimSlots.StopSeenIsOfThisEpoch` | crates/br-runner-toolkit/src/shared.rs:165-182 | Claims are seen as stopped only if a claim begun in the mode epoch of that moment decided it. |
| `ClaimSlots.StopIsSeen` | crates/br-runner-toolkit/src/shared.rs:180-182 | Claims are seen as stopped exactly if the stop that was loaded is of the epoch it is compared with. |
| `ClaimSlots.DecidedByAClaim` | crates/br-runner-toolkit/src/slot.rs:130-151 | An epoch is decided only by a reply that stops the claims, to a claim begun in it. |
| `ClaimSlots.StopStands` | crates/br-runner-toolkit/src/shared.rs:174-182 | A stop of the current mode stands in every way to go on without a change of mode, if and only if no slot is about to store the epoch of an older one. |
| `ClaimSlots.StopCanBeLost` | crates/br-runner-toolkit/src/shared.rs:174-178 | A run in which a late store undoes the stop of the current mode. |

## Left out

- Transports, HTTP, NATS and the documents sent over them: they are the replies that the steps take as inputs.
- The contents of seals: the hash stands as the sequence of chunks it is computed from.
- The assembling of responses from deltas: it rests on a library that is not part of this model.
- Timers, keepalive timing, presence beats, pauses between attempts: a wait may end at any time; a keepalive is one more chunk.
- Panics and the abort of a drain that ran out of time: the runtime decides where a task stops; the sweep that such an abort makes is covered, as any other sweep, by the hooks.
- The mapping of a failure to its code and text: the code and cause that the closing chooses are modelled, a mapping over them is not.
- How the answer and the saved state are made of the last state of a graph: both are inputs of the closing, absent or present.
- The texts and instants of queue reports and states: a pending number keeps its write where the program keeps its name and the time of the hand-over.
- Restarting a thread adapter from its store: the items kept are queued first, as arbitrary items; what the store did while an append failed is not followed.
- Watchers of an inbox, mails and recipients: they add no ordering that the listing or the marks depend on.
- A listing whose registration is still queued is empty and over at once; the listing machine begins after that.
- Runs without a lifecycle hook: nothing is claimed then; the hook machine is that of a runner with one.
- QueueTheorems.AttemptsHaveDeliveredDependencies: speaks of the last end recorded under a key, because the table keeps one end per key and a later write with the same key overwrites it.
- QueueTheorems.DrainWaitsForAll: a follow-up that a gate adds after the call is not waited for, as in the program.
- Instances.RemovedForGood: speaks of a record; a run that is registered anew under the same id has a new record.
