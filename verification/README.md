# A model of the plugin-client bridge

The repository lets a CLAP audio plugin talk to its user interfaces, which run as gRPC clients in other
processes. Three things in it must be right whatever the threads do, and this project models them in Dafny and
proves it: the blocking ring queue, the protocol that carries the plugin's events to every client, and the path that
carries parameter changes from the clients into the audio block.

## What is modelled

**The blocking ring queue** (`src/core/blkringqueue.h`). `RingMask` has the constructor's or-and-shift loop and
the cyclic indexing it makes possible. `RingProtocol` is the queue as two threads that step between the atomic
operations of an enqueue, a dequeue or a pop (acquire, access the cell and advance the counter, count, release);
every interleaving refines a bounded FIFO. `BlkRingQueues` is the queue as an object over an array, with counters
that wrap at 2^64, each method proved to be an uninterrupted run of those steps. `BlockingEvents` is its use with
capacity 1. The semaphores are those of section 32.7.3 of ISO C++20, [thread.sema.cnt].

**From the plugin to the clients** (`src/server/shareddata.cpp`, `src/server/cqeventhandler.cpp`,
`src/server/tags/`). `Polling` describes one round of the self-rescheduling callback. `PollSystem` is the whole
protocol as a transition system: the thread of the stream completion queue delivers alarms and stream
completions and pops the queues one event at a time, while other threads push, stop or end streams at any moment.
`PollTheorems` and `PollCallbacks` state what holds over whole runs and that an uninterrupted callback is a round
of `Polling`; `PollWitnesses` has the runs that show what does not hold. `StreamTags` follows one stream and the
completions due for it to the end of its life. `SharedDatas` holds the objects, updated in place. `UnaryCalls` has the handlers of the unary calls
with their tag table, `TagTables` the table keyed by pointer hash, `Registries` the registry of plugins, and
`Hash` the hash under all their keys.

**From the clients to the audio block** (`src/server/shareddata.cpp`, `src/plugin/coreplugin.cpp`).
`ClientParams` has the time-stamp filter, the bounded queue and its drain, `CorePlugins` the parameter table and
the loop that interleaves host events with the audio of every frame, `ModuleIds` the numbering of parameters, and
`Stamps` the arithmetic of time stamps.

## Where the code does less than it seems to

The model keeps these, and says exactly when the better behaviour holds.

- `tryPop` does not count down `itemCount`. `size()` and `peek` are right, and the destructor destroys exactly the
  held items, if and only if no pop (modulo 2^64 of them) has been made or, for `peek`, an item is held:
  `RingProtocol.PeekSoundExactlyWhen`, `BlkRingQueues.CountExactlyWhen`, `BlkRingQueues.BlkRingQueue.Destroy`;
  on a fresh queue one enqueue and one pop are the counterexample: `RingProtocol.PeekAfterPopIsStale`,
  `BlkRingQueues.SizeAfterPopIsWrong`.
- A capacity of 0 wraps to a mask of all ones over an empty array; nothing can then be enqueued
  (`RingMask.ComputeMask`, `RingProtocol.EveryInterleavingIsSafe`).
- A batch no stream took is retained, but an idle round does not offer it again, even to a stream that is ready:
  `PollCallbacks.RetainedBatchGoesOutExactlyWhen` for one round, `PollTheorems.RetainedBatchWaitsForPush` over runs,
  and `PollWitnesses.IdleRoundKeepsBatchBack` for a run that gets there.
- The back-off reaches 320000 ns before it settles at 250000 ns. `PollWitnesses.BackoffOccursExactlyWhen` has all
  values that occur, `Polling.NextBackoffWithinLimitExactlyWhen` when the limit is respected, and
  `Polling.BackoffOvershoots` the step from 160000 ns that does not.
- `pollStop` is never reset, so a stop ends every later session too. After a stop a batch can still go out if and
  only if a callback is already past its checks and a registered stream is in Write
  (`PollTheorems.SendsAfterStopExactlyWhen`); then it is one batch at most (`PollTheorems.NothingSentAfterStop`), and
  it does happen (`PollWitnesses.BatchSentAfterStop`).
- A failed completion of a unary call stops the respawning of its kind only if it meets the waiting handler; then it
  stops for good: `UnaryCalls.OneWaitsExactlyUntilFailure`, as after the single failed delivery of
  `UnaryCalls.FirstFailureStopsKind`.
- A stream can be killed while completions are still due for it. How many is fixed by the event that ends its Write
  phase: `StreamTags.KillLeavesStrays`, `StreamTags.NoStraysExactlyWhen`, with `StreamTags.EndedDuringWriteDangles`
  as the counterexample. The notification that it is done reaches a destroyed stream if and only if the kill comes
  first (`StreamTags.NotificationDanglesExactlyWhen`), as it may for a client that is refused
  (`StreamTags.RefusedBeforeNotified`). A stream that is done while no write is outstanding is never killed at all:
  `StreamTags.DoneWhileIdleNeverKilled`.
- `subtractMilliseconds` borrows but never carries, so for negative amounts the result may not be normalised:
  `Stamps.MinusNormalisedExactlyWhen`, with the counterexample `Stamps.MinusOfNegativeNotNormalised`. A time before
  the epoch splits into negative nanoseconds: `Stamps.EpochSplitIsExact`, as at one nanosecond before it,
  `Stamps.SplitBeforeEpochNotNormalised`.
- An event whose time is before that of its predecessor blocks all events behind it in the block:
  `CorePlugins.LateEventBlocksTheRest`, `CorePlugins.NothingSkippedExactlyWhen`.
- A duplicate parameter id overwrites the table before the exception is thrown, which leaves the table and the
  vector in disagreement: `CorePlugins.CorePlugin.AddParameter`, with `CorePlugins.DuplicateBreaksIndex`. Number 1024 of a module is number 0 of the next:
  `ModuleIds.NumbersRunOver`, `ModuleIds.DecodesExactlyWhen`.
- Leaving without a hash removes a stream from the first plugin that has it, which is the right one exactly when
  no plugin with a smaller hash has it too: `Registries.SearchIsLookupExactlyWhen`. The counterexample,
  `Registries.SearchMissesSecondHolder`, needs a stream that asks to be connected twice. In every run in which a stream
  asks to be connected once, it is: `Registries.SearchFindsTheOwner`.

## Model

| member | source | states |
|---|---|---|
| RingProtocol.EveryInterleavingIsSafe | src/core/blkringqueue.h:65-184 | over every interleaving of any length: the items taken, held and about to be written are those submitted, in order; at most the capacity is held; tokens and item count balance; no step enabled next leaves the array, overwrites an unconsumed item, or reads or destroys a free cell |
| RingProtocol.StepRefinesFifo | src/core/blkringqueue.h:149-172 | every step is a step of a bounded FIFO: an enqueue at the write of its cell, a dequeue or pop at the read, nothing otherwise |
| RingProtocol.StepKeepsInvariant | src/core/blkringqueue.h:65-172 | slots, items and operations in flight sum to the capacity; the item count exceeds the items by the pops; the array is a cyclic window of the unconsumed items |
| RingProtocol.NoFault | src/core/blkringqueue.h:149-172 | no thread's next access goes wrong, also with a capacity below the array's size |
| RingProtocol.ThreadsNeverShareCell | src/core/blkringqueue.h:149-184 | a producer and a consumer in flight together address different cells |
| RingProtocol.NoDeadlock | src/core/blkringqueue.h:65-125 | with a positive capacity some thread can always go on |
| RingProtocol.IndicesAreCyclic | src/core/blkringqueue.h:174-184 | both masked counters are the numbers of items written and taken modulo the array's size, across the wrap-around |
| RingProtocol.EnqueueIsRun | src/core/blkringqueue.h:65-69 | an uninterrupted enqueue is the run of its four steps |
| RingProtocol.DequeueIsRun | src/core/blkringqueue.h:105-111 | an uninterrupted dequeue is the run of its four steps |
| RingProtocol.PopIsRun | src/core/blkringqueue.h:133-139 | an uninterrupted pop is the run of its three steps |
| RingProtocol.CountWithinCapacity | src/core/blkringqueue.h:141-143 | without pops `size()` is at most the capacity, and exact at rest |
| RingProtocol.CountDownUnderflowsExactlyWhen | src/core/blkringqueue.h:157-164 | `fetch_sub` finds the count at 0 if and only if the items, the one being taken and all pops add up to a multiple of 2^64 |
| RingProtocol.CountDownNeverUnderflows | src/core/blkringqueue.h:157-164 | so, while capacity and pops together are below 2^64, it finds a positive count |
| RingProtocol.PeekSoundExactlyWhen | src/core/blkringqueue.h:127-139 | a non-null `peek` of an idle consumer shows the next item if and only if one is held or no pop is outstanding in the count |
| RingProtocol.PopOfLastMakesPeekStale | src/core/blkringqueue.h:133-139 | popping the last item makes `peek` show a destroyed one |
| RingProtocol.PeekAfterPopIsStale | src/core/blkringqueue.h:127-139 | on a fresh queue one enqueue and one pop suffice for that |
| RingMask.ComputeMask | src/core/blkringqueue.h:21-33 | the loop computes one less than the least power of two that reaches the capacity; capacity 0 gives all ones |
| RingMask.SmearDoublesRun | src/core/blkringqueue.h:25-30 | or-ing a word with itself shifted doubles its run of leading ones |
| RingMask.MaskedCounterIsCyclic | src/core/blkringqueue.h:174-184 | a wrapped counter under the mask is the unwrapped count modulo mask + 1 |
| BlkRingQueues.BlkRingQueue.constructor | src/core/blkringqueue.h:21-33 | a new queue is empty and valid |
| BlkRingQueues.BlkRingQueue.TryEnqueue | src/core/blkringqueue.h:65-103 | fails exactly when full, else appends; its new state is that of the protocol's run |
| BlkRingQueues.BlkRingQueue.TryDequeue | src/core/blkringqueue.h:105-125 | fails exactly when empty, else takes the oldest item |
| BlkRingQueues.BlkRingQueue.EnqueueImpl | src/core/blkringqueue.h:149-155 | with a slot acquired, writes the cell of the write counter and counts up |
| BlkRingQueues.BlkRingQueue.DequeueImpl | src/core/blkringqueue.h:157-164 | with an item acquired, empties the cell of the read counter, counts down and releases the slot |
| BlkRingQueues.BlkRingQueue.PopImpl | src/core/blkringqueue.h:170-172 | with an item acquired, destroys the item in the cell of the read counter and does not count down |
| BlkRingQueues.BlkRingQueue.Peek | src/core/blkringqueue.h:127-131 | without pops: null exactly when empty, else the cell of the oldest item |
| BlkRingQueues.BlkRingQueue.TryPop | src/core/blkringqueue.h:133-139 | fails exactly when empty, else drops the oldest item |
| BlkRingQueues.BlkRingQueue.Destroy | src/core/blkringqueue.h:35-40 | every held item is destroyed and no free cell is, if and only if the count of pops is 0 modulo 2^64 |
| BlkRingQueues.CountExactlyWhen | src/core/blkringqueue.h:133-143 | `size()` is the number of held items if and only if the count of pops is 0 modulo 2^64 |
| BlkRingQueues.DestructionEnds | src/core/blkringqueue.h:35-40 | the destructor's loop leaves every cell free without touching a free one exactly then |
| BlkRingQueues.SizeAfterPopIsWrong | src/core/blkringqueue.h:35-40 | after one enqueue and one pop on a fresh queue `size()` is 1, nothing is held, and the destructor visits a free cell |
| BlockingEvents.BlockingEventQueue.Push | src/server/shareddata.cpp:79-82 | an event is accepted exactly when the previous one has been consumed |
| BlockingEvents.BlockingEventQueue.Verify | src/server/shareddata.cpp:59-74 | succeeds exactly on the event handed over, and consumes an unexpected one too |
| Hash.FromHashUndoesToHash | src/core/global.h:35-43 | the explicit inverse recovers the pointer |
| Hash.ToHashUndoesFromHash | src/core/global.h:35-43 | every word is the hash of its inverse |
| Hash.ToHashIsBijective | src/core/global.h:31-43 | distinct pointers never collide |
| Hash.ToHashZeroOnlyForNull | src/core/global.h:35-43 | only null hashes to 0, the value that stands for no hash |
| Hash.ToHashByArithmetic | src/core/global.h:35-43 | the hash is the five stages of the finalizer, stated by division, product and remainder with its constants |
| Hash.XorShiftIsInvolution | src/core/global.h:38-42 | each xor-shift undoes itself |
| Hash.MultiplyIsInvertible | src/core/global.h:39-41 | each multiplication is undone by the inverse of its odd constant |
| PollSystem.EveryEventIsAccountedFor | src/server/shareddata.cpp:121-204 | over every run: a queue's accepted events are those popped, then those queued; the consumed ones are, in order, the sent batches and then the retained one; all others were drained and counted |
| PollSystem.OneAlarmWhilePolling | src/server/cqeventhandler.cpp:36-84 | at rest exactly one alarm is in the table and due while polling runs, and none otherwise; all earlier functions have run, once each and in order |
| PollSystem.TableHoldsWhatIsDue | src/server/cqeventhandler.cpp:36-84 | over every run the alarm table is exactly the alarms with an undelivered completion and the one whose function runs, also when that has enqueued another; a delivered alarm is in the table and the only one due |
| PollSystem.BackoffIsDoubledOrLimit | src/server/shareddata.cpp:207-211 | over every run the back-off is the limit or the poll interval doubled at most six times |
| PollSystem.StepKeepsInvariant | src/server/shareddata.cpp:103-191 | every step keeps the accounts of events, alarms and streams |
| PollSystem.StepKeepsBalance | src/server/shareddata.h:81-120 | pushes and pops of both queues, at any moment, keep the ledger of events |
| PollSystem.StepKeepsAgenda | src/server/shareddata.cpp:103-177 | starting, re-arming, returning and ending a session keep the number of alarms |
| PollSystem.StepKeepsAudience | src/server/tags/servereventstream.cpp:24-109 | registration, broadcast, ending and killing keep every registered stream alive and every stream's record |
| PollTheorems.RegisteredStreamsAreAlive | src/server/tags/servereventstream.cpp:104-131 | a registered stream is owned by the tag table, and a stream in Write is registered |
| PollTheorems.PhaseNeverFalls | src/server/tags/servereventstream.cpp:24-71 | in the order Connect, Write, Disconnect, Finish the state of a stream never falls |
| PollTheorems.LateDeliveryFinishesOrKills | src/server/tags/servereventstream.cpp:57-68 | a completion from Disconnect on moves the stream to Finish or kills it |
| PollTheorems.AtMostTwoLateDeliveries | src/server/tags/servereventstream.cpp:57-68 | a live stream has seen at most one such completion, and then is in Finish |
| PollTheorems.StreamTransitions | src/server/tags/servereventstream.cpp:24-71 | what a completion does to a stream in each of its states, and that it leaves all other streams alone |
| PollTheorems.BatchClearedExactlyWhenTaken | src/server/shareddata.cpp:158-175 | a batch is delivered and cleared if and only if a registered stream in Write takes it, and then all such streams are sent it; else everything stays |
| PollTheorems.PushAcceptedExactlyWhen | src/server/shareddata.cpp:12-16 | a push is accepted if and only if its queue holds fewer than 64 events, and goes to its end |
| PollTheorems.StreamHoldsTheLog | src/server/tags/servereventstream.cpp:43-93 | over every run a stream was sent the log of delivered batches from the moment it entered Write, without a gap: all of it while in Write, a prefix afterwards |
| PollTheorems.StepSendsDelivered | src/server/shareddata.cpp:158-175 | in one step a stream in Write is sent exactly what is recorded as delivered |
| PollTheorems.StreamReceivesWhatIsDelivered | src/server/tags/servereventstream.cpp:85-93 | while a stream stays in Write it is sent exactly the batches delivered meanwhile |
| PollTheorems.WritersAgree | src/server/shareddata.cpp:158-175 | two streams in Write over the same interval are sent identical batches |
| PollTheorems.SendsAfterStopExactlyWhen | src/server/shareddata.cpp:139-191 | after a stop some run still sends a batch if and only if a callback is past its checks and a registered stream is in Write |
| PollTheorems.NothingSentAfterStop | src/server/shareddata.cpp:139-191 | after a stop at most one more batch is sent, and none unless a callback is past its checks, in this or any later session |
| PollTheorems.RetainedBatchWaitsForPush | src/server/shareddata.cpp:150-157 | until something is pushed no callback sends or changes the retained batch, whoever connects |
| PollTheorems.StopSucceedsWhilePolling | src/server/shareddata.cpp:179-191 | in every reachable state a stop takes effect exactly if polling runs or a stop already has |
| PollTheorems.ShutdownArmsAtMostOnce | src/server/cqeventhandler.cpp:92-122 | once all deliveries fail, the only alarm still enqueued is that of a callback already past its checks, exactly once |
| PollTheorems.ShutdownDrainEnds | src/server/cqeventhandler.cpp:92-102 | the drain loop ends: at most three failed completions per live stream, the alarms due and that one are delivered |
| PollWitnesses.BatchSentAfterStop | src/server/shareddata.cpp:139-191 | a run in which a batch goes out after the stop has succeeded |
| PollWitnesses.IdleRoundKeepsBatchBack | src/server/shareddata.cpp:150-157 | a run in which a retained batch is not sent to a stream ready for it |
| PollWitnesses.BackoffOccursExactlyWhen | src/server/shareddata.cpp:207-211 | the back-offs that occur in runs are exactly the limit and the poll interval doubled up to six times |
| PollWitnesses.BackoffBound | src/server/shareddata.cpp:207-211 | over every run the back-off is between 5000 and 320000 ns, and the maximum is reached |
| PollCallbacks.CallbackIsPollRound | src/server/shareddata.cpp:121-177 | the steps of an uninterrupted callback compute one round of the specification and leave one new alarm exactly if it says so |
| PollCallbacks.FailedDeliveryLeavesNoAlarm | src/server/shareddata.cpp:121-134 | from every reachable state a failed delivery leaves no alarm and ends polling |
| PollCallbacks.RetainedBatchGoesOutExactlyWhen | src/server/shareddata.cpp:150-175 | a retained batch with a taker goes out if and only if the callback passes its checks and finds a new event |
| PollCallbacks.SessionEndsExactlyWhen | src/server/shareddata.cpp:121-177 | from every reachable state a callback ends the session if and only if its delivery failed, no stream is registered or a stop was signalled; then no alarm is left, both queues are empty and the batch stays |
| Polling.RoundEndsSession | src/server/shareddata.cpp:123-148 | for each reason to end: polling stops, both queues are drained, nothing is sent or armed, and only a stop ends the streams in Write |
| Polling.RoundGoesOn | src/server/shareddata.cpp:150-176 | otherwise the batch grows by both queues; it goes to every registered stream in Write, is cleared and the wait is reset if there is a new event and such a stream, else it is retained and the wait grows; one alarm is armed with that wait |
| Polling.RoundOutcome | src/server/shareddata.cpp:121-177 | the callback is armed again exactly if the session goes on |
| Polling.NextBackoffWithinLimitExactlyWhen | src/server/shareddata.cpp:207-211 | the next back-off is within the limit if and only if doubling stays within it or the limit had been reached |
| Polling.BackoffOvershoots | src/server/shareddata.cpp:207-211 | from 160000 ns the back-off goes to 320000 ns and only then settles at the limit |
| Polling.NextBackoffIsBackoff | src/server/shareddata.cpp:207-211 | the values that can occur are closed under backing off |
| Polling.BroadcastOneMore | src/server/shareddata.cpp:161-164 | the broadcast decomposes into one `sendEvents` per stream |
| StreamTags.KillLeavesStrays | src/server/tags/servereventstream.cpp:24-109 | over every life of a stream, killing it leaves exactly the completions fixed when it left Write, so none reaches the destroyed stream if and only if there are none |
| StreamTags.NotificationDanglesExactlyWhen | src/server/tags/servereventstream.cpp:14-18 | over every life of a stream, its notification reaches a destroyed stream if and only if the kill comes before it |
| StreamTags.RefusedBeforeNotified | src/server/tags/servereventstream.cpp:33-37 | a life in which it does: a refused client is killed by the completion of its finish |
| StreamTags.NoStraysExactlyWhen | src/server/tags/servereventstream.cpp:49-102 | with at most one write outstanding, there are none exactly if the stream is ended with no write outstanding, a write fails, or it is done during one |
| StreamTags.EndedDuringWriteDangles | src/server/tags/servereventstream.cpp:85-109 | ending a stream during a write leaves a completion for the destroyed stream |
| StreamTags.DoneWhileIdleNeverKilled | src/server/tags/servereventstream.cpp:14-17 | a stream that is done while no write is outstanding stays in the table for good |
| StreamTags.StepIsStreamEvent | src/server/tags/servereventstream.cpp:24-109 | every step of the protocol takes each of its streams one step along such a life, or leaves it alone |
| SharedDatas.ServerEventStream.SendEvents | src/server/tags/servereventstream.cpp:85-93 | a batch is written exactly in Write, and then one more completion is due |
| SharedDatas.ServerEventStream.EndStream | src/server/tags/servereventstream.cpp:95-102 | only a stream in Write is ended, and then the completion of its alarm is due |
| SharedDatas.CqEventHandler.EnqueueFn | src/server/cqeventhandler.cpp:36-59 | adds one fresh alarm with the given delay |
| SharedDatas.CqEventHandler.DestroyAlarmTag | src/server/cqeventhandler.cpp:71-84 | removes exactly that alarm, if it is there |
| SharedDatas.SharedData.AddStream | src/server/shareddata.cpp:27-31 | reports whether the stream was new |
| SharedDatas.SharedData.RemoveStream | src/server/shareddata.cpp:33-37 | reports whether the stream was there |
| SharedDatas.SharedData.ConsumeEventToStream | src/server/shareddata.h:81-120 | the whole queue moves to the end of the batch, in order, and is counted |
| SharedDatas.SharedData.DrainPollingQueue | src/server/shareddata.cpp:194-204 | both queues are emptied and every discarded event is counted |
| SharedDatas.SharedData.PumpEvents | src/server/shareddata.cpp:158-164 | broadcasts to all streams; succeeds exactly if one was in Write |
| SharedDatas.SharedData.EndStreams | src/server/shareddata.cpp:212-218 | ends every registered stream in Write and no other |
| SharedDatas.SharedData.PollCallback | src/server/shareddata.cpp:121-177 | updates the fields, the streams and the alarms as the round of the specification says; without streams, and for every other reason to end, polling stops, both queues are empty and no alarm is added; otherwise exactly one is, with the new wait |
| SharedDatas.SharedData.TryStartPolling | src/server/shareddata.cpp:103-119 | starts exactly if there are a plugin and streams, polling does not run and a queue is served; arms one alarm |
| SharedDatas.SharedData.StopPoll | src/server/shareddata.cpp:179-191 | sets the signal exactly while polling runs |
| SharedDatas.SharedData.ProcessAlarm | src/server/tags/eventtag.cpp:33-42 | runs the callback once, then removes its own alarm and leaves the one the callback armed |
| SharedDatas.SharedData.Teardown | src/server/cqeventhandler.cpp:92-102 | the drain loop over the alarms ends with none left, both queues drained and no stream touched |
| UnaryCalls.OneWaitsExactlyUntilFailure | src/server/tags/clientparamcall.cpp:18-38 | after any run exactly one handler of a kind waits if and only if no failed delivery has met a waiting handler of that kind; once one has, nobody waits |
| UnaryCalls.EveryCompletionHasItsHandler | src/server/tags/clientparamcall.cpp:18-38 | over every run each live handler has exactly one completion due and nobody else has any; every handler created is alive or was destroyed exactly once; whatever is due can be delivered |
| UnaryCalls.DeliverKeepsInvariant | src/server/tags/clienteventcall.cpp:16-36 | a delivery finds its handler alive and keeps the accounts of completions and lives |
| UnaryCalls.DeliverMovesWaiting | src/server/tags/clienteventcall.cpp:16-36 | a delivery leaves one handler of the kind waiting unless it fails at that handler |
| UnaryCalls.RunGoesOn | src/server/tags/clientparamcall.cpp:18-38 | no run is cut off by demanding that a completion finds its handler alive |
| UnaryCalls.InitEstablishesInvariant | src/server/server.cpp:53-54 | the server starts with one waiting handler of each kind |
| UnaryCalls.FirstFailureStopsKind | src/server/tags/clientparamcall.cpp:18-21 | one failed delivery to the first handler: nobody of its kind waits any more, and the other kind goes on |
| UnaryCalls.TagTable.constructor | src/server/cqeventhandler.cpp:13-18 | the table starts empty |
| UnaryCalls.TagTable.Start | src/server/server.cpp:53-54 | the server creates one handler of each kind, which establishes the invariant |
| UnaryCalls.TagTable.CreateHandler | src/server/cqeventhandler.cpp:133-167 | creation fails exactly if the address is already in use, never by a collision of keys |
| UnaryCalls.TagTable.DestroyTag | src/server/cqeventhandler.cpp:62-69 | removes exactly the tag with that key |
| UnaryCalls.TagTable.ProcessTag | src/server/tags/clientparamcall.cpp:18-38 | the hash-keyed table follows the transition system |
| TagTables.KeyedLookup | src/server/cqeventhandler.cpp:62-69 | a key is found exactly if its address is present |
| TagTables.KeyedInsert | src/server/cqeventhandler.cpp:133-149 | inserting by key is inserting by address |
| TagTables.KeyedErase | src/server/cqeventhandler.cpp:62-69 | erasing by key is erasing by address |
| Registries.SearchFindsTheOwner | src/server/serverctrl.cpp:112-151 | in every run the search without a hash does what the lookup with the owner's hash does, and fails without effect exactly if there is no owner |
| Registries.SearchIsLookupExactlyWhen | src/server/serverctrl.cpp:128-151 | search and lookup agree if and only if no plugin with a smaller hash has the stream |
| Registries.SearchMissesSecondHolder | src/server/serverctrl.cpp:85-151 | after two plugins were added and a stream connected to both, the search takes it from the one with the smaller hash and leaves it at the other |
| Registries.SearchTakesFirstHolder | src/server/serverctrl.cpp:139-147 | with a stream at two plugins the search is the lookup of the first of them and not of the second |
| Registries.KeysNameTheirPlugins | src/server/serverctrl.cpp:85-97 | every key of the registry is the hash of its own plugin, which is not null |
| Registries.StepKeepsHolders | src/server/serverctrl.cpp:85-151 | a stream sits with at most one plugin |
| Registries.ServerCtrl.AddPlugin | src/server/serverctrl.cpp:85-97 | registers the plugin without streams under its hash unless that is taken; then nothing changes |
| Registries.ServerCtrl.RemovePlugin | src/server/serverctrl.cpp:99-110 | refuses the hash 0 and unknown hashes; else that hash is no longer registered, and every other entry stays |
| Registries.ServerCtrl.ConnectClient | src/server/serverctrl.cpp:112-121 | succeeds exactly if the plugin is registered and does not have the stream; then it has it, and nothing else changes |
| Registries.ServerCtrl.DisconnectClient | src/server/serverctrl.cpp:128-151 | the search loop removes the stream from the first plugin that has it, or from none; with a hash, from that plugin only; no other stream moves |
| ClientParams.ClientParamsEndToEnd | src/server/shareddata.cpp:85-99 | however batches and drains interleave: popped then queued events carry kind, id and value of the strict running maxima of what the run offered, in order; the last stamp is the maximum; every known parameter is at the value offered by the newest popped maximum naming it, or untouched |
| ClientParams.DrainTakesWhatWasSent | src/server/wrappers.h:97-106 | if the events carry what was sent, the drained parameters are at the newest values sent |
| ClientParams.AcceptedAreRecords | src/server/shareddata.cpp:87-93 | the filter accepts exactly the strict running maxima |
| ClientParams.LastIsMaximum | src/core/timestamp.h:26-33 | the stored stamp is the maximum of all seen |
| ClientParams.OffersCompose | src/server/shareddata.cpp:85-99 | the batching does not matter |
| ClientParams.ReplayIsRefused | src/server/shareddata.cpp:88-93 | nothing offered before is ever accepted again |
| ClientParams.ValuesAreNewest | src/plugin/coreplugin.cpp:154-165 | a drain leaves each known parameter at the newest value naming it, or untouched, and changes no modulation |
| ClientParams.ClientParamQueue.PushWaiting | src/server/shareddata.cpp:94-97 | an event is pushed as soon as there is room, once, behind everything accepted before |
| ClientParams.ClientParamQueue.PushClientParam | src/server/shareddata.cpp:85-99 | the batch's records are appended in order with their kinds, ids and values, whatever the audio thread pops meanwhile |
| CorePlugins.CorePlugin.Process | src/plugin/coreplugin.cpp:192-231 | drains all client changes unless the host refuses an echo, handles exactly the longest sorted prefix of events inside the block, each once and in order, calls audio once per frame with exactly the events due by then applied, and returns the status of the last call |
| CorePlugins.CorePlugin.ProcessFrame | src/plugin/coreplugin.cpp:211-229 | one frame: the events at it, then one call of audio with exactly their effect applied |
| CorePlugins.CorePlugin.ProcessFrames | src/plugin/coreplugin.cpp:203-231 | the same for the loop over the frames, with the calls it makes and their last status |
| CorePlugins.CorePlugin.ProcessEventsAt | src/plugin/coreplugin.cpp:213-224 | the inner loop handles exactly the events at its frame |
| CorePlugins.ValueIsLastSet | src/plugin/coreplugin.cpp:240-258 | after any events a known parameter has the value of the last core value event naming it, or its own |
| CorePlugins.ModulationIsLastSet | src/plugin/coreplugin.cpp:260-278 | likewise its modulation is that of the last core modulation event naming it |
| CorePlugins.ReportsAreCalledFor | src/plugin/coreplugin.cpp:233-305 | each report is made exactly as often as the events call for it: changes of known parameters, and notes |
| CorePlugins.ReportsKeepOrder | src/plugin/coreplugin.cpp:210-224 | reports are made in the order of the events |
| CorePlugins.EchoesAreChanges | src/plugin/coreplugin.cpp:159-180 | every change of a known parameter is echoed as often as it was sent, and nothing else is |
| CorePlugins.EchoesKeepOrder | src/plugin/coreplugin.cpp:154-181 | in the order they were sent |
| CorePlugins.CorePlugin.ProcessEvent | src/plugin/coreplugin.cpp:233-320 | sets the named parameter, or nothing, and makes exactly the reports called for |
| CorePlugins.CorePlugin.ProcessGuiEvents | src/plugin/coreplugin.cpp:154-190 | a prefix of the queue is drained and applied, and each change of a known parameter in it is echoed to the host, in order; it is the whole queue unless the host refuses such an echo |
| CorePlugins.HandledPrefixIsUnique | src/plugin/coreplugin.cpp:210-231 | the prefix a block handles is determined by the events and the block's length |
| CorePlugins.NothingSkippedExactlyWhen | src/plugin/coreplugin.cpp:210-231 | all events are handled if and only if they are sorted and inside the block |
| CorePlugins.LateEventBlocksTheRest | src/plugin/coreplugin.cpp:213-224 | an event out of order blocks all behind it |
| CorePlugins.CorePlugin.AddParameter | src/plugin/coreplugin.cpp:374-389 | succeeds exactly on a fresh id, and only then do table and vector still agree |
| CorePlugins.DuplicateBreaksIndex | src/plugin/coreplugin.cpp:382-384 | adding one id twice leaves the table with a parameter that is not in the vector |
| CorePlugins.CorePlugin.GetParameterByIndex | src/plugin/coreplugin.cpp:391-396 | the parameter whose own index that is |
| CorePlugins.CorePlugin.GetParameterById | src/plugin/coreplugin.cpp:398-404 | finds every parameter of the vector by its id, and nothing else |
| CorePlugins.Parameter.SetValue | src/plugin/parameter/parameter.h:36-36 | changes the value only |
| CorePlugins.Parameter.SetModulation | src/plugin/parameter/parameter.h:37-37 | changes the modulation only |
| ModuleIds.DecodesExactlyWhen | src/plugin/modules/module.cpp:6-15 | a parameter id leads back to module and number if and only if the number is below 1024 and the module below 2^22 |
| ModuleIds.DistinctWithinRange | src/plugin/modules/module.cpp:6-15 | within these ranges ids of distinct parameters differ |
| ModuleIds.NumbersRunOver | src/plugin/modules/module.cpp:6-15 | outside they need not |
| ModuleIds.Module.AddParameter | src/plugin/modules/module.cpp:11-28 | names that are too long are refused before the plugin is touched, a duplicate id after its table has been overwritten; otherwise the parameter is registered under its 32-bit id |
| ModuleIds.RegisterAll | src/plugin/modules/module.cpp:11-28 | parameters numbered within the ranges, each once, are all registered, in order, whatever modules they belong to |
| Stamps.OrderIsOrderOfTime | src/core/timestamp.h:22-22 | on normalised stamps the order is that of time |
| Stamps.DeltaIsExact | src/core/timestamp.h:34-42 | the difference is exact and normalised |
| Stamps.MinusIsExact | src/core/timestamp.h:44-54 | exactly the given milliseconds are removed, also negative ones |
| Stamps.MinusNormalisedExactlyWhen | src/core/timestamp.h:44-54 | the result is normalised if and only if the amount is not negative or does not carry |
| Stamps.MinusOfNegativeNotNormalised | src/core/timestamp.h:44-54 | a stamp and an amount for which it is not |
| Stamps.DeltaUndoesMinus | src/core/timestamp.h:34-54 | the distance to a stamp moved back by m milliseconds is m milliseconds |
| Stamps.EpochSplitIsExact | src/core/timestamp.h:154-163 | the split of a clock reading is exact, and normalised unless it is before the epoch and off a whole second |
| Stamps.SplitBeforeEpochNotNormalised | src/core/timestamp.h:154-163 | one nanosecond before the epoch it is not |
| Stamps.NoOverflow | src/core/timestamp.h:34-54 | within 2^62 seconds of the epoch no intermediate result leaves 64 bits |
| Stamps.StampCell.SetIfNewer | src/core/timestamp.h:26-33 | the stamp moves exactly to a later one |
| Stamps.StampCell.SubtractMilliseconds | src/core/timestamp.h:44-54 | the in-place form computes the exact difference |

## Left out

- gRPC: transport, timing of alarms, the limit of one outstanding write, a second `Finish`, and the memory of the notification of a finished stream; a completion is delivered later, with some `ok`.
- `farbot::fifo`: its internals are not part of this model; it is a bounded queue of 64 whose push fails when full.
- The overwriting mode of the main-thread queue: only accepted pushes that are not overwritten are counted.
- Weak memory and timing: atomics are sequentially consistent, a wait is a step that is enabled once it can succeed, and a timeout may strike at any time.
- `BlkRingQueue`'s default constructor, move and swap: they do not carry the semaphores, so no invariant survives them.
- The objects that `new T[]()` constructs in the cells before the first enqueue, and the array itself, which the destructor does not free.
- The broadcast to all streams is one step of the transition system; other threads act before or after it, not between two streams.
- `endCallback` is a static lambda bound to the first instance that polls; one `SharedData` is modelled.
- That a retained batch is sent eventually: it need not be, as `PollWitnesses.IdleRoundKeepsBatchBack` shows, so only its safety is stated.
- Spurious failures: section 32.7.3 of ISO C++20 lets `try_acquire` fail although the counter is positive; here it succeeds exactly when it can, in these three members and in the hand-over built on them.
- BlkRingQueues.BlkRingQueue.TryEnqueue: a spurious failure may refuse an item although there is room.
- BlkRingQueues.BlkRingQueue.TryDequeue: a spurious failure may return nothing although an item is held.
- BlkRingQueues.BlkRingQueue.TryPop: a spurious failure may drop nothing although an item is held.
- PollSystem.StepKeepsAudience: a stream completion is delivered only to a stream still alive, and a notification likewise; the ones that reach a destroyed stream end the run, and StreamTags says exactly when there are any of either.
- Ending a stream from another thread is one step, although the code reads and writes the state separately, so the stream's own thread could act in between.
- SharedDatas.SharedData.Teardown: it serves the alarms only; the stream completions in the same queue are bounded by `PollTheorems.ShutdownDrainEnds`.
- `Server::start` and `stop` with their threads, and `teardown` while `run` still serves the same queue.
- The life of a `SharedData` after its plugin is removed: streams of a removed plugin keep it alive, the registry's entries are values here.
- Malformed hash strings, logging, settings, process and window handles, and the start of the user interface.
- PollTheorems.NothingSentAfterStop: one more batch is allowed, because the code sends it exactly in the case of `PollTheorems.SendsAfterStopExactlyWhen`, and `PollWitnesses.BatchSentAfterStop` is a run in which it does.
- CorePlugins.CorePlugin.ProcessEvent: an event cookie must be null or the registered parameter the event names, since anything else terminates the plugin; the room in the process queue and the conversion of values to text or decibels are not modelled.
- CorePlugins.CorePlugin.Process: parameter values are real numbers without rounding, and what the root module computes, also its status, is arbitrary.
- The contents of the echo event sent to the host, and the copying of fields into protobuf messages: events are opaque payloads.
- `sendEventNow`, `findStream`, `addCorePlugin` and the counters of streams and plugins: no modelled operation calls them, and the counters only read the size of a container.
