# Hub32 control plane, verified in Dafny

A model of the stateful and algorithmic core of Hub32: the request channel to the mediasoup workers and the
maps of the SFU backend above it, command delivery from server to agent, the streaming pipeline's controller,
queue and colour converter, the text codecs, and the pools and tables that bound or record everything else.

How the model is built:

- A component that changes its fields in place is a `class` whose methods are proved equal to functions on
  values (`Abs() == F(old(Abs()))`). Each function gives the whole new state.
- What the component promises is proved about those functions, for every run. A run is any list of events; an
  event that is not enabled leaves the state alone, so no list is excluded. A critical section under a mutex is
  one step; where the source leaves the mutex between two parts (a broadcast's sends, a worker reply, the
  monitor's sweep, the stop flag of the thread pool), the parts are separate steps and may interleave with
  everything else.
- What a component holds and returns after any run is also told entry by entry from the calls and the answers they
  got, by functions on the list of events (`RequestResults`, `SfuLog`, `RegistryLog`, `SseLog`, `TicketLog`,
  `EntryOf`, `RoomHome`, `SubmittedSince`, `PushedSince`), and proved equal to the state.
- Clocks, UUIDs, replies of the worker, outcomes of SQL statements, acceptance by a connection and the order of
  hash-table iteration are parameters or free choices.
- Assumptions that a theorem needs are predicates on the run (`GoodRun`, `UniqueIds`, `FreshIds`, `Clock`,
  `QuietRun`); where a promise holds only under a condition, an if-and-only-if lemma gives the condition.

`dafny verify dfyconfig.toml` checks the project.

## What the proofs found

- `src/media/WorkerChannel.hpp:44` says that reads return nullptr after close; `channelRead` does not look at
  the flag. A read of a closed channel returns nothing exactly when everything sent has been read
  (`ClosedReadIsEmptyIff`, and `ClosedChannelIsRead` for a run in which it returns a message). Close wakes exactly the calls that are in the table when it does
  (`CloseCompletesIffListed`); a caller that passed the check of the flag before close and registers after the
  wake-up waits for its timeout (`CloseMissesLateRegistration`, `LateCallerWaits`).
- The heartbeat endpoint (`src/api/v1/controllers/AgentController.cpp:447`) dequeues commands into a reply that
  the agent (`agent/src/AgentClient.cpp:332-356`) does not read. Such commands are never executed and stay
  Dispatched in the history (`DrainedIsNeverExecuted`), as are those of a lost poll reply and those left in a batch
  when the agent stops; those are the only ways to lose one (`LosesIff`, `ExecutableIffInHand`).
- Pruning removes arbitrary entries, not the oldest: it may forget the command just queued
  (`NewestMayBePrunedIff`). A dequeue puts pruned entries back, so the history is not bounded by its limit
  (`DequeueKeepsLimitIff`, `HistoryExceedsItsLimit`).
- A heartbeat that arrives after the monitor's listing does not save the agent from being marked offline
  (`LiveAgentIsMarkedIff`); not even one that arrives after the mark, because the callback marks the agent again
  (`src/server/HttpServer.cpp:211`, `ReturnedAgentIsMarkedAgain`).
- `submit` is no transaction: if the insert fails, the earlier ticket has still been cancelled
  (`FailedSubmitChangesNothingIff`), and if the cancel statement fails unnoticed, two tickets may be pending
  (`SubmitKeepsOnePendingIff`).
- Releasing a pooled connection makes no room until an eviction finds it idle too long (`ReleaseMakesNoRoom`);
  `hostCount` counts the hosts of idle entries too, although its comment speaks of active connections; the two
  agree exactly when every host has an entry in use (`HostCountIsActiveIff`, `IdleHostIsCounted`).
- A weight of 0 in Accept-Language, "not acceptable" in section 5.3.1 of RFC 7231, is the lowest preference in
  the code, so it answers declined locales. `AnswerIsDeclinedIff` says when, branch by branch; four families of
  headers do it (`DeclinedLocaleIsAnswered`, `DeclinedBaseIsAnswered`, `DeclinedSpellingIsAnswered`,
  `DeclinedByStarIsAnswered`), and a header whose ranges without weight cover nothing on offer does not
  (`NoDeclinedAnswer`). Ranges are taken to cover locales in any letter case, and "*" to cover all (sections 2
  and 3.3.1 of RFC 4647).
- A pass replaces just the placeholders of its number exactly when their text occurs nowhere else, or is its own
  argument (`PassFillsIff`). An argument, or literal text around a filled placeholder, that forms the placeholder
  of a later argument can therefore be replaced again (`ArgumentIsReplacedAgain`, `NestedPlaceholderIsReplaced`).
- Overlapping broadcasts may reach two clients in opposite orders (`OverlapReorders`, `OverlapIsReachable`); when a
  client can still be served out of order is stated by `OrderCanBreakIff`.
- When more idle time is read than kernel and user time, the CPU usage is the low 32 bits of a quotient above 100,
  which may be negative or a plausible percentage (`UsageIsPercentageIff`, `OverrunExamples`).

## Model

| member | source | states |
|---|---|---|
| Channels.WorkerChannel.GenRequestId | src/media/WorkerChannel.cpp:28-35 | the counter steps by one modulo 2^32 and skips 0; the result is never 0 |
| Channels.GeneratedIdsDistinct | src/media/WorkerChannel.cpp:28-35 | any 2^32 - 1 consecutive ids are non-zero and distinct, and the next one repeats the first, so the bound is exact |
| Channels.WorkerChannel.Register | src/media/WorkerChannel.cpp:56-61 | a request gets a new slot without response and the table maps its id to it |
| Channels.WorkerChannel.Enqueue | src/media/WorkerChannel.cpp:63-70 | the message goes to the end of the outgoing queue |
| Channels.WorkerChannel.Notify | src/media/WorkerChannel.cpp:93-110 | a notification goes to the end of the queue, unless the channel is closed |
| Channels.WorkerChannel.ChannelRead | src/media/WorkerChannel.cpp:114-138 | the worker takes the oldest message, whether or not the channel is closed |
| Channels.WorkerChannel.Find | src/media/WorkerChannel.cpp:183-195 | a reply finds the slot that the table has for its id, or nothing |
| Channels.WorkerChannel.Resolve | src/media/WorkerChannel.cpp:197-202 | the response is stored in the slot found before, which may have left the table by then |
| Channels.WorkerChannel.Erase | src/media/WorkerChannel.cpp:84-88 | the id leaves the table and nothing else changes |
| Channels.WorkerChannel.Close | src/media/WorkerChannel.cpp:37-48 | the flag is set and exactly the slots in the table are completed, without a response |
| RequestProtocol.ReturnedResponseHasRequestedId | src/media/WorkerChannel.cpp:50-91 | in every interleaving of requests, replies, timeouts and close, request(id) returns nothing or a response whose id is id |
| RequestProtocol.StrayResponseIsDropped | src/media/WorkerChannel.cpp:183-195 | a response changes nothing exactly when its id has no pending entry (or another is being stored) |
| RequestProtocol.ReadInOrder | src/media/WorkerChannel.cpp:114-138 | in every run the worker has read a prefix of what was sent, in order and each message once; the queue is the rest |
| RequestResults.RequestReturnsLastStored | src/media/WorkerChannel.cpp:50-91 | in every run a request is over exactly when it has found the channel closed, and then returned nothing, or has left the table, and then returned the response stored for it last, or nothing if none was; stored, listed and closed are read off the events |
| RequestResults.UndisturbedRequestReturns | src/media/WorkerChannel.cpp:28-91 | from every reachable open channel without a reply in hand, a new request pushes its message, returns the reply to its id, and leaves the table |
| RequestResults.WorkerReadsPushes | src/media/WorkerChannel.cpp:63-138 | what the worker has read, followed by the queue, is exactly the messages of listed requests and notifications in the order of the pushes |
| RequestProtocol.ReturnedResponseAnswersRequest | src/media/WorkerChannel.cpp:28-35 | with an honest worker and fewer than 2^32 draws in flight, the response a request returns answers that very request's message |
| RequestProtocol.ResponseIsDeliveredIffListed | src/media/WorkerChannel.cpp:183-203 | an honest response reaches its request exactly while the request is in the table |
| RequestProtocol.WakeAllReachesTheTable | src/media/WorkerChannel.cpp:41-47 | close completes exactly the calls in the table and stores no response |
| RequestProtocol.CloseCompletesIffListed | src/media/WorkerChannel.cpp:37-91 | whatever happens after close, without a response of its own a call is completed exactly when it was completed or listed at the wake-up |
| RequestProtocol.LateCallerWaits | src/media/WorkerChannel.cpp:37-82 | a run from the start in which that leaves a request waiting after close is over |
| RequestProtocol.ClosedReadIsEmptyIff | src/media/WorkerChannel.hpp:44-45 | in every run a read of a closed channel returns nothing exactly when everything sent has been read |
| RequestProtocol.ClosedChannelIsRead | src/media/WorkerChannel.cpp:125-137 | a run in which it returns a message |
| RequestProtocol.CloseMissesLateRegistration | src/media/WorkerChannel.cpp:37-82 | a caller past the closed check that registers after the wake-up is left waiting on a closed channel |
| SfuBackend.SfuBackend.constructor | src/media/MediasoupSfuBackend.cpp:134-147 | as many workers as configured, if that is not positive as many as cores, and otherwise one |
| SfuBackend.SfuBackend.CreateRouter | src/media/MediasoupSfuBackend.cpp:222-255 | the round-robin worker, the id drawn, the request sent, and the router tracked only after an accepting reply with that id |
| SfuBackend.SfuBackend.CloseRouter | src/media/MediasoupSfuBackend.cpp:257-291 | the nested erasing loops leave exactly the maps without the router's subtree, in whatever order they iterate |
| SfuBackend.SfuBackend.CreateWebRtcTransport | src/media/MediasoupSfuBackend.cpp:309-357 | a transport is tracked under its router only after an accepting reply from the router's worker |
| SfuBackend.SfuBackend.Produce | src/media/MediasoupSfuBackend.cpp:385-425 | a producer is tracked with transport and kind only after an accepting reply |
| SfuBackend.SfuBackend.Consume | src/media/MediasoupSfuBackend.cpp:427-469 | a consumer is tracked only after an accepting reply, and reports the producer's tracked kind, or video if there is none |
| SfuBackend.SfuBackend.CloseTransport | src/media/MediasoupSfuBackend.cpp:471-496 | a notification goes to the transport's worker and the maps lose exactly the transport's subtree |
| SfuBackend.SfuBackend.EraseEntities | src/media/MediasoupSfuBackend.cpp:275-283 | erasing while iterating removes exactly the producers, kinds and consumers of a transport |
| SfuBackend.RunIsSound | src/media/MediasoupSfuBackend.cpp:79-131 | over every run the maps form a forest and the kind map has the producers as keys, even if the generator repeats ids |
| SfuBackend.FailedCreateTracksNothing | src/media/MediasoupSfuBackend.cpp:222-255 | a failed create changes no tracking map |
| SfuBackend.ClosedRouterLosesItsSubtree | src/media/MediasoupSfuBackend.cpp:257-291 | after closeRouter exactly the entities below the router are gone and the rest are as before |
| SfuBackend.ClosedTransportLosesItsSubtree | src/media/MediasoupSfuBackend.cpp:471-496 | after closeTransport exactly the transport and what is on it are gone |
| SfuBackend.OneWorkerPerEntity | src/media/MediasoupSfuBackend.cpp:88-131 | with fresh ids, over every run all messages that act on an entity go to one worker, the one that hosts its live router |
| SfuLog.RouterCreationTracks | src/media/MediasoupSfuBackend.cpp:222-255 | with an accepting reply to the next request id, the map of routers gains the new id on the round-robin worker and nothing else changes; otherwise no map does, and the error says what was missing |
| SfuLog.TransportCreationTracks | src/media/MediasoupSfuBackend.cpp:309-357 | the same for the map of transports and the router asked for |
| SfuLog.ProductionTracks | src/media/MediasoupSfuBackend.cpp:385-425 | the same for the maps of producers and kinds, the transport and the kind asked for |
| SfuLog.ConsumptionTracks | src/media/MediasoupSfuBackend.cpp:427-469 | the same for the map of consumers; the kind returned is the tracked producer's, or video |
| SfuLog.CountersAreLogged | src/media/MediasoupSfuBackend.cpp:88-94 | the round-robin counter counts the router creations, and a worker's last id is as many steps from 0 as ids were drawn for it |
| SfuLog.RoutersAreLogged | src/media/MediasoupSfuBackend.cpp:222-291 | over every run a router is tracked, on its worker, exactly from the creation that the replies made succeed until its closing |
| SfuLog.TransportsAreLogged | src/media/MediasoupSfuBackend.cpp:257-357 | a transport is tracked, on its router, exactly from its creation until it or its router is closed |
| SfuLog.ProducersAreLogged | src/media/MediasoupSfuBackend.cpp:257-496 | a producer is tracked, with transport and kind, exactly from its creation until its transport or that one's router is closed |
| SfuLog.ConsumersAreLogged | src/media/MediasoupSfuBackend.cpp:257-496 | the same of consumers |
| SfuLog.MessagesAreSent | src/media/MediasoupSfuBackend.cpp:222-496 | over every run each call that finds its worker, and a UUID if it needs one, has sent that worker one message, in order |
| SfuLog.CallsReturn | src/media/MediasoupSfuBackend.cpp:222-469 | over every run a call succeeds exactly when by the log its parent is there, it got a UUID and the reply to the next id accepts |
| SfuLog.CreatedTransportProduces | src/media/MediasoupSfuBackend.cpp:309-425 | after a successful transport creation the next produce on it with an accepting reply succeeds and is tracked with its kind |
| RoomManager.RoomManager.GetOrCreateRouter | src/media/RoomManager.cpp:24-50 | a known location gets its router without a call; otherwise a room is recorded only if the backend created a router |
| RoomManager.RoomManager.DestroyRoom | src/media/RoomManager.cpp:65-80 | the room's router is closed with its subtree and the room forgotten; an unknown location changes nothing |
| RoomManager.RoomManager.RemoveProducer | src/media/RoomManager.cpp:116-125 | the count goes down by one but never below 0 |
| RoomManager.RoomManager.Shutdown | src/media/RoomManager.cpp:13-22 | the destructor leaves no room, router, transport, producer or consumer behind |
| RoomManager.RoomsAndRoutersCorrespond | src/media/RoomManager.cpp:24-80 | over every run with unused ids, rooms and live routers correspond one to one |
| RoomManager.AccessKeepsOneToOneIff | src/media/RoomManager.cpp:34-46 | creating a room keeps the correspondence exactly when the new id is not that of a live router |
| RoomManager.RoomsAreAsLogged | src/media/RoomManager.cpp:24-80 | over every run a location has the router of the first access that created one since its room was destroyed |
| RoomManager.AccessReturns | src/media/RoomManager.cpp:24-50 | an access to a known location returns its router and asks nothing of the backend; another returns the router created or why there is none |
| RoomManager.ShutdownEmptiesTheForest | src/media/RoomManager.cpp:13-22 | closing the routers of all rooms, in any order, empties every tracking map |
| AgentRegistry.AgentRegistry.RegisterAgent | src/agent/AgentRegistry.cpp:15-38 | an empty id is refused; otherwise the agent is stored Online with both times set to now |
| AgentRegistry.AgentRegistry.UnregisterAgent | src/agent/AgentRegistry.cpp:43-49 | agent and queue go, the history stays |
| AgentRegistry.AgentRegistry.ListAgents | src/agent/AgentRegistry.cpp:71-83 | every agent exactly once, in any order |
| AgentRegistry.AgentRegistry.Heartbeat | src/agent/AgentRegistry.cpp:107-122 | the heartbeat time is set and Offline or Error becomes Online; an unknown id changes nothing |
| AgentRegistry.AgentRegistry.UpdateState | src/agent/AgentRegistry.cpp:127-137 | the state of a known agent is set, nothing else |
| AgentRegistry.AgentRegistry.QueueCommand | src/agent/AgentRegistry.cpp:146-175 | a command for a known agent is stamped, queued last and remembered, and then 1000 arbitrary entries are pruned if the history exceeds 10000 |
| AgentRegistry.AgentRegistry.DequeuePendingCommands | src/agent/AgentRegistry.cpp:185-204 | the whole queue is returned in order and marked Dispatched, the history updated, the queue left empty |
| AgentRegistry.AgentRegistry.ReportCommandResult | src/agent/AgentRegistry.cpp:212-228 | status, result, duration and completion time of a remembered command are set; an unknown id changes nothing |
| CommandDelivery.NothingLostNothingInvented | src/agent/AgentRegistry.cpp:146-204 | since the last unregistration, the dequeued commands followed by the queue are the commands submitted for the registered agent, one by one and in order, unchanged but for the status of those dequeued and a time of creation that was not set, which is that of submission |
| CommandDelivery.QueuesBelongToAgents | src/agent/AgentRegistry.cpp:43-49 | in every run a queue belongs to a registered agent and holds only its commands |
| CommandHistory.ExecutedInOrder | agent/src/main.cpp:175-194 | whatever replies are lost, an agent has executed commands submitted for it in the order of submission, each position once and unchanged but for status and a missing time of creation |
| CommandHistory.ExecutedAtMostOnce | agent/src/main.cpp:175-194 | with unique ids no command is executed twice, by one agent or by two |
| CommandHistory.HistoryMovesForward | src/agent/AgentRegistry.cpp:156-228 | over any continuation a command shows Pending, then Dispatched, then one terminal entry that never changes; a result appears only there; despite pruning and re-insertion |
| RegistryLog.AgentsAreAsLogged | src/agent/AgentRegistry.cpp:15-137 | over every run an agent is known exactly when its last registration came after its last unregistration, with the name and time of the one, the last renewal, and the state last set, Online after a registration or a heartbeat that finds it not Busy |
| RegistryLog.HistoryKnowsIff | src/agent/AgentRegistry.cpp:146-204 | a command is in the history exactly when it was queued or dequeued and not pruned since |
| RegistryLog.HistoryIsAsLogged | src/agent/AgentRegistry.cpp:146-228 | with unique ids an entry is the command as submitted, Dispatched once dequeued, and Succeeded or Failed with result, duration and time of the report once that arrived |
| LostCommands.ExecutableIffInHand | agent/src/main.cpp:175-194 | some continuation executes a dispatched command exactly when it is in an agent's batch |
| LostCommands.LosesIff | agent/src/main.cpp:175-194 | a step loses a command exactly when it dequeues it without a reply reaching the loop, or stops the loop while the command is ahead of it; a poll whose reply arrives loses nothing |
| LostCommands.DrainedIsNeverExecuted | src/api/v1/controllers/AgentController.cpp:446-463 | a command dequeued without reaching the agent's loop is never executed in any continuation and can only show Dispatched |
| HistoryPruning.NewestMayBePrunedIff | src/agent/AgentRegistry.cpp:163-174 | queueing may forget the very command it queues exactly when that command takes the history over its limit |
| HistoryPruning.DequeueKeepsLimitIff | src/agent/AgentRegistry.cpp:194-202 | a dequeue leaves the history within 10000 exactly when history and queue together name no more commands |
| HistoryPruning.HistoryExceedsItsLimit | src/agent/AgentRegistry.cpp:146-204 | a run in which the history holds 10001 commands |
| AgentLoop.AgentLoop.DispatchBatch | agent/src/main.cpp:179-194 | the commands of a poll are executed and reported in order up to the first at which a stop is found requested |
| AgentLoop.BatchIsExecutions | agent/src/main.cpp:179-194 | one pass of the loop is a sequence of the protocol's execute steps |
| HeartbeatMonitor.HeartbeatMonitor.Sweep | src/agent/HeartbeatMonitor.cpp:60-78 | the sweep marks and reports the due agents of its listing, in its order |
| HeartbeatMonitor.SweepMarksTheStale | src/agent/HeartbeatMonitor.cpp:60-78 | undisturbed, exactly the agents not offline and silent for longer than the timeout become Offline, each reported once |
| SweepInterleavings.IdleMonitorCanSweep | src/agent/AgentRegistry.cpp:71-83 | in every run agents are stored under their own ids, so a listing exists and an idle monitor can start a sweep |
| SweepInterleavings.ReportedWasStale | src/agent/HeartbeatMonitor.cpp:60-78 | in every interleaving an agent is reported only if, at the listing of that sweep, it was registered, not offline and silent for longer than the timeout |
| SweepInterleavings.MarkedWasStale | src/server/HttpServer.cpp:198-213 | the same for every step that marks an agent offline, the callback's second mark included |
| SweepInterleavings.DownForCause | src/agent/HeartbeatMonitor.cpp:60-78 | an agent that is up goes down only by unregistration, another's state update, or a mark whose sweep listed it as stale |
| SweepInterleavings.ReportedAgainCameBack | src/agent/HeartbeatMonitor.cpp:60-78 | between two reports of an agent, before the later sweep's listing, some step made it present and not offline again |
| SweepInterleavings.LiveAgentIsMarkedIff | src/agent/HeartbeatMonitor.cpp:60-72 | at either marking step, as long as the clock does not go back behind the sweep's reading, the agent's heartbeat is within the timeout exactly when it sent one, or registered, after the listing |
| SweepInterleavings.ReturnedAgentIsMarkedAgain | src/server/HttpServer.cpp:198-213 | an agent that came back after its mark goes down again at the callback |
| SweepInterleavings.LiveAgentIsMarked | src/server/HttpServer.cpp:198-213 | it does happen to an agent that falls silent, is listed and then sends a heartbeat |
| AdaptiveQuality.StreamPipeline.CheckAdaptiveQuality | agent/src/pipeline/StreamPipeline.cpp:639-769 | one check is the CPU step, the loss step and the round-trip step on indices, timers and bitrates |
| AdaptiveQuality.TickKeepsSound | agent/src/pipeline/StreamPipeline.cpp:639-769 | each check keeps the indices in 0..2, at most one timer running, and a reduced resolution only at the lowest frame rate |
| AdaptiveQuality.LevelFixesIndices | agent/src/pipeline/StreamPipeline.cpp:658-710 | frame rate and resolution index walk a single chain: their sum determines both |
| AdaptiveQuality.CpuMovesOneStep | agent/src/pipeline/StreamPipeline.cpp:647-724 | CPU load moves at most one step along the chain, down only at high load and up only at low load |
| AdaptiveQuality.TickSynchronises | agent/src/pipeline/StreamPipeline.cpp:674-681 | after a CPU or bitrate adjustment encoder and pacing bitrate equal the table's entry for the index |
| AdaptiveQuality.TickLeavesBitrateAlone | agent/src/pipeline/StreamPipeline.cpp:639-769 | without such an adjustment, or without an encoder, no bitrate is touched |
| AdaptiveQuality.TransportMoves | agent/src/pipeline/StreamPipeline.cpp:734-768 | the sample alone says whether loss moves the bitrate index up or down, and when the round trip takes one more step of frame rate |
| AdaptiveQuality.AdjustmentHasWindow | agent/src/pipeline/StreamPipeline.cpp:647-724 | before a CPU adjustment lies a window of at least the threshold in which every sample was on the same side and nothing was adjusted |
| AdaptiveQuality.AdjustsIffWindowEnds | agent/src/pipeline/StreamPipeline.cpp:647-724 | a tick adjusts to the CPU exactly when it ends a window of at least the threshold in which all samples are on its side and none adjusts, and a step is left in that direction |
| AdaptiveQuality.WindowAdjusts | agent/src/pipeline/StreamPipeline.cpp:647-724 | such a tick takes one step, down under high load and up under low load, unless the chain is at its end |
| AdaptiveQuality.AdjustmentsAreSpaced | agent/src/pipeline/StreamPipeline.cpp:653-690 | over any run with rising clock, two CPU adjustments are at least cpuThresholdSec seconds apart |
| AdaptiveQuality.QualityRecovers | agent/src/pipeline/StreamPipeline.cpp:683-757 | once load, loss and round trip stay good, all indices reach 0 within four times the threshold plus two tick gaps |
| AdaptiveQuality.QualityRecoversAfterAnyRun | agent/src/pipeline/StreamPipeline.cpp:683-757 | that holds after any earlier run |
| AdaptiveQuality.RecoveryIsStable | agent/src/pipeline/StreamPipeline.cpp:683-757 | and full quality then stays |
| AdaptiveQuality.QualityIsReduced | agent/src/pipeline/StreamPipeline.cpp:650-682 | under lasting high load, whatever loss and round trip do, frame rate and resolution are at their lowest within 4*(threshold + 2*gap) |
| AdaptiveQuality.QualityIsReducedAfterAnyRun | agent/src/pipeline/StreamPipeline.cpp:650-682 | the same bound from every reachable state |
| CpuMeter.CpuMeter.Query | agent/src/pipeline/StreamPipeline.cpp:775-811 | 0 on failure and on the first reading; else the usage between the last two readings, cast to a 32-bit int |
| CpuMeter.UsageIsPercentageIff | agent/src/pipeline/StreamPipeline.cpp:797-811 | with wrapping 64-bit counters the int returned is the busy share in percent, rounded down, as long as idle time does not exceed kernel and user time; beyond that it is the low 32 bits of a quotient above 100, and in 0..100 exactly when those bits are |
| CpuMeter.NoTimeNoUsage | agent/src/pipeline/StreamPipeline.cpp:805-806 | without kernel and user time between the readings the usage is 0 |
| CpuMeter.LongReadingsAreNotNarrowed | agent/src/pipeline/StreamPipeline.cpp:805-811 | over more than 2^33 ticks it exceeds 100 exactly when idle time exceeds kernel and user time |
| CpuMeter.OverrunExamples | agent/src/pipeline/StreamPipeline.cpp:805-811 | one idle tick too many may give -1127780072, 59 or 1844674407 |
| FrameQueue.BoundedQueue.Push | agent/src/pipeline/FrameQueue.hpp:40-49 | the item goes last, and a full queue loses its first item |
| FrameQueue.BoundedQueue.Pop | agent/src/pipeline/FrameQueue.hpp:52-60 | the first item is returned, or failure when stopped and empty |
| FrameQueue.BoundedQueue.Reset | agent/src/pipeline/FrameQueue.hpp:71-76 | the popping loop leaves a queue as new |
| FrameQueue.HoldsTheNewest | agent/src/pipeline/FrameQueue.hpp:40-76 | in every run since reset the queue holds the last k <= capacity items pushed, and an item was dropped only once capacity newer ones came |
| FrameQueue.DroppedExactlyWhenFull | agent/src/pipeline/FrameQueue.hpp:43-46 | a push drops an item exactly when the queue is full |
| FrameQueue.PopReturnsTheNext | agent/src/pipeline/FrameQueue.hpp:52-60 | a pop returns the next item in push order, never older than capacity items, and fails only when stopped with every item popped or dropped |
| FrameQueue.PushesAreLogged | agent/src/pipeline/FrameQueue.hpp:40-76 | the record of items is that of the pushes since the last reset, and the flag that of the stops |
| FrameQueue.OutputsAreDeliveries | agent/src/pipeline/FrameQueue.hpp:40-76 | the items returned are the pushed ones in push order, without those dropped |
| FrameQueue.TimestampsRise | agent/src/pipeline/StreamPipeline.cpp:368-388 | frames captured with rising timestamps reach the encoder with rising timestamps |
| ColorConverter.CpuColorConverter.Initialize | agent/src/encode/CpuColorConverter.cpp:7-18 | accepts exactly the positive even dimensions, and keeps the old ones otherwise |
| ColorConverter.CpuColorConverter.Convert | agent/src/encode/CpuColorConverter.cpp:20-60 | the loops fill the first w*h*3/2 bytes with the NV12 image, write each of them exactly once and no other byte |
| ColorConverter.CpuColorConverter.Nv12BufferSize | agent/src/encode/CpuColorConverter.cpp:62-66 | w*h*3/2, the size of the luma plane and the chroma plane |
| ColorConverter.Nv12Luma | agent/src/encode/CpuColorConverter.cpp:32-45 | byte y*w+x of the image is the luma of the three channels at y*stride+4*x |
| ColorConverter.Nv12Chroma | agent/src/encode/CpuColorConverter.cpp:47-56 | bytes h*w+(y/2)*w+x and the next are U and V of the channels at y*stride+4*x, for even x and y |
| ColorConverter.ClampsNeverAct | agent/src/encode/CpuColorConverter.cpp:41-55 | Y is in 16..235 and U, V in 16..240 as in section 2.5.3 of ITU-R BT.601-7, so the clamps never act |
| ColorConverter.GreyHasNoChroma | agent/src/encode/CpuColorConverter.cpp:49-50 | grey gives U = V = 128, black Y = 16 and white Y = 235 |
| ColorConverter.WithinOneStep | agent/src/encode/CpuColorConverter.cpp:28-31 | the fixed-point values are within one step of the exact BT.601 conversion |
| ColorConverter.RoundedToNearest | agent/src/encode/CpuColorConverter.cpp:42-54 | luma, U and V are the integers nearest to their weighted sums, halves rounded up |
| Base64.ScreenCaptureEncode | agent/src/features/ScreenCapture.cpp:640-688 | the packing loop computes the base64 encoding of its input |
| Base64.EmailEncode | src/service_email/EmailService.cpp:36-55 | the other loop computes the same encoding |
| Base64.DecodeIffEncode | agent/src/features/ScreenCapture.cpp:640-688 | decoding per section 4 of RFC 4648 gives back the input, and no other string decodes to it |
| Base64.EncodeLength | agent/src/features/ScreenCapture.cpp:640-688 | the length is 4*ceil(n/3) |
| SseFraming.FormatMessage | src/server/SseManager.cpp:36-50 | the appending loop over getline builds the framed message |
| SseFraming.ParseWire | src/server/SseManager.cpp:34-50 | a parser after sections 9.2.5 and 9.2.6 of the WHATWG HTML Standard reads any sequence of broadcasts, with heartbeats between them, as exactly those events in order |
| SseFraming.FrameParsesIffClean | src/server/SseManager.cpp:34-50 | a message parses back to its event exactly when the name has no CR or LF and the data no CR |
| SseManager.SseManager.Subscribe | src/server/SseManager.cpp:11-16 | the client goes last in the channel |
| SseManager.SseManager.Unsubscribe | src/server/SseManager.cpp:18-32 | all clients of that id leave, and an empty channel with them |
| SseManager.SseManager.Broadcast | src/server/SseManager.cpp:52-89 | alone, it counts the accepting clients and drops exactly the ids of the others |
| SseManager.NoChannelIsEmpty | src/server/SseManager.cpp:18-89 | in every run no channel is kept without clients |
| SseManager.DroppedForCause | src/server/SseManager.cpp:18-89 | a client leaves only by its own unsubscription or because a broadcast to the channel was refused under its id |
| SseManager.FinishedBroadcastReachedAll | src/server/SseManager.cpp:52-75 | a finished broadcast has reached each subscriber of its snapshot exactly once, but for those that refused it |
| SseLog.SubscribersAreAsLogged | src/server/SseManager.cpp:11-89 | in every run the subscribers of a channel are those subscribed, in order, less the ids unsubscribed or refused by a broadcast finished since |
| SseLog.BroadcastsAreAsLogged | src/server/SseManager.cpp:52-89 | a broadcast has the subscribers of its start, and has tried, and been refused by, as many as the sinks answered |
| SseLog.SendsAreAsLogged | src/server/SseManager.cpp:61-75 | what was sent is what the sinks took, in that order |
| SseLog.UndisturbedBroadcast | src/server/SseManager.cpp:52-89 | start, sends and finish with nothing in between do what Broadcast does |
| BroadcastOrder.ReceivedInOrder | src/server/SseManager.cpp:52-75 | a client to which no broadcast starts while another has yet to try it receives broadcasts in the order of their start, whatever other channels do |
| BroadcastOrder.OrderCanBreakIff | src/server/SseManager.cpp:61-71 | from any state with a client served in order, some sends break the order exactly when a broadcast has yet to try it while a later one has reached it or has yet to try it too |
| BroadcastOrder.OverlapReorders | src/server/SseManager.cpp:61-71 | overlapping broadcasts can reach two clients in opposite orders |
| BroadcastOrder.OverlapIsReachable | src/server/SseManager.cpp:52-59 | two subscriptions and two starts overlap |
| Placeholders.Substitute | src/core/I18n.cpp:178-192 | for any input, one terminating replace-all pass for each argument |
| Placeholders.ReplacePass | src/core/I18n.cpp:183-189 | the find-and-replace loop is replace-all from left to right, without searching replaced text again |
| Placeholders.PassFillsIff | src/core/I18n.cpp:183-189 | a pass fills just the placeholders of its number exactly when their text occurs nowhere else, or is the argument itself |
| Placeholders.PassesFillIff | src/core/I18n.cpp:178-192 | every pass acts token by token exactly when no literal and no argument forms the placeholder of a later argument |
| Placeholders.DistinctIsSimultaneous | src/core/I18n.cpp:178-192 | the passes equal replacing all placeholders at once, numbers without argument kept, as long as no literal and no argument forms the placeholder of a later argument |
| Placeholders.SequentialIsSimultaneous | src/core/I18n.cpp:178-192 | in particular when literals and arguments hold no opening brace |
| Placeholders.ArgumentIsReplacedAgain | src/core/I18n.cpp:178-192 | an argument that looks like a later placeholder is replaced again |
| Placeholders.NestedPlaceholderIsReplaced | src/core/I18n.cpp:178-192 | literal braces around a filled placeholder form a new one |
| LocaleNegotiation.Parse | src/core/I18n.cpp:209-253 | the loop reads the header's candidates |
| LocaleNegotiation.HeaderIsRead | src/core/I18n.cpp:209-253 | a header written from tags and quality values, with blanks around them, empty elements and other parameters before q=, is read back as just those tags, normalised, with those values, 1 if missing or unreadable |
| LocaleNegotiation.NormalizedIs | src/core/I18n.cpp:245-250 | character by character: hyphens become underscores, those before the first separator lower case, and the rest stays |
| LocaleNegotiation.LowerCaseIs | src/core/I18n.cpp:248-250 | lower case is that of the 26 letters |
| LocaleNegotiation.Match | src/core/I18n.cpp:260-277 | the three loops find the first locale in the best tier: exact, base language, region |
| LocaleNegotiation.MatchOfIs | src/core/I18n.cpp:260-277 | a tag is matched by the locale that is first in the best tier in which any fits, and unmatched only if none fits in any |
| LocaleNegotiation.FitsIff | src/core/I18n.cpp:260-277 | a locale fits if it is the tag, is what comes before its first underscore, or is the tag followed by an underscore and more |
| LocaleNegotiation.Negotiate | src/core/I18n.cpp:198-280 | the default exactly when there is no header, no locale or no match; else the match of a heaviest matching candidate, for any sort |
| LocaleNegotiation.NothingHeavierFits | src/core/I18n.cpp:255-280 | the answer is available, and no candidate heavier than the winner fits any locale |
| LocaleNegotiation.AnswersAre | src/core/I18n.cpp:255-280 | the answers that some sort gives are exactly the matches of the heaviest matching candidates, or the default if nothing matches |
| LocaleNegotiation.OfferedTagIsAnswered | src/core/I18n.cpp:245-262 | a header of one tag whose normal form is on offer is answered in that locale by every sort |
| LocaleNegotiation.ChineseIsAnswered | src/core/I18n.cpp:245-262 | zh-CN is answered in zh_CN |
| DeclinedLocales.WinnerIsDeclinedIff | src/core/I18n.cpp:259-277 | a winner with weight that is matched exactly is never declined; one without weight is exactly when a range without weight covers its match and outranks those with weight that the loops do not see; one matched as a region exactly when a longer range without weight outranks those with; one matched by its base exactly when any does |
| DeclinedLocales.AnswerIsDeclinedIff | src/core/I18n.cpp:255-280 | some sort makes the code answer a locale that the header declines exactly when one of those conditions holds of a winner, or, if nothing matches, of the default, which if available only ranges the loops do not see can decline |
| DeclinedLocales.NoDeclinedAnswer | src/core/I18n.cpp:255-280 | if no range without weight covers a locale on offer, no sort answers a declined locale |
| DeclinedLocales.DeclinedLocaleIsAnswered | src/core/I18n.cpp:198-280 | a header that only declines a locale is answered in it |
| DeclinedLocales.DeclinedSpellingIsAnswered | src/core/I18n.cpp:272-276 | a header such as en, en-us;q=0 is answered with en_US, which it declines, by every sort |
| DeclinedLocales.DeclinedByStarIsAnswered | src/core/I18n.cpp:272-279 | the header *;q=0 is answered with the default, which it declines |
| DeclinedLocales.DeclinedBaseIsAnswered | src/core/I18n.cpp:264-272 | a header such as en-US, en;q=0 is answered in the declined base language, by every sort |
| ThreadPool.ThreadPool.Enqueue | src/server/ThreadPool.cpp:17-28 | a task goes last unless the pool is stopping |
| ThreadPool.ThreadPool.Shutdown | src/server/ThreadPool.cpp:30-39 | the flag is set, and only the first call goes on |
| ThreadPool.ThreadPool.Next | src/server/ThreadPool.cpp:50-56 | a worker sleeps on an empty running pool, leaves an empty stopped one, and otherwise takes the first task |
| ThreadPool.ThreadPool.WorkerLoop | src/server/ThreadPool.cpp:46-67 | alone on a stopped pool, a worker runs all tasks in order and leaves |
| ThreadPool.StartedInEnqueueOrder | src/server/ThreadPool.cpp:17-67 | in every interleaving the accepted tasks are the started ones followed by the queue |
| ThreadPool.AllReturnedMeansAllDone | src/server/ThreadPool.cpp:17-67 | with at least one worker, once all have returned the queue is empty and every accepted task was started once, in order, and finished, even when an enqueue races the flag |
| ThreadPool.ReturnFreezesTheQueue | src/server/ThreadPool.cpp:21-53 | once a worker has returned, no task is accepted any more |
| ThreadPool.StoppingIffStopped | src/server/ThreadPool.cpp:30-36 | the pool is stopping exactly when some call has set the flag |
| ThreadPool.StoppedPoolDrains | src/server/ThreadPool.cpp:46-67 | from every reachable stopped pool with the mutex free, one idle worker alone can run all queued tasks in order and return |
| ThreadPool.CallerStepsAreEnqueue | src/server/ThreadPool.cpp:17-28 | whatever the others do in between, a caller's critical section is Enqueue at the moment it reads the flag |
| ThreadPool.WorkerStepsAreNext | src/server/ThreadPool.cpp:50-56 | whatever the others do in between, a worker's critical section is Next at the moment of its test |
| ThreadPool.NoWorkersStartNothing | src/server/ThreadPool.cpp:6-10 | without workers nothing is ever started |
| ConnectionPool.ConnectionPool.Acquire | src/core/ConnectionPool.cpp:68-126 | refused when the pool or the host is full, failed without UUID, else a new entry unless the token is in use |
| ConnectionPool.ConnectionPool.Release | src/core/ConnectionPool.cpp:136-151 | a known entry becomes idle as of now |
| ConnectionPool.ConnectionPool.EvictExpired | src/core/ConnectionPool.cpp:160-194 | exactly the entries past lifetime or idle timeout go, for any order of iteration |
| ConnectionPool.ConnectionPool.ActiveCount | src/core/ConnectionPool.cpp:201-213 | the number of entries not idle |
| ConnectionPool.ConnectionPool.HostCount | src/core/ConnectionPool.cpp:220-229 | the number of hosts of all entries |
| ConnectionPool.HostCountIsActiveIff | src/core/ConnectionPool.cpp:215-229 | the count is that of hosts with active connections, as documented, exactly when every host has an entry in use |
| ConnectionPool.IdleHostIsCounted | src/core/ConnectionPool.cpp:136-229 | after one acquire and one release a host is counted and none is active |
| ConnectionPool.PoolIsBounded | src/core/ConnectionPool.cpp:68-126 | over every run both limits hold and hostCount <= size <= hostCount*perHost |
| ConnectionPool.PoolIsAsLogged | src/core/ConnectionPool.cpp:68-194 | over every run a token has an entry exactly from the acquire that had room for it until an eviction finds it too old or idle too long, idle since its last release |
| ConnectionPool.AcquireReturns | src/core/ConnectionPool.cpp:68-126 | an acquire hands out the new token whenever pool and host are below their limits, and otherwise says what is missing |
| ConnectionPool.ReleaseMakesNoRoom | src/core/ConnectionPool.cpp:68-151 | an acquire after a release ends as it would have before it |
| ConnectionPool.EvictionMakesRoom | src/core/ConnectionPool.cpp:68-194 | once an eviction finds a released entry idle for too long, the next acquire for its host is granted |
| ConnectionPool.GrantIsForTheCallerIff | src/core/ConnectionPool.cpp:104-125 | the granted token stands for the host and port asked for exactly when it was not in use for others |
| Tickets.RowsAreConsistent | src/db/StudentRepository.cpp:318-574 | over every run, whatever fails, resolved_at is set exactly when a ticket is resolved, and is_activated, machine_id and activated_at are set or cleared together |
| Tickets.OnePendingPerSender | src/db/PendingRequestRepository.cpp:100-118 | when the cancel statement never fails unnoticed, at most one ticket per sender and type is pending |
| Tickets.SubmitKeepsOnePendingIff | src/db/PendingRequestRepository.cpp:100-150 | a submission keeps this exactly when its cancel statement ran or had nothing to cancel |
| Tickets.FailedSubmitChangesNothingIff | src/db/PendingRequestRepository.cpp:77-157 | a failed submission changes nothing exactly when it failed before cancelling or had nothing to cancel |
| Tickets.ResolutionIsFinal | src/db/PendingRequestRepository.cpp:376-523 | over any continuation a ticket keeps what was submitted, and a resolved one keeps everything |
| Tickets.BothTablesOrNeither | src/db/PendingRequestRepository.cpp:305-422 | accepting changes the subject's row and the ticket, or neither, whichever statement fails |
| Tickets.AcceptedTicketIsApplied | src/api/v1/controllers/RequestController.cpp:307-351 | with anything between reading a ticket and accepting it, an acceptance that succeeds applied the hash that the ticket asks for, to its sender |
| Tickets.DecidedOnce | src/db/PendingRequestRepository.cpp:376-523 | once resolved, a ticket is never accepted or rejected again |
| TicketLog.TicketsAreAsLogged | src/db/PendingRequestRepository.cpp:77-523 | over every run, whatever fails, a ticket has the submitted columns, and the status and time of the one statement that resolved it |
| TicketLog.StudentsAreAsLogged | src/db/StudentRepository.cpp:95-574 | a student row is as its creation, activations, resets, password changes and accepted tickets leave it |
| TicketLog.TeachersAreAsLogged | src/db/PendingRequestRepository.cpp:305-422 | a teacher's hash is the last one set or accepted |
| TicketLog.SubmissionReturns | src/db/PendingRequestRepository.cpp:77-157 | a submission succeeds exactly when its id is new and the insert runs, whether or not the cancel did |
| TicketLog.DecisionReturns | src/db/PendingRequestRepository.cpp:435-523 | accept and reject succeed exactly on a pending ticket, which then has that status and time |
| TicketLog.AcceptanceReturns | src/db/PendingRequestRepository.cpp:305-422 | an acceptance succeeds exactly when the hash has its prefix, subject and pending ticket are there, and every statement runs |
| TicketLog.ActivationReturns | src/db/StudentRepository.cpp:318-398 | an activated student is a conflict, an unknown one not found, and any other is bound when the statements run |
| TicketLog.CreationReturns | src/db/StudentRepository.cpp:95-176 | a creation is a conflict exactly when all else is in order and the tenant has the username |
| TicketLog.UnbindingReturns | src/db/StudentRepository.cpp:412-574 | resets and password changes succeed exactly for known students when the statement runs |
| Repositories.PendingRequestRepository.Submit | src/db/PendingRequestRepository.cpp:77-157 | the two statements, of which only the second's failure at its step is noticed |
| Repositories.PendingRequestRepository.AcceptAndApplyPassword | src/db/PendingRequestRepository.cpp:305-422 | with rollback on every failing path the transaction is all or nothing and is never left open |
| Repositories.PendingRequestRepository.Accept | src/db/PendingRequestRepository.cpp:435-476 | exactly a pending ticket becomes accepted |
| Repositories.PendingRequestRepository.Reject | src/db/PendingRequestRepository.cpp:482-523 | exactly a pending ticket becomes rejected |
| Repositories.StudentRepository.Create | src/db/StudentRepository.cpp:95-176 | a new row without activation; a taken username in the tenant is a conflict |
| Repositories.StudentRepository.Activate | src/db/StudentRepository.cpp:318-398 | binds exactly a known student that is not activated |
| Repositories.StudentRepository.ResetMachine | src/db/StudentRepository.cpp:412-450 | clears the three activation columns of a known student |
| Repositories.StudentRepository.ChangePassword | src/db/StudentRepository.cpp:466-519 | sets the hash and clears the activation columns |
| Repositories.StudentRepository.ApplyPasswordHash | src/db/StudentRepository.cpp:531-574 | sets the hash and clears the activation columns |

## Left out

- Progress: only safety is proved of the thread pool (the stop flag is set outside the mutex, so a wake-up can be missed) and of the request channel's wake-ups; `QualityRecovers` is bounded by time, not by scheduling.
- Channels.WorkerChannel.GenRequestId: m_nextId is one atomic counter in the source; the class steps it in two assignments, the protocol in separate draws.
- RequestProtocol.ReturnedResponseAnswersRequest: a FlatBuffers message is reduced to id, accepted flag and bytes; building and verifying buffers is not modelled.
- SfuBackend.SfuBackend.CreateRouter: counters are unbounded, so the overflow of the int round-robin counter is not modelled, nor is a closed channel; the operations that change no map (connect, pause, resume, key frames, layers, capabilities) are left out.
- CommandDelivery.NothingLostNothingInvented: one agent process per agent id; registration with its retries, the pacing of polls and heartbeats, and duplicated reports are not modelled.
- ThreadPool.ThreadPool.Shutdown: notifying and joining the workers is not in the contract; AllReturnedMeansAllDone says what holds once they have returned.
- ThreadPool.ThreadPool.WorkerLoop: the method is a worker alone on a stopped pool; a worker among others is WorkerStepsAreNext and AllReturnedMeansAllDone.
- AgentRegistry.AgentRegistry.QueueCommand: which entries pruning removes is a free choice; listOnlineAgents and agentCount are left out.
- SweepInterleavings.ReportedWasStale: listing and clock reading are one step, start and stop of the monitor thread are left out, and the database update in the callback is not modelled.
- AdaptiveQuality.StreamPipeline.CheckAdaptiveQuality: StreamPipeline.hpp is not part of this model; indices and timers start at 0 and step tables have three entries, as the guards imply. Packet loss is a real number.
- CpuMeter.UsageIsPercentageIff: assumes less than 2^55 ticks between readings.
- ColorConverter.CpuColorConverter.Convert: buffer offsets are unbounded, so an overflow of int is not modelled.
- LocaleNegotiation.HeaderIsRead: elements with an empty tag, and parameters with a q before "q=", are read by Parse as the code reads them, but what they come to is not stated.
- RegistryLog.HistoryIsAsLogged: supposes unique command ids; without them only HistoryKnowsIff is stated.
- LocaleNegotiation.Negotiate: reading a decimal weight is a parameter, without NaN; lower case is that of ASCII.
- SseManager.SseManager.Broadcast: the sink is reduced to whether it accepts; the alive flag and the heartbeat thread of a connection are not modelled.
- Repositories.PendingRequestRepository.AcceptAndApplyPassword: ROLLBACK is taken to restore the rows; listings, foreign keys and the SQL engine itself are not modelled.
- Data races: the unlocked reads in `WorkerChannel::request` and in the capture thread count as atomic.
- HTTP routing and controllers, configuration, logging, cryptography, capture, encoders, and the other repositories.
