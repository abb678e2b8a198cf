# LLM message queue: queues, scheduling and balancing

A Dafny model of the in-memory logic of an LLM message queue written in Go, with proofs about whole
runs of it. `dafny verify dfyconfig.toml` checks everything.

Each part comes in two layers. The operations are first functions on values, and a step relation built
from them describes the interleavings of their locked sections, with a step for every store call made
between two of them; the theorems about runs are proved there. The objects that the Go code updates in
place (heap items with back-pointers, resources, endpoints, conversations, index lists) are classes and
arrays, and each method is proved to do exactly what its function says, so the theorems are about the
methods too.

| files | what they model |
|---|---|
| `Messages`, `BinaryHeap`, `HeapOrder`, `MultiLevelQueue`, `QueueManager` | messages, container/heap with back-pointers, named bounded queues with counters, rules and batches |
| `WorkerProtocol`, `WorkerProgress`, `Worker` | producers and any number of workers on one queue, retries and backoff |
| `DeadLetterQueue` | dead letters and sending them back by position |
| `DelayedQueue` | the timer loop with its cached next item |
| `LevelScan` | the scan from realtime to low |
| `Resources`, `ResourceScheduler`, `PendingProtocol` | least-loaded placement, the pending queue and its drains |
| `Selection`, `BalancerProtocol`, `LoadBalancer` | selection strategies, session affinity, endpoint groups |
| `Autoscaler` | the scaling ticks that drive the load balancer |
| `Conversations`, `ConversationProtocol`, `ConversationHistory`, `ConversationRuns`, `StateManager` | conversations as a write-through cache over a store |
| `Collections`, `Arithmetic` | a few general facts about sets, sequences and powers |

Time, random draws, processing outcomes, store failures and map iteration order are inputs or
arbitrary choices. Loads, scores, error rates and backoff factors are reals; counts are unbounded
integers.

## Where the code is not what one would expect

The model follows the code in each of these. In brackets are the members that say exactly when it
happens, and concrete runs in which it does.

- A retry re-pushes a message without lowering ProcessingCount and ignores the push error, so the
  counter runs ahead (`CountersInEveryRun`) and a full queue loses the message (`LostIffRetryRefused`,
  `RetryLosesMessage`).
- `BatchRequeue` addresses items by position, so a repeated index can hit an item that has moved into
  the slot and requeue one nobody listed (`CallersIndicesAreExactIff`, `CallersStrangersStay`,
  `RepeatTakesTheNext`).
- Releasing or expiring an allocation halves the load but never lowers Used (`UseIsWhatWasGranted`,
  `ReleaseRestoresIff`, `ReleasedButRefused`).
- A release or expiry that leaves a load below 0.01 puts an offline or faulty resource back into use, and a
  heartbeat never does (`StaysDownIff`, `ReleaseRevivesOffline`).
- A pending request with a timeout but no queueing time, which no code sets, stops the program when a
  drain reaches it (`ProcessPendingRequests`, `WaitingRequestStops`).
- A drain appends its survivors behind whatever was queued meanwhile (`QueueStaysInOrderIff`,
  `ArrivalsBreakOrderIff`, `InterleavedDrainBreaksOrder`).
- The scan from realtime to low locks one level at a time, so it can return a low message with a
  realtime one queued (`ScanReturnsLeastThroughout`, `OvertakenScan`).
- `Clear` leaves the delayed loop's cached item stale. The loop never oversleeps for it
  (`NeverOversleeps`), but once that item is due it spins (`SpinsIff`, `WithoutClearNoSpin`, `ClearMakesItSpin`).
- A request served by session affinity does not count as a connection, but its release does
  (`ConnectionsAreExactIff`, `SessionRequestsAreNotCounted`).
- A failed selection of an endpoint returns with the mutex held (`SelectEndpoint`, `NoneUsable`).
- Adaptive scaling with unset limits indexes the endpoint list below zero in business hours
  (`UnsetLimitsGoOutOfRange`), and a tick dereferences the statistics of four named queues
  (`ScheduleResources`, `LowIsMissing`).
- Where the scaling thresholds cross, a tick with more pending than the upper one can take an endpoint away
  (`DynamicFollowsLoad`, `CrossedThresholds`).
- Two overlapping calls of GetConversation, or of GetUserConversations, can overwrite a conversation with
  an older one (`CleanThroughoutIff`, `InsertIsCleanIff`, `OneCallAtATimeIsClean`, `OverlappingCallsLose`,
  `DeletedComesBack`).
- The cleanup deletes a conversation it has collected even if it is no longer expired by then
  (`SweepDeletesExpiredIff`, `UsedIsSwept`).
- A conversation whose store delete fails comes back with its old content (`DeletedStartsEmpty`).

## Model

| member | source | states |
|---|---|---|
| BinaryHeap.PushAdds | internal/priorityqueue/queue.go:22-40 | a push keeps the order on (Priority, Timestamp) and adds exactly the new item |
| BinaryHeap.PopTakesLeast | internal/priorityqueue/queue.go:22-50 | a pop takes out exactly one item, one that nothing queued precedes, and the rest is still a heap |
| HeapOrder.DrainSorts | internal/priorityqueue/queue.go:22-50 | popping until empty yields a sorted permutation of what was queued |
| HeapOrder.FifoWithinPriority | internal/priorityqueue/queue.go:22-50 | however pushes with increasing timestamps and pops are mixed: what has been popped of a priority, then what a drain would still give of it, is exactly what was pushed of it, in that order |
| BinaryHeap.Exchange | internal/priorityqueue/queue.go:29-33 | swapping two slots swaps both back-pointers, so every Index is still its slot |
| BinaryHeap.Up | internal/priorityqueue/queue.go:22-40 | sifting up over item objects is the sift on values, Index fields included |
| BinaryHeap.Down | internal/priorityqueue/queue.go:22-50 | sifting down over item objects is the sift on values, taking the right child only when strictly less |
| BinaryHeap.PushItem | internal/priorityqueue/queue.go:35-40 | appending and sifting an item object is the heap push on values; every Index is its slot afterwards |
| BinaryHeap.PopItem | internal/priorityqueue/queue.go:42-50 | the popped object is the root, its Index becomes -1, the others keep Index equal to slot |
| MultiLevelQueues.PopReturnsLeast | internal/priorityqueue/queue.go:121-151 | a pop returns what Peek showed, a least entry of its level, and touches no other level; an empty level is reported and unchanged |
| MultiLevelQueues.EveryRunKeepsLevels | internal/priorityqueue/queue.go:78-139 | after any sequence of operations every level is a heap within its bound, PendingCount is its length, and Pending + Processing + Completed + Failed is the number of accepted pushes |
| MultiLevelQueues.CountersMatchLedger | internal/priorityqueue/queue.go:78-211 | in any run a queue is there if and only if it was added, and each of its four counters is what an account says that counts accepted pushes, successful pops, completions and failures since |
| MultiLevelQueues.PushIsAccepted | internal/priorityqueue/queue.go:92-139 | a push says whether the queue is missing or full, and otherwise adds exactly its entry to that queue alone; a pop of a missing queue finds it empty |
| MultiLevelQueues.MultiLevelQueue.constructor | internal/priorityqueue/queue.go:70-76 | a new queue has no levels |
| MultiLevelQueues.MultiLevelQueue.AddQueue | internal/priorityqueue/queue.go:78-90 | adds an empty level once; an existing level is left alone |
| MultiLevelQueues.MultiLevelQueue.Push | internal/priorityqueue/queue.go:92-119 | missing queue and full queue are refused without a change; otherwise one item is heap-pushed and PendingCount rises, on item objects |
| MultiLevelQueues.MultiLevelQueue.Pop | internal/priorityqueue/queue.go:121-139 | the object-level pop is the heap pop of that level, one count moves from Pending to Processing; a missing queue reads as empty |
| MultiLevelQueues.MultiLevelQueue.Peek | internal/priorityqueue/queue.go:141-151 | the root without removing it, or the empty error |
| MultiLevelQueues.MultiLevelQueue.Size | internal/priorityqueue/queue.go:153-163 | the number of queued items, or the not-found error |
| MultiLevelQueues.MultiLevelQueue.CompleteMessage | internal/priorityqueue/queue.go:197-203 | one count moves from Processing to Completed on that queue only |
| MultiLevelQueues.MultiLevelQueue.FailMessage | internal/priorityqueue/queue.go:205-211 | one count moves from Processing to Failed on that queue only |
| QueueManagers.FirstMatchingRuleWins | internal/priorityqueue/queue_manager.go:451-466 | the first rule whose condition holds sets the priority, and no rule leaves it |
| QueueManagers.BatchPushFillsRoom | internal/priorityqueue/queue_manager.go:246-287 | a batch push accepts exactly the longest prefix there is room for and adds exactly those messages |
| QueueManagers.BatchPopIsSortedPrefix | internal/priorityqueue/queue_manager.go:326-367 | a batch pop returns exactly the first entries of what a full drain would give, as many as asked for or as there are |
| QueueManagers.TakeManyStops | internal/priorityqueue/queue_manager.go:326-367 | stopping the batch at the first failed pop loses nothing: further pops would change nothing |
| QueueManagers.CreatedQueueHolds | internal/priorityqueue/queue_manager.go:170-188 | a new queue accepts as many messages as asked for, as the default says when nothing positive was asked for, or any number if neither is positive; existing queues are untouched |
| QueueManagers.TakeNamesMissing | internal/priorityqueue/queue_manager.go:290-323 | a pop reports a missing queue as missing, and only that |
| QueueManagers.QueueManager.CreateQueue | internal/priorityqueue/queue_manager.go:170-188 | a new queue gets its own bound or the default one; an existing queue is left alone |
| QueueManagers.QueueManager.DeleteQueue | internal/priorityqueue/queue_manager.go:191-207 | removes exactly the named queue, or reports it missing |
| QueueManagers.QueueManager.ApplyPriorityRules | internal/priorityqueue/queue_manager.go:451-466 | the loop overwrites the priority as the rules say and nothing else |
| QueueManagers.QueueManager.PushMessage | internal/priorityqueue/queue_manager.go:210-243 | rules are applied before the bound is checked, so a refused message keeps its new priority; a missing queue leaves it alone |
| QueueManagers.QueueManager.BatchPushMessages | internal/priorityqueue/queue_manager.go:246-287 | the loop offers every message in order, counts the accepted ones and skips the refused ones; a message listed more than once has been through the rules once more each time |
| QueueManagers.QueueManager.PopMessage | internal/priorityqueue/queue_manager.go:290-323 | the pop of the named queue; a missing queue is reported as missing |
| QueueManagers.QueueManager.BatchPopMessages | internal/priorityqueue/queue_manager.go:326-367 | the loop pops until the count is reached or a pop fails, and returns what it popped in order |
| QueueManagers.QueueManager.CompleteMessage | internal/priorityqueue/queue_manager.go:370-394 | counts a completion on the named queue |
| QueueManagers.QueueManager.FailMessage | internal/priorityqueue/queue_manager.go:397-419 | counts a failure on the named queue |
| WorkerProtocol.StepKeeps | internal/priorityqueue/worker.go:109-239 | every step of producers and workers keeps all of: heap and bound, each accepted message in one place, the counters, the recorded retries |
| WorkerProtocol.EveryMessageIsInOnePlace | internal/priorityqueue/worker.go:128-239 | under every interleaving an accepted message is in exactly one of pending, in flight, completed, failed, dropped, and no other message is anywhere |
| WorkerProtocol.DroppedIffFull | internal/priorityqueue/worker.go:202-239 | a step drops a message if and only if it is a failing call with retries left and the bounded queue is full |
| WorkerProtocol.LostIffRetryRefused | internal/priorityqueue/worker.go:202-239 | in every run the messages lost are exactly those that some retry could not push back |
| WorkerProtocol.UnboundedLosesNone | internal/priorityqueue/worker.go:202-239 | with no bound on the queue no run loses a message |
| WorkerProtocol.RetryLosesMessage | internal/priorityqueue/worker.go:202-239 | a concrete run: an accepted message with a retry left is lost, and ProcessingCount stays at 1 with nothing in flight |
| WorkerProtocol.CountersInEveryRun | internal/priorityqueue/worker.go:128-239 | Pending is the queue length, Completed and Failed are exact, the four add up to the accepted pushes, and Processing exceeds the messages in flight by exactly the retry branches taken, so it is exact if and only if none was |
| WorkerProtocol.WorkersAreBounded | internal/priorityqueue/worker.go:95-160 | at most MaxConcurrent messages of a worker are being processed, and once Stop returns none it popped is in flight |
| WorkerProtocol.CallsUseUpPotential | internal/priorityqueue/worker.go:162-239 | each processing call, failing or not, strictly lowers the calls that remain; no other worker step changes them |
| WorkerProtocol.CallsAreBounded | internal/priorityqueue/worker.go:162-239 | without new submissions the number of processing calls is bounded by the sum of max(1, 1 + MaxRetries - RetryCount) over live messages |
| WorkerProtocol.StepsAreBounded | internal/priorityqueue/worker.go:109-239 | nor is only the number of calls bounded: without new submissions all other steps than ticks, two for each tick, and cancellations number at most a quantity computed from the first state |
| WorkerProgress.RestsMeansSettled | internal/priorityqueue/worker.go:109-160 | when nothing is left but submissions, cancellation and ticks over an empty queue, and some worker still runs, every accepted message is completed, failed or dropped |
| WorkerProtocol.AfterFailureMeans | internal/priorityqueue/worker.go:202-239 | what the three outcomes of a failure (retried, dropped, given up) do to queue, counters and message |
| WorkerProtocol.SubmittedIff | internal/priorityqueue/queue_manager.go:210-243 | a submission is accepted if and only if there is room, and then waits with the priority the rules give it, otherwise as submitted |
| WorkerProgress.CanSettle | internal/priorityqueue/worker.go:109-239 | no message is ever stuck: from any state a run can get to, with a worker still going, some continuation without submissions, cancellations or stops settles every accepted message |
| WorkerProgress.CanStop | internal/priorityqueue/worker.go:95-160 | a worker can always be stopped: from any state a run can get to, its own steps without another tick can bring it to the exit of its loop with all its processing done |
| WorkerProgress.RoundTakesBatch | internal/priorityqueue/worker.go:128-160 | an uninterrupted round of a worker takes exactly what a batch pop of MaxBatchSize takes |
| Workers.NextBackoff | internal/priorityqueue/worker.go:274-313 | the loop computes the delay before a given retry, for both strategies |
| Workers.GrownIsPower | internal/priorityqueue/worker.go:274-290 | the growing delay is initial times factor to the power of the retry number less one |
| Workers.DelayIsPower | internal/priorityqueue/worker.go:274-313 | the delay of retry n is initial times factor^(n-1) without its fraction, cut off at the maximum; a fixed one is the same for every retry |
| Workers.BackoffIsMonotoneAndCapped | internal/priorityqueue/worker.go:274-290 | delays of actual retries never shrink and never exceed the maximum; retry number 0 obeys the maximum if and only if the initial delay does |
| Workers.Worker.UpdateMetrics | internal/priorityqueue/worker.go:242-255 | Processed stays Success + Failure |
| Workers.Worker.HandleFailure | internal/priorityqueue/worker.go:202-239 | the method on objects does what the protocol step says, schedules by the backoff, and on a deleted queue loses the message |
| Workers.Worker.HandleSuccess | internal/priorityqueue/worker.go:191-199 | counts one completion on the queue, nothing else |
| Workers.Worker.ProcessMessage | internal/priorityqueue/worker.go:162-188 | metrics plus exactly one of the two outcomes, on the same queue and message; on a deleted queue success changes nothing else and failure still counts the retry |
| DeadLetterQueues.DistinctRequeueIsExact | internal/priorityqueue/dead_letter_queue.go:218-258 | with distinct indices a batch removes exactly the in-range listed items whose push was accepted, keeps the others in order, and counts them |
| DeadLetterQueues.DistinctAreReset | internal/priorityqueue/dead_letter_queue.go:231-249 | the messages whose retry count is reset are those of all listed items in range, whether or not their push was accepted |
| DeadLetterQueues.RequeueConserves | internal/priorityqueue/dead_letter_queue.go:218-258 | whatever the indices: the count is the number of items gone, none is lost or duplicated, and each source queue grew by its own |
| DeadLetterQueues.RepeatsAreExactIff | internal/priorityqueue/dead_letter_queue.go:231-249 | with room for every push, repeated indices still requeue exactly the listed items if and only if no repeated position has an unlisted later one |
| DeadLetterQueues.CallersIndicesAreExactIff | internal/priorityqueue/dead_letter_queue.go:218-258 | for any list a caller gives, in any order: with room everywhere exactly the listed items go back if and only if no index in range is given twice while a later position is not given |
| DeadLetterQueues.CallersDistinctIndices | internal/priorityqueue/dead_letter_queue.go:218-258 | for any distinct indices, in any order: exactly the listed items go back whose push was accepted |
| DeadLetterQueues.OnlyListedLeave | internal/priorityqueue/dead_letter_queue.go:218-258 | whatever room there is, if no repeated position has an unlisted later one, only listed items leave, and the others keep their order |
| DeadLetterQueues.CallersStrangersStay | internal/priorityqueue/dead_letter_queue.go:218-258 | the same for any list a caller gives, in any order |
| DeadLetterQueues.RepeatTakesTheNext | internal/priorityqueue/dead_letter_queue.go:231-249 | a concrete case: index 0 given twice requeues two items, one of them not listed |
| DeadLetterQueues.SortedDistinctIsStrict | internal/priorityqueue/dead_letter_queue.go:261-270 | sorting distinct indices gives a strictly descending list |
| DeadLetterQueues.SortIndices | internal/priorityqueue/dead_letter_queue.go:261-270 | the in-place exchange sort leaves a descending permutation |
| DeadLetterQueues.DeadLetterQueue.Push | internal/priorityqueue/dead_letter_queue.go:62-119 | refuses with QueueFull at the bound and keeps every item; otherwise appends one item with the message's retry count |
| DeadLetterQueues.DeadLetterQueue.Remove | internal/priorityqueue/dead_letter_queue.go:134-154 | cuts out exactly the addressed item, or reports a bad index without a change |
| DeadLetterQueues.DeadLetterQueue.Requeue | internal/priorityqueue/dead_letter_queue.go:187-215 | one item goes back with its retry count reset and rules applied, and is removed only if the push was accepted |
| DeadLetterQueues.DeadLetterQueue.BatchRequeue | internal/priorityqueue/dead_letter_queue.go:218-258 | sorts the caller's indices in place and requeues position by position, so the lemmas above describe it |
| DelayedQueues.PopReadyTakesEarliest | internal/priorityqueue/delayed_queue.go:139-150 | a due pop takes the earliest item, less than a millisecond before its time |
| DelayedQueues.NeverOversleeps | internal/priorityqueue/delayed_queue.go:114-161 | in every run with Clear at any moment, a waiting loop with items queued has its timer at or before the earliest item, or goes off at once |
| DelayedQueues.ReleasesAreInOrder | internal/priorityqueue/delayed_queue.go:139-196 | no release is 1 ms or more early, nothing still in the heap was earlier, and no item is released more often than it was scheduled |
| DelayedQueues.EveryItemIsAccountedFor | internal/priorityqueue/delayed_queue.go:110-258 | in every run each item that has arrived is waiting, cleared or released, as often as it arrived |
| DelayedQueues.TimerIsExact | internal/priorityqueue/delayed_queue.go:127-167 | in every run the timer is set for the very moment the cached item is due, at once if that has passed, and for a day ahead if there is none |
| DelayedQueues.FireReleases | internal/priorityqueue/delayed_queue.go:139-196 | as long as nothing was cleared no check is in vain: a timer that goes off for a cached item, or an item found due, releases the earliest item, and not early |
| DelayedQueues.SpinsIff | internal/priorityqueue/delayed_queue.go:114-150 | the loop can go round without time passing, anything arriving or anything being released, whichever way the round goes, if and only if its cached item is due and nothing in the heap is within a millisecond |
| DelayedQueues.SpinsOnClearedItem | internal/priorityqueue/delayed_queue.go:114-150 | what it spins on is no longer in the heap, and was cleared |
| DelayedQueues.WithoutClearNoSpin | internal/priorityqueue/delayed_queue.go:114-150 | a loop whose queue has never been cleared does not spin |
| DelayedQueues.ClearMakesItSpin | internal/priorityqueue/delayed_queue.go:252-258 | a concrete run: Clear after an item is cached leaves the loop spinning on an empty heap |
| DelayedQueues.DelayedQueue.Receive | internal/priorityqueue/delayed_queue.go:176-182 | the item object is heap-pushed by ReadyAt |
| DelayedQueues.DelayedQueue.RefreshNext | internal/priorityqueue/delayed_queue.go:118-125 | the cached item is replaced when missing or later than the root, on objects |
| DelayedQueues.DelayedQueue.PopDue | internal/priorityqueue/delayed_queue.go:139-150 | pops the root object if and only if it is due within a millisecond |
| DelayedQueues.DelayedQueue.Peek | internal/priorityqueue/delayed_queue.go:239-250 | the earliest message and its time |
| DelayedQueues.DelayedQueue.Clear | internal/priorityqueue/delayed_queue.go:252-258 | empties the heap and leaves the cached item stale |
| LevelScan.SubmitKeepsRouting | cmd/api-gateway/main.go:105-107 | printing the priority as queue name keeps every entry in the queue of its own priority |
| LevelScan.SubmitAcceptedIff | cmd/api-gateway/main.go:105-107 | with the four levels there a submission is accepted if and only if its priority is one of the four and that level has room |
| LevelScan.ScanPopsFirstFull | cmd/queue-manager/main.go:111-124 | the scan pops the first level that has anything and no other |
| LevelScan.ScanFailsOnlyWhenEmpty | cmd/queue-manager/main.go:111-124 | the scan fails exactly when all four levels are empty or missing |
| LevelScan.PopKeepsRouting | cmd/queue-manager/main.go:111-124 | popping keeps the routing |
| LevelScan.ScanIsGlobalPop | cmd/queue-manager/main.go:111-124 | on routed levels the scan is the pop of one global priority queue: it returns the least (Priority, Timestamp) entry of all four levels and removes exactly that |
| LevelScan.SubmitAdds | cmd/api-gateway/main.go:105-107 | an accepted submission adds exactly its entry to the four queues taken together |
| LevelScan.RunsRefineOneQueue | cmd/queue-manager/main.go:111-124 | with scans that nothing interrupts, in every run of routed arrivals and scans the four queues behave as one priority queue |
| LevelScan.ScanReturnsLeastThroughout | cmd/queue-manager/main.go:76-124 | with any number of workers scanning and messages arriving, one level at a time: what a scan returns goes before everything queued throughout the scan, is taken out exactly once, and is the least of all at that moment if and only if the levels passed are empty by then |
| LevelScan.ScanFailsOnlyIfEachWasEmpty | cmd/queue-manager/main.go:76-124 | a scan fails only if each level was empty when visited; so nothing was queued throughout |
| LevelScan.LeastIffEarlierEmpty | cmd/queue-manager/main.go:111-124 | the root of a level is the least of all four if and only if the levels before it are empty |
| LevelScan.SharedRunsStayReady | cmd/queue-manager/main.go:76-124 | every interleaving keeps the routing and the heaps |
| LevelScan.VisitsAreScan | cmd/queue-manager/main.go:111-124 | the visits of one scan with nothing in between are the scan |
| LevelScan.OvertakenScan | cmd/queue-manager/main.go:76-124 | a concrete run: realtime is seen empty, a realtime message arrives, and the scan returns the low one |
| LevelScan.ScanLevels | cmd/queue-manager/main.go:111-124 | the loop over the queue object is that scan |
| Resources.AllocateKeepsRange | internal/scheduler/resource_scheduler.go:620-657 | allocating what fits keeps Used within Capacity for every type and Load at most 1 |
| Resources.AllocateShrinks | internal/scheduler/resource_scheduler.go:620-657 | what a resource can take after an allocation it could take before |
| Resources.SentinelHidesNothing | internal/scheduler/resource_scheduler.go:336-374 | in range, the search fails exactly when no resource is eligible |
| Resources.SumSharesAnyOrder | internal/scheduler/resource_scheduler.go:660-688 | the load does not depend on the order in which the map of types is walked |
| Resources.LoadIsTheCommonShare | internal/scheduler/resource_scheduler.go:660-688 | a resource that has the same share of every type in use has that share as its load |
| Resources.LoadAtMost | internal/scheduler/resource_scheduler.go:660-688 | the load is no more than the greatest share of any type in use |
| Resources.LoadAtLeast | internal/scheduler/resource_scheduler.go:660-688 | and no less than the least one |
| Resources.NothingToUse | internal/scheduler/resource_scheduler.go:660-688 | with nothing to use the load is 0 |
| Resources.FullIff | internal/scheduler/resource_scheduler.go:660-688 | nothing overcommitted, the load is 1 if and only if there is something to use and every type of it is fully in use |
| Resources.GrantRaisesLoad | internal/scheduler/resource_scheduler.go:641-688 | granting n of one type raises the load by n / (its capacity times the number of types with a capacity), whatever was reported before; of a type without capacity by nothing |
| Resources.BusyOverNineTenths | internal/scheduler/resource_scheduler.go:641-657 | a grant that brings every type to one share makes the resource busy if and only if that is over nine tenths or it was |
| Resources.LoadAfterReleases | internal/scheduler/resource_scheduler.go:247-258 | k releases leave the load times 0.5^k, and make the resource available once that is below a hundredth; nothing else changes |
| Resources.LeastLoadedIsChosen | internal/scheduler/resource_scheduler.go:336-374 | of two eligible resources exactly those can be chosen that are no more loaded than the other |
| ResourceSchedulers.EveryRunStaysInRange | internal/scheduler/resource_scheduler.go:138-268 | over every run of register, update, heartbeat, grant, end and missed heartbeat nothing is overcommitted, loads stay at most 1, and allocation fails exactly when nothing is eligible |
| ResourceSchedulers.DrainLeavesNothingAllocatable | internal/scheduler/resource_scheduler.go:433-474 | after an uninterrupted drain no request left in the queue could be allocated, not even with the pool as it is at the end |
| ResourceSchedulers.DrainIsGrants | internal/scheduler/resource_scheduler.go:433-474 | a drain does to the resources what its grants one by one do |
| ResourceSchedulers.TimesOutIff | internal/scheduler/resource_scheduler.go:452-458 | in a drain a request times out if and only if it has a timeout and its turn comes more than that after it was queued |
| ResourceSchedulers.LastReportHolds | internal/scheduler/resource_scheduler.go:138-199 | a resource is what was last reported of it, by registration, status update, heartbeat or a missed heartbeat, until something else happens to it, whatever happens to others |
| ResourceSchedulers.UseIsWhatWasGranted | internal/scheduler/resource_scheduler.go:238-268 | until a resource reports its use, its use of every type is what it started with plus the needs of everything ever granted on it, whatever was released or expired since |
| ResourceSchedulers.FitsBesideAllGranted | internal/scheduler/resource_scheduler.go:238-268 | so a request fits if and only if it fits beside everything ever granted there |
| ResourceSchedulers.EligibleIff | internal/scheduler/resource_scheduler.go:346-366 | after any such run a request can be placed on a resource if and only if it fits, the resource is neither offline nor faulty, and was registered for the type with every capability asked for |
| ResourceSchedulers.ReleaseRestoresIff | internal/scheduler/resource_scheduler.go:247-258 | allocating and releasing restores the use if and only if nothing was needed |
| ResourceSchedulers.ReleasedButRefused | internal/scheduler/resource_scheduler.go:238-268 | a concrete run: the only allocation has been released, and the same request is refused |
| ResourceSchedulers.StaysDownIff | internal/scheduler/resource_scheduler.go:247-258 | an offline or faulty resource stays out of use exactly until it is reported up, or an allocation on it ends while its load is below 0.02; no heartbeat brings it back |
| ResourceSchedulers.ReleaseRevivesOffline | internal/scheduler/resource_scheduler.go:247-258 | a concrete run: a resource that missed its heartbeat is released, and the next request is placed on it |
| ResourceSchedulers.WaitingRequestStops | internal/scheduler/resource_scheduler.go:452-458 | a concrete case: a request with a timeout waits without a queueing time, and the next drain stops at it |
| ResourceSchedulers.InsertByPriorityAt | internal/scheduler/resource_scheduler.go:216-230 | the insertion point found by the loop is the stable one |
| ResourceSchedulers.CheckCapabilities | internal/scheduler/resource_scheduler.go:598-617 | true exactly when every required capability is there |
| ResourceSchedulers.CheckCapacity | internal/scheduler/resource_scheduler.go:620-638 | true exactly when every requirement fits next to what is in use |
| ResourceSchedulers.CalculateLoad | internal/scheduler/resource_scheduler.go:660-688 | the mean share in use over types of positive capacity, whatever order the map is walked in |
| ResourceSchedulers.UpdateAfterAllocation | internal/scheduler/resource_scheduler.go:641-657 | adds every requirement, recomputes the load, and marks busy above 0.9 |
| ResourceSchedulers.ResourceScheduler.RegisterResource | internal/scheduler/resource_scheduler.go:138-162 | registers once, as available and unloaded; a duplicate changes nothing |
| ResourceSchedulers.ResourceScheduler.UpdateResourceStatus | internal/scheduler/resource_scheduler.go:165-179 | status, load and heartbeat time of that resource only |
| ResourceSchedulers.ResourceScheduler.Heartbeat | internal/scheduler/resource_scheduler.go:182-199 | load and heartbeat time, and Used if reported |
| ResourceSchedulers.ResourceScheduler.FindBest | internal/scheduler/resource_scheduler.go:336-374 | the loop finds an eligible resource of least load, or none exactly when none can be picked |
| ResourceSchedulers.ResourceScheduler.TryAllocateResource | internal/scheduler/resource_scheduler.go:336-398 | grants on such a resource and records the allocation, or changes nothing |
| ResourceSchedulers.ResourceScheduler.RequestResource | internal/scheduler/resource_scheduler.go:202-235 | grants at once or inserts the request in priority order behind its equals |
| ResourceSchedulers.ResourceScheduler.ReleaseResource | internal/scheduler/resource_scheduler.go:238-268 | forgets the allocation and halves the load of its resource, leaving Used alone |
| ResourceSchedulers.ResourceScheduler.CheckAllocations | internal/scheduler/resource_scheduler.go:495-522 | ends exactly the allocations whose time is up |
| ResourceSchedulers.ResourceScheduler.CheckResourceStatus | internal/scheduler/resource_scheduler.go:477-492 | marks offline exactly the resources whose heartbeat is too old |
| ResourceSchedulers.ResourceScheduler.ProcessPendingRequests | internal/scheduler/resource_scheduler.go:433-474 | takes the queue out; each request is timed out, granted a least loaded resource or kept, and the kept ones come back in order; a request with a timeout and no queueing time stops the program at its turn, and the requests after it are gone |
| PendingProtocol.InsertTicketIsInsert | internal/scheduler/resource_scheduler.go:216-230 | the protocol's insertion is the scheduler's |
| PendingProtocol.EveryRequestIsInOnePlace | internal/scheduler/resource_scheduler.go:202-235 | with any drains and arrivals interleaved every request is in exactly one of queue, one drain, granted, timed out |
| PendingProtocol.InOrderIsUnique | internal/scheduler/resource_scheduler.go:216-230 | there is only one arrangement by descending priority and arrival |
| PendingProtocol.AtomicDrainsKeepOrder | internal/scheduler/resource_scheduler.go:433-474 | with uninterrupted drains the queue is always the stable sort of what waits in it |
| PendingProtocol.DrainAllIsSteps | internal/scheduler/resource_scheduler.go:433-474 | an uninterrupted drain is the run of its steps: take the queue, try each request, put the survivors back |
| PendingProtocol.AtomicIsARun | internal/scheduler/resource_scheduler.go:433-474 | so arrivals and uninterrupted drains are runs of the protocol |
| PendingProtocol.SurvivorsAreKeptOnes | internal/scheduler/resource_scheduler.go:433-474 | what such a drain leaves is what ProcessPendingRequests puts back |
| PendingProtocol.FinishKeepsOrderIff | internal/scheduler/resource_scheduler.go:466-473 | appending the survivors keeps the order if and only if the last request queued goes ahead of the first survivor |
| PendingProtocol.QueueStaysInOrderIff | internal/scheduler/resource_scheduler.go:202-235 | in every run, with any drains and arrivals interleaved, the queue has been in order all along if and only if every drain found its first survivor to rank behind the last request queued |
| PendingProtocol.ArrivalsBreakOrderIff | internal/scheduler/resource_scheduler.go:433-474 | with one drain at a time, a drain breaks the order if and only if while it ran a request arrived whose priority is not above its first survivor |
| PendingProtocol.InterleavedDrainBreaksOrder | internal/scheduler/resource_scheduler.go:433-474 | a concrete run in which a survivor ends up behind a request of lower priority |
| Selection.RoundRobinIsFair | internal/loadbalancer/load_balancer.go:381-399 | from any stored index, k picks among n endpoints choose each of them k/n times rounded down or up |
| Selection.ScanFindsLeast | internal/loadbalancer/load_balancer.go:402-419 | with no negative counts the -1 sentinel is sound: the scan finds the first least loaded endpoint |
| Selection.LeastConnectionsBalances | internal/loadbalancer/load_balancer.go:402-419 | without releases the gap between most and least loaded never exceeds max(initial gap, 1) |
| Selection.LeastConnectionsLevels | internal/loadbalancer/load_balancer.go:402-419 | exactly as many selections as connections are missing bring every endpoint to the level of the most loaded |
| Selection.LandsInOwnInterval | internal/loadbalancer/load_balancer.go:422-455 | a draw selects an endpoint exactly when it falls in that endpoint's own interval |
| Selection.WeightedRandomIsExact | internal/loadbalancer/load_balancer.go:422-455 | exactly max(1, Weight) of the draws 1..total select each endpoint, so none reaches the fallback |
| BalancerProtocol.StepKeepsGroups | internal/loadbalancer/load_balancer.go:139-210 | every locked section keeps groups non-empty, keyed by type and free of repeated ids, and seen by id changes only what it names |
| BalancerProtocol.RunKeepsGroups | internal/loadbalancer/load_balancer.go:139-210 | so in every interleaving |
| BalancerProtocol.LookupIsSound | internal/loadbalancer/load_balancer.go:501-537 | a lookup returns an endpoint that is present and usable and then only refreshes the session; otherwise the session is gone |
| BalancerProtocol.SessionIsKeptIff | internal/loadbalancer/load_balancer.go:501-558 | from the moment a session is saved for an endpoint it is that endpoint's at every moment if and only if it is not saved for another, cleared, looked up or cleaned up too late, looked up while the endpoint is gone or unusable, nor the endpoint removed: whatever happens to other sessions and endpoints |
| BalancerProtocol.SessionComesBack | internal/loadbalancer/load_balancer.go:236-241 | so a request comes back to the endpoint its session was saved for: each lookup returns that endpoint, unless it comes too late or the endpoint does not serve |
| BalancerProtocol.GoneUntilSaved | internal/loadbalancer/load_balancer.go:501-558 | a session that has ended stays gone until it is saved again, even if its endpoint is back |
| BalancerProtocol.CreationIsKept | internal/loadbalancer/load_balancer.go:540-558 | when a session was created does not change until it ends |
| BalancerProtocol.LookupsNeverDangle | internal/loadbalancer/load_balancer.go:501-558 | in every interleaving of lookup, select, save, status change and removal: a removed endpoint is not returned until added again, an unhealthy one never, and a session that cannot be honoured is deleted by its next lookup |
| BalancerProtocol.AbsentUntilAdded | internal/loadbalancer/load_balancer.go:139-210 | an absent endpoint stays absent until it is added |
| BalancerProtocol.UsableAtMeans | internal/loadbalancer/load_balancer.go:672-682 | the filtered list is exactly the healthy or degraded endpoints in group order |
| BalancerProtocol.AddedServesIff | internal/loadbalancer/load_balancer.go:139-177 | an added endpoint serves if and only if it came healthy, degraded or without a status, and nothing else about it is changed |
| BalancerProtocol.ErrorRateAfter | internal/loadbalancer/load_balancer.go:319-324 | k failures leave 1 - (1 - e) 0.9^k of an error rate e, k successes e 0.9^k |
| BalancerProtocol.ResponseTimeAfter | internal/loadbalancer/load_balancer.go:310-317 | the response time starts at the first one reported, and k more of r bring it from a to r + 0.9^k (a - r), at most ten nanoseconds less for the rounding |
| BalancerProtocol.NoReport | internal/loadbalancer/load_balancer.go:310-317 | a response time that is not positive is not counted |
| BalancerProtocol.ScoreCosts | internal/loadbalancer/load_balancer.go:465-485 | what a connection, a nanosecond of response time up to ten seconds, and a share of errors each add to the adaptive score of any endpoint |
| BalancerProtocol.AdaptiveSparesOne | internal/loadbalancer/load_balancer.go:487-498 | the adaptive strategy picks an endpoint of least score, except that one draw in ten leaves out one that is no worse |
| BalancerProtocol.NoneUsable | internal/loadbalancer/load_balancer.go:250-258 | a concrete case in which a selection fails: the only endpoint of the type is unhealthy |
| BalancerProtocol.ConnectionsAreCounted | internal/loadbalancer/load_balancer.go:234-307 | in every run Connections is selections less releases plus releases that came at zero, and never negative |
| BalancerProtocol.ConnectionsNeverExceedOutstanding | internal/loadbalancer/load_balancer.go:234-307 | if every release answers a request, Connections never exceeds the outstanding requests |
| BalancerProtocol.ConnectionsAreExactIff | internal/loadbalancer/load_balancer.go:234-307 | and it has been the number of outstanding requests at every moment if and only if no request was sent to the endpoint by session affinity |
| BalancerProtocol.SessionRequestsAreNotCounted | internal/loadbalancer/load_balancer.go:236-241 | a concrete run: requests sent by session affinity are not counted, so a release leaves Connections at 0 with one request outstanding |
| BalancerProtocol.RunsStayBalanced | internal/loadbalancer/load_balancer.go:234-294 | the gap bound holds in every run in which no other step changes an endpoint of the type, whatever happens to other types and to sessions |
| BalancerProtocol.RunsAreFair | internal/loadbalancer/load_balancer.go:262-276 | round robin's exact shares hold in every such run, as connections gained, also for an unknown strategy |
| BalancerProtocol.ElsewhereRunsAreCalm | internal/loadbalancer/load_balancer.go:234-307 | a run of selections and of steps about sessions or other types is one in which both hold |
| LoadBalancers.SortScores | internal/loadbalancer/load_balancer.go:691-700 | the in-place exchange sort leaves an ascending permutation |
| LoadBalancers.SortedIsBest | internal/loadbalancer/load_balancer.go:458-498 | first and second after sorting are a best endpoint and a best of the others |
| LoadBalancers.KindIsAsked | internal/loadbalancer/load_balancer.go:654-669 | a message gets the endpoint type it names, and an llm endpoint if it names none |
| LoadBalancers.LeastConnectionsSelect | internal/loadbalancer/load_balancer.go:402-419 | the loop is the scan with its sentinel |
| LoadBalancers.WeightedRandomSelect | internal/loadbalancer/load_balancer.go:422-455 | for a draw in 1..total the two loops land where that draw belongs |
| LoadBalancers.AdaptiveLoadSelect | internal/loadbalancer/load_balancer.go:458-498 | picks an endpoint of least score, or a best of the others on a draw below 0.1 |
| LoadBalancers.GetHealthyEndpoints | internal/loadbalancer/load_balancer.go:672-682 | the loop filters the usable endpoints in order |
| LoadBalancers.LoadBalancer.Find | internal/loadbalancer/load_balancer.go:144-150 | the nested scan over map and lists finds the one place of an id, whatever the map order |
| LoadBalancers.LoadBalancer.AddEndpoint | internal/loadbalancer/load_balancer.go:139-177 | rejects a known id without a change, otherwise appends to the group of its type, healthy if no status was given |
| LoadBalancers.LoadBalancer.RemoveEndpoint | internal/loadbalancer/load_balancer.go:180-210 | cuts the endpoint out, drops an emptied group and exactly the sessions that point to it |
| LoadBalancers.LoadBalancer.UpdateEndpointStatus | internal/loadbalancer/load_balancer.go:213-231 | changes the status of that endpoint object only |
| LoadBalancers.LoadBalancer.ReleaseEndpoint | internal/loadbalancer/load_balancer.go:297-330 | one connection less if positive, moving averages of response time and error rate |
| LoadBalancers.LoadBalancer.CheckEndpointHealth | internal/loadbalancer/load_balancer.go:588-616 | lifts an unhealthy endpoint object to degraded; shows only if it is still listed |
| LoadBalancers.LoadBalancer.GetSessionEndpoint | internal/loadbalancer/load_balancer.go:501-537 | expired, dangling and unhealthy sessions are deleted; a good one is refreshed and its endpoint returned |
| LoadBalancers.LoadBalancer.SaveSession | internal/loadbalancer/load_balancer.go:540-558 | creates or redirects the session |
| LoadBalancers.LoadBalancer.CleanupExpiredSessions | internal/loadbalancer/load_balancer.go:634-651 | the loop deletes exactly the expired sessions |
| LoadBalancers.LoadBalancer.ClearSessions | internal/loadbalancer/load_balancer.go:758-764 | forgets all sessions |
| LoadBalancers.LoadBalancer.RoundRobinSelect | internal/loadbalancer/load_balancer.go:381-399 | takes the stored index modulo the list and advances it |
| LoadBalancers.LoadBalancer.SelectEndpoint | internal/loadbalancer/load_balancer.go:246-284 | fails exactly when no endpoint of the type is usable, telling a missing group from an unusable one, and then returns with the mutex held; otherwise the strategy's choice gains one connection |
| LoadBalancers.LoadBalancer.GetEndpoint | internal/loadbalancer/load_balancer.go:234-294 | session first, then selection, then remembering the session, with the exact state after each |
| LoadBalancers.LoadBalancer.GetAllEndpoints | internal/loadbalancer/load_balancer.go:703-714 | lists the endpoints group after group, every type once, in whatever order the map is walked |
| Autoscaler.DecimalIsInjective | internal/scheduler/scheduler.go:139-141 | different numbers print differently |
| Autoscaler.DecimalReadsBack | internal/scheduler/scheduler.go:139-141 | the number in a name reads back as that number, without leading zeros |
| Autoscaler.EndpointNames | internal/scheduler/scheduler.go:139-219 | concrete cases: what the endpoints of the two strategies are called |
| Autoscaler.AddNext | internal/scheduler/scheduler.go:133-147 | with endpoints 1..n present the id n+1 is free, so AddEndpoint does not reject it, and 1..n+1 are present afterwards |
| Autoscaler.AddedServes | internal/scheduler/scheduler.go:137-146 | the added endpoint serves, with the name, type, weight and room that scaling gives it |
| Autoscaler.RemoveLast | internal/scheduler/scheduler.go:149-153 | removing the last listed endpoint leaves 1..n-1 |
| Autoscaler.NumberedLists | internal/scheduler/scheduler.go:121-122 | endpoints numbered 1 to n are listed in that order |
| Autoscaler.DynamicStaysInLimits | internal/scheduler/scheduler.go:133-153 | one tick moves by at most one, never above max unless already there, never below min once reached; it indexes below zero if and only if there are no endpoints, min is negative and it scales down |
| Autoscaler.DynamicKeepsNumbers | internal/scheduler/scheduler.go:119-156 | a dynamic tick keeps the list numbered |
| Autoscaler.AdaptiveLandsOnTarget | internal/scheduler/scheduler.go:184-250 | one adaptive tick lands exactly on its target, goes out of range if and only if the target is negative, and with min < max the target is within the limits |
| Autoscaler.UnsetLimitsGoOutOfRange | internal/scheduler/scheduler.go:202-223 | with both limits unset the adaptive tick in business hours indexes the list below zero if and only if no more is pending than the scale-up threshold |
| Autoscaler.LowIsMissing | internal/scheduler/scheduler.go:89-93 | a concrete case: statistics of three of the four queues are not enough |
| Autoscaler.ScalingKeepsNumbers | internal/scheduler/scheduler.go:119-250 | from no endpoints, under one strategy, with listings, single additions and removals and any other balancer steps interleaved: the endpoints are at every moment those numbered 1 to n, the next is always accepted, and the limits hold, for adaptive scaling if min < max |
| Autoscaler.TickUninterrupted | internal/scheduler/scheduler.go:119-250 | a listing and its additions or removals with nothing in between are the tick as a whole |
| Autoscaler.DynamicFollowsLoad | internal/scheduler/scheduler.go:119-156 | over any stretch of an interleaved run under dynamic scaling, k looks that find more pending than the upper threshold and no less than the lower make n endpoints min(max, n + k); k that find less than the lower and no more than the upper make them max(min, n - k); looks between the two leave n |
| Autoscaler.CrossedThresholds | internal/scheduler/scheduler.go:136-153 | with more pending than the upper threshold a tick at the maximum stays there if and only if no less than the lower one is pending, and otherwise takes an endpoint away |
| Autoscaler.AdaptiveFollowsHours | internal/scheduler/scheduler.go:184-250 | under adaptive scaling a look asks for max or max - 1 in business hours and for min or min + 1 at other times, as the thresholds say, and that is how many endpoints there are once the plan is carried out |
| Autoscaler.ReportedIff | internal/scheduler/scheduler.go:86-93 | the statistics a tick needs are those of the four priorities by name |
| Autoscaler.SumOfFour | internal/scheduler/scheduler.go:124-128 | with the four levels alone, what is pending is the sum of their counts |
| Autoscaler.Scheduler.TotalPending | internal/scheduler/scheduler.go:124-128 | the sum over the queues, in whatever order the map is walked |
| Autoscaler.Scheduler.ApplyDynamicScheduling | internal/scheduler/scheduler.go:119-156 | the method on the load balancer is the dynamic tick on the ids it finds listed, whatever they are |
| Autoscaler.Scheduler.ApplyAdaptiveScheduling | internal/scheduler/scheduler.go:184-250 | the two loops on the load balancer bring any list of endpoints to the target, or take out all of them and go out of range |
| Autoscaler.Scheduler.ScheduleResources | internal/scheduler/scheduler.go:84-109 | stops the program when one of the four named queues has no statistics; otherwise static does nothing, hybrid and unknown strategies scale like dynamic |
| ConversationProtocol.StepKeepsCleanIff | internal/conversation/state_manager.go:72-403 | if no store call for a conversation fails, a locked section keeps its cached and stored messages, state and metadata in agreement if and only if it is not an insertion of something the store no longer has |
| ConversationProtocol.CleanThroughoutIff | internal/conversation/state_manager.go:72-403 | so in every interleaving they agree at every moment if and only if every insertion of the conversation brings what the store has at that moment |
| ConversationProtocol.InsertIsCleanIff | internal/conversation/state_manager.go:85-113 | whatever went on between a load and its insertion, memory and store agree afterwards if and only if the stored snapshot is the same as when it was loaded; so they do if nothing saved or deleted the conversation in between |
| ConversationProtocol.OneCallAtATimeIsClean | internal/conversation/state_manager.go:72-114 | as long as calls that miss the conversation do not overlap, memory and store agree at every moment, whatever else is interleaved |
| ConversationRuns.OverlappingCallsLose | internal/conversation/state_manager.go:72-114 | a concrete run: two overlapping GetConversation calls and a message between their insertions; no store call fails and the message is lost |
| ConversationRuns.DeletedComesBack | internal/conversation/state_manager.go:85-113 | a concrete run: a conversation deleted between another call's load and insertion is back in memory |
| ConversationProtocol.SaveRestoresClean | internal/conversation/state_manager.go:117-176 | one successful save makes them agree again, whatever failed before |
| ConversationProtocol.DiscardingShowsIff | internal/conversation/state_manager.go:72-114 | discarding everything in memory changes what GetConversation shows if and only if cache and store disagree, for any user and any lists left behind |
| ConversationProtocol.LosingMemoryLosesNothingIff | internal/conversation/state_manager.go:72-403 | in every interleaving in which the store does not fail for a conversation, losing memory would lose nothing of it at any moment if and only if every insertion of it is fresh |
| ConversationProtocol.UninterruptedMeans | internal/conversation/state_manager.go:72-114 | the three parts of a call with nothing in between are GetConversation, or one load of GetUserConversations, as a whole |
| ConversationProtocol.DeletedStartsEmpty | internal/conversation/state_manager.go:222-259 | a deleted conversation starts empty again, unless the store delete failed: then the stored one comes back |
| ConversationProtocol.RunKeepsBounds | internal/conversation/state_manager.go:72-351 | in every interleaving no conversation exceeds maxContextLength, no user lists more than maxConversations or anything twice |
| ConversationProtocol.TouchPushesOutOldest | internal/conversation/state_manager.go:310-351 | listing one more pushes out at most the oldest of that user's list, archives it if in memory, and changes nothing else in memory |
| ConversationProtocol.MessagesAreTheLastSaidIff | internal/conversation/state_manager.go:72-133 | while a conversation stays in memory its messages are at every moment the last maxContextLength of everything added to it if and only if every call that overwrites it brings the messages that are there |
| ConversationHistory.RecallsTheLastGiven | internal/conversation/state_manager.go:72-351 | over whatever steps that insert nothing over a conversation: its status is the one last given, or archived if it was pushed out of a list after that, or else the one it had; each key of its metadata has the value last given; it was last active when last refreshed or spoken in, and completed when last completed or archived |
| ConversationHistory.FoundExpiredIff | internal/conversation/state_manager.go:364-394 | so a cleanup finds it expired if and only if it was created longer ago than the TTL, last used longer ago than the idle time, or last completed or archived more than a day ago and not given another status since |
| ConversationProtocol.GetGives | internal/conversation/state_manager.go:72-114 | GetConversation answers what is in memory, now active, or else the stored one as it was saved, or else a new one that is active and empty |
| ConversationHistory.ExpiredIff | internal/conversation/state_manager.go:372-394 | a conversation that nothing has been inserted over is expired at a later moment, by an earlier clock, if and only if it was too old, or was idle and has not been refreshed or spoken in, or was long done and its status has not been set |
| ConversationHistory.SweepDeletesExpiredIff | internal/conversation/state_manager.go:364-403 | what the cleanup deletes was expired by its clock when collected, and still is if and only if one of these reasons has lasted since then, or since it was last inserted over |
| ConversationRuns.UsedIsSwept | internal/conversation/state_manager.go:396-400 | a concrete run: an idle conversation is collected, then used, and deleted all the same |
| ConversationProtocol.CleanupUninterrupted | internal/conversation/state_manager.go:364-403 | with nothing in between, a cleanup deletes exactly the expired conversations |
| Conversations.DeleteOneMore | internal/conversation/state_manager.go:398-402 | expired conversations can be deleted in any order |
| Conversations.DeleteUnlists | internal/conversation/state_manager.go:222-259 | a deleted conversation leaves its owner's list as it would be without it, in order, and no other list or conversation changes |
| Conversations.GotIsListed | internal/conversation/state_manager.go:179-196 | a conversation a user has just got is among those GetUserConversations goes through, last unless it was listed before |
| Conversations.UnlistedAreStored | internal/conversation/state_manager.go:179-196 | a user without listed conversations gets the stored ones, if there is a store |
| Conversations.ContextIsTheLatest | internal/conversation/state_manager.go:290-307 | the context is the end of what was said, all of it if that is within the limit or there is none |
| StateManagers.StateManager.RefreshConversation | internal/conversation/state_manager.go:77-83 | stamps the object found; nothing shows if it has been deleted or replaced since |
| StateManagers.StateManager.LoadConversation | internal/conversation/state_manager.go:86-88 | the store call yields the snapshot unless it is missing or the call fails |
| StateManagers.StateManager.InsertListed | internal/conversation/state_manager.go:89-92 | puts the object in memory over whatever is there and lists it for the user |
| StateManagers.StateManager.GetConversation | internal/conversation/state_manager.go:72-114 | memory, then store, then a blank one; a newly held conversation is listed for the user |
| StateManagers.StateManager.AddMessage | internal/conversation/state_manager.go:117-147 | appends, slides the window and writes through |
| StateManagers.StateManager.UpdateConversationState | internal/conversation/state_manager.go:150-176 | sets the state, stamps completion for the two final states, writes through |
| StateManagers.StateManager.UpdateConversationMetadata | internal/conversation/state_manager.go:262-287 | merges the metadata and writes through |
| StateManagers.StateManager.DeleteConversation | internal/conversation/state_manager.go:222-259 | out of memory and the owner's list, and out of the store unless that fails, which is reported |
| StateManagers.StateManager.GetConversationContext | internal/conversation/state_manager.go:290-307 | the last messages up to a positive limit, or not found |
| StateManagers.StateManager.AddToActiveUsers | internal/conversation/state_manager.go:310-351 | lists once, pushes out and archives the oldest beyond the limit |
| StateManagers.StateManager.CleanupExpiredConversations | internal/conversation/state_manager.go:364-403 | deletes exactly the conversations past TTL, idle time or a day after completion, in any map order |
| StateManagers.StateManager.GetUserConversations | internal/conversation/state_manager.go:179-219 | loads what is listed and missing from memory without listing it, and returns all it finds in order |

## Left out

- HTTP handlers, configuration, logging, metrics export and the statistics getters: no behaviour of their own.
- Mutexes and deadlock: every locked region is one atomic step. That a failed selection keeps the mutex (internal/loadbalancer/load_balancer.go:250-258, 277-279) is a result of SelectEndpoint and GetEndpoint; in the balancer's runs a failed selection is no step, so they describe what happens up to the first one.
- Redis and Postgres stores and the preprocessor's text analysis: the conversation store is an abstract map of snapshots whose calls may fail for chosen ids.
- Floating point rounding and integer overflow: reals and unbounded integers stand in for them.
- Message fields that only get written (status, timestamps) and the wait and process time averages of queue statistics.
- Aliasing of returned pointers: callers that change a returned message, endpoint or conversation without the lock are not modelled, and ids and types of endpoints are constant.
- Each managed queue is one level, with its own bound, of a single MultiLevelQueue object rather than an object of its own; their levels are independent either way.
- Deleting a queue while workers run: the worker methods cover it, the worker runs fix the queue.
- Dead-letter handlers and notification channels: they receive copies and change nothing here.
- The hand-over of a released delayed message to its processor, and cancellation of the delayed loop while it waits to hand one over.
- QueueManagers.BatchPushFillsRoom: takes a batch as uninterrupted; the code locks the queue once per push, and what another caller pushes or pops in between is not in the statement.
- QueueManagers.BatchPopIsSortedPrefix: takes a batch as uninterrupted, likewise.
- DeadLetterQueues.RequeueConserves: takes a batch requeue as uninterrupted, as the other lemmas about batches of dead letters do; the dead letters are locked throughout, the source queues once per push.
- LevelScan.RunsRefineOneQueue: takes a scan as uninterrupted; scans whose levels are visited with other workers and arrivals in between are the shared runs of the lemmas after it.
- LoadBalancers.AdaptiveLoadSelect: leaves open which of several equally good endpoints is picked.
- LoadBalancers.LoadBalancer.GetEndpoint: runs its three locked sections back to back; what may happen between them is covered by the balancer's runs.
- ResourceSchedulers.ResourceScheduler.RequestResource: runs its attempt and its insertion back to back; what may happen between them is covered by the runs of PendingProtocol, where an arrival is a step of its own.
- StateManagers.StateManager.GetConversation: runs its sections back to back; what may happen between them is covered by the runs of ConversationProtocol.
- StateManagers.StateManager.GetUserConversations: runs its sections back to back, likewise.
- StateManagers.StateManager.CleanupExpiredConversations: runs its sections back to back, likewise.
- removeFromPendingQueue, allocation tokens and the scale-up and scale-down stubs of the resource scheduler.
- Hybrid scaling beyond its dynamic part only writes log lines.
- Autoscaler.ScalingKeepsNumbers: has no additions or removals of endpoints in the run but those of the scheduler.
- The health check loop that starts a check per endpoint: each check is one step, and its result is the constant success of the code.
- Conversation last-active times are in the model but not among what survives losing memory: GetConversation refreshes them without saving.
