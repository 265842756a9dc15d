# Verified model of the barrier, completion and bootstrap protocols

The library synchronizes nodes over one-sided RDMA writes. This project models its three protocol layers and proves, for
every number of nodes and every interleaving, what they are for:

* **Barriers.** Three barriers (linear, binary tree, dissemination) share one primitive: every node owns a slot of three
  counters per peer, a notification bumps a counter and writes it into the peer's slot, a wait bumps the expected value
  and polls the slot. No barrier number travels with a write. `Plans`, `BarrierSystem`, `BarrierInvariant`,
  `BarrierPreservation`, `BarrierTheorems`, `BarrierTermination`, `BarrierRuns` and `AbstractBarrier` prove safety, refinement of an
  abstract barrier, absence of deadlock and termination once for all protocols that are given by *plans* (ordered
  notifications and waits of each member) which use each directed edge at most once, notify exactly where the other side
  waits, and have a clock and a knowledge certificate. `Linear`, `BinaryTree` and `Dissemination` prove that the plans
  of the three algorithms have these properties for every group size; `Embedding` carries them from positions in a peer
  list to ranks; `Barriers` states the results for sequences of possibly different groups. A write may fail
  with or without having landed, a wait may time out, and a scatter may be posted by halves.
  `BarrierMemory` and `BarrierNode` are the stateful code itself (arrays of slots, loops, poisoning). What the peers
  write, and when, is an arbitrary function `arrivals` of time and peer that the code cannot influence; a call that
  returns Ok has seen the epoch of each of its waits arrive and has landed exactly the writes of its plan.
  `NodeInNetwork` shows that the memory of that code is the memory of a node of the network, polls with its guard and
  writes what it lands, and `EpochSlots` that the bytes written are the slots meant.
* **Completions.** Handles share a completion queue with a cache in front of it; any handle's poll may fetch the others'
  completions. `CompletionState` proves the conservation law over all histories, `QueuePolling` what a poll and a wait make
  of a queue, given what the hardware will do. `CompletionQueues` is the queue, the handles and the channel as classes,
  `PollingScopes` the scopes that wait for everything on every way out; each method is proved to do what the functions of
  `QueuePolling`, `ScopeStates` and `Batches` say. `ScopeTheorems` and `Batches` then prove what a scope leaves
  outstanding, what it reports, and that what a batch returns is what the hardware did.
* **Bootstrap.** `Framing` (length-prefixed messages), `Exchange`, `ExchangeSafety`, `ExchangeProgress` (the all-to-all
  exchange as an interleaved system of nodes and connections), `Exchanger` (its loops over streams), `ExchangeLoops` (the
  two compute the same), `Mesh` (gathering the endpoints and connecting the nodes).

`Arithmetic` and `Wrappers` hold what several modules share.

`dafny verify dfyconfig.toml` checks everything.

## Model

| member | source | states |
|---|---|---|
| Barriers.BarrierSafety | src/network/barrier/mod.rs:150-162 | in every run of each algorithm, with any timeouts and failed writes anywhere, once a member has returned Ok from instance k every member of group k has entered its call for instance k |
| Barriers.BarrierRefinesAbstract | src/network/barrier/mod.rs:45-71 | every run is, action by action, a run of an abstract barrier over the same groups: it starts with nobody entered or left, a begin is an entry, a return is an exit that is enabled only when all of the group have entered, and every other action leaves it unchanged |
| Barriers.BarrierFinishes | src/network/barrier/memory.rs:145-166 | runs are bounded by a measure of the calls, and a failure-free run that cannot be continued has returned every node from all of its calls |
| Barriers.BarrierRunAhead | src/network/barrier/memory.rs:173-181 | while a node polls a peer the incoming epoch is at most one above the expected one under dissemination, never above it under the tree and the linear barrier |
| RunAheadWitness.RunAheadIsReached | src/network/barrier/memory.rs:175-178 | two nodes reach a state in which the polled epoch is one above the expected one, so the comparison cannot be an equality |
| Barriers.WritesPerInstance | src/network/barrier/binary_tree.rs:127-148 | an instance makes 2(len-1) writes for tree and linear and len times ceil(log2 len) for dissemination |
| Barriers.BarrierQuiescence | src/network/barrier/memory.rs:34-43 | when all nodes are between calls with the same instances behind them, out, incoming and expected epochs of every directed edge are equal, and the out epochs add up to the writes of those instances |
| Barriers.FailedStaysFailed | src/network/barrier/dissemination.rs:83-98 | once a call has failed the node never returns, changes an epoch of its own or posts a write again; only earlier writes may still land |
| Barriers.HeardHaveEntered | src/network/barrier/dissemination.rs:116-127 | whatever a member has heard of after any prefix of its plan has entered the instance |
| Barriers.KnowledgeDoubles | src/network/barrier/dissemination.rs:116-127 | after r rounds the positions idx, idx-1, ..., idx-(2^r-1) modulo the group size have all entered |
| Barriers.SubtreeHasEntered | src/network/barrier/binary_tree.rs:127-133 | when the wait for a child passes, every node of that child's subtree has entered |
| Barriers.AnswerMeansAllEntered | src/network/barrier/binary_tree.rs:139-145 | when the wait for the parent passes, the whole group has entered |
| Barriers.InstanceIsGood | src/network/barrier/mod.rs:54-71 | for every group each algorithm's instance is well formed, has a clock and synchronizes; tree and linear are handshakes |
| Plans.EdgeCountsAgree | src/network/barrier/memory.rs:169-171 | in a well-formed instance as many notifications go along an edge as are awaited along it, none or one |
| BarrierInvariant.SentIsAwaited | src/network/barrier/memory.rs:88-107 | over any sequence of instances the numbers of writes i to j and of waits of j for i are equal up to every instance, so the t-th write and the t-th wait belong to the same instance |
| BarrierInvariant.PassIsReleased | src/network/barrier/memory.rs:173-181 | a wait that passes has been released by its notification of the same instance, not of another one |
| BarrierPreservation.RunKeepsInv | src/network/barrier/memory.rs:86-182 | the invariant on counters, writes under way and causality holds in every state of every run |
| BarrierPreservation.FailedNodeIsFrozen | src/network/barrier/binary_tree.rs:84-99 | no step of anybody changes a failed node except a landing write |
| BarrierTheorems.KnownHaveEntered | src/network/barrier/mod.rs:89-92 | for any plans with a clock and knowledge certificate, knowing of a member implies that it has entered |
| BarrierTheorems.ReturnedMeansAllEntered | src/network/barrier/mod.rs:150-151 | the generic form of safety |
| BarrierTheorems.CompletedHasLanded | src/network/barrier/memory.rs:105-106 | a notification completed with success has raised the peer's slot |
| BarrierTheorems.SomeStepEnabled | src/network/barrier/memory.rs:153-165 | absence of deadlock: as long as a node has calls left and nothing has failed, some node has an enabled step that is no failure |
| BarrierTheorems.RunAheadBound | src/network/barrier/memory.rs:175-176 | the generic run-ahead bound of one |
| BarrierTheorems.NoRunAhead | src/network/barrier/linear.rs:104-117 | handshake plans never run ahead |
| BarrierTheorems.Quiescence | src/network/barrier/memory.rs:88-107 | the generic form of counter agreement |
| BarrierRuns.Heard | src/network/barrier/mod.rs:89-92 | over whole runs of any such system, what a node knows after any prefix of its plan has entered |
| BarrierRuns.FailedIsFrozen | src/network/barrier/linear.rs:79-87 | from a failure on a node changes only by writes already under way |
| BarrierTermination.WorkFalls | src/network/barrier/memory.rs:86-182 | every step lowers the measure, and a step without failure by exactly one |
| BarrierTermination.WorkIsConserved | src/network/barrier/memory.rs:86-182 | steps taken plus work left is constant over a failure-free run |
| BarrierTermination.EveryCallFinishes | src/network/barrier/linear.rs:104-119 | a failure-free run that is stuck has completed every call of every node |
| AbstractBarrier.StepRefines | src/network/barrier/mod.rs:150-162 | a begin maps to the abstract entry of its instance, a return to the exit, every other action to nothing |
| AbstractBarrier.RunRefines | src/network/barrier/mod.rs:150-162 | whole runs map to runs of the abstract barrier from its initial state on |
| Embedding.EmbedWellFormed | src/network/barrier/binary_tree.rs:113-125 | a well-formed protocol over positions stays well formed over the ranks of any sorted peer list |
| Embedding.EmbedKnowledge | src/network/barrier/binary_tree.rs:113-125 | what positions know carries over to ranks |
| Linear.IsPositionInstance | src/network/barrier/linear.rs:90-120 | the leader-based plans use every edge at most once and notify exactly where the other side waits |
| Linear.HasAClock | src/network/barrier/linear.rs:104-117 | the linear plans are free of cyclic waits |
| Linear.Knows | src/network/barrier/linear.rs:104-117 | at the end of its plan every member has heard of every member |
| Linear.IsHandshake | src/network/barrier/linear.rs:104-117 | every edge of the linear barrier carries a report and then its answer |
| BinaryTree.ParentOfChild | src/network/barrier/binary_tree.rs:9-19 | the child and parent index computations are inverse to each other on existing positions |
| BinaryTree.ReachesRoot | src/network/barrier/binary_tree.rs:9-12 | every position reaches the root along parents |
| BinaryTree.SubtreeSplits | src/network/barrier/binary_tree.rs:14-19 | a subtree is its root and its children's subtrees |
| BinaryTree.DepthIsLogarithmic | src/network/barrier/binary_tree.rs:23-25 | 2 to the depth of a position is at most the group size |
| BinaryTree.IsPositionInstance | src/network/barrier/binary_tree.rs:101-151 | the tree plans use every edge at most once and match |
| BinaryTree.HasAClock | src/network/barrier/binary_tree.rs:127-148 | reduce and broadcast have no cyclic wait |
| BinaryTree.Knows | src/network/barrier/binary_tree.rs:127-148 | reports collect exactly the subtrees, the answer carries the whole group |
| BinaryTree.IsHandshake | src/network/barrier/binary_tree.rs:127-148 | every tree edge carries a report and then its answer |
| Dissemination.RoundsAreCeilLog2 | src/network/barrier/dissemination.rs:14-18 | there are exactly ceil(log2 len) rounds |
| Dissemination.DistancesArePowers | src/network/barrier/dissemination.rs:15-16 | the distances are the powers of two below len, checked doubling never cutting them short |
| Dissemination.PairOf | src/network/barrier/dissemination.rs:14-18 | round r pairs a position with those 2^r to the right and left on the ring |
| Dissemination.RoundsMatch | src/network/barrier/dissemination.rs:116-127 | i notifies j in its plan exactly when j waits for i |
| Dissemination.IsPositionInstance | src/network/barrier/dissemination.rs:100-130 | the dissemination plans use every edge at most once, never target themselves and match |
| Dissemination.HasAClock | src/network/barrier/dissemination.rs:116-127 | rounds order the operations without cyclic wait |
| Dissemination.WindowDoubles | src/network/barrier/dissemination.rs:11-13 | the window behind a position and that of its left partner make up the window of twice the size |
| Dissemination.KnowsAllAtTheEnd | src/network/barrier/dissemination.rs:116-127 | the last round covers the group, for every len and not only powers of two |
| WriteCounts.TotalOutIsWrites | src/network/barrier/memory.rs:93-94 | the out epochs of a quiescent network count its writes |
| BarrierCosts.TreeWritesUpTo | src/network/barrier/binary_tree.rs:134-148 | the tree plans of a prefix of the positions make the stated number of writes |
| BarrierCosts.DisseminationWritesUpTo | src/network/barrier/dissemination.rs:116-121 | one write for each position and round |
| BarrierMemory.BarrierMr.NotifyPeer | src/network/barrier/memory.rs:88-107 | the out epoch goes up by one before the write; success means exactly this epoch has landed, an error leaves open whether it has; no incoming epoch changes |
| BarrierMemory.BarrierMr.ScatterNotifyPeers | src/network/barrier/memory.rs:110-140 | all out epochs go up first, then the writes are posted; success means exactly these have landed, after an error any of them may have and nothing else; no incoming epoch changes |
| BarrierMemory.BarrierMr.IncreasePeerExpectedEpoch | src/network/barrier/memory.rs:169-171 | only the expected epoch of this peer goes up, by one |
| BarrierMemory.BarrierMr.SpinPollPeerEpochExpected | src/network/barrier/memory.rs:145-166 | Ok only at a moment when the peer has landed the expected epoch and at no earlier read; Timeout only when the time since the start is over and that epoch has still not landed; at most 65536 reads are made once the time is over |
| BarrierNode.ValidatePeerList | src/network/barrier/mod.rs:196-204 | accepts exactly the strictly ascending lists, and reports disorder before duplicates |
| BarrierNode.Barrier.RunLinear | src/network/barrier/linear.rs:100-119 | on Ok the whole plan of the rank has been carried out, every wait has seen its epoch arrive, and exactly the writes of the plan have landed at the peers; on an error the same up to the one operation that failed: a notification with some of its writes and the transport's error, or a wait whose epoch had not arrived when the time of the run was over |
| BarrierNode.Barrier.RunBinaryTree | src/network/barrier/binary_tree.rs:117-150 | the same for the tree |
| BarrierNode.Barrier.RunDissemination | src/network/barrier/dissemination.rs:116-129 | the same for the rounds |
| BarrierNode.Barrier.RunBarrier | src/network/barrier/binary_tree.rs:101-151 | groups below two members succeed untouched without a membership check, an absent rank is an error of the run and touches nothing, otherwise the plan of the rank: waits passed, writes landed and errors explained as above |
| BarrierNode.Barrier.BarrierUnchecked | src/network/barrier/dissemination.rs:83-98 | a poisoned barrier refuses and changes nothing; a run poisons exactly when it fails, and leaves the waits and landed writes of its plan |
| BarrierNode.Barrier.CheckedBarrier | src/network/barrier/linear.rs:59-70 | the outcome of every call, and exactly which errors poison: those of a run, not those of the list check or of the linear barrier's membership check; refused lists are refused whatever ranks they hold |
| BarrierNode.LinearPlanIs | src/network/barrier/linear.rs:100-119 | the plan, in ranks: the first member waits for all others in order and notifies them in one scatter, every other notifies the first and waits for it |
| BarrierNode.TreePlanIs | src/network/barrier/binary_tree.rs:117-150 | the plan, in ranks: waits for the members at 2i+1 and 2i+2 that exist, notifies and awaits that at (i-1)/2, and notifies the former in one scatter |
| BarrierNode.RoundPlanIs | src/network/barrier/dissemination.rs:100-130 | the plan, in ranks: for every r with 2^r below the group size, round r notifies the member 2^r to the right and waits for that 2^r to the left |
| BarrierNode.ErrorPoisons | src/network/barrier/mod.rs:17-22 | after an error of a run every later call with an accepted list is refused as poisoned |
| BarrierNode.ErrorWithoutPoison | src/network/barrier/mod.rs:17-22 | the documented rule that any error poisons fails: after an unordered list the same barrier returns Ok |
| NodeInNetwork.SameEpochs | src/network/barrier/memory.rs:88-107 | a memory that has begun the operations of a network node, with the same writes arrived, holds the node's expected, out and incoming epoch in every slot |
| NodeInNetwork.PollIsPass | src/network/barrier/memory.rs:173-181 | the poll of that memory succeeds exactly when the node of the network may pass its wait |
| NodeInNetwork.WritesWhatLands | src/network/barrier/memory.rs:93-105 | the epoch the memory writes to a peer is the one the network lands there |
| NodeInNetwork.CallIsInstance | src/network/barrier/mod.rs:150-162 | the plan that an Ok call appends is what the network node carries out for the instance, so calls take the object from instance to instance |
| NodeInNetwork.AbsenceIsNothing | src/network/barrier/mod.rs:150-162 | an instance without the node adds nothing to what it has carried out |
| NodeInNetwork.OperationIsSteps | src/network/barrier/memory.rs:86-182 | an operation the object has completed is a begin and an end of the network node, both enabled, after which the memory of the object is that of the node again |
| NodeInNetwork.OkMeansAllEntered | src/network/barrier/mod.rs:150-162 | when the object has returned Ok from an instance, with its memory that of a node of a network run, every other member of the group has entered the instance |
| NodeInNetwork.LandingsAreWrites | src/network/barrier/memory.rs:88-140 | the writes landed by a plan are as many as the write count of the plan |
| NodeInNetwork.TraceCounts | src/network/barrier/memory.rs:88-107 | the operations carried out count up to the network's counters |
| EpochSlots.DecodeEncode | src/network/barrier/memory.rs:36-43 | reading back the little-endian bytes of an epoch yields it |
| EpochSlots.EncodeDecode | src/network/barrier/memory.rs:36-43 | different bytes are different epochs |
| EpochSlots.EncodeDigits | src/network/barrier/memory.rs:36-43 | the eight bytes are the base-256 digits of the epoch, least significant first |
| EpochSlots.InEpochField | src/ibverbs/memory/remote_memory_region.rs:250-257 | the address is that of the region plus 24 times the rank plus 16, and the eight bytes there lie inside the peer's region |
| EpochSlots.SlotLayout | src/network/barrier/memory.rs:34-43 | slot r is the bytes from 24r: the expected, the out and the incoming epoch, eight each |
| EpochSlots.NotifyWritesBytes | src/network/barrier/memory.rs:98-105 | a notification changes exactly the bytes 24r+16 to 24r+24 of the peer's memory, to the digits of the epoch |
| EpochSlots.NotifySetsOneSlot | src/network/barrier/memory.rs:98-105 | the eight bytes of a notification set exactly the writer's incoming slot to its epoch and change no other field |
| EpochSlots.NotificationsCommute | src/network/barrier/memory.rs:98-105 | writes of different ranks never overlap |
| CompletionState.HistoryConserves | src/channel/cached_completion_queue.rs:8-16 | in every reachable state each posted id is in exactly one of hardware, queue, cache and handle, with the hardware's own result, and no answer ever changes |
| CompletionState.DrainingConserves | src/channel/cached_completion_queue.rs:35-46 | moving completions into the cache keeps that law |
| CompletionState.AnswerIsForever | src/channel/pending_work.rs:69-77 | what a handle was told is the hardware's result for its request, then and later |
| CompletionState.WaitingOrTaken | src/channel/pending_work.rs:69-73 | a posted request is still held somewhere exactly as long as it has not been answered |
| QueuePolling.UpdatedConserves | src/channel/cached_completion_queue.rs:35-46 | a poll loses nothing, answers nobody and brings something nearer, whatever the hardware does |
| QueuePolling.SpinForAnswers | src/channel/pending_work.rs:105-113 | waiting for a posted request ends with an answer, and takes at most this request from the queue |
| QueuePolling.SpinForBreaks | src/channel/pending_work.rs:89-92 | a wait is answered by a failing poll if and only if a poll of the queue fails before the request is fetched, and then there is one such poll fewer ahead of it |
| QueuePolling.SpinForTells | src/channel/pending_work.rs:89-92 | the error reported is that of the first poll of the queue that fails |
| QueuePolling.FailuresAheadAre | src/channel/pending_work.rs:89-92 | the failing polls ahead of a request are the failing steps of the hardware, counted one by one, as long as the polls before have not fetched it |
| QueuePolling.SpinForCounts | src/channel/pending_work.rs:105-113 | every failing poll is reported to exactly one poll of a handle |
| CompletionQueues.CachedCompletionQueue.Update | src/channel/cached_completion_queue.rs:35-46 | a poll does exactly what the hardware will do next, fails exactly when that does, loses nothing, answers nobody, and otherwise brings something nearer |
| CompletionQueues.CachedCompletionQueue.Consume | src/channel/cached_completion_queue.rs:49-51 | takes out exactly the completion asked for |
| CompletionQueues.PendingWork.Poll | src/channel/pending_work.rs:73-102 | an answer is the hardware's result for the own request, cached forever, or the error of the queue poll just made, the latter exactly if the request was unknown and that poll failed; the queue is polled once, and only for a request not in the cache; no answer means that it has not been fetched |
| CompletionQueues.PendingWork.SpinPoll | src/channel/pending_work.rs:105-113 | terminates with the hardware's result for the own request, or with the error of the first failing queue poll exactly if it comes before the request is fetched |
| CompletionQueues.PendingWork.AnswerIsTheHardwares | src/channel/pending_work.rs:115-117 | a handle's status is the hardware's result for its own request |
| CompletionQueues.PendingWork.Drop | src/channel/pending_work.rs:46-52 | dropping a handle finishes its request unless, by the same condition, a failing queue poll comes first |
| CompletionQueues.Channel.GetAndAdvanceWrId | src/channel/ops/unpolled_ops.rs:69-73 | ids are fresh; an id whose post failed is not reused |
| CompletionQueues.Channel.PostUnpolled | src/channel/ops/unpolled_ops.rs:45-53 | a successful post adds one request with a new id, a refused one changes nothing |
| PollingScopes.ScopedPendingWork.Poll | src/channel/polling_scope.rs:307-313 | any answer marks the handle as polled, also the error of a failing queue poll, and which of the two it is is decided before the call |
| PollingScopes.ScopedPendingWork.SpinPoll | src/channel/polling_scope.rs:315-320 | marks the handle; its request is finished unless a queue poll fails first, which is decided before the call |
| PollingScopes.PollingScope.ChannelPost | src/channel/polling_scope.rs:248-259 | exactly the accepted posts are tracked, an unknown peer or refused post is told and tracks nothing |
| PollingScopes.PollingScope.Settle | src/channel/polling_scope.rs:184-192 | one round of the closing loop with the drop at its end: waits for the handle unless it counts as polled, and once more unless it was leaked, and reports what the first wait was told |
| PollingScopes.PollingScope.AutoPoll | src/channel/polling_scope.rs:180-205 | deals with every handle in posting order, lists exactly the errors of those that did not count as polled, and says whether there were any |
| ScopeStates.PlayingKeeps | src/channel/polling_scope.rs:216-274 | whatever a closure does, the scope stays sound, no answer is taken back, and what was posted meanwhile is exactly what got a handle |
| ScopeStates.ClosingKeeps | src/channel/polling_scope.rs:180-205 | the same while the scope is being left |
| ScopeTheorems.SettleIsExact | src/channel/polling_scope.rs:184-192 | dealing with a handle leaves its request unanswered if and only if at least as many polls fail before it is fetched as waits are made for it: two, one if it counts as polled or was leaked, none if both |
| ScopeTheorems.LeavesExactly | src/channel/polling_scope.rs:175-205 | a request is outstanding after the scope if and only if it was not answered when its turn came and that many polls of its queue fail before it is fetched |
| ScopeTheorems.LeftIsExact | src/channel/polling_scope.rs:96-116 | for any closure and any queues the requests left outstanding are a function of the channels before and the steps; all others posted in the scope are answered |
| ScopeTheorems.OneFailureEach | src/channel/pending_work.rs:89-92 | a scope leaves at most as many requests of a channel outstanding as polls of its queue fail |
| ScopeTheorems.FewFailures | src/channel/polling_scope.rs:175-180 | no request is left behind for which the scope makes more waits than polls of its queue fail |
| ScopeTheorems.HealthyLeavesNothing | src/channel/polling_scope.rs:175-180 | on a queue of which no poll fails every request posted in the scope is answered |
| ScopeTheorems.ReportIsTrue | src/channel/polling_scope.rs:186-191 | a request is polled automatically exactly if it does not count as polled; what is reported is the hardware's result, or the error of the first failing poll exactly if that comes before the request is fetched |
| ScopeTheorems.AutoErrorsAreTrue | src/channel/polling_scope.rs:186-203 | the list returned holds the errors of the requests not counting as polled whose wait failed, each at its place in posting order, and nothing else |
| ScopeTheorems.FailureInPlace | src/channel/polling_scope.rs:188-190 | each failure stands in the list at the number of failures posted before it, and nothing else is listed |
| ScopeTheorems.NoFailures | src/channel/polling_scope.rs:199-203 | the list is empty exactly if all left over requests succeeded |
| PollingScopes.PollingScope.Play | src/channel/polling_scope.rs:216-274 | carries out the closure: after each step the scope is what the step makes of it |
| ScopeTheorems.PlayedHandles | src/channel/polling_scope.rs:307-320 | after a closure there is one handle for each accepted post, in order and of its peer; only handles it polled or waited for count as polled, all it waited for do, and leaked are exactly those it leaked |
| ScopeTheorems.MarkedIsAnswered | src/channel/polling_scope.rs:307-320 | a handle counts as polled if and only if some poll or wait of the closure after its post was answered |
| PollingScopes.Run | src/channel/polling_scope.rs:96-116 | for any closure and any way it ends, exactly the requests determined by the channels before and the steps are outstanding afterwards, none if no queue poll fails; its panic and its error take precedence; after success the outcome is its value if and only if every automatic wait succeeds, and otherwise the list of exactly the errors of those that fail |
| PollingScopes.RunManual | src/channel/polling_scope.rs:122-144 | a panic and an error of the closure take precedence; after success the own panic is raised if and only if some handle does not count as polled, otherwise its value is returned, never before everything is waited for; what stays outstanding is as exact as for the automatic scope |
| PollingScopes.PollingScope.PostAll | src/multi_channel/ops/scoped_ops.rs:21-31 | posts in order up to the first that cannot be posted, says why, and keeps track of those before it |
| PollingScopes.PollingScope.SpinAll | src/multi_channel/ops/polled_ops.rs:23-26 | waits in order up to the first that does not succeed, with the results of those before it and its error |
| PollingScopes.Batch | src/multi_channel/ops/polled_ops.rs:19-27 | a batch operation never panics and its outcome is true: all results in order, or the reason why the first request that was not accepted could not be posted, or the error of the first that failed; exactly the requests determined by the channels before and the batch stay outstanding |
| Batches.BatchIsTrue | src/multi_channel/ops/polled_ops.rs:19-27 | Ok has the hardware's i-th result for the i-th request; an error is `NotFound` or `Refused` of the first request not accepted, only those before it being posted, or the failure of the first request that failed, all before it having succeeded, or an error that the polls of its queue were going to give |
| Batches.BatchWaitsForAll | src/multi_channel/ops/polled_ops.rs:23-26 | a batch that succeeds has waited for all of its requests, so the manual scope does not panic |
| PollingScopes.FailedPollEscapes | src/channel/pending_work.rs:89-92 | a failing queue poll followed by a leaked handle leaves a request outstanding although the scope reports success |
| Framing.BigEndianRoundTrip | src/network/tcp_exchanger.rs:257-259 | the length prefix reads back as written |
| Framing.WriteIs | src/network/tcp_exchanger.rs:266-276 | a message can be sent if and only if its encoding has less than 2^32 bytes; the frame is the length in four bytes, the most significant first, and the encoding; the error carries the length |
| Framing.ReadIs | src/network/tcp_exchanger.rs:254-264 | reading decodes the first whole frame and leaves the rest; without a whole frame it is an I/O error, and the decoder's error is passed on |
| Framing.ReadUndoesWrite | src/network/tcp_exchanger.rs:254-276 | reading a written message returns it and leaves the rest of the stream |
| Framing.TruncationIsAnError | src/network/tcp_exchanger.rs:257-262 | a stream cut anywhere inside a message is an error |
| Framing.WriteAllIs | src/network/tcp_exchanger.rs:272 | any number of messages can be written one after the other exactly if each of them can |
| Framing.StreamIsAQueue | src/network/tcp_exchanger.rs:254-276 | messages written one after the other are read back in order and nothing else |
| Exchange.CollectIs | src/network/tcp_exchanger.rs:142-150 | the vector is built exactly if every rank is present, in rank order; otherwise the expect fires |
| ExchangeSafety.StepKeeps | src/network/tcp_exchanger.rs:90-230 | every step of a node keeps what each pair of nodes has done and what is under way between them in agreement |
| ExchangeSafety.EnoughIsAll | src/network/tcp_exchanger.rs:131 | counting the answers is enough to have all lower ranks |
| ExchangeSafety.ExchangeIsCorrect | src/network/tcp_exchanger.rs:90-121 | in every interleaving a finished node returns the data of all nodes in rank order, and neither expect fires |
| ExchangeProgress.NoDeadlock | src/network/tcp_exchanger.rs:105-113 | as long as some node is not done, some node has an enabled step |
| ExchangeProgress.FetchingCanStep | src/network/tcp_exchanger.rs:215-230 | reading first on one side and writing first on the other never blocks both |
| ExchangeProgress.StepsAreCounted | src/network/tcp_exchanger.rs:131-141 | after t steps exactly 3n^2 - t are left, whatever the interleaving |
| ExchangeProgress.ExchangeFinishes | src/network/tcp_exchanger.rs:90-121 | every run ends, and one that cannot be continued has every node done |
| Exchanger.ReceivedIs | src/network/tcp_exchanger.rs:232-252 | a rank is kept exactly if it is in range and claimed by some message |
| Exchanger.LastCounts | src/network/tcp_exchanger.rs:239-243 | a duplicate replaces the earlier message |
| Exchanger.CountMeansAll | src/network/tcp_exchanger.rs:131 | the count reaches the range exactly when no rank is missing, whatever was received |
| Exchanger.ExchangeServe | src/network/tcp_exchanger.rs:198-213 | sends the own message, also if reading fails afterwards, then keeps the peer's; an error is that of the write or of the read |
| Exchanger.ExchangeConnect | src/network/tcp_exchanger.rs:215-230 | reads first, and sends nothing if reading fails |
| Exchanger.ExchangeAllServe | src/network/tcp_exchanger.rs:123-151 | serves until nobody is missing and no longer; for arbitrary peers the expect after the loop never fires |
| Exchanger.ExchangeAllConnect | src/network/tcp_exchanger.rs:153-196 | the expect fires exactly if the messages read leave some higher rank unclaimed; an error comes only from a write or read that fails, on the first connection not exchanged over |
| Exchanger.ExchangeAll | src/network/tcp_exchanger.rs:90-121 | an unknown rank is refused; otherwise each rank's entry is the data last claimed for it, with the own data in between; it waits only for a lower rank not heard on any connection accepted, and fails only when a write or a read does |
| ExchangeLoops.NodeKeepsWhatLoopsKeep | src/network/tcp_exchanger.rs:123-196 | in every state of the interleaved system a node has kept what its loops keep of the messages it has read |
| ExchangeLoops.ServesLikeTheLoop | src/network/tcp_exchanger.rs:131-141 | a node of that system stops serving exactly when the condition of the serving loop fails |
| Mesh.GatherEndpoints | src/network/builder.rs:125-182 | the loop over the slot vector computes the specification of gathering |
| Mesh.GatherSucceedsIff | src/network/builder.rs:119-124 | gathering succeeds exactly if every rank appears once and every endpoint list reaches the local rank, and yields that endpoint under its rank |
| Mesh.GatherErrorExplained | src/network/builder.rs:132-179 | the error names the first fault: a bad endpoint after only good ones, or the lowest missing rank |
| Mesh.HandshakeIs | src/multi_channel/builder.rs:85-110 | connecting succeeds exactly if the numbers agree and the hardware accepts, pairing channel i with endpoint i; otherwise the error has both numbers, or the first channel refused |
| Mesh.GatherOfAll | src/network/builder.rs:106-117 | from the endpoints of all nodes each gathers the queue pairs and barrier regions meant for it |
| Mesh.MeshIsSymmetric | src/network/builder.rs:185-199 | after any interleaving of the exchange two finished nodes are connected to each other's queue pairs and hold each other's barrier region tagged with its rank |
| Mesh.NotificationsReachThePeer | src/network/barrier/memory.rs:98-105 | a notification of i for j goes over the channel to j and sets slot i of the memory of j, at byte 24i+16, nothing else |

## Where code and documentation differ

* The documentation says that a barrier is poisoned after any error (`src/network/barrier/mod.rs:19-22`, `104-108`). In
  the code only errors of a run poison: a refused peer list, and the linear barrier's membership check, return before
  the flag is looked at. The contract of `BarrierNode.Barrier.CheckedBarrier` states which errors poison;
  `BarrierNode.ErrorWithoutPoison` is an example.
* "Self included" is documented as checked. Tree and dissemination return Ok for groups of fewer than two members
  whoever is in them; the contracts of `BarrierNode.Barrier.RunBarrier` say so.
* "O(log n) messages" (`src/network/barrier/binary_tree.rs:25`) holds for the depth (`BinaryTree.DepthIsLogarithmic`),
  not for the writes, which are `2(n-1)` (`Barriers.WritesPerInstance`).
* "Auto-poll does not fail" (`src/channel/polling_scope.rs:175`), and the promise to leave nothing outstanding, are not
  kept when polls of the completion queue fail, because a failing poll is taken for the answer of whichever request was
  polled for; `PollingScopes.FailedPollEscapes` is an example. The exact condition, for every closure and all queues, is
  `ScopeTheorems.LeavesExactly`: a request is outstanding after the scope if and only if it has not been answered when its
  turn to be closed comes, and from then on at least as many polls of its queue fail before it is fetched as the scope
  makes waits for it. These are two for a request the closure has neither polled nor leaked (the automatic wait and the
  drop), one if it has done either, and none if both, so one failing poll does no harm to an untouched request
  (`ScopeTheorems.FewFailures`).

## Left out

- Barriers.BarrierSafety: epochs and work request ids are natural numbers; the code's 64-bit counters are taken not to wrap.
- Barriers.InstanceIsGood: twice the length of a group fits in a `usize`, without which `idx + d` in the code overflows.
- Barriers.BarrierFinishes: time is not modelled; a timeout is a step that may happen at any time during a wait, and the result is about runs without one.
- BarrierNode.Barrier.BarrierUnchecked: lists that break the documented contract (unsorted, out of range, or for the linear barrier without the own rank) are outside the model.
- CompletionQueues.CachedCompletionQueue.Hardware: the hardware is a script of what each poll finds; after the script every poll finishes one request in flight, any one with any result, and does not fail. A queue that never completes a request, or fails forever, is not modelled.
- CompletionQueues.CachedCompletionQueue.Update: the queue holds at least one entry per poll (`min_cq_entries >= 1`).
- PollingScopes.Run: a closure is the list of its posts, polls and leaks of handles with the way it ends; data buffers, lifetimes and unwinding are not modelled, a panic is a third ending.
- PollingScopes.Batch: sends, receives, writes, reads and multicast differ only in the request posted and share one model.
- BarrierMemory.BarrierMr.Elapse: the peers' writes become visible while a node polls; a write that lands at another moment is seen at the next poll. Their times are fixed beforehand, for all possible times.
- BarrierMemory.MultiChannel.ScatterWrite: stated by what reaches the peers; how it waits for its requests is `PollingScopes.Batch`.
- Exchange.Apply: connections do not break and the exchange timeout does not expire in the interleaved system; stray connections and I/O errors are covered by the loops in `Exchanger` only.
- Framing.ReadStream: JSON is an abstract codec whose encoder does not fail and whose decoder undoes it; TCP is a byte sequence.
- Mesh.Handshake: what the hardware answers to each connection attempt is a parameter.
- Device discovery, contexts, protection domains, memory registration, queue pair attributes and access flags: foreign calls.
- Network configuration files and their validation; ranks are taken to equal their index.
- Forwarding from `Node` to the multi-channel and the work request builders: thin delegation.
