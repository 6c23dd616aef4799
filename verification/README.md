# GoSentinel: a verified model of its distributed load-test core

GoSentinel splits a load test over a fleet of workers, runs tests one at a time from
a queue, detects when a test is over, and measures it. This project models that core
and proves what it promises. It is plain Dafny: `dafny verify dfyconfig.toml` checks
all of it.

## The pieces

* **Virtual-user apportionment.** `PlanDistributor` assigns the peak load to the
  fleet, `StageAllocation` splits each stage by largest remainders, `LoadCurve`
  rewrites the plan per worker and `Engine` runs it. The main results: the fleet
  reproduces the plan's load curve exactly (`LoadCurve.LoadCurveReproduced`), and no
  integer split of a stage is closer to proportional (`StageAllocation.SplitIsOptimal`).
* **Consistent hash ring.** `HashRing` shows that sorted keys with binary search and
  wrap-around find the clockwise successor's owner, and what adding and removing a
  node disturbs, with hash collisions allowed.
* **Completion.** `Completion` is a state machine of worker engines, reporters,
  keep-alives, a network that delays, duplicates, reorders and loses batches, and the
  two separate steps `MarkWorkerDone` and `SetStatus`; its theorems hold over every run, and
  say exactly when a terminal status is final. A rebalance is a step with any new assignment
  that keeps the survivors, which covers what `RebalanceTest` can do; the test itself is sent
  once, by a separate step, so workers added later never run it. `Rebalancing` has the exact
  condition under which a rebalance cannot complete a test early. `EngineProtocol` shows that the
  engine's own order of actions is a run of the protocol.
* **Run queue and recording.** `RunTable` is the run table with queue ranks,
  `Dispatcher` the dispatcher as one thread executes it, `QueueProtocol` the same as
  atomic steps interleaved with other dispatchers, recorder sessions and the submit,
  cancel and delete handlers, from whatever table the process finds. `SingleDispatcher` has
  at-most-once dispatch and bounded retry for one dispatching thread, `ManyDispatchers`
  at-most-once dispatch for any number, and `FinalStatus` says when a run's row is final,
  each with its exact condition, `Deletion` what the delete handler's check is worth, and
  `SessionMap` when the recorder lists a run's session. `QueueRuns` links the sequential and
  the interleaved form and has the runs that show what does not hold. `Session` is the
  fan-out to dashboards, `Recorder` the event loop of one recording, and `RecorderProtocol`
  shows that what it does at the end is a run of the queue protocol.
* **Metrics.** `SpanAggregator` is a worker's latency histogram, `RequestWindow` the
  collector around it, with the sliding window that is compacted in place, and `Aggregator`
  the fleet rollup, spelled out field by field in `RollupFields`. `FleetMean` follows the
  mean latency from the requests to the report.
* **Assertions.** `Assertions` follows response assertions from a scenario file
  through the wire format to the verdict on a worker.

`Sums`, `Orders`, `Lists`, `GoInts`, `Results` and `TestState` hold what several modules share.
Classes carry the source's mutable fields; their methods are proved against functions
or predicates over values, and the theorems are lemmas about those. Ghost fields and
history fields of protocol states (`holder`, `calls`, `handOffs`, `fired`, `left`,
`past`, ...) record what happened and are never read by a step's effect on the rest.

## Inputs that stand for the environment

Node order and map iteration order are arbitrary. The rounding of proportional shares
in `DistributePlan` is an arbitrary non-negative function, so the result covers
floating-point rounding of any kind; capacities are not negative and stage targets may
be anything. The hash is an arbitrary function into [0, 2^32). The answers of the store,
the orchestrator and etcd are inputs or separate steps. Clocks are integers that do not
decrease. Of the histogram library only which values it accepts, the value it keeps for
each, and its extremes and quantiles are left open. The completion theorems assume fresh
test IDs and no overlapping `RunTest` calls on one worker.

## Where the source's comments and the code differ

* internal/api/queue.go:113-114 says a run that fails to dispatch is skipped and the
  next is tried immediately. The code returns false after a failure with attempts left,
  so the failing head blocks the queue (`Dispatcher.FailingHeadBlocks`).
* internal/api/queue.go:137 says claiming the slot keeps a concurrent tick from
  starting a run twice. Two starts never overlap, but a thread holding a stale pick can
  start the run again later (`QueueRuns.TwoThreadsHandOffTwice`); with the program's one
  dispatching thread it cannot (`SingleDispatcher.AtMostOnce`).
* internal/api/recorder.go:121-122 says onDone fires when the run reaches a terminal
  state. A lost stream ends a recording with the last polled status, possibly RUNNING
  (`Recorder.EndStatusIsTerminalUnlessStreamLost`, `QueueRuns.EndedRunMayStayRunning`).
* internal/orchestrator/metrics_aggregator.go:115 promises a true minimum. Zero stands
  for "none yet", so a zero among positive minima makes the result depend on map order
  (`Aggregator.MinIsDeterminedIff`).
* internal/orchestrator/plan_distributor.go:213-225 sets a status whatever it was, so a
  stop overwrites COMPLETED (`Completion.StatusIsFinalIff`), and internal/store/store.go:170-186
  and 266-275 do the same to a run (`FinalStatus.StatusIsFinalIff`).
* internal/orchestrator/plan_distributor.go:295 says "distribute proportionally"; the
  rebalance is a greedy fill.

## Model

| member | source | states |
|---|---|---|
| StageAllocation.AllocateStageVUs | internal/orchestrator/plan_distributor.go:154-203 | the code computes one function of the distribution and the target (largest remainders first, ties by worker ID), in whatever order the map is visited |
| StageAllocation.SplitIsExact | internal/orchestrator/plan_distributor.go:148-203 | for 0 < target <= total share the shares add up to exactly the target, each is its exact proportion rounded down or up and within the worker's assignment |
| StageAllocation.SplitIsOptimal | internal/orchestrator/plan_distributor.go:151-200 | no other integer allocation with the same total is closer, in total absolute deviation, to the exact proportions |
| StageAllocation.SplitFitsIffReachable | internal/orchestrator/plan_distributor.go:192-200 | the split reaches a positive target within all assignments if and only if target <= total share |
| StageAllocation.RemaindersSum | internal/orchestrator/plan_distributor.go:180-186 | the fractional parts add up to exactly the virtual users lost to truncation |
| StageAllocation.LeftoverBound | internal/orchestrator/plan_distributor.go:188-192 | the lost virtual users are at least 0 and at most the number of workers with a fractional part |
| StageAllocation.WinnersHaveRemainder | internal/orchestrator/plan_distributor.go:192-199 | every worker that is handed a lost virtual user has a positive fractional part |
| StageAllocation.Room | internal/orchestrator/plan_distributor.go:193-197 | the "already at capacity" skip never fires within reach of the distribution and always fires beyond it |
| StageAllocation.RankedByPrecedence | internal/orchestrator/plan_distributor.go:160-191 | the two sorts list the workers by rank: larger fraction first, equal fractions in worker-ID order |
| StageAllocation.Threshold | internal/orchestrator/plan_distributor.go:188-200 | one remainder separates the workers rounded up from the others |
| StageAllocation.RoundsUpInOrder | internal/orchestrator/plan_distributor.go:173-200 | of two workers with equal fractional parts the one whose ID comes first in the dictionary is rounded up if the other is |
| StageAllocation.LargerFractionWins | internal/orchestrator/plan_distributor.go:188-200 | a worker with a larger fractional part is rounded up if one with a smaller one is |
| StageAllocation.TieGoesToEarlierID | internal/orchestrator/plan_distributor.go:173-200 | of two workers with equal assignments the one whose ID comes first in the dictionary gets at least as much of a stage |
| StageAllocation.SplitElsewhere | internal/orchestrator/plan_distributor.go:154-203 | beyond the total share nobody is rounded up; without a target or a share nobody starts |
| Orders.StringLessIff | internal/orchestrator/plan_distributor.go:173 | Go's order of strings: the first difference decides, and a proper prefix comes first |
| PlanDistributor.PlanDistributor.DistributePlan | internal/orchestrator/plan_distributor.go:54-146 | for any node order and any non-negative rounding of shares: error without workers or with too little capacity, and then no test is stored; otherwise the peak is assigned in full and the test is stored as RUNNING with nobody done, all other tests unchanged |
| PlanDistributor.PlanningFails | internal/orchestrator/plan_distributor.go:54-86 | planning fails exactly without a worker or with too little capacity, and the error says what was needed and what was there |
| PlanDistributor.Assign | internal/orchestrator/plan_distributor.go:87-128 | the two passes give positive amounts to registered nodes, within capacity, adding up to the peak |
| PlanDistributor.AssignProportionally | internal/orchestrator/plan_distributor.go:87-109 | the first pass grants each node its capped share and returns what is left |
| PlanDistributor.FillSpare | internal/orchestrator/plan_distributor.go:111-128 | the second pass grants each node its spare capacity until nothing is left |
| PlanDistributor.PourConserves | internal/orchestrator/plan_distributor.go:87-128 | a capped pass places exactly min(amount, room), for any node order |
| PlanDistributor.PourBounds | internal/orchestrator/plan_distributor.go:87-128 | a capped pass never overfills a node, never takes anything away, and skips nobody while something is left |
| PlanDistributor.FirstPass | internal/orchestrator/plan_distributor.go:87-109 | total and per-node bounds after the proportional pass |
| PlanDistributor.SecondPass | internal/orchestrator/plan_distributor.go:111-128 | with enough capacity the fill completes the peak and shrinks no share |
| PlanDistributor.FloorSharesFit | internal/orchestrator/plan_distributor.go:93-95 | shares rounded down fit into the peak together |
| PlanDistributor.FloorPlanIsProportional | internal/orchestrator/plan_distributor.go:87-128 | with shares rounded down every registered node carries at least its proportional share, rounded down, and at most its capacity |
| PlanDistributor.Peak | internal/orchestrator/plan_distributor.go:65-71 | the peak is the highest stage target |
| PlanDistributor.TotalCapacity | internal/orchestrator/plan_distributor.go:77-81 | the capacity is the fleet's total, in any node order |
| PlanDistributor.PlanDistributor.StoreTest | internal/orchestrator/plan_distributor.go:130-137 | storing replaces the entry of this test only |
| PlanDistributor.PlanDistributor.SetStatus | internal/orchestrator/plan_distributor.go:213-231 | an unknown test is ignored; otherwise only this test's status changes, from whatever it was |
| PlanDistributor.PlanDistributor.MarkWorkerDone | internal/orchestrator/plan_distributor.go:233-259 | marks an assigned worker and fires exactly when the test is RUNNING and as many workers are done as are assigned |
| PlanDistributor.ActiveTest.MarkWorkerDone | internal/orchestrator/plan_distributor.go:244-258 | the same for one test: unassigned workers change nothing, marking is idempotent |
| PlanDistributor.PlanDistributor.RebalanceTest | internal/orchestrator/plan_distributor.go:268-320 | the failed worker leaves the assignment on every path; status and done set are untouched; the totals are those of RebalanceFacts |
| PlanDistributor.ActiveTest.Rebalance | internal/orchestrator/plan_distributor.go:278-319 | the pass over the other nodes, including the error when there is none |
| PlanDistributor.RebalancePass | internal/orchestrator/plan_distributor.go:278-311 | no node is filled beyond its capacity, no survivor loses anything, the failed worker is gone |
| PlanDistributor.RebalanceTotal | internal/orchestrator/plan_distributor.go:278-311 | the total falls by exactly max(0, lost virtual users - spare capacity of the other nodes) |
| TestState.FiresIffAllDone | internal/orchestrator/plan_distributor.go:247-258 | while only assigned workers are in the done set, completion fires exactly on the last missing one |
| LoadCurve.DispatchToWorkers | internal/orchestrator/server.go:91-145 | one request per assigned worker that is still registered, each with its own split of every stage |
| LoadCurve.RequestFields | internal/orchestrator/server.go:91-165 | each request names its worker, the test and its assignment, which is also its plan's total, and keeps the durations and ramp-ups of the stages |
| LoadCurve.PlanForWorker | internal/orchestrator/server.go:147-165 | a copy of the plan in which every stage that has an allocation gets the worker's share as its target; stages without one, and everything else, stay |
| LoadCurve.CapNeverBites | internal/worker/engine.go:115-130 | the caps on the worker never reduce what the orchestrator allocated to it |
| LoadCurve.LoadCurveReproduced | internal/orchestrator/server.go:91-145 | for every accepted plan and every stage, the virtual users started over the fleet are exactly the stage target, less the shares of assigned workers no longer registered |
| LoadCurve.SplitTotal | internal/orchestrator/plan_distributor.go:154-203 | every target up to the peak is split without loss; a target of zero or less starts nobody |
| Engine.Engine.RunTest | internal/worker/engine.go:56-113 | the exact order of what the engine does: activate, start the reporter, run stages until cancelled, clear the active flag, and only then send the final batch |
| Engine.Engine.RunStage | internal/worker/engine.go:115-179 | a stage starts min(target, assigned) virtual users and leaves the active count as it was |
| Engine.StartedIsCapped | internal/worker/engine.go:115-130 | a stage starts its target or the worker's assignment, whichever is smaller |
| EngineProtocol.RunTestFollowsProtocol | internal/worker/engine.go:56-113 | what RunTest does, in its own order and however many stages run, is a run of the completion protocol that leaves the worker idle, out of the test's stages, and its final batch sent |
| HashRing.ConsistentHashRing.Add | internal/orchestrator/node_manager.go:208-224 | the ring map gains the node's points, one for each of its 100 virtual keys, keys stay sorted and hold exactly the mapped points, duplicates included |
| HashRing.HundredPoints | internal/orchestrator/node_manager.go:213-220 | unless the hash collides on their virtual keys, a node has exactly 100 points and two nodes have none in common |
| HashRing.PointsCountIff | internal/orchestrator/node_manager.go:213-220 | a node has as many points as keys if and only if the hash tells its keys apart |
| HashRing.KeysDiffer | internal/orchestrator/node_manager.go:214-219 | no two virtual nodes share a key, whatever the node IDs contain |
| HashRing.ItoaDenotes | internal/orchestrator/node_manager.go:214-219 | the replica number is written in decimal digits that read back as the number, without leading zeros |
| HashRing.OwnerIsOfNextPoint | internal/orchestrator/node_manager.go:247-269 | a key belongs to the owner of the first point at or after its hash, or of the first point of all when there is none |
| HashRing.ConsistentHashRing.Remove | internal/orchestrator/node_manager.go:226-245 | the ring map loses exactly the points the node owns; keys are sorted and list every remaining point once |
| HashRing.ConsistentHashRing.Get | internal/orchestrator/node_manager.go:247-269 | binary search with wrap-around returns the owner of the clockwise successor, and "" on an empty ring |
| HashRing.Search | internal/orchestrator/node_manager.go:258-261 | the least index whose key is not below the hash |
| HashRing.FirstKeyIsSuccessor | internal/orchestrator/node_manager.go:257-268 | that key, or the first one after wrapping, is the point nearest clockwise |
| HashRing.AddMovesKeysOnlyToNewNode | internal/orchestrator/node_manager.go:208-224 | adding a node changes the owner of a key only to that node, collisions allowed |
| HashRing.RemoveMovesOnlyOwnKeys | internal/orchestrator/node_manager.go:226-245 | removing a node changes the owner only of keys it owned |
| HashRing.AddThenRemoveRestoresIff | internal/orchestrator/node_manager.go:208-245 | adding and then removing a node restores the ring if and only if the node was absent and its points collide with none |
| HashRing.NodeManager.RegisterNode | internal/orchestrator/node_manager.go:51-75 | the node joins registry and ring even when the etcd write fails |
| HashRing.NodeManager.UnregisterNode | internal/orchestrator/node_manager.go:77-94 | the node leaves registry and ring even when the etcd delete fails |
| HashRing.NodeManager.GetNodes | internal/orchestrator/node_manager.go:104-114 | every registered node once, in some order |
| HashRing.NodeManager.GetNodeForKey | internal/orchestrator/node_manager.go:116-132 | the registered owner of the key; an error only on an empty ring or for a node named "" |
| Completion.CompletedMeansEveryWorkerLeft | internal/orchestrator/server.go:343-351 | for every interleaving, delay, duplication and loss of batches, with keep-alives and stops and without rebalances: a COMPLETED test's assigned workers have all left its stage loop, and only assigned workers that left are counted done |
| Completion.QuiescentCompletedIff | internal/orchestrator/plan_distributor.go:213-259 | once no handler is about to set a status, a test never asked to stop is COMPLETED if and only if it has workers and all are done, else RUNNING |
| Completion.RunningIsNeverReentered | internal/orchestrator/plan_distributor.go:213-259 | a test that is not RUNNING is never RUNNING again, rebalances included |
| Completion.StepKeepsTerminal | internal/orchestrator/plan_distributor.go:213-320 | no step takes a test back to RUNNING |
| Completion.StepKeepsWorker | internal/worker/engine.go:63-87 | every step keeps the worker protocol: no active flag outside a test, flag cleared only after the stage loop was left |
| Completion.StepKeepsBatch | cmd/worker/main.go:134-144 | every batch that says "finished", from reporter or keep-alive, comes from a worker that has left that test |
| Completion.StepKeepsTest | internal/orchestrator/plan_distributor.go:213-320 | every step keeps: whatever is done has finished, and completion is pending or set only with all workers done |
| Completion.StepKeepsLive | internal/orchestrator/server.go:343-351 | without rebalances every step keeps: a test whose workers are all done is completed or about to be |
| Completion.StopRacesCompletion | internal/orchestrator/server.go:372-427 | a run that reaches a state with both a completion and a stop still to be written |
| Completion.LastHandlerDecides | internal/orchestrator/plan_distributor.go:213-225 | from there COMPLETED and STOPPED overwrite each other, in either order |
| Completion.StatusIsFinalIff | internal/orchestrator/plan_distributor.go:213-225 | the status of a COMPLETED or STOPPED test stays in every continuation without a further stop request if and only if COMPLETED has no stop still to be written and STOPPED no completion |
| Completion.StatusIsFinalWhateverHappensIff | internal/orchestrator/server.go:372-427 | with stop requests allowed it stays in every continuation if and only if it is STOPPED with no completion still to be written |
| Completion.StopOverwritesCompleted | internal/orchestrator/server.go:372-427 | a plain stop after completion turns COMPLETED into STOPPED |
| Completion.HandlersWriteOnce | internal/orchestrator/server.go:343-351 | a handler that was told to complete a test, and each stop request, sets the status once |
| Completion.KeepAliveCountsDone | cmd/worker/main.go:134-144 | a worker that has cleared its active flag is counted done by a keep-alive alone, without its final batch |
| Completion.ActiveReportsChangeNothing | internal/worker/reporter.go:84-144 | while a worker runs a test neither its reports nor its keep-alives change the orchestrator's view of any test |
| Completion.LostRequestNeverRuns | internal/orchestrator/server.go:112-143 | a worker whose run request is lost never begins the test, in any continuation |
| Rebalancing.GuardedRebalancesAreSafe | internal/orchestrator/plan_distributor.go:268-320 | with rebalances that each meet the condition: a COMPLETED test's assigned workers have all left its stage loop, in every run |
| Rebalancing.RebalanceIsSafeIff | internal/orchestrator/plan_distributor.go:268-320 | after a rebalance every continuation without another keeps that property if and only if, of the test it leaves, all workers have left when a completion is set or pending, and, while it is RUNNING, no worker that has not left can be done without: the others that were sent the test are some, and with the done set at least as many as are assigned |
| Rebalancing.RunningConditionIs | internal/orchestrator/plan_distributor.go:279-310 | for the first rebalance of a RUNNING test with no completion pending this is: the failed worker was not counted done, or for every worker of the new assignment that has not left, the rest of the old assignment is not all done or still able to report, or is too small; two added workers always make it safe |
| Rebalancing.RebalanceCompletesEarly | internal/orchestrator/plan_distributor.go:279-310 | a run in which a rebalance of a three-worker test, for any shares, makes completion fire while an assigned worker is still in its stage loop |
| Rebalancing.Reported | internal/orchestrator/server.go:92-145 | from any reachable state any worker whose RunTest request was sent and not lost can go on to report that it finished the test, changing no test on the way |
| Rebalancing.SentToAssigned | internal/orchestrator/server.go:92-145 | without rebalances a test is sent to its assigned workers only |
| RunTable.RanksNumberTheQueue | internal/store/store.go:277-284 | with distinct submission times the ranks of n queued runs are 0 .. n-1, once each |
| RunTable.HeadHasRankZero | internal/store/store.go:243-284 | a queued run has rank 0 if and only if NextQueued may return it, ties or not |
| RunTable.HeadLeaves | internal/store/store.go:243-284 | when the head leaves, every other queued rank drops by one and the new head is the run that had rank 1 |
| RunTable.LeavingShiftsRanks | internal/store/store.go:277-284 | any run that leaves moves exactly the runs behind it one place forward |
| RunTable.WaysToLeave | internal/store/store.go:170-275 | dispatching, finishing, any other status and deletion all leave the queue without disturbing the rest of it |
| RunTable.SubmissionGoesLast | internal/store/store.go:162-284 | a later submission gets the last rank and moves nobody |
| RunTable.WritesColumns | internal/store/store.go:170-275 | which columns each of the three writes changes, of the one row it is for |
| RunTable.RestartEndsRunning | internal/store/store.go:286-294 | a restart leaves no run RUNNING: those that were are FAILED, ended at that time, and the others are as before |
| RunTable.RunTable.CreateRun | internal/store/store.go:162-168 | inserts, or refuses a duplicate ID |
| RunTable.RunTable.GetRun | internal/store/store.go:199-206 | the row, or not found |
| RunTable.RunTable.NextQueued | internal/store/store.go:243-251 | a queued run with minimal started_at; not found exactly when nothing is queued |
| RunTable.RunTable.MarkDispatched | internal/store/store.go:253-264 | QUEUED becomes RUNNING with workers and time; any other run is not found and unchanged |
| RunTable.RunTable.SetRunStatus | internal/store/store.go:266-275 | overwrites the status of an existing run, whatever it was |
| RunTable.RunTable.FinishRun | internal/store/store.go:170-186 | overwrites status, end time and summary of an existing run, whatever its status was |
| RunTable.RunTable.DeleteRun | internal/store/store.go:232-241 | removes the row, or not found |
| RunTable.RunTable.CountQueuedBefore | internal/store/store.go:277-284 | the number of queued runs submitted strictly earlier; 0 for an unknown run |
| RunTable.RunTable.FailInterruptedRuns | internal/store/store.go:286-294 | every RUNNING run becomes FAILED, every other row is unchanged, and the count is right |
| Dispatcher.Queue.DispatchNext | internal/api/queue.go:119-180 | selects the oldest queued run exactly when the slot is free and the read succeeds, with the effect of Selected, and asks to be called again exactly when it gave a run up |
| Dispatcher.Queue.Dispatch | internal/api/queue.go:182-218 | hands the run over exactly when distribution succeeds, even if MarkDispatched fails |
| Dispatcher.Queue.Release | internal/api/queue.go:220-226 | frees the slot only if this run holds it |
| Dispatcher.Queue.Drain | internal/api/queue.go:112-115 | the inner loop ends for every behaviour of the store and the orchestrator, after at most one call more than there are counted runs, and hands over at most one run |
| Dispatcher.Queue.Cancel | internal/api/queue.go:228-239 | cancels a queued run and refuses any other |
| Dispatcher.AgainForgets | internal/api/queue.go:146-173 | each repetition of the inner loop forgets some run's attempts, whatever the store did |
| Dispatcher.SelectingUsesBudget | internal/api/queue.go:121-180 | with successful writes the sum of (5 - attempts) over queued runs falls at every selecting call, by exactly one when dispatch fails, and stays non-negative |
| Dispatcher.FailingHeadBlocks | internal/api/queue.go:146-161 | a head that failed with attempts left is the only run the next call can select |
| Dispatcher.FiveFailuresFailTheRun | internal/api/queue.go:146-173 | whatever its failing calls are answered, the head stays first until the fifth, which writes FAILED unless that write fails too, and forgets its attempts |
| Dispatcher.FifthFailure | internal/api/queue.go:146-173 | from its first call on, four failures leave the run queued and the fifth fails it |
| QueueProtocol.SlotIsExclusive | internal/api/queue.go:121-226 | for any number of dispatching threads and any failures: whatever is being dispatched or recorded is the current run, there is at most one, and a taken slot always has somebody who will release it |
| QueueProtocol.OnDoneFiresOnce | internal/api/recorder.go:258-295 | in every reachable state each session has had one onDone call if it is past its close, and none before |
| RecorderProtocol.RunFollowsProtocol | internal/api/recorder.go:133-295 | the actions Recorder.Run ends with, in its own order, are a run of the queue protocol: from a recording session, which holds the slot and had no onDone call, they write the end or fail to, close the session, call onDone once, which frees the slot, and remove the session |
| QueueProtocol.NeverRequeued | internal/api/queue.go:146-239 | a run that has left QUEUED is never QUEUED again, in any interleaving |
| QueueProtocol.NoOvertaking | internal/api/queue.go:119-144 | while a submitted run waits, no thread picks a run that was submitted later |
| QueueProtocol.DispatchKeepsThread | internal/api/queue.go:121-226 | every dispatcher step keeps: a thread past its claim holds the slot for the current run |
| QueueProtocol.DispatchKeepsSession | internal/api/queue.go:212-218 | starting the recorder passes the slot on to exactly one session |
| QueueProtocol.RecordKeepsInv | internal/api/recorder.go:133-295 | finish, close, onDone and removal keep the slot protocol |
| QueueProtocol.ApiKeepsInv | internal/api/history.go:26-43 | submissions, cancellations and deletions keep the slot protocol |
| QueueProtocol.SubmittedRow | internal/store/store.go:162-168 | a submission is a new row that waits, with its start time and nothing else |
| Deletion.InFlightIsKeptIff | internal/api/history.go:26-43 | the row of the run in flight stays as long as it is in flight, in every continuation, if and only if no delete handler passed its check before |
| Deletion.OthersCanBeDeleted | internal/api/history.go:26-43 | a run that is not in flight can be deleted |
| Deletion.DeletedInFlight | internal/api/history.go:26-43 | a run of steps in which a handler checks a waiting run and deletes it after it was dispatched |
| SingleDispatcher.AtMostOnce | internal/api/queue.go:119-218 | with one dispatching thread no run is handed over twice, whichever writes fail and however handlers interleave, as long as no FinishRun fails on a run that is still QUEUED |
| SingleDispatcher.FailedFinishIsSafeIff | internal/api/recorder.go:274-292 | a FinishRun that fails keeps that in every continuation of the kind if and only if its run is not QUEUED |
| SingleDispatcher.FiveCalls | internal/api/queue.go:146-173 | if giving up does not fail on a QUEUED run either, no run costs more than five dispatch calls |
| SingleDispatcher.FailedGiveUpIsSafeIff | internal/api/queue.go:163-173 | a failing give-up write keeps that in every continuation of the kind if and only if its run is not QUEUED |
| QueueRuns.GiveUpIsReached | internal/api/queue.go:146-163 | a run with one thread and no failing write in which the fifth refusal leaves a thread about to give up a run that is still QUEUED |
| QueueRuns.FailedGiveUpCallsAgain | internal/api/queue.go:163-173 | and with that write failing, a run with a sixth dispatch call |
| SingleDispatcher.HandedOverRunsAreNotRequeued | internal/api/queue.go:182-226 | under the same condition a handed-over run whose slot is free again is out of the queue, even if MarkDispatched failed or it was cancelled meanwhile |
| SingleDispatcher.StepKeepsOnce | internal/api/queue.go:121-239 | every step within the condition keeps the per-run account of hand-overs |
| SingleDispatcher.StepKeepsFive | internal/api/queue.go:121-239 | and, with the one on giving up, the account of calls and attempts |
| ManyDispatchers.AtMostOnce | internal/api/queue.go:119-218 | with any number of dispatching threads no run is handed over twice as long as every claim finds its run still QUEUED or never handed over, and no FinishRun fails on a QUEUED run |
| ManyDispatchers.ClaimIsSafeIff | internal/api/queue.go:121-144 | a claim keeps that in every continuation of the kind if and only if its run is still QUEUED or was never handed over |
| ManyDispatchers.FailedFinishIsSafeIff | internal/api/recorder.go:274-292 | with any number of threads too, a FinishRun that fails keeps that in every continuation of the kind if and only if its run is not QUEUED |
| ManyDispatchers.OneThreadClaimsFresh | internal/api/queue.go:100-116 | one dispatching thread only ever makes such claims |
| FinalStatus.StatusIsFinalIff | internal/api/queue.go:119-239 | a stored run that is not QUEUED keeps its status, and its whole row, until it is deleted, in every continuation, if and only if no cancellation of it is half done (unless it is CANCELLED), no thread is on its way from picking it to its recorder or to giving it up (unless it is FAILED), and no session of it is still recording |
| FinalStatus.QuietRowStays | internal/api/queue.go:119-239 | without such a writer every run of steps leaves the row as it is or deletes it, and no such writer appears |
| FinalStatus.WriterChanges | internal/api/queue.go:119-239 | with such a writer some continuation changes the status of the stored run |
| FinalStatus.FreeSlot | internal/api/queue.go:182-226 | from any reachable state whoever holds the slot can go on to release it without changing the table |
| QueueRuns.TwoThreadsHandOffTwice | internal/api/queue.go:121-144 | with two dispatching threads a stale pick hands a run over twice although every write succeeds |
| QueueRuns.TwoFailedWritesHandOffTwice | internal/api/queue.go:202-218 | with one thread a run is handed over twice when MarkDispatched and FinishRun both fail |
| QueueRuns.SequentialCallIsARun | internal/api/queue.go:119-180 | every selecting call of the sequential dispatcher is a run of the protocol with the same effect |
| QueueRuns.CancelOverwritesCompleted | internal/api/queue.go:228-239 | a cancellation that read QUEUED in time overwrites COMPLETED |
| QueueRuns.EndedRunMayStayRunning | internal/api/recorder.go:133-186 | a lost stream leaves the run RUNNING with the slot free, and the sessions map still listing the closed session |
| SessionMap.ListedIff | internal/api/recorder.go:114-141 | for a run handed over at most once, the map of sessions lists exactly its session that is not yet removed |
| SessionMap.SessionsAreHandedOver | internal/api/recorder.go:123-131 | every session belongs to a run that was handed over, and a second session of a run to one handed over twice |
| SessionMap.RemoveUnlistsAnother | internal/api/recorder.go:137-141 | a run in which, after a second hand-over, the removal of the first session takes the second one, still recording, off the map |
| Session.Session.Subscribe | internal/api/recorder.go:34-60 | a fresh channel with the newest metrics in it, or a closed one after the end; earlier channels are untouched |
| Session.Session.Unsubscribe | internal/api/recorder.go:52-59 | closes the channel once; a second call changes nothing |
| Session.Session.Publish | internal/api/recorder.go:62-74 | every open channel is offered the event without blocking; a closed session publishes nothing |
| Session.Session.Close | internal/api/recorder.go:76-91 | every open channel is offered the end and closed, once |
| Session.Session.Receive | internal/api/recorder.go:34-60 | a dashboard reads its channel in order, and reading keeps the fan-out contract of every channel |
| Session.Session.Observe | internal/api/recorder.go:188-193 | keeps the newest metrics and the greatest rate |
| Session.Broadcast | internal/api/recorder.go:68-73 | one non-blocking send per open channel, in any order |
| Session.BroadcastEnd | internal/api/recorder.go:83-90 | one last send per open channel, then its only close |
| Session.OfferKeepsOrder | internal/api/recorder.go:62-74 | what a channel carries stays a catch-up snapshot followed by an in-order subsequence of what was published since it subscribed, with nothing missing unless its buffer was full |
| Session.EndKeepsOrder | internal/api/recorder.go:76-91 | closing adds at most one end |
| Session.EndIsLast | internal/api/recorder.go:76-91 | after reading an end nothing is left to read, and an open channel never delivers one |
| Recorder.Run | internal/api/recorder.go:133-295 | dashboards are shown what each input calls for, in order, and so exactly the metrics that are stored; the summary is made of the last of them; recording ends at the first ending input with the status it calls for; the peak is the maximum over streamed metrics and ignores the final reading; each of the four ways to end writes the row, closes the session, calls onDone and removes the session, in this order and once |
| Recorder.EndingStatus | internal/api/recorder.go:143-230 | a recording ends FAILED without a stream or at the deadline, with the final status when a poll finds the test over, and otherwise with the latest polled status, RUNNING before the first |
| Recorder.EndingReading | internal/api/recorder.go:214-228 | the final reading of that poll is stored last, and the last stored sample is what the summary is made of |
| Recorder.EndingPeak | internal/api/recorder.go:188-193 | the peak is the greatest rate that came down the stream, or zero |
| Recorder.ShowsFields | internal/api/recorder.go:184-228 | a poll is shown as its status, and one that ends the recording with its reading after that; a failed poll shows nothing |
| Recorder.EndStatusIsTerminalUnlessStreamLost | internal/api/recorder.go:184-230 | a recording ends with a terminal status if and only if it was not ended by losing the stream |
| Aggregator.MetricsAggregator.UpdateWorkerMetrics | internal/orchestrator/metrics_aggregator.go:43-90 | replaces the worker's entry, keeps every cached aggregate equal to recomputation, leaves other tests alone, drops batches for no test |
| Aggregator.MetricsAggregator.Recalculate | internal/orchestrator/metrics_aggregator.go:92-191 | loops in any order compute a rollup of the snapshots |
| Aggregator.MetricsAggregator.GetAggregatedMetrics | internal/orchestrator/metrics_aggregator.go:193-198 | the rollup of the snapshots held now; all zeros for an unknown test |
| Aggregator.MetricsAggregator.RemoveTest | internal/orchestrator/metrics_aggregator.go:212-218 | drops the snapshots and the aggregate of one test |
| Aggregator.LatencyRange | internal/orchestrator/metrics_aggregator.go:115-132 | extremes and count-weighted mean |
| Aggregator.AveragePercentiles | internal/orchestrator/metrics_aggregator.go:137-154 | percentiles averaged over the workers that took samples |
| Aggregator.AddRatesUp | internal/orchestrator/metrics_aggregator.go:104-113 | rates are summed, the peak is the greatest |
| Aggregator.AddRequests | internal/orchestrator/metrics_aggregator.go:104-113 | requests and errors are summed |
| Aggregator.RollupIsDetermined | internal/orchestrator/metrics_aggregator.go:92-191 | two rollups of the same snapshots agree on everything but, perhaps, the minimum |
| Aggregator.MinIsDeterminedIff | internal/orchestrator/metrics_aggregator.go:116-120 | the fleet minimum does not depend on map order if and only if the counted minima are all positive or all zero |
| Aggregator.UniformMinIsDetermined | internal/orchestrator/metrics_aggregator.go:116-120 | and then it is the true minimum |
| Aggregator.TableHoldsLastBatches | internal/orchestrator/metrics_aggregator.go:43-90 | after any history the table holds exactly each worker's last batch since the test was last removed |
| Aggregator.AggregateIsOfLastBatches | internal/orchestrator/metrics_aggregator.go:43-218 | two histories that agree on those last batches have the same aggregate, whatever else was interleaved |
| Aggregator.RollupKeepsPercentiles | internal/orchestrator/metrics_aggregator.go:134-154 | P50 <= P95 <= P99 <= P999 for every worker carries over to the fleet |
| Aggregator.RollupKeepsSpread | internal/orchestrator/metrics_aggregator.go:115-132 | 0 < Min <= Mean <= Max for every worker carries over to the fleet |
| RollupFields.OneWorker | internal/orchestrator/metrics_aggregator.go:92-191 | a fleet of one worker shows that worker's rates, requests, errors and latencies field by field, with a window of ten seconds |
| RollupFields.OneWorkerMore | internal/orchestrator/metrics_aggregator.go:104-128 | one more worker adds its own requests, errors, rates and samples |
| RollupFields.NoWorkers | internal/orchestrator/metrics_aggregator.go:92-191 | an empty fleet shows nothing |
| RollupFields.PercentilesAreAverages | internal/orchestrator/metrics_aggregator.go:134-154 | each percentile of the fleet is the average of the same percentile over the workers that took samples, cut to a whole nanosecond |
| Aggregator.ReportFields | internal/orchestrator/metrics_aggregator.go:43-90 | a report replaces one worker's entry of one test, and a batch for no test changes nothing |
| SpanAggregator.SpanAggregator.Record | internal/tracer/span_aggregator.go:31-43 | a duration is cut to whole milliseconds and kept, or dropped if the histogram refuses it |
| SpanAggregator.SpanAggregator.GetPercentiles | internal/tracer/span_aggregator.go:45-64 | minimum, maximum and the four percentiles are the library's answers for the kept values, each in milliseconds, the mean is their truncated mean, and everything is zero before the first sample |
| SpanAggregator.SpanAggregator.Reset | internal/tracer/span_aggregator.go:66-74 | nothing is recorded any more |
| SpanAggregator.KeptIsNear | internal/tracer/span_aggregator.go:36-37 | recording loses less than a millisecond a sample, apart from the error with which the library keeps a whole millisecond |
| FleetMean.WireKeepsSnapshotIff | internal/worker/reporter.go:116-144 | a snapshot survives the wire if and only if its latencies are whole milliseconds, as everything GetPercentiles returns is |
| FleetMean.FleetMeanWithin | internal/orchestrator/server.go:280-296 | if each worker's mean is within given bounds of its latency sum, the reported MeanMs is within the same bounds of the fleet's, and a millisecond |
| FleetMean.KeptMeanWithinTwoMs | internal/orchestrator/server.go:280-296 | the reported MeanMs is at most the mean of the milliseconds the workers' histograms hold, and less than 2 ms below it |
| FleetMean.ReportedMeanWithinThreeMs | internal/orchestrator/server.go:280-296 | from the durations themselves, through recording, the workers' means, the wire and the fleet rollup: the reported MeanMs is at most their mean and less than 3 ms below it, either way apart from the histogram library's error on a whole millisecond |
| FleetMean.TwoMsIsNotEnough | internal/tracer/span_aggregator.go:36-55 | two workers with three samples each whose reported mean is more than 2 ms below that of the durations, and more than 1 ms below that of the histograms |
| FleetMean.WeightedSumFits | internal/orchestrator/metrics_aggregator.go:122-132 | at no point of the loop is the weighted latency sum negative or greater than the fleet's latency total, if no worker's mean times its count is, so it stays within an int64 whenever that total does |
| RequestWindow.MetricsCollector.RecordRequest | internal/worker/metrics.go:70-109 | after appending and compacting, the slice is exactly the in-window part of everything recorded since the reset, in order; totals, status codes and messages follow, and a positive duration goes to the histogram |
| RequestWindow.Compact | internal/worker/metrics.go:100-108 | compaction into the slice's own backing array keeps exactly the later entries, in order |
| RequestWindow.Append | internal/worker/metrics.go:93-98 | append in place or into a bigger copy |
| RequestWindow.SlideIn | internal/worker/metrics.go:93-108 | pruning after pruning equals pruning the full history once |
| RequestWindow.MetricsCollector.GetSnapshot | internal/worker/metrics.go:121-206 | the rate is that of the full unpruned history, the peak is the maximum of all rates shown since the reset, the latencies are those of the histogram |
| RequestWindow.CountAfter | internal/worker/metrics.go:126-135 | the windowed count over the pruned slice equals the count over the full history |
| RequestWindow.MetricsCollector.CurrentRate | internal/worker/metrics.go:126-141 | the rate over the pruned slice equals the rate over the full history; a window under a second counts as one second |
| RequestWindow.MetricsCollector.RecordError | internal/worker/metrics.go:111-119 | counts an error that is no request |
| RequestWindow.MetricsCollector.Reset | internal/worker/metrics.go:207-221 | forgets everything but the backing array, samples included |
| RequestWindow.AfterAfter | internal/worker/metrics.go:100-108 | pruning with an older cutoff loses nothing a newer cutoff keeps |
| RequestWindow.PeakIsMax | internal/worker/metrics.go:143-146 | the recorded peak bounds every rate shown and is one of them, or zero |
| RequestWindow.CodeCountsAddUp | internal/worker/metrics.go:91 | status code counters add up to the requests |
| RequestWindow.CodeCountIs | internal/worker/metrics.go:91 | each counter is the number of times its code was seen |
| RequestWindow.QuotientsMean | internal/worker/metrics.go:137-171 | what the rates and the percentage mean, and that they are zero where they would divide by nothing |
| RequestWindow.RateAtMeans | internal/worker/metrics.go:121-141 | the current rate times the window's seconds is the number of requests in the window |
| RequestWindow.WindowSecondsAre | internal/worker/metrics.go:137-140 | the window counts in whole seconds, and never as less than one |
| RequestWindow.AfterConcat | internal/worker/metrics.go:100-108 | pruning keeps each later entry, as often and in the same order |
| RequestWindow.MessagesKept | internal/worker/metrics.go:80-85 | a failure's message is kept unless it is empty, and the first hundred are |
| Assertions.ParsedVerdictSurvivesWire | internal/runtime/proto.go:60-108 | every parsed assertion list gives the same verdict, with the same assertion blamed, on every response after encoding and decoding |
| Assertions.WireKeepsVerdictIff | internal/runtime/proto.go:60-108 | an arbitrary assertion keeps its verdict on every response if and only if its value has the type its kind calls for and fits the wire: an int32 code, or a limit in whole milliseconds within int32, or a negative limit whose encoded value is negative too, which no response meets before or after |
| Assertions.WireKeepsVerdict | internal/runtime/proto.go:60-108 | a list of assertions that each keep their verdict keeps its verdict and its blame |
| Assertions.SuccessIsConjunction | internal/worker/virtual_user.go:149-159 | a request succeeds exactly with a 2xx status and every assertion passing |
| Assertions.ScenarioVerdict | internal/worker/virtual_user.go:149-206 | from an entry in a scenario file, over the wire, to the verdict: 2xx and the expected code, or a duration within the limit in milliseconds, or a body in which the text occurs, by the first field set |
| Assertions.OneVerdict | internal/worker/virtual_user.go:170-206 | one assertion decides a 2xx response by the response's own status, duration or body; a value of the wrong type fails and an unknown kind passes |
| Assertions.ContainsIff | internal/worker/virtual_user.go:196-201 | a body contains a text if and only if it is something, the text, and something |
| Assertions.LastFailureIsBlamed | internal/worker/virtual_user.go:153-158 | of several failing assertions the last is blamed |
| Assertions.ParsedFields | internal/runtime/scenario.go:122-149 | the kind, and the limit, code or text, that each field of an entry is parsed into, in order of precedence |
| Assertions.ParsedConcat | internal/runtime/scenario.go:122-149 | entries are parsed one by one |
| Assertions.ParsedFits | internal/runtime/scenario.go:122-149 | whatever is parsed from a scenario file fits the wire |
| Assertions.ParseAssertions | internal/runtime/scenario.go:122-149 | the first field set decides the assertion; one with none set is dropped |
| Assertions.AssertionsToProto | internal/runtime/proto.go:60-108 | the encoding loop |
| Assertions.DecodeAssertions | cmd/worker/main.go:311-328 | the decoding loop |
| Assertions.CheckResponse | internal/worker/virtual_user.go:149-206 | the assertion loop of executeRequest computes the verdict |

## Left out

- StageAllocation.AllocateStageVUs: fractions are exact (`target * share` divided by the total, compared through remainders), where the code compares float64 fractional parts; near-ties that float64 rounding would order differently are not modelled.
- PlanDistributor.PlanDistributor.DistributePlan: int32 sums of capacities and virtual users do not wrap; the stored assignment is a value, so the map that the code shares between the stored test and its caller is not aliased here; the Send step of `Completion` reads the stored assignment itself, as the alias makes the code do.
- FleetMean.ReportedMeanWithinThreeMs: int64 wrap-around is not modelled, `FleetMean.WeightedSumFits` bounds the sum that could wrap; the histogram's float64 mean is taken as exact before it is truncated.
- Aggregator.AddRatesUp: rates are exact reals rather than float64.
- Aggregator.MetricsAggregator.UpdateWorkerMetrics: batch timestamps and `LastUpdate` are not kept.
- RequestWindow.MetricsCollector.GetSnapshot: percentiles and extremes are whatever the histogram library answers, which is a parameter; rates are exact reals.
- Completion.CompletedMeansEveryWorkerLeft: the run requests of one test are read off its assignment in one step; a rebalance in the middle of that loop is a data race on the shared map and is not modelled.
- Engine.Engine.RunTest: virtual users run one after another in the model of a stage, and cancellation is noticed at a stage boundary given as an input; what a virtual user requests is not modelled.
- LoadCurve.DispatchToWorkers: the RunTest calls to workers are recorded, not delivered; a worker that cannot be reached starts nothing.
- QueueProtocol.SlotIsExclusive: threads do not crash between steps; timers and wake-ups only decide when a step happens.
- Locks: a method that holds a mutex throughout is one step, so interleavings of the session's methods are sequences of calls.
- HashRing.ConsistentHashRing.Get: SHA-256 is an arbitrary function.
- sort.Strings, sort.Slice and sort.SliceStable are modelled by one stable insertion sort, sort.Search by its binary search.
- The HTTP handlers, SSE and gRPC transport, etcd, SQLite, logging, Prometheus and tracing.
- Health checks and last-seen times of nodes, saved plans, users, sessions, stored samples and their paging.
- YAML parsing, variable substitution, scenario validation, stage durations and think times.
- The delivery of stop requests to workers; only the status they leave is modelled.
- The goroutine pool, which the engine never submits work to.
