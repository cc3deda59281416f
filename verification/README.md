# Verified model of the MongoDB cloud-to-VM replicator

The replicator copies MongoDB collections from a cloud source to target VMs: an initial page-wise dump, then
incremental sync that polls a change stream, filters the events, sends them in batches with retries and moves its
resume token only after a successful delivery. Around it run a circuit breaker, an adaptive controller with a learning
engine, a collection distributor, an event coordinator with deduplication, a retrying worker pool, a partitioner and
sliding-window metrics. Each Dafny module models one of these: objects that update their fields are classes whose
methods are proved against functions on values, and the properties of the components are lemmas about those functions
and about every run of the state machines made from them.

- `ChangeLog`, `VmSync`, `CloudSync`: the incremental sync protocol. The source is an unbounded log, the checkpoint a
  log position, the target a map. Any part of a failed send may have been applied, several times and in any order.
- `DecimalText`, `Filtering`: integers as text, compiled match stages, the filter engine's evaluation, and the separate evaluation of the change stream.
- `CircuitBreaker`, `BreakerHistory`: generations, expiry times and counts with calls in flight across transitions, and
  what they mean in terms of the calls made.
- `Learning`, `LearningEngine`, `AdaptiveControl`, `LearningLaws`, `ControlLaws`, `RunningBaseline`: adaptive
  configuration, what its scores and rules mean, and the anomaly baseline.
- `Distribution`, `DistributorLock`, `EventBuffer`, `EventCoordinator`, `CoordinatorHistory`, `WorkerPool`,
  `PoolHistory`: allocation and the lock around it, deduplication and scheduling.
- `Partitioner`, `SlidingWindow`, `PageResume`: covers, window counters and resumption of the bulk transfer.
- `Common`, `Documents`: subsequences, sorting, division with remainder, BSON values.

Durations and clock readings are integers, floating-point numbers are exact reals, conversions to integers truncate
towards zero, and a stored standard deviation is represented by its square.

## What is false of the code, and exactly when

- The VM applies all upserts of a batch before all its deletes, chunk after chunk, each in an order the database chooses.
  That equals replaying the batch if and only if no key is inserted again after its delete and each key the batch does
  not delete gets its last upsert last (`ChangeLog.ExecutionRefinesReplayIff`, `CloudSync.DeliveryIsExact`), and it does
  so in every such order if and only if no last chunk upserts such a key in two ways
  (`ChangeLog.EveryExecutionRefinesReplayIff`).
- A document whose `_operation` field looks like a marker does not survive the wire (`CloudSync.WireRoundTrip`).
- The expired-oplog branch keeps at-least-once delivery if and only if every sendable event it skips had been delivered
  (`CloudSync.LostTokenIsSafeIff`, with an instance in `CloudSync.ExpiryLosesEvents`). A poll that reads only events the
  filter keeps back leaves the checkpoint alone, so they are read again each time (`CloudSync.FlawlessPollReachesEndIff`).
- Half-open counts results, not probes: after entering it the breaker can close on fewer than `MaxRequests` probe
  results if and only if calls were carried over (`CircuitBreaker.ClosesEarlyIffCarried`,
  `CircuitBreaker.OnlyProbesClose`), and a half-open breaker whose probes are spent is stuck.
- A compiled filter keeps its meaning if and only if each criterion that compilation skips or overwrites is implied by
  the survivors on its field, or no document passes them (`Filtering.CompilationPreservesMeaningIff`).
- Integers of different Go types, as in documents and loaded criteria, are compared by text in the filter engine and
  never equal in the change-stream evaluation: `Filtering.MixedOrderingAgreesIff`, `Filtering.IntegerCriteriaAgreeIff`
  and, for the compiled filter and floating-point criteria, `Filtering.DumpAgreesWithStreamIff` say exactly where the
  evaluations agree, `Filtering.StreamAgainstEngine` for every scalar. An operator in capitals is unknown to the change
  stream alone (`Filtering.CapitalsMatterToTheStream`).
- The filter engine orders null below every value and matches regular expressions against the text of any value; the
  database does neither (`Filtering.NullAgreesIff`, `Filtering.RegexAgreesIff`).
- A push that starts over does not reset the tracked count, so a resumption after it can start past the documents sent
  and report success with a gap: over runs exactly if it starts so and gets a page delivered
  (`PageResume.RunLeavesNoGapIff`), after one interruption exactly if both pushes had got past their first page
  (`PageResume.RestartLeavesNoGapIff`). A full push reports the true count only for whole pages.
- The comment on the throttle delay promises at most 2000 ms; `AdaptiveControl.ThrottleDelayRange` says when it holds.
- The stored variance misses what the second sample should have added (`RunningBaseline.VarianceClosedForm`).
- The worker pool's internal queue counter is short by one for every retry; no caller sees it, since `GetStats` replaces
  it by the length of the queue (`WorkerPool.QueueCounterDrifts`).
- Registering collections asks for the distributor's lock while holding it, so the call never returns and no later one
  does (`DistributorLock.RegistrationWaitsForItself`, `DistributorLock.ReturnsIff`), and nothing is ever distributed.

## Model

The main results come first, the other members follow by module.

| member | source | states |
|---|---|---|
| CloudSync.Convergence | cmd/cloud-sync/main.go:1448-1636 | if every delivered batch acts as its replay, in every reachable state each key holds the value it had in the filtered log at some position between the checkpoint and the furthest position read |
| CloudSync.CaughtUp | cmd/cloud-sync/main.go:1448-1636 | under the same condition, once the checkpoint has reached the end of the log the target equals the full replay of the filtered log |
| CloudSync.DeliveryIsExact | cmd/vm-sync/main.go:1410-1491 | a delivered batch that reaches the furthest position read brings the target to the replayed state if and only if it revives no key and each key it does not delete got its last upsert last |
| CloudSync.AtLeastOnce | cmd/cloud-sync/main.go:1508-1629 | in every run the checkpoint never moves back and every sendable event below it was in a batch whose send returned success |
| CloudSync.TwoPollsSkipNothingIff | cmd/cloud-sync/main.go:1448-1636 | when a fresh stream polls twice, the first time without reading an event, and the second poll sends its batch, every sendable event since the first is sent if and only if the first poll saved its token or nothing sendable lies before the point where the second stream starts |
| CloudSync.FirstCheckpointIff | cmd/cloud-sync/main.go:1579-1629 | a poll of a fresh stream leaves a checkpoint if and only if it saves, and either reads nothing and is offered a token or sends its batch; the checkpoint is then the end of what was read, with everything sendable sent |
| CloudSync.FlawlessPollReachesEndIff | cmd/cloud-sync/main.go:1579-1629 | a poll without failure that reads to the end of the log moves the checkpoint there if and only if it read nothing or something sendable |
| CloudSync.PollsFollowProtocol | cmd/cloud-sync/main.go:1448-1636 | from its first checkpoint on every run of polls as the code runs them, without a lost token, is a run of the protocol, so what holds over every run holds of it |
| CloudSync.LostTokenIsSafeIff | cmd/cloud-sync/main.go:1476-1501 | a poll that lost its token and saves the end of what it read keeps at-least-once delivery if and only if every sendable event between the lost position and its start had been sent |
| ChangeLog.TwoPhaseRefinesReplay | cmd/vm-sync/main.go:1410-1491 | applying all upserts and then all deletes equals replaying the writes one by one if and only if no key is re-inserted after its delete |
| ChangeLog.EveryExecutionRefinesReplayIff | cmd/vm-sync/main.go:2206-2295 | with the upserts in chunks of 1000 one after the other, every order inside the chunks and of the deletes has the effect of the replay if and only if the batch revives no key and, for each key it does not delete, the last chunk that upserts it does so in one way only |
| ChangeLog.ExecutionRefinesReplayIff | cmd/vm-sync/main.go:1410-1491 | an execution, chunk by chunk and in any order inside each, has the effect of the replay if and only if the batch revives no key and each key it does not delete gets its last upsert last |
| ChangeLog.OrderIrrelevant | cmd/vm-sync/main.go:2245-2295 | an unordered bulk write gives the same result in every execution order if and only if no two of its writes to one key differ |
| ChangeLog.SuffixRedeliveryIsIdempotent | cmd/vm-sync/main.go:1410-1491 | a re-delivered suffix changes nothing through the two-phase order if and only if it revives no key |
| CircuitBreaker.BreakerConservation | pkg/resilience/circuit_breaker.go:233-370 | under every interleaving successes, failures and in-flight calls of the generation equal requests plus the calls carried over the last half-open entry |
| CircuitBreaker.ClosesEarlyIffCarried | pkg/resilience/circuit_breaker.go:288-352 | from entering half-open some continuation without a reset closes on fewer than `MaxRequests` results of probes if and only if calls were carried over |
| CircuitBreaker.OnlyProbesClose | pkg/resilience/circuit_breaker.go:288-298 | in every run a half-open breaker that carried no call over closes only on the last result of a full round of probes that have all succeeded |
| CircuitBreaker.FiveProbes | pkg/resilience/circuit_breaker.go:50-66 | with the defaults five sequential probes, each at its own times, from an expired open breaker close it iff all succeed and open it iff at least four fail and the fifth fails |
| CircuitBreaker.SpentIsAbsorbing | pkg/resilience/circuit_breaker.go:233-258 | half-open with its requests at the limit and none in flight never changes again and admits nothing, short of a reset |
| CircuitBreaker.OpenHolds | pkg/resilience/circuit_breaker.go:314-326 | over whole runs nothing is admitted up to the timeout after opening |
| BreakerHistory.CountsAreTheHistory | pkg/resilience/circuit_breaker.go:233-370 | in every run all six counts are those of the calls admitted and the results reported since the current count began |
| BreakerHistory.CallDecided | pkg/resilience/circuit_breaker.go:233-258 | in every run a call is admitted if and only if the concurrent calls are below their limit and the breaker is closed, or half-open or open for more than the timeout with room for a probe; it begins a generation if and only if the interval of a closed one is over |
| BreakerHistory.ResultDecided | pkg/resilience/circuit_breaker.go:260-312 | in every run exactly a failure of the current generation whose counts are ready to trip opens the breaker, and exactly a success that completes the streak closes a half-open one |
| BreakerHistory.TripsOnOneInterval | pkg/resilience/circuit_breaker.go:314-326 | a closed breaker with an interval trips only on counts of calls that were all admitted within one interval |
| AdaptiveControl.BoundsAlways | pkg/adaptive/controller.go:72-96 | in every run with non-negative scores every configuration held anywhere keeps fetch 1..16, push 1..8, batch 10..1000, queue 0..1000; histories keep their sizes, the accuracy is a fraction and learned patterns keep an effectiveness above 0.7 |
| ControlLaws.OverloadWearsDown | pkg/adaptive/controller.go:250-262 | in any run decided by the rules under a lasting VM overload, n adjustments leave n fetchers and n pushers fewer, down to one, a batch cut n times, down to ten, and back-pressure of at least 50 ms |
| ControlLaws.GrowthNeedsRoom | pkg/adaptive/controller.go:352-391 | by the rules there are more fetchers or pushers only when both sides keep their limits, one has an idle processor and the last change is 45 s old; otherwise only the batch may grow, by a twentieth at most |
| ControlLaws.HistoryIsAChain | pkg/adaptive/controller.go:141-232 | in every run the history is the chain of the latest changes: each starts from what the one before left, and the last left the current configuration |
| LearningLaws.PredictionIsWeightedMean | pkg/adaptive/learning.go:732-795 | nothing is predicted from fewer than ten examples or without weight, otherwise the whole part of the mean setting of the five nearest, weighted by their scores |
| LearningLaws.LoadsAlike | pkg/adaptive/learning.go:348-390 | the match score of two observed loads, as a function of how far apart their readings are |
| Learning.PredictionSafeIffSameSign | pkg/adaptive/learning.go:766-790 | the average stays within bounds for all configurations within bounds if and only if no two scores have opposite signs |
| RunningBaseline.VarianceClosedForm | pkg/adaptive/learning.go:1043-1048 | from two samples on, n times the stored variance is the true sum of squared deviations minus half the square of the first two samples' difference |
| RunningBaseline.FlaggedExactly | pkg/adaptive/learning.go:1087-1098 | exactly which values are flagged in terms of the true deviations; every value beyond two true deviations is |
| Distribution.CapacitySafeIffFits | pkg/distribution/balancers.go:235-278 | one weighted distribution of collections no VM holds yet respects every limit if and only if they do not outnumber the total room |
| Distribution.DistributionIsComplete | pkg/distribution/balancers.go:235-278 | afterwards every active collection has a VM and earlier assignments stand |
| Distribution.RoundRobinIsBalanced | pkg/distribution/balancers.go:633-648 | each of n VMs is chosen floor(k/n) or ceil(k/n) times for k new collections |
| Distribution.WeightedShares | pkg/distribution/balancers.go:454-510 | while the weights stay, each VM is picked exactly its weight out of every total of consecutive picks |
| DistributorLock.ReturnsIff | pkg/distribution/balancers.go:178-324 | with calls taking the lock in any order, a waiting call on the distributor can ever return if and only if it does not register collections and no registration has got hold of the lock |
| DistributorLock.RegistrationWaitsForItself | pkg/distribution/balancers.go:202-237 | from every state with the lock free a waiting registration can register its collections and then waits for the lock it holds, after which nothing ever happens but the arrival of calls |
| DistributorLock.NothingIsEverDistributed | pkg/distribution/balancers.go:202-296 | in every run no VM ever holds a collection, and every distribution that takes place finds nothing registered and changes nothing |
| EventBuffer.EventBuffer.AddEvent | pkg/cluster/event_buffer.go:58-80 | an event is accepted if and only if no event with its ID was accepted less than the lifetime before |
| EventBuffer.CleanupIsInvisible | pkg/cluster/event_buffer.go:58-128 | interleaving cleanups anywhere in a run never changes any answer to an addition nor which events are accepted |
| EventBuffer.AcceptsWhatIsNotRecent | pkg/cluster/event_buffer.go:58-128 | over any run of additions and cleanups an event is accepted if and only if no event with its ID was accepted less than the lifetime before |
| EventCoordinator.CoordinatorConservation | pkg/cluster/event_coordinator.go:134-210 | in every run submissions equal processed, dropped, duplicate, queued and batched events |
| EventCoordinator.PublishedInOrder | pkg/cluster/event_coordinator.go:155-298 | the output is an in-order subsequence of the deduplicated submissions and, once drained, equals them if and only if the output queue never overflowed |
| EventCoordinator.GivenInOrderAndTurn | pkg/cluster/event_coordinator.go:257-298 | in every run with processors each event that passes deduplication is given to exactly one, in order, the k-th to processor k modulo their number |
| CoordinatorHistory.StepsExplainAll | pkg/cluster/event_coordinator.go:134-298 | in every run an event is refused if and only if the input queue is full and lost if and only if the output queue is full when it is handed out; both queues are served in order and each statistic counts what it is named after |
| CoordinatorHistory.PassesWhatIsNotRecent | pkg/cluster/event_coordinator.go:155-204 | in every run the events that pass deduplication are those for which no event with their ID passed less than the lifetime before |
| WorkerPool.PoolConservation | pkg/parallel/worker_pool.go:137-317 | in every run each submitted task is in exactly one place, and failures equal retries plus tasks given up |
| WorkerPool.DrainsInBoundedSteps | pkg/parallel/worker_pool.go:212-317 | without new submissions no run is longer than the measure of its first state |
| WorkerPool.StopsOnlyWhenDrained | pkg/parallel/worker_pool.go:212-317 | with a worker at all, no step is possible if and only if every task has succeeded or been given up |
| WorkerPool.AttemptBound | pkg/parallel/worker_pool.go:292-317 | no task is started more than MaxRetries + 1 times, and only one started that often is given up |
| PoolHistory.OutcomeDecidesTask | pkg/parallel/worker_pool.go:236-317 | in every run a task has succeeded if and only if its last ended attempt did, and is given up if and only if it failed once more than it may be retried |
| PoolHistory.StatsAreTheHistory | pkg/parallel/worker_pool.go:236-317 | in every run the statistics count exactly the attempts that ended well and those that did not |
| Partitioner.ExactIffNonDecreasing | pkg/parallel/partitioner.go:79-121 | every id satisfies exactly one filter if and only if the boundaries never decrease |
| Partitioner.SamplesFallEvenly | pkg/parallel/partitioner.go:134-177 | of distinct sorted samples the first partition gets one more than the step, each following one exactly the step and the last the rest, so with fewer samples than partitions all between get none |
| Filtering.CompilationPreservesMeaningIff | pkg/filtering/filter.go:85-201 | they agree on all suitable documents of storable values if and only if none passes the survivors or each skipped or overwritten criterion is implied, value by value, by the survivors on its field |
| Filtering.CompilationAgreesIff | pkg/filtering/filter.go:240-257 | on a suitable document compiled filter and direct evaluation agree if and only if a survivor rejects it or every skipped or overwritten criterion accepts it |
| Filtering.IntegerCriteriaAgreeIff | cmd/cloud-sync/main.go:1780-1892 | over all integers of a field's type the change stream agrees with the engine on eq and ne if and only if field and criterion have one Go type or the bound does not fit the field, and on an ordering if and only if the engine accepts every integer of the type |
| Filtering.DumpAgreesWithStreamIff | cmd/cloud-sync/main.go:1780-1892 | on integer fields and numeric criteria, floating-point ones included, the compiled filter of the dump and the change stream agree on eq and ne if and only if the types are the same or the number is no integer of the type, and on an ordering if and only if every integer of the type meets it |
| Filtering.CapitalsMatterToTheStream | cmd/cloud-sync/main.go:1780-1892 | capitals in an operator change nothing for the compiled filter and the filter engine, but make the change stream accept every value |
| Filtering.MixedOrderingAgreesIff | pkg/filtering/filter.go:260-283 | an ordering between integers of two Go types gives the same answer compiled and evaluated if and only if their texts are ordered as they are |
| Filtering.ChangeStreamVariantAgrees | pkg/filtering/filter.go:80-82 | for any filter the `fullDocument.` variant accepts an event if and only if the plain variant accepts its document |
| SlidingWindow.WindowAgreesWithHistory | pkg/metrics/collector.go:497-639 | after any interleaving of adds and reads with a clock that never goes back, a rate covers exactly what was ever recorded inside the window, and the total covers everything |
| PageResume.ResumeLeavesNoGap | cmd/cloud-sync/main.go:2911-3035 | with one page size, over any interrupted attempts that follow their record, with any failed pages and lost tracker updates, the documents sent have no hole and success means all were sent |
| PageResume.RunLeavesNoGapIff | cmd/cloud-sync/main.go:2992-3071 | over runs with forced syncs, failed resume requests, unreadable trackers and any page sizes, no attempt leaves a hole or reports success too early if and only if every resumption that gets its first page delivered starts within the documents sent by then |
| PageResume.ResumeRestartResumeLeavesGap | cmd/cloud-sync/main.go:2999-3035 | after a resumption that got past the documents sent before, any restart that gets a page tracked makes the next resumption that advances leave a gap |
| PageResume.RestartLeavesNoGapIff | cmd/cloud-sync/main.go:2999-3035 | after a restart, for whatever reason, that did not finish, a successful resumption has sent everything if and only if one of the two pushes had not got past its first page |
| PageResume.FinishedIff | cmd/cloud-sync/main.go:2821-2908 | an attempt finishes the sync of a collection if and only if it pushes all pages of one that is not empty, all are sent and the completion mark reaches the tracker |
| ChangeLog.LastWriteWins | cmd/vm-sync/main.go:2245-2295 | after an ordered bulk write each key holds the effect of the last write to it, or what it held before |
| ChangeLog.TwoPhaseLast | cmd/vm-sync/main.go:1410-1491 | in upserts-then-deletes order a key ends deleted as soon as the batch deletes it anywhere |
| ChangeLog.NoRevivalLast | cmd/vm-sync/main.go:1410-1491 | a batch revives no key if and only if every key it deletes is written last by a delete |
| ChangeLog.RevivalIsLost | cmd/vm-sync/main.go:1410-1491 | a delete followed by a re-insert of the key leaves the document missing in the two-phase order |
| ChangeLog.SuffixReplayIsIdempotent | cmd/cloud-sync/main.go:1508-1629 | re-applying a suffix of an already applied log changes nothing |
| ChangeLog.ExecutedLast | cmd/vm-sync/main.go:1410-1491 | however the chunks are executed, a key the batch deletes ends deleted, and any other it writes ends with a write of the last chunk that upserts it |
| VmSync.TargetCollection.BulkWrite | cmd/vm-sync/main.go:2245-2295 | an unordered bulk write performs its writes in the order the database executes them, and on an error exactly the given part of them |
| VmSync.TargetCollection.InsertDocumentsBatch | cmd/vm-sync/main.go:2245-2295 | upserts the documents with an `_id` chunk after chunk, each in some order; it fails if and only if the fault hits a chunk, and then the chunks before and part of that one are executed |
| VmSync.TargetCollection.DeleteDocumentsBatch | cmd/vm-sync/main.go:2206-2243 | deletes the keys chunk after chunk, each in some order; it fails if and only if the fault hits a chunk, and then the chunks before and part of that one are executed |
| VmSync.TargetCollection.ProcessIncrementalData | cmd/vm-sync/main.go:1398-1496 | drop and invalidate markers act first, then the upserts run chunk by chunk, then the deletes; it fails if and only if a fault hits one of the chunks, and stops exactly there |
| VmSync.MarkersComeFirst | cmd/vm-sync/main.go:1410-1491 | a key that the batch writes ends as if the batch held no drop or invalidate marker, wherever the marker stands |
| VmSync.OperationMeans | cmd/vm-sync/main.go:1410-1475 | what a document alone in a batch does, for every operation it can name |
| VmSync.ChunksOfAThousand | cmd/vm-sync/main.go:2255-2290 | every bulk write covers a thousand documents, the last one the rest |
| VmSync.TargetCollection.WriteChunk | cmd/vm-sync/main.go:2281-2290 | one chunk is executed in some order of its writes, or on an error, if and only if the fault is its own, some of them are |
| VmSync.TargetCollection.UpsertModels | cmd/vm-sync/main.go:2262-2279 | one chunk upserts exactly its documents that have an `_id` |
| CloudSync.WireRoundTrip | cmd/cloud-sync/main.go:1523-1557 | a document comes out of the wire format as its own upsert if and only if its `_operation` field is not a marker's |
| CloudSync.SentWrites | cmd/cloud-sync/main.go:1508-1557 | what the VM side does with a sent log segment is the upserts of the filtered segment followed by its deletes |
| CloudSync.CompleteAfterScattered | cmd/cloud-sync/main.go:2325-2355 | a complete execution gives the same collection whatever parts of the batch earlier failed attempts had applied |
| CloudSync.Replicator.Deliver | cmd/vm-sync/main.go:1398-1496 | one delivery handles the markers and executes the batch, and succeeds if and only if no bulk write fails and its success is heard of; otherwise some or all of its writes were executed |
| CloudSync.Replicator.SendIncrementalChanges | cmd/cloud-sync/main.go:2359-2444 | an empty batch succeeds, before the initial dump is done any other fails, both without touching the target; otherwise the send succeeds if and only if TCP or then HTTP does, which leaves no trace of earlier parts |
| CloudSync.Replicator.SendWithRetry | cmd/cloud-sync/main.go:2325-2355 | success if and only if one of five attempts gets through; then the batch was executed with no trace of the attempts before, and without an attempt after the dump the target is untouched |
| CloudSync.Replicator.ReadStream | cmd/cloud-sync/main.go:1505-1557 | reading a log segment yields exactly its encoded sendable events, the number of events and the token of the last one |
| CloudSync.Replicator.DetectAndSyncWithChangeStream | cmd/cloud-sync/main.go:1448-1636 | the step, the result and the checkpoint a polling cycle ends with, in every branch; over a log without markers it is a step of the protocol |
| CloudSync.PollResumes | cmd/cloud-sync/main.go:1448-1475 | a poll whose token is not lost is a step of the protocol from the saved checkpoint |
| CloudSync.PollReports | cmd/cloud-sync/main.go:1603-1636 | a poll succeeds if and only if its stream opened and did not break and whatever there was to send got through, and reports the events it read if it sent any |
| CloudSync.BlockedBeforeDump | cmd/cloud-sync/main.go:2359-2369 | before the initial dump is done a poll with something to send fails and changes neither target nor checkpoint |
| CloudSync.LostTokenPoll | cmd/cloud-sync/main.go:1476-1501 | a poll that lost its token starts at the current position and forgets the old one if and only if it clears and saves nothing |
| CloudSync.SkippingIsSafeIff | cmd/cloud-sync/main.go:1476-1501 | a poll that starts past the checkpoint and saves its end, as after an expired token, keeps at-least-once delivery if and only if every sendable event it skips had been delivered |
| CloudSync.ExpiryLosesEvents | cmd/cloud-sync/main.go:1476-1501 | the expired-oplog branch moves the checkpoint past an undelivered event |
| CloudSync.ScatteredStaysInWindow | cmd/cloud-sync/main.go:2325-2355 | a failed send that applied any part of its batch keeps every key at a value the log had between checkpoint and furthest position |
| CloudSync.ReplayStaysInWindow | cmd/cloud-sync/main.go:1600-1629 | replaying a resumed segment brings every key to its value at a position at or after the segment's end |
| CloudSync.UnambiguousActsAsReplay | cmd/vm-sync/main.go:2245-2295 | a delivered batch that revives no key and whose last chunk upserting a key does so in one way has the effect of its replay in whatever order it was executed |
| CloudSync.ListOrderActsAsReplay | cmd/vm-sync/main.go:2245-2295 | a delivered batch that revives no key and was executed in list order has the effect of its replay |
| CloudSync.DeliveredAsReplay | cmd/vm-sync/main.go:1410-1491 | from any collection a delivered batch has the effect of its replay if and only if it revives no key and each key it does not delete got its last upsert last |
| DecimalText.TextInjective | pkg/filtering/filter.go:305-316 | formatted integers have equal text if and only if they are equal |
| DecimalText.TextOrderIsRight | pkg/filtering/filter.go:305-316 | comparing the texts of two integers gives their order if and only if they are equal, of opposite sign, or ordered by their common leading digits, then their length, as the numbers are |
| Filtering.BuildDocumentFilterPipelineWithPrefix | pkg/filtering/filter.go:85-201 | the match stage maps each prefixed field to the condition of the last criterion on it that compiles |
| Filtering.CompiledFilterMeaning | pkg/filtering/filter.go:85-201 | a document passes the compiled stage if and only if it satisfies the last compiling criterion on every field |
| Filtering.CompareIsMongoOrder | pkg/filtering/filter.go:318-363 | on two scalars of one Go type the engine's three-way comparison is the database's order |
| Filtering.CriterionAgrees | pkg/filtering/filter.go:260-283 | a comparable criterion that compiles accepts a value compiled if and only if it does evaluated directly |
| Filtering.DuplicateFieldsDiverge | pkg/filtering/filter.go:85-201 | an instance: with two criteria on one field the compiled filter forgets the first |
| Filtering.EmptyInListDiverges | pkg/filtering/filter.go:113-145 | an instance: an empty `in` list is skipped by the compiler and rejects every document in direct evaluation |
| Filtering.IncrementalFilterAgrees | cmd/cloud-sync/main.go:1780-1892 | for criteria it supports, the change-stream evaluation keeps exactly the documents the filter engine keeps |
| Filtering.MixedIntegersCompareByText | pkg/filtering/filter.go:305-316 | on integers of two Go types the engine always sees equality, and sees the order if and only if their texts are ordered as they are |
| Filtering.NullAgreesIff | pkg/filtering/filter.go:286-297 | a comparison between null and another value gives the same answer compiled and evaluated if and only if it is no ordering that null, as the least of all values, satisfies |
| Filtering.RegexAgreesIff | pkg/filtering/filter.go:278-391 | a regular expression gives the same answer compiled and evaluated if and only if both sides are strings or the text does not match |
| Filtering.CompiledChecksSurvivors | pkg/filtering/filter.go:85-201 | on a suitable document the compiled filter checks exactly the criteria that are neither skipped nor overwritten |
| Filtering.DistinctFieldsAgreeIff | pkg/filtering/filter.go:113-177 | on distinct fields they agree on a suitable document if and only if no `in` list is empty or a survivor rejects it; empty `nin` lists never matter |
| Filtering.StreamAgainstEngine | cmd/cloud-sync/main.go:1780-1892 | exactly when the change-stream evaluation of one criterion rejects what the filter engine accepts, and accepts what it rejects |
| Filtering.HexIdsAreConverted | pkg/filtering/filter.go:98-177 | a hexadecimal text for an `_id`, as the last step of a path, is compiled to its ObjectID, a list of them only if every entry is one, and no text for any other field is |
| Filtering.IdIsLastStep | pkg/filtering/filter.go:97-120 | the suffix test on a field finds exactly the dotted paths whose last step is `_id` |
| CircuitBreaker.CircuitBreaker.StartGeneration | pkg/resilience/circuit_breaker.go:355-370 | a new generation clears the counts and sets the expiry by state, leaving it alone when open |
| CircuitBreaker.CircuitBreaker.ChangeState | pkg/resilience/circuit_breaker.go:329-352 | closing starts a generation, opening only sets the expiry, half-opening clears the counts without a new generation |
| CircuitBreaker.CircuitBreaker.Refresh | pkg/resilience/circuit_breaker.go:314-326 | an expired closed interval starts a generation, an expired open breaker goes half-open |
| CircuitBreaker.CircuitBreaker.Admit | pkg/resilience/circuit_breaker.go:233-258 | a request is admitted in the current generation and counted, or refused and counted as rejected |
| CircuitBreaker.CircuitBreaker.Report | pkg/resilience/circuit_breaker.go:261-311 | a result counts only in its own generation and may close or trip the breaker |
| CircuitBreaker.CircuitBreaker.ResetToClosed | pkg/resilience/circuit_breaker.go:224-230 | a reset starts a generation and closes the breaker |
| BreakerHistory.TimesAreTheHistory | pkg/resilience/circuit_breaker.go:314-370 | in every run the interval counts from the start of the generation, which the first one has not, the timeout from the opening, and all changes and refusals are counted |
| BreakerHistory.ResetDecided | pkg/resilience/circuit_breaker.go:223-230 | a reset closes the breaker in a new generation without counts |
| BreakerHistory.AdmittedInInterval | pkg/resilience/circuit_breaker.go:314-326 | every call that a closed breaker counts was admitted in the interval its generation began with |
| BreakerHistory.DefaultTimes | pkg/resilience/circuit_breaker.go:50-66 | with the defaults an open breaker refuses for thirty seconds and a closed one forgets after a minute |
| CircuitBreaker.NewGenerationIsExact | pkg/resilience/circuit_breaker.go:355-370 | after any new generation nothing is carried and the accounting is exact |
| CircuitBreaker.OpenRefuses | pkg/resilience/circuit_breaker.go:233-258 | without a reset an open breaker leads only to half-open, and only on a call more than the timeout after it opened |
| CircuitBreaker.LateResultClosesBreaker | pkg/resilience/circuit_breaker.go:288-298 | an instance: a call admitted before the breaker opened closes it while the only probe is outstanding |
| Learning.RangeOverlap | pkg/adaptive/learning.go:564-584 | the overlap is a fraction between zero and one for any two ranges |
| Learning.MatchScore | pkg/adaptive/learning.go:537-562 | the match score lies between zero and one |
| Learning.SelfMatch | pkg/adaptive/learning.go:348-390 | conditions read off any telemetry match themselves with score one |
| Learning.FirstMatch | pkg/adaptive/learning.go:483-499 | the pattern found matches with at least 0.8, and none is found only if none does |
| Learning.BestMatchMeaning | pkg/adaptive/learning.go:519-535 | the result is the first pattern of maximal score, and there is none if and only if no score exceeds 0.7 |
| Learning.LearnedIsRecalled | pkg/adaptive/learning.go:483-535 | after a worthwhile event its conditions find a pattern with score at least 0.8, unless the pattern list is full |
| Learning.WeightedBetween | pkg/adaptive/learning.go:766-778 | a weighted sum lies between the extremes times the total weight, for weights of one sign |
| Learning.AverageInBounds | pkg/adaptive/learning.go:780-790 | the truncated weighted average of configurations within bounds is within bounds for weights of one sign |
| Learning.Accuracy | pkg/adaptive/learning.go:810-856 | the estimated accuracy stays between zero and one |
| LearningLaws.FeaturesAreReadings | pkg/adaptive/learning.go:741-746 | the conditions of an observation lead back to its readings |
| LearningLaws.DistanceUnits | pkg/adaptive/learning.go:797-808 | ten points of processor load are as far as twelve of memory, fifteen milliseconds or thirty connections |
| LearningLaws.DistanceAddsUp | pkg/adaptive/learning.go:797-808 | the squared distance adds up over the features and is symmetric |
| LearningLaws.ReinforcementMeans | pkg/adaptive/learning.go:483-517 | a match is used once more, moves three tenths towards the score and gains confidence, and nothing else changes; without one the event becomes a pattern |
| LearningLaws.FirstMatchIsFirst | pkg/adaptive/learning.go:483-500 | no pattern before the one found matches |
| LearningLaws.WorstIsDropped | pkg/adaptive/learning.go:505-517 | of twenty-one patterns the least effective is dropped |
| LearningLaws.AccuracyIsShare | pkg/adaptive/learning.go:810-856 | the accuracy is the share of the last fifth whose fetch parallelism lies within one of the mean of their three nearest |
| LearningLaws.RemembersTheLatest | pkg/adaptive/learning.go:392-399 | the latest thousand events and five hundred examples are kept, and the accuracy is estimated anew exactly when their number is a multiple of fifty |
| LearningEngine.PredictiveModel.AddTrainingExample | pkg/adaptive/learning.go:715-730 | the newest 500 examples are kept and the model is retrained when their number is a multiple of fifty |
| LearningEngine.PredictiveModel.Predict | pkg/adaptive/learning.go:732-795 | the prediction is the score-weighted average over the five nearest of at least ten examples, or none |
| LearningEngine.AdaptiveLearningEngine.UpdateOptimalConfigs | pkg/adaptive/learning.go:483-517 | an event reinforces the first matching pattern or adds one, and only the twenty most effective are kept |
| LearningEngine.AdaptiveLearningEngine.LearnFromObservation | pkg/adaptive/learning.go:224-259 | an observation is recorded, learned as a pattern if worthwhile, and added to the training data with a retraining when due |
| LearningEngine.AdaptiveLearningEngine.PredictOptimalConfiguration | pkg/adaptive/learning.go:262-295 | best matching pattern, else prediction, else the default with confidence 0.5 |
| LearningEngine.AdaptiveLearningEngine.FindBestMatchingConfig | pkg/adaptive/learning.go:519-535 | the loop computes the best match over all patterns |
| LearningEngine.PredictiveModel.Retrain | pkg/adaptive/learning.go:810-856 | from twenty examples on, the accuracy becomes the share of the last fifth whose fetch parallelism the three nearest of the others foretell within one |
| AdaptiveControl.Clamp | pkg/adaptive/controller.go:502-510 | the result is within the limits, and is the value itself if that is |
| AdaptiveControl.ScaleFactor | pkg/adaptive/controller.go:535-559 | the factor lies between 1.05 and 1.25 |
| AdaptiveControl.ThrottleDelayRange | pkg/adaptive/controller.go:394-409 | the delay is at least 50 ms, and at most 2000 ms if and only if processor, memory and latency stay below the given values |
| AdaptiveControl.FirstEffective | pkg/adaptive/controller.go:427-442 | a configuration taken from the history belongs to an adjustment more effective than 0.8 |
| AdaptiveControl.HistoryIsIdempotent | pkg/adaptive/controller.go:412-443 | consulting the history a second time changes nothing |
| AdaptiveControl.AdaptiveController.ApplyLearning | pkg/adaptive/controller.go:412-443 | takes parallelism and batch size from the first effective similar one of the last ten adjustments |
| AdaptiveControl.AdaptiveController.CalculateOptimalConfig | pkg/adaptive/controller.go:233-323 | the rules for overload, scaling and optimisation, then the history |
| ControlLaws.OverloadRelieves | pkg/adaptive/controller.go:250-262 | an overloaded VM costs a fetcher and a pusher, cuts batch and queue to eight and seven tenths and brings back-pressure |
| ControlLaws.CloudOverloadSlowsFetching | pkg/adaptive/controller.go:263-270 | an overloaded cloud side alone costs a fetcher and a tenth of the batch, and nothing else |
| ControlLaws.GrowsIffIdle | pkg/adaptive/controller.go:271-312 | without overload the back-pressure goes, and exactly if the load allows it there is a fetcher and a pusher more and the batch grows by a twentieth to a quarter |
| ControlLaws.GrowthFollowsIdleness | pkg/adaptive/controller.go:535-560 | the batch grows from a twentieth to a quarter in proportion to how idle the busier processor is |
| ControlLaws.DelayFollowsTheWorst | pkg/adaptive/controller.go:394-410 | the delay follows the worst of processor, memory and latency, at 78 ms and 97.5 ms a percent and 3.9 ms a millisecond |
| ControlLaws.HistoryDecides | pkg/adaptive/controller.go:412-444 | the history decides parallelism and batch if and only if one of the last ten adjustments, of at least five, was effective in a similar situation, by the oldest of them |
| ControlLaws.RecommendationDecides | pkg/adaptive/controller.go:160-185 | a recommendation is followed if and only if a pattern matches with more than 0.7 or a prediction exists whose model is right more than six times in ten |
| ControlLaws.ChangesAreSpaced | pkg/adaptive/controller.go:123-145 | in every run changes are at least thirty seconds apart |
| ControlLaws.ChangeIsRecorded | pkg/adaptive/controller.go:187-232 | a change, and nothing else, is recorded with what it started from, led to and was based on |
| ControlLaws.JudgementTeaches | pkg/adaptive/controller.go:680-714 | a judgement concerns the last adjustment, and teaches exactly if its telemetry names a node, a pattern only for a score above 0.7 |
| AdaptiveControl.AdaptiveController.AnalyzeAndAdjust | pkg/adaptive/controller.go:141-230 | one step of the system: a recommendation with confidence above 0.6, else rules and history, recorded only on a change |
| AdaptiveControl.AdaptiveController.UpdateEffectiveness | pkg/adaptive/controller.go:680-713 | one step of the system: the last adjustment is judged and learned from if its telemetry names a node |
| AdaptiveControl.RuleConfigInBounds | pkg/adaptive/controller.go:233-323 | the rules keep a configuration within bounds |
| AdaptiveControl.BestMatchInBounds | pkg/adaptive/learning.go:519-535 | a matching pattern's configuration is within bounds if all patterns' are |
| AdaptiveControl.PredictionInBounds | pkg/adaptive/learning.go:732-795 | a prediction is within bounds if the examples are and no score is negative |
| AdaptiveControl.AnalyzedInBounds | pkg/adaptive/controller.go:141-230 | an adjustment keeps everything within bounds |
| AdaptiveControl.LearnedInBounds | pkg/adaptive/learning.go:224-259 | learning keeps events, patterns and training data within bounds, and their numbers within 1000, 20 and 500 |
| AdaptiveControl.JudgedInBounds | pkg/adaptive/controller.go:680-713 | judging an adjustment with a non-negative score keeps everything within bounds |
| AdaptiveControl.PatternsOverrideRules | pkg/adaptive/controller.go:163-181 | a matching learned pattern is applied even while the VM is overloaded |
| AdaptiveControl.QueueStarves | pkg/adaptive/controller.go:255-268 | in any run whose adjustments follow no recommendation the queue is cut once for each adjustment under overload and never enlarged, so as many of them as it had places leave none |
| RunningBaseline.AnomalyDetector.UpdateMetricBaseline | pkg/adaptive/learning.go:1024-1063 | each metric's baseline is the one its samples leave, in order |
| RunningBaseline.AnomalyDetector.IsAnomalous | pkg/adaptive/learning.go:1087-1098 | a value is anomalous if and only if there are ten samples and it lies more than two stored deviations from the mean |
| RunningBaseline.MeanIsExact | pkg/adaptive/learning.go:1036-1041 | the stored mean times the number of samples is their sum |
| RunningBaseline.ExtremesAreExact | pkg/adaptive/learning.go:1050-1056 | the stored extremes are the smallest and the largest sample |
| RunningBaseline.MeanBetweenExtremes | pkg/adaptive/learning.go:1036-1056 | the mean lies between the stored extremes |
| RunningBaseline.OneMoreDeviation | pkg/adaptive/learning.go:1043-1048 | one sample adds the product of its distances from the old and the new mean to the true sum of squared deviations |
| RunningBaseline.VarianceNonNegative | pkg/adaptive/learning.go:1043-1048 | the stored variance is never negative, so its root exists |
| Distribution.CollectionDistributor.GetHealthyVMs | pkg/distribution/balancers.go:326-334 | lists exactly the healthy VMs with room, each once |
| Distribution.CollectionDistributor.GetUnassignedCollections | pkg/distribution/balancers.go:336-344 | lists exactly the active collections without a VM, each once |
| Distribution.CollectionDistributor.SelectVM | pkg/distribution/balancers.go:454-495 | cumulative weighted selection by counter, or the next VM in turn; the counter advances |
| Distribution.CollectionDistributor.AssignOne | pkg/distribution/balancers.go:256-266 | one collection is recorded both at its VM and in the registry |
| Distribution.CollectionDistributor.Distribute | pkg/distribution/balancers.go:256-276 | VMs, registry and plan after handing out all listed collections in order |
| Distribution.CollectionDistributor.AutoDistribute | pkg/distribution/balancers.go:235-296 | nothing changes without an available VM; otherwise every unassigned collection is handed out |
| Distribution.RegistryMeaning | pkg/distribution/balancers.go:264-266 | each collection handed out has its chosen VM and every other entry stands |
| Distribution.PlanListsOnce | pkg/distribution/balancers.go:268-273 | the plan lists each new assignment exactly once under its VM, in the order handed out, and under no other |
| Distribution.ScanCovers | pkg/distribution/balancers.go:478-494 | the cumulative scan finds the VM whose slice contains the target, so its final fallback is never reached |
| Distribution.WeightedPickHasRoom | pkg/distribution/balancers.go:454-495 | while any VM has room the weighted balancer picks one that has |
| Distribution.WeightedPickIff | pkg/distribution/balancers.go:454-495 | the weighted balancer picks exactly the VM whose slice its counter points into, and takes turns without any room |
| Distribution.WeightedRespectsCapacity | pkg/distribution/balancers.go:235-278 | collections that fit into the total room never take a VM above its limit |
| Distribution.DistributionKeepsCoherence | pkg/distribution/balancers.go:235-278 | if VMs only hold what the registry assigns to them, they still do afterwards, so no collection is on two VMs |
| Distribution.RoundRobinChoice | pkg/distribution/balancers.go:633-648 | the j-th new collection goes to the VM whose turn it is |
| DistributorLock.StepKeepsInv | pkg/distribution/balancers.go:178-324 | every step of any call keeps the lock's books, lets no registration return, and leaves nothing registered unless a registration holds the lock; once one does, no waiting call ever moves |
| EventBuffer.EventBuffer.Store | pkg/cluster/event_buffer.go:72-77 | the oldest slot of the ring is overwritten by the event |
| EventBuffer.EventBuffer.ReadRing | pkg/cluster/event_buffer.go:88-98 | the ring is read from its oldest slot, filtered by the cutoff |
| EventBuffer.EventBuffer.GetRecentEvents | pkg/cluster/event_buffer.go:83-101 | exactly the last accepted events up to the ring's size, in order, filtered by the cutoff |
| EventBuffer.EventBuffer.DropExpired | pkg/cluster/event_buffer.go:119-124 | removes exactly the entries older than the lifetime |
| EventBuffer.EventBuffer.CleanupExpiredEvents | pkg/cluster/event_buffer.go:112-128 | a cleanup keeps the buffer's history, ring and answers |
| EventCoordinator.EventCoordinator.SubmitEvent | pkg/cluster/event_coordinator.go:134-147 | an event is queued and counted, or dropped and counted when the queue is full |
| EventCoordinator.EventCoordinator.TakeInput | pkg/cluster/event_coordinator.go:155-203 | a duplicate is counted; any other event is batched, and a full batch is handed out |
| EventCoordinator.EventCoordinator.OnBatchTimeout | pkg/cluster/event_coordinator.go:190-201 | the ticker hands out a non-empty batch |
| EventCoordinator.EventCoordinator.DistributeEvent | pkg/cluster/event_coordinator.go:257-298 | the processor in turn is started on the event, which goes to the output queue or is dropped and counted when that is full |
| EventCoordinator.SeenFollowsOperations | pkg/cluster/event_coordinator.go:155-203 | in every run the events that pass deduplication are exactly those the buffer's operations accept, in order |
| EventCoordinator.DeduplicationIgnoresCleanups | pkg/cluster/event_coordinator.go:155-203 | what passes deduplication in a run is what a map of seen events that is never cleaned would let pass |
| CoordinatorHistory.BatchesFit | pkg/cluster/event_coordinator.go:155-204 | no batch exceeds its size in any run |
| CoordinatorHistory.HandsOutFullBatches | pkg/cluster/event_coordinator.go:155-212 | a batch is handed out exactly by the event that makes it full or by the ticker |
| CoordinatorHistory.WithoutDedupAllPass | pkg/cluster/event_coordinator.go:155-204 | without deduplication every event received passes |
| WorkerPool.WorkerPool.SubmitTask | pkg/parallel/worker_pool.go:137-147 | a task is queued and counted, or refused when the queue is full |
| WorkerPool.WorkerPool.Take | pkg/parallel/worker_pool.go:212-233 | an idle worker takes the first task of the task queue or of the retry queue |
| WorkerPool.WorkerPool.ProcessResult | pkg/parallel/worker_pool.go:236-274 | an attempt ends: success is counted, a failure goes to the error handling |
| WorkerPool.WorkerPool.HandleTaskError | pkg/parallel/worker_pool.go:292-317 | a failed task is put to sleep for a retry while it has retries left, and given up otherwise |
| WorkerPool.WorkerPool.WakeUp | pkg/parallel/worker_pool.go:304-312 | a task whose delay ends enters the retry queue |
| WorkerPool.StepKeepsInv | pkg/parallel/worker_pool.go:137-317 | every step keeps each task in exactly one place and all counters in step |
| WorkerPool.QueueCounterDrifts | pkg/parallel/worker_pool.go:137-147 | the internal queue counter, which `GetStats` overwrites by the queue length, equals the tasks pending if and only if nothing was ever retried |
| WorkerPool.MeasureDecreases | pkg/parallel/worker_pool.go:212-317 | every step other than a submission decreases a measure of the remaining work |
| WorkerPool.WorkerPool.HandOverRetry | pkg/parallel/worker_pool.go:304-312 | with a retry queue of no capacity a task whose delay ends goes straight to an idle worker |
| PoolHistory.RecordsAreTheHistory | pkg/parallel/worker_pool.go:212-317 | in every run the outcomes of the attempts at a task are those its record stands for |
| PoolHistory.QueuesAreServedInOrder | pkg/parallel/worker_pool.go:137-235 | in every run both queues are served in order and never exceed their capacity |
| PoolHistory.SubmissionDecided | pkg/parallel/worker_pool.go:137-148 | a submission is accepted if and only if fewer tasks wait to be started for the first time than the queue holds |
| Partitioner.BuildPartitionFilter | pkg/parallel/partitioner.go:180-205 | the filter accepts exactly the ids above the lower and up to the upper boundary that the partition has |
| Partitioner.EveryIdIsCovered | pkg/parallel/partitioner.go:79-121 | partitions cover every id whatever the order of their boundaries |
| Partitioner.SampleIndexInRange | pkg/parallel/partitioner.go:163-174 | the sample index never leaves the samples and grows, so the clamp is never needed |
| Partitioner.Partitioner.GetObjectIdBoundaries | pkg/parallel/partitioner.go:135-177 | fails without samples; otherwise every step-th sample after the first, non-decreasing if the samples are |
| Partitioner.Partitioner.Cut | pkg/parallel/partitioner.go:94-121 | numbered partitions between the boundaries with equal estimates, but for the last, which add up to the count |
| Partitioner.Partitioner.CreatePartitions | pkg/parallel/partitioner.go:58-124 | the clamped number of partitions, cut at boundaries spread over the samples, an exact cover for sorted ones, with equal estimates that add up; one partition for few documents; fails only without samples |
| SlidingWindow.WindowCounter.CleanupOldEntries | pkg/metrics/collector.go:522-531 | drops everything before the first entry inside the window |
| SlidingWindow.WindowCounter.Add | pkg/metrics/collector.go:533-541 | appends, prunes and adds to the total, as all four counters do |
| SlidingWindow.WindowCounter.GetRate | pkg/metrics/collector.go:543-556 | prunes and sums what is left over the window |
| SlidingWindow.PruneSums | pkg/metrics/collector.go:522-531 | over entries in time order pruning sums exactly the entries after the cutoff |
| PageResume.InitialSync.PushSinglePage | cmd/cloud-sync/main.go:3411-3540 | a sent page adds its documents and its tracked count, a refused one nothing |
| PageResume.InitialSync.PushCollectionData | cmd/cloud-sync/main.go:2821-2908 | all pages from the first until one fails; reports a full page for each |
| PageResume.InitialSync.PushCollectionDataFromPage | cmd/cloud-sync/main.go:2911-2989 | the pages from the given one until one fails; its reports never decrease, never exceed the total, and end on it |
| PageResume.InitialSync.CheckResumeCapability | cmd/cloud-sync/main.go:3654-3696 | resume if there is a readable, unfinished tracker record, from its count over the page size |
| PageResume.InitialSync.PushCollectionDataWithResume | cmd/cloud-sync/main.go:2992-3071 | one attempt: a forced sync, a failed resume request, a failed probe or a failed second reading starts over; otherwise resume from a positive page, else start over |
| PageResume.LastPage | cmd/cloud-sync/main.go:2860-2864 | the last page ends with the last document |
| PageResume.ResumePage | cmd/cloud-sync/main.go:3683-3691 | the first page resumed starts at least one and less than two pages before the tracked count |
| PageResume.FullPushReport | cmd/cloud-sync/main.go:2873-2892 | a full push reports at least the total, and exactly the total if and only if it is a multiple of the page size |
| PageResume.AttemptKeepsContiguity | cmd/cloud-sync/main.go:2992-3071 | one attempt that follows its record keeps the sent documents without a hole, and one that ends well has sent them all |
| PageResume.AttemptLeavesNoGapIff | cmd/cloud-sync/main.go:2992-3071 | one attempt of any kind, from any tracked count and with any page size, leaves no gap if and only if it does not resume past the documents sent and get a page delivered |
| PageResume.WithinIffOvercount | cmd/cloud-sync/main.go:3683-3691 | a resumption starts within the documents sent if and only if the tracked count exceeds their number by no more than a page and the remainder of the count |
| PageResume.RestartOvercounts | cmd/cloud-sync/main.go:3008-3022 | a restart that stops after some tracked pages raises the tracked count by all of them, while the documents sent are only the longer of the two runs of pages |
| PageResume.ResumptionOvercounts | cmd/cloud-sync/main.go:2911-2989 | a resumption that got past the documents sent before leaves the count ahead by exactly a page and its remainder |
| PageResume.GapInFourAttempts | cmd/cloud-sync/main.go:2992-3071 | an instance: of six documents sent one a page, interrupted, resumed, forced to start over and resumed again, the fourth is never sent and the last attempt reports success |
| PageResume.PushDelivers | cmd/cloud-sync/main.go:2911-2989 | a push sends exactly the pages up to the first refused one, all documents from its first page on if it ends well |
| PageResume.PushTracks | cmd/cloud-sync/main.go:3411-3540 | the tracked count grows by exactly the documents whose delivery was tracked |
| PageResume.FinishedSyncRests | cmd/cloud-sync/main.go:3028-3071 | a finished sync sends nothing more unless it is forced or its state cannot be read |
| PageResume.FirstResumptionOverlap | cmd/cloud-sync/main.go:2911-2989 | after a first interruption with every update tracked, a resumption that ends well delivers again at least one page and less than two of the documents sent |
| PageResume.LaterResumptionOverlap | cmd/cloud-sync/main.go:2911-2989 | after later ones it delivers again exactly one page, or nothing once the count is a page ahead |

## Left out

- VmSync.TargetCollection.ProcessIncrementalData: what handling a drop or invalidate marker leaves of the collection is an input; delete markers whose key has no `_id` are skipped as invalid.
- CloudSync.Replicator.SendWithRetry: with drop or invalidate markers in the batch nothing is promised about the collection after a failure.
- CloudSync.Replicator.DetectAndSyncWithChangeStream: change events carry post-images; the later document that an update lookup can return, and the missing one of a deleted document, are not modelled, nor are events that fail to decode or marshal.
- CloudSync.Replicator.Deliver: a delivery is applied while it is sent; the write-ahead log, the queue and the late application behind the TCP transport are not part of this model.
- CloudSync.AtLeastOnce: runs exclude the expired-oplog branch, which restarts at the current position; LostTokenIsSafeIff says when that loses nothing.
- CloudSync.Convergence: the target is compared with the replay of the filtered log, so a document that an update moves out of the filter stays as it was.
- LearningEngine.PredictiveModel.Predict: distances are squared, which keeps their order; the weights of features no example has are not modelled.
- LearningEngine.AdaptiveLearningEngine.LearnFromObservation: the profile's characteristics, sample counts and confidence score, and the seasonal and trend patterns, which influence no configuration, are not modelled.
- LearningEngine.AdaptiveLearningEngine.UpdateOptimalConfigs: there is one environment profile, as the current environment never changes; sorting is this project's own, and its contract leaves the order of ties open.
- AdaptiveControl.AdaptiveController.UpdateEffectiveness: the score is an input; how measureEffectiveness computes one is not modelled.
- Distribution.CollectionDistributor.AutoDistribute: it and the lemmas about its result concern the call made with the lock free, as the HTTP handlers make it; `DistributorLock` says what it finds then. VM instances and collection records are values in maps instead of shared objects; the load figures of the plan are not modelled.
- CircuitBreaker.CircuitBreaker.Admit: MaxConcurrentCalls is no hard bound, because the counter it reads is incremented outside the lock, so the counter is an input; counters and generations do not wrap around.
- WorkerPool.WorkerPool.SubmitTask: a task is one submission; a task object submitted twice would share its retry count, which is not modelled.
- WorkerPool.WorkerPool.Take: channels are bounded sequences; a task queue without capacity, shutdown, latencies and error handlers are not modelled.
- EventCoordinator.EventCoordinator.DistributeEvent: the coordinator without its internal worker pool in round-robin mode, with a fixed number of processors; what a processor does with its event, broadcast and hash modes and shutdown are not modelled.
- EventBuffer.EventBuffer.AddEvent: the identifier of an event is given, not derived from its content.
- PageResume.InitialSync.PushSinglePage: a page counts as sent when the sender accepts it; documents of a failed page that were delivered all the same do not count; the documents keep one stable order and number, and the HTTP transport, which never resumes, is not modelled.
- PageResume.ResumeLeavesNoGap: attempts that start over and changes of the page size are covered by RunLeavesNoGapIff, not by it.
- Partitioner.Partitioner.CreatePartitions: ids are ObjectIds; a document with an `_id` of another BSON type matches no partition's filter once there is more than one.
- Filtering.CompilationPreservesMeaningIff: regular expressions and comparisons with null (`Filtering.RegexAgreesIff`, `Filtering.NullAgreesIff` treat one criterion of these kinds), dotted or `_id` fields and comparisons across types other than integers are outside it, as are values that are lists or documents; field filters are not modelled.
- DistributorLock.ReturnsIff: which waiting call gets the lock first is left open, so it says that a call can return, not that it does.
- Filtering.BuildDocumentFilterPipelineWithPrefix: an `in` or `nin` criterion whose value is null counts as skipped; in the source the type of null has no kind, which stops the program (pkg/filtering/filter.go:115).
- Filtering.StreamAgainstEngine: Go's comparison of values that cannot be compared, such as lists, stops the program and is not modelled.
- PageResume.InitialSync.PushCollectionDataWithResume: after a completed sync the source goes on to the incremental pages, which are not modelled.
- RunningBaseline.AnomalyDetector.UpdateMetricBaseline: the time of the last update is not modelled.
- The load-based, capability-based and geographic balancers: the first promises no capacity, the others would add easier members.
- The transfer tracker, checkpoint manager, token manager, watermark and sequence packages and MongoDB itself: the checkpoint is a variable that may fail to be saved, the tracker an update that may be lost.
- HTTP handlers, authentication, encryption, dashboards, configuration loading, root collection migration, alerting and logging.
