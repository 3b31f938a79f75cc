# HOWK in Dafny

HOWK delivers webhooks. Kafka is its durable log, Redis its mutable state, and its guarantees come from workers,
schedulers and reconcilers that step over that shared state. This project models the state and the steps, and proves
what they keep over whole runs.

## How the model is built

| Part | Files |
|---|---|
| Entities, status codes, references | `Domain.dfy`, `Reference.dfy` |
| Delivery and retry protocol as a transition system over Kafka topics, the Redis retry store and what schedulers hold in memory | `Lifecycle.dfy` |
| What every step keeps, delivery bounds, no loss | `LifecycleInvariant.dfy`, `DeliveryBounds.dfy`, `NoLoss.dfy`, `NoLossRuns.dfy`, `LastCopy.dfy` |
| The same when retry data has a time to live | `ExpiringData.dfy` |
| The same over runs with failed marker checks, expiring markers, flushes of Redis and restores | `UncheckedRuns.dfy`, `UncheckedBounds.dfy`, `UncheckedNoLoss.dfy` |
| The Redis retry store, its scored set and its leases | `HotState.dfy`, `SortedSet.dfy`, `Lease.dfy` |
| The processes themselves, method by method, each proved to take the steps of the protocol | `Worker.dfy`, `Scheduler.dfy`, `Reconciler.dfy`, `Topics.dfy` |
| What a handler call leaves, reports and answers, told by the response and the counters it meets | `HandlerAnswers.dfy` |
| Rebuilding Redis from the state topic | `Rebuild.dfy` |
| Commit positions and per-key workers of one partition | `OffsetTracker.dfy`, `PartitionProcessor.dfy`, `KeyIndependence.dfy` |
| Circuit breaker: the machine, record expiry, history, answers, probe spacing, interleaved commands | `CircuitBreaker.dfy`, `BreakerExpiry.dfy`, `BreakerHistory.dfy`, `BreakerAnswers.dfy`, `BreakerSpacing.dfy`, `BreakerProbes.dfy` |
| Concurrency counters, the worker's gates as runs of their events, many calls at once | `Slots.dfy`, `GateRuns.dfy`, `GateCalls.dfy` |
| Replicated script table and its Redis mirror | `ScriptTable.dfy`, `ScriptMirror.dfy` |
| Short failing runs beside the exact conditions | `Witnesses.dfy` |
| Last-write-wins statuses, retry delays | `StatusStore.dfy`, `Backoff.dfy` |

Two layers meet. `Lifecycle` is a transition system: enqueue, handle, pop, fetch, publish, ack and crash steps over one
`World`. The classes (`HotState`, `Worker`, `Scheduler`, `Reconciler`) are the programs, with their branches, loops and
fault paths; `Worker.ProcessMessage` is proved to take one handler step and `Scheduler.ProcessBatch` a run of protocol
steps, so what is proved of runs is proved of the programs. With a positive time to live of retry data the handler step
is that of `Lifecycle` (`PositiveTtl`); with any other it is that of `ExpiringData`. `Entry`, `deliveries` and `outcomes` in `World` are history
variables. No step branches on them, except that an enqueued webhook must have an id that none had before it.

Answers from outside enter as parameters: the clock readings, whether each Redis command or Kafka publish succeeds, the
HTTP status or network error, the breaker's answer, the draw of the random jitter, the retry time. Kafka duplication and
redelivery need no step of their own: a handler step may take any position of a topic, any number of times and in any order.
A worker that dies right after setting its marker is the `Nacked` branch: marked, not acknowledged, nothing done.

Webhook ids are "wh_" and a ULID (internal/domain/types.go:186-210), so the worker's methods require ids without a colon
and attempts within 64 bits; what happens to other ids is stated by `ParseOfFormat`.

## Where the code and its documentation differ

The model follows the code.

- "We never lose a webhook" (README.md:15) and "idempotency check prevents duplicate delivery" after a crash
  (docs/FAILURE_MODES.md:227-240): the marker is set before anything else happens, so every path that re-offers the same
  attempt loses the webhook. These are the circuit-open reschedule, the slow-lane divert, the NACK of a saturated slow
  lane, a failed `scheduleRetry` and a failed dead-letter publish. `NoLossOverRuns` proves that they are the only ones while
  reads of retry data succeed, in both directions; `CircuitOpenLoses` is a run without any fault that makes no delivery.
  That holds while stored retry data is kept, that is with a positive `ttl.retry_data_ttl` and data that outlives its
  references. A failing read adds one loss: the scheduler acknowledges a reference it could not read. `KeptOverRunsIff` is
  exact for it, `FailedReadLoses` is the run.
- "`ttl.retry_data_ttl` 7d" (README.md:224): the defaults do not set it (internal/config/config.go:291-296), and EXPIRE with
  a time to live that is not positive deletes the data that the second reschedule finds and means to keep
  (internal/hotstate/redis.go:384-392). So under the defaults a webhook that fails twice is lost without a fault:
  `SecondRetryLoses` for every run, `DefaultsLose` as a run. `KeptWithExpiryIff` is exact for any time to live and for data
  that expires at any moment.
- The marker check itself fails open (README.md:205), so the bounds on deliveries are not absolute: `DeliveriesPerAttempt`
  and `TotalsBounded` say what each failed check, expired marker and flush of Redis may add, `FailedCheckDeliversTwice` that it does.
- The breaker fails closed (README.md:204): `processMessage` lets the request through when the breaker errs
  (internal/worker/worker.go:160-164), which is why `circuitAllows` is true for an error.
- "Reconciler handles duplicate states correctly" under compaction lag (docs/FAILURE_MODES.md:585-596): tombstones are
  skipped, so any superseded snapshot still in the log brings back a spent reference. `RebuildExactIffCompacted`,
  `StaleSnapshotReturns`.
- The comment at internal/reconciler/reconciler.go:197-198: the high-water check sits after three `continue`s, so reading
  goes on past the mark when its last record is a tombstone, malformed or not restored. `StopsAtHighWaterIff`,
  `TombstoneReadsOn`.
- "Nanosecond timestamps prevent race conditions" (README.md:12): the script compares binary64 numbers, so of all writes
  within one 256 ns step the first stays, even against a later one. `SurvivorIsFirstGreatest`, `OrderMattersIff`.
- The half-open `save` and the recovery timeout are each decided on an earlier read. `SaveUndoesIff` and `TimeoutRespectedIff`
  say exactly what that breaks and when it does not; `SaveReopens` and `StaleReadGrants` are runs in which it does.
- "Deletes are already propagated by tombstones, so the mirror never accumulates orphans" (CHANGELOG.md:31): the API
  handlers write the script mirror themselves after publishing (internal/api/h_script.go:125, 209), and such a write may come
  after every instance has read a later record; compaction may remove a tombstone before any instance has applied it; and the
  only instance that would put a key right may leave. `MirrorConvergesIff` is exact for all of these; `LateWriteStays` and
  `RemovedTombstoneStays` are runs.
- The script consumer stores under the configuration's own id locally and under the message key in Redis.
  `MisKeyedDiverges`; the replay results therefore ask for records published under their own id.

## Model

| member | source | states |
|---|---|---|
| NoLossRuns.NoLossOverRuns | internal/worker/worker.go:135-460 | over every run from the empty system (crashes between pop, publish and ack, failed or unconfirmed publishes, failed acks, lapsed leases, Kafka redelivery) an accepted webhook is delivered, dead-lettered or still has its head attempt waiting, if and only if no worker took a lossy branch on it; while retry data is kept and can be read |
| LastCopy.KeptOverRunsIff | internal/scheduler/scheduler.go:90-137 | the same with failing reads of retry data and counting what schedulers hold in memory: a copy of the head attempt is left somewhere, if and only if no worker took a lossy branch and no scheduler gave up the last copy by a discard, a failed read, a refused publish or a crash |
| ExpiringData.KeptWithExpiryIff | internal/hotstate/redis.go:379-401 | the same for every configured time to live of retry data and with data expiring at any moment: a copy is left, if and only if none of the above happened, no reschedule deleted the data it needs, and the data did not expire while only references and leases were left |
| ExpiringData.SecondRetryLoses | internal/config/config.go:291-296 | with a time to live that is not positive, in every run, no webhook is delivered after its first retry and every one rescheduled twice is lost |
| ExpiringData.DefaultsLose | internal/worker/worker.go:463-470 | a run without a fault in which the defaults lose a webhook that fails twice |
| Witnesses.FailedReadLoses | internal/scheduler/scheduler.go:99-107 | one failed read of data that is there loses a webhook |
| NoLossRuns.NoLossWithFailingReads | internal/scheduler/scheduler.go:99-107 | with failing reads, a run without lossy branches and without discards of an only copy keeps the head attempt on a topic or in the retry set |
| UncheckedNoLoss.NoLossUnchecked | internal/worker/worker.go:151-157 | with failing marker checks and expiring markers as well, only the lossy branches of checked calls, and an unchecked circuit-open call that does reschedule or an unrecorded exhaustion, lose a webhook |
| NoLoss.NoLossStep | internal/worker/worker.go:150-169 | one step of any process loses a safe webhook exactly when it is a lossy branch on its head attempt or a discard of its only copy |
| NoLoss.OneHead | internal/worker/worker.go:384-387 | a webhook never has two attempts still to be handled |
| NoLossRuns.GivenUpForever | internal/worker/worker.go:150-157 | after a lossy branch no later step of any process brings the webhook back |
| NoLossRuns.CircuitOpenLoses | internal/worker/worker.go:479-487 | the same-attempt reschedule of an open circuit loses the webhook, undelivered, in a run without a fault |
| DeliveryBounds.AtMostOneDeliveryPerAttempt | internal/worker/worker.go:150-157 | while every marker check succeeds, no attempt is delivered twice, under any duplication, reordering, crash or other failed effect |
| DeliveryBounds.AtMostOneOutcome | internal/worker/worker.go:313-459 | while every marker check succeeds, at most one terminal outcome per webhook |
| UncheckedRuns.DeliveriesPerAttempt | internal/worker/worker.go:151-157 | over every run with failing marker checks, expiring markers, flushes and restores, an attempt is delivered at most once, and once more for each unchecked call on it and each time its marker is forgotten |
| UncheckedRuns.FailedCheckDeliversTwice | internal/worker/worker.go:151-153 | one failed marker check and a redelivery deliver the same attempt twice |
| UncheckedBounds.TotalsBounded | internal/retry/strategy.go:30-49 | over the same runs, at most MaxAttempts + 1 deliveries for each life of the markers and one terminal outcome, plus one of either for each unchecked call and each expired marker, and MaxAttempts + 1 outcomes for each flush |
| UncheckedBounds.MoveFits | internal/worker/worker.go:376-387 | no attempt beyond the furthest one scheduled exists anywhere, the state log included, and that one is within MaxAttempts |
| DeliveryBounds.DeliveriesBounded | internal/retry/strategy.go:30-49 | while every marker check succeeds, at most MaxAttempts + 1 deliveries, and no attempt number beyond MaxAttempts on a topic or in the retry set |
| LifecycleInvariant.RunKeepsInv | internal/worker/worker.go:135-460 | markers are exactly the attempts taken up, everything in the store, on the topics and in schedulers' hands is at most the head attempt of a known webhook, in every reachable state |
| LifecycleInvariant.UnmarkedIsHead | internal/worker/worker.go:150-157 | a reference without a marker is the head attempt of an active webhook |
| Rebuild.RebuildExactIffCompacted | internal/reconciler/reconciler.go:134-270 | the rebuilt retry set is exactly one reference per webhook that has failed and has no terminal outcome, with its head attempt and latest retry time, if and only if no superseded snapshot is left in the log |
| Witnesses.StaleSnapshotReturns | internal/reconciler/reconciler.go:165-172 | from a log not yet compacted the rebuild brings back the reference of a delivered webhook |
| Rebuild.RebuildRevives | internal/reconciler/reconciler.go:235-267 | a rebuild from a compacted log restores exactly the failed webhooks without a terminal outcome, lost ones included, and makes each live again at its head attempt |
| Rebuild.RebuiltPublishesTheSame | internal/worker/worker.go:547-570 | every rebuilt reference has its data, live and rebuilt, and the scheduler would publish the same webhook from either, except for ScheduledAt |
| Rebuild.RebuildKeepsSafe | internal/hotstate/redis.go:711-760 | a flush and a rebuild from a compacted log in any reachable state lose no webhook that was safe |
| Rebuild.RunKeepsLog | internal/worker/worker.go:525-578 | in every reachable state the latest record of a key is its tombstone, its head snapshot, or missing if it has not failed |
| Reconcilers.Reconciler.RestoreState | internal/reconciler/reconciler.go:212-270 | one snapshot is restored write by write; the result says whether all its writes succeeded |
| Reconcilers.Reconciler.ConsumePartition | internal/reconciler/reconciler.go:134-209 | what is read, restored and counted; only a restored snapshot at the high-water mark, a cancelled context or the end of the messages ends the loop, and which of them decides the result |
| Reconcilers.CountsTold | internal/reconciler/reconciler.go:166-195 | the counts are the numbers of tombstones, of unreadable records and of restored snapshots read |
| Reconcilers.ConsumeIsRebuild | internal/reconciler/reconciler.go:157-206 | over a flushed store and without faults the loop computes the fold the rebuild results are about, for a positive time to live or a log that restores no webhook twice |
| Reconcilers.StopsAtHighWaterIff | internal/reconciler/reconciler.go:195-205 | unless cancelled, reading stops below the high-water mark exactly when the record there is a snapshot that is restored |
| Witnesses.TombstoneReadsOn | internal/reconciler/reconciler.go:166-172 | a tombstone below the high-water mark makes the loop read and restore what is published afterwards |
| Workers.Worker.ProcessMessage | internal/worker/worker.go:135-460 | one call takes exactly one handler step of the protocol, under its time to live of retry data, on the branch the gates and answers select, reports exactly that branch's statuses, breaker outcome and result in order, moves both counters exactly as the gates say and no others, and returns nil, so that its message is acknowledged, unless the call was refused or a reschedule it needs failed |
| HandlerAnswers.AckedIff | internal/worker/worker.go:135-460 | in every state a handler call acknowledges its message exactly when the attempt was taken up before, the message was diverted, the same attempt was rescheduled, or the response led to an end or to a next attempt that was scheduled; and no other message |
| HandlerAnswers.ResponseDecides | internal/worker/worker.go:313-459 | a first call that makes its request ends as delivered exactly on 2xx; otherwise the next attempt is scheduled exactly when one is left and the response is a network error, a listed status, at least 500, 408 or 429; otherwise it ends as a dead letter |
| HandlerAnswers.ResponseKeepsData | internal/worker/worker.go:463-477 | the same call stores the data of a webhook that goes on unless it is there, and removes it at the end; the time to live decides whether it is kept |
| HandlerAnswers.ResponseIsLogged | internal/worker/worker.go:525-578 | at the end a tombstone is published, for a scheduled retry one snapshot from which the webhook of that retry reads back field by field, and nothing otherwise |
| HandlerAnswers.ReportsTold | internal/worker/worker.go:489-520 | the statuses, the breaker outcome and the result a response leads to, in order, with their attempt numbers and flags |
| HandlerAnswers.NoRequestLeaves | internal/worker/worker.go:166-244 | a first call that makes no request records nothing: an open circuit schedules the attempt it holds, a divert forwards the message as it is, a refusal leaves its marker only |
| HandlerAnswers.SkipLeaves | internal/worker/worker.go:154-157 | an attempt taken up before is acknowledged and nothing else changes |
| HandlerAnswers.BranchTold | internal/worker/worker.go:792-834 | which calls are given back, diverted, refused by the circuit or make their request, by the caps and the counters they meet |
| HandlerAnswers.StoredOnce | internal/hotstate/redis.go:379-401 | no step of any process changes the data stored for a webhook |
| Workers.Worker.Deliver | internal/worker/worker.go:253-459 | the delivery half: delivered, retried or exhausted, with the store, log, outcomes, reports and result of each |
| Workers.Worker.ScheduleRetryForCircuit | internal/worker/worker.go:479-487 | the same attempt is scheduled again and nothing else happens |
| Workers.Worker.Retry | internal/worker/worker.go:376-405 | the next attempt is scheduled and its snapshot published, or the message is given back |
| Workers.Worker.Finish | internal/worker/worker.go:447-451 | a terminal outcome publishes a tombstone and deletes the retry data |
| Workers.Worker.ScheduleRetry | internal/worker/worker.go:463-470 | data first, then the reference, stopping at the first error |
| Workers.Worker.PassDomainGate | internal/delivery/limiter.go:76-107 | gate result, counter and divert of the domain gate, failures included |
| Workers.Worker.PassInflightGate | internal/worker/worker.go:211-237 | gate result, counter and divert of the in-flight gate, the re-acquire after a failed divert included |
| Workers.Worker.PassGates | internal/worker/worker.go:176-251 | both gates with their deferred releases; a refusal by the first leaves the second untouched |
| Workers.GatesBalance | internal/worker/worker.go:792-834 | every path through both gates leaves both counters as it found them while counter commands succeed |
| GateRuns.InflightCallIsRun | internal/worker/worker.go:211-251 | on every path the in-flight gate and its release are a run of counter events with the counter it leaves, change nothing in the end unless a counter command failed, and the gate lets the call through holding exactly when they leave one more holder; a slow-lane call whose increment is over the cap is refused |
| GateRuns.DomainCallIsRun | internal/delivery/limiter.go:76-119 | the same for the domain gate; it lets a call through without a slot exactly when it is off or the divert failed |
| GateCalls.RequestsWithinCap | internal/worker/worker.go:792-834 | over every interleaving of any number of calls on one counter, the calls that make their request at a time are at most the cap, plus those whose divert failed, plus the calls so far whose increment failed |
| Slots.HoldersWithinCap | internal/worker/worker.go:213-224 | from any exact state, the idle one included, over every interleaving without expiry or failed increments the checked holders never exceed the cap and the counter is exactly what is still to be released |
| Slots.CounterSelfCorrects | internal/hotstate/redis.go:778-810 | with arbitrary expiry and failed increments the counter never exceeds the outstanding releases, so it is zero once all have released |
| Slots.ExpiryExceedsCap | internal/hotstate/redis.go:782 | one expiry lets more holders in than the cap |
| Slots.Counters.Incr | internal/hotstate/redis.go:778-788 | the count after INCR, and no other counter changes |
| Slots.Counters.Decr | internal/delivery/limiter.go:54-61 | one less but never below zero, and no other counter changes |
| HotStates.HotState.CheckAndSetProcessed | internal/hotstate/redis.go:650-660 | first exactly when the attempt had no marker; the marker is then there |
| HotStates.HotState.EnsureRetryData | internal/hotstate/redis.go:379-401 | the first stored webhook is kept for every later attempt; a time to live that is not positive deletes it when it is found |
| HotStates.HotState.ScheduleRetry | internal/hotstate/redis.go:404-426 | the reference is scored with the whole seconds of its time, its metadata is stored, and no other reference moves |
| HotStates.HotState.PopAndLockRetries | internal/hotstate/redis.go:430-451 | the due references are returned and re-scored, and nothing else changes |
| HotStates.HotState.GetRetryData | internal/hotstate/redis.go:454-466 | the stored webhook, or nothing when it is missing or the read fails |
| HotStates.HotState.AckRetry | internal/hotstate/redis.go:470-484 | exactly the one reference leaves the set, its metadata with it; the data stays |
| HotStates.HotState.DeleteRetryData | internal/hotstate/redis.go:488-491 | exactly the one webhook's data is gone |
| HotStates.HotState.FlushForRebuild | internal/hotstate/redis.go:711-760 | the keys whose deletion fails stay, all others are gone, and the result says whether any stayed |
| Lease.PopTakesFirstDue | internal/hotstate/redis.go:435-443 | a pop takes exactly the first min(limit, due) due references in order, each once, and keeps the membership of the set |
| Lease.LeaseExclusive | internal/hotstate/redis.go:430-451 | two pops of one reference by any schedulers, not rescheduled in between, are at least the lock's seconds apart |
| Lease.LockSeconds | internal/hotstate/redis.go:431-432 | the two clock readings give a lease of at least the whole seconds of the lock duration |
| Lease.UnixIsSeconds | internal/hotstate/redis.go:431-432 | times become the last whole second not after them |
| SortedSet.LexLessMeans | internal/hotstate/redis.go:436 | references of one score are ordered by their first different character, a text before those it begins |
| SortedSet.AddedCorrect | internal/hotstate/redis.go:419-422 | ZADD on the ordered set keeps it ordered and changes one score |
| SortedSet.WithoutCorrect | internal/hotstate/redis.go:474 | ZREM on the ordered set keeps it ordered and removes one member |
| Reference.ParseOfFormat | internal/scheduler/scheduler.go:151-161 | a formatted reference parses back to its pair if and only if the id has no colon, and is an error otherwise |
| Reference.FormatInjective | internal/hotstate/redis.go:405 | different attempts have different texts, so an ack cannot remove a successor |
| Reference.AtoiOfItoa | internal/scheduler/scheduler.go:156 | reading back a printed 64-bit integer gives the integer |
| Reference.DecimalTold | internal/scheduler/scheduler.go:156 | an attempt is read as the decimal number its digits denote by their places, exactly when nothing but digits follows an optional sign and the number fits 64 bits |
| Reference.PrintedPlain | internal/hotstate/redis.go:405 | a printed attempt has a sign exactly when it is negative, then digits without a leading zero |
| Reference.RefusedTold | internal/scheduler/scheduler.go:151-161 | exactly the texts that are refused as references |
| Schedulers.ReferenceTold | internal/scheduler/scheduler.go:88-137 | one reference is published as the stored webhook at the reference's attempt, removed once that is confirmed or its data is missing, and counted once; one that does not parse is neither published nor counted |
| Schedulers.TallyAddsUp | internal/scheduler/scheduler.go:88-148 | a batch counts every reference that parses exactly once, and its publishes lie between those it counts as published and those plus the failed ones |
| Schedulers.Scheduler.ProcessReference | internal/scheduler/scheduler.go:90-137 | what one reference publishes, removes and counts on every path |
| Schedulers.Scheduler.ProcessReferences | internal/scheduler/scheduler.go:90-137 | the loop publishes the resolved references in order and removes exactly those published or without data |
| Schedulers.Scheduler.ProcessBatch | internal/scheduler/scheduler.go:72-148 | one batch leases the due references, then does the above, and nothing when the pop fails; on the live store and topic it is a run of the protocol, whatever other schedulers hold |
| Schedulers.BatchIsRun | internal/scheduler/scheduler.go:72-148 | whatever fails around it, one batch is a run of pop, fetch, publish and ack steps that leaves nothing in the scheduler's hands |
| OffsetTrackers.OffsetTracker.MarkCompleted | internal/broker/kafka.go:361-380 | the loop moves to the state the specification reaches, in as many lookups; the position returned is just below lowestPending |
| OffsetTrackers.TrackerRefinesSet | internal/broker/kafka.go:340-380 | for any order and repetition of completions lowestPending is the least uncompleted offset and nothing above it is forgotten |
| OffsetTrackers.NoStaleEntries | internal/broker/kafka.go:365-373 | without repeats the map holds exactly the completed offsets above lowestPending |
| OffsetTrackers.OffsetsConserved | internal/broker/kafka.go:368-377 | without repeats the map's size plus the advance is the number of calls |
| OffsetTrackers.TotalTestsExact | internal/broker/kafka.go:369-377 | over any run, repeats included, the loops of all calls look up the map exactly once for each offset passed and once for each call |
| OffsetTrackers.OrderIrrelevant | internal/broker/kafka.go:359-380 | two orders of the same completions give the same commit position |
| PartitionProcessors.CommitSafety | internal/broker/kafka.go:553-573 | in every interleaving, everything from the initial offset up to any position ever marked was handled successfully |
| PartitionProcessors.FailedNeverPassed | internal/broker/kafka.go:556-563 | no position past a failed message is marked in the session |
| PartitionProcessors.CommitExact | internal/broker/kafka.go:565-569 | once quiet, the greatest mark is the least offset not handled successfully, with no assumption on offsets |
| PartitionProcessors.PrefixCommittedIff | internal/broker/kafka.go:404-442 | with contiguous offsets from the initial one a prefix is committed exactly when all of it succeeded |
| PartitionProcessors.PerKeyFifo | internal/broker/kafka.go:465-514 | in every reachable state the messages with one key that the workers of one channel table take start in claim order, and with one worker per key never overlap; until the table is cleared these are all messages of the key |
| KeyIndependence.ChannelsApart | internal/broker/kafka.go:421-428 | two messages share a channel exactly when their keys are equal, the empty key read as `__no_key__` |
| KeyIndependence.StartIff | internal/broker/kafka.go:486-494 | a worker takes the next message of a key exactly when one waits and fewer of that key are in work than the session allows; no other key matters |
| KeyIndependence.HandleAlone | internal/broker/kafka.go:465-514 | from any reachable state a waiting message gets into its handler by steps of its own channel alone |
| KeyIndependence.DifferentKeysTogether | internal/broker/kafka.go:465-514 | in any reachable state any two waiting messages with different keys can be in their handlers at once |
| KeyIndependence.UnroutedTogether | internal/broker/kafka.go:404-442 | the same for any two messages not yet routed, from any reachable state with room for them |
| PartitionProcessors.LateMessageOverlaps | internal/broker/kafka.go:516-528 | a message routed at the moment of cancellation, after the table was cleared, runs beside its predecessor |
| PartitionProcessors.ProcessMessage | internal/broker/kafka.go:553-573 | a failed handler touches nothing; a success counts the offset and marks the greatest safe position |
| CircuitBreakers.CircuitBreaker.ShouldAllow | internal/hotstate/redis.go:207-279 | answer and new record of each state, the probe lock included |
| CircuitBreakers.CircuitBreaker.RecordSuccess | internal/hotstate/redis.go:282-323 | new record and state after a success |
| CircuitBreakers.CircuitBreaker.RecordFailure | internal/hotstate/redis.go:326-372 | new record and state after a failure |
| CircuitBreakers.CallsKeepShape | internal/hotstate/redis.go:220-372 | every record any sequence of calls stores has no probe time and no successes unless half-open, and then fewer successes than the threshold, for thresholds of at least 2 |
| CircuitBreakers.ShapeNeedsThreshold | internal/hotstate/redis.go:309-312 | with a threshold of 1 a late success breaks that shape |
| BreakerExpiry.ExpiryUnobservableIff | internal/hotstate/redis.go:129-137 | no later sequence of calls can tell a record from its expiry, if and only if the circuit is closed with no failure inside the window |
| BreakerExpiry.IdleRecordMayExpire | internal/hotstate/redis.go:180-183 | the short-lived record of a closed circuit without failures may expire at any time |
| BreakerHistory.LeavesClosedIff | internal/hotstate/redis.go:338-354 | a closed circuit leaves CLOSED exactly on a failure that makes the last FailureThreshold outcomes since closing failures with gaps under the window |
| BreakerHistory.FailuresAreStreak | internal/hotstate/redis.go:336-347 | the failure counter is the length of the current streak of failures |
| BreakerHistory.StreakMeaning | internal/hotstate/redis.go:341-346 | a streak of at least n is the same as the last n outcomes being failures with gaps under the window |
| BreakerHistory.ClosesIff | internal/hotstate/redis.go:297-313 | a circuit that is not closed closes exactly on a half-open success that brings the successes since OPEN to the threshold |
| BreakerHistory.ClosesOnlyAfterSuccesses | internal/hotstate/redis.go:300-308 | when the circuit closes, the last SuccessThreshold outcomes are all successes |
| BreakerAnswers.AnswersTold | internal/hotstate/redis.go:207-279 | after any calls a request passes as an ordinary one exactly while the circuit is closed; open, it is refused until the recovery timeout since it opened and a probe afterwards; half-open, it is a probe exactly when due since the last probe and unlocked |
| BreakerAnswers.FewFailuresNeverRefused | internal/hotstate/redis.go:338-354 | with fewer failures in all its history than the threshold an endpoint is never refused a request |
| BreakerAnswers.TimesTold | internal/hotstate/redis.go:282-372 | an outcome sets its own time and no other, and the time of change exactly when the state changes |
| BreakerSpacing.ProbesSpaced | internal/hotstate/redis.go:220-274 | two probes of either kind are more than the shorter of probe interval and recovery timeout apart unless a success was recorded while open |
| BreakerSpacing.ProbesSpacedByLock | internal/hotstate/redis.go:251-272 | after a probe granted in HALF_OPEN the same spacing holds, late successes included, because it took the lock |
| BreakerSpacing.LateSuccessProbesAtOnce | internal/hotstate/redis.go:309-312 | a success recorded while open lets the next request probe at once |
| BreakerProbes.ProbesUnderInterleaving | internal/hotstate/redis.go:220-274 | under every interleaving of split commands the lock is won at most once per interval, each opening grants at most one caller by a move to HALF_OPEN, and the stored record keeps its shape |
| BreakerProbes.RecordIsReplay | internal/hotstate/redis.go:224-372 | in every reachable state the record is what the writes it reflects leave when made one after the other |
| BreakerProbes.SaveUndoesIff | internal/hotstate/redis.go:253-272 | in every reachable state a save undoes every write committed since the saver's read, exactly those if no other save or expiry came in between, and none if and only if the key has not been written since |
| BreakerProbes.SaveIsAtomic | internal/hotstate/redis.go:253-272 | in every reachable state in which the key has not been written since the read, the save grants and stores what the atomic call does |
| BreakerProbes.TimeoutRespectedIff | internal/hotstate/redis.go:220-249 | under every interleaving of callers whose clock readings never go back, the recovery timeout has passed for a caller granted by a move to HALF_OPEN, if and only if the circuit was not opened again between its first read and its transaction |
| BreakerProbes.TimeoutRespected | internal/hotstate/redis.go:220-249 | on any clocks, it has passed if the circuit was not opened again since the first read |
| BreakerProbes.SaveReopens | internal/hotstate/redis.go:268-270 | a run from a fresh endpoint in which a failure between lock and save is overwritten: the circuit just opened is half-open again |
| BreakerProbes.StaleReadGrants | internal/hotstate/redis.go:220-249 | a run from a fresh endpoint in which a caller that timed the circuit before a failed probe is granted at the instant of that failure |
| ScriptTables.Consumer.HandleMessage | internal/script/consumer.go:152-211 | local table, mirror and result for a tombstone, a malformed, an incomplete and a valid record |
| ScriptTables.Consumer.ReplayPartition | internal/broker/kafka.go:200-266 | the replayed table and mirror; records whose handler errs are skipped |
| ScriptTables.Loader.GetScript | internal/script/loader.go:46-63 | the exact entry, else the entry of the part before the first colon, else nothing |
| ScriptTables.Loader.SetScript | internal/script/loader.go:79-84 | one entry stored under the script's own id |
| ScriptTables.Loader.DeleteScript | internal/script/loader.go:87-92 | one entry removed |
| ScriptTables.NamespaceIsUnique | internal/script/loader.go:16-21 | the namespace is the only non-empty colon-free text the id starts with before a colon |
| ScriptTables.WriteThroughByKey | internal/script/consumer.go:152-211 | after any records and failing writes the mirror holds under each key what the last effective record whose write succeeded says |
| ScriptTables.ReplayByKey | internal/script/consumer.go:152-211 | the replayed table holds under each key what its last effective record says |
| ScriptTables.ReplayConfluent | internal/broker/kafka.go:167-172 | every interleaving of partitions with confined keys yields the same table |
| ScriptTables.MisKeyedDiverges | internal/script/consumer.go:188-200 | a script published under another key makes the table depend on the interleaving |
| ScriptTables.CompactionExactIff | internal/script/consumer.go:152-211 | the compacted log gives the table of the full log, if and only if no rejected last record shadows a script |
| ScriptMirror.MirrorConvergesIff | internal/script/consumer.go:152-203 | with any number of instances joining, restarting, leaving and interleaving their writes, API handlers writing at any later time, and compaction: once the running instances have drained, the mirror holds under a key what the last record left in the log says, if and only if no step left the key wrong for good |
| ScriptMirror.MirrorConverges | internal/script/consumer.go:190-200 | the consumers' own writes always converge to last record per key, while none of them leaves and nothing is compacted |
| ScriptMirror.LateWriteStays | internal/api/h_script.go:107-128 | two uploads whose first handler writes late leave the older script in the mirror |
| ScriptMirror.RemovedTombstoneStays | internal/script/consumer.go:156-174 | a tombstone compacted away before it is applied leaves the deleted script in the mirror |
| StatusStores.StatusStore.SetStatus | internal/hotstate/redis.go:516-539 | an unset timestamp becomes now; the key is merged and no other key changes |
| StatusStores.RoundedIsTheNearest | internal/hotstate/redis.go:501-506 | the compared timestamp is the nearest multiple of 256, and of two equally near the even one |
| StatusStores.SurvivorIsFirstGreatest | internal/hotstate/redis.go:499-512 | the survivor is the first write whose binary64 timestamp is the greatest |
| StatusStores.SurvivorWithin256 | internal/hotstate/redis.go:501-506 | the surviving timestamp is at most 256 ns below the greatest written |
| StatusStores.MergeOrderIndependent | internal/hotstate/redis.go:499-512 | order and repetition do not matter when no two timestamps round to the same number |
| StatusStores.OrderMattersIff | internal/hotstate/redis.go:505-506 | for two different writes order matters exactly when their timestamps round to the same number |
| StatusStores.LaterWriteIgnored | internal/hotstate/redis.go:506 | a write one nanosecond later that is ignored |
| Backoff.DelayMonotone | internal/retry/strategy.go:56-78 | the delay before jitter never falls, is constant from attempt 10 and never exceeds the cap |
| Backoff.GeometricSum | internal/retry/strategy.go:68-73 | uncapped, the first n of at most 11 delays sum to BaseDelay * (2^n - 1) |
| Backoff.JitteredSumRange | internal/retry/strategy.go:87-99 | every partial sum with jitter j is within the factors 1 - j and 1 + j of the sum without, less a nanosecond per delay |
| Backoff.CircuitDelays | internal/retry/strategy.go:59-67 | five minutes while open and 30 seconds while half-open at any attempt, within the cap and the jitter |
| Backoff.JitterReaches | internal/retry/strategy.go:75-99 | without jitter the next delay is the base delay; with jitter j every value within the factors 1 - j and 1 + j of it is the next delay for some draw, above the cap too |
| Backoff.RetrySchedule | internal/retry/strategy.go:118-129 | the schedule holds the running totals of the delays |

## Left out

- The script path of the worker, Lua execution and its modules: a foreign interpreter. Its retryable-error branch
  (internal/worker/worker.go:608-622) advances the attempt without the budget check, so the delivery bounds hold with scripts off.
- HTTP delivery, signing, TLS, transformers, the API handlers but for their writes to the script mirror, metrics, configuration: I/O and plumbing.
- JSON and zstd codecs are taken as the identity on webhooks; a message that does not parse is dropped by the worker and has no position in the model.
- DeliveryBounds.AtMostOneDeliveryPerAttempt: between flushes, with markers alive and marker checks succeeding; `UncheckedRuns.DeliveriesPerAttempt` covers failed checks, expiry and flushes.
- UncheckedNoLoss.NoLossUnchecked: one direction, because an unchecked copy may always be redelivered and undo a loss; a flush ends the runs it speaks of, and `Rebuild.RebuildKeepsSafe` takes over.
- NoLossRuns.NoLossOverRuns: handler calls are atomic steps, so of a worker's crash only the points that coincide with a failed effect of its path are covered. Retry data is kept; `ExpiringData.KeptWithExpiryIff` covers a time to live.
- Rebuild.RebuildExactIffCompacted: state publishes succeed and are appended in step order, although the code publishes them from goroutines; partitions of the state topic are taken as one log, which is enough because a key stays in one partition.
- Workers.Worker.ProcessMessage: the breaker's answer is a parameter; the breaker is proved on its own, and so is the last-write-wins status store. Of a status write the state and the number of attempts are modelled. Statistics are not.
- Slots.Counters.Incr: the refresh of the key's TTL; expiry is an event of the counter model.
- HotStates.HotState.CheckAndSetProcessed: the marker's TTL; its expiry is a move of `UncheckedRuns`.
- HotStates.HotState.EnsureRetryData: EXPIRE and SET are one step here: two workers that find no data both write it, and what they write differs in attempt and scheduled time only. A positive time to live is not counted down; its end is a move of `ExpiringData`.
- HotStates.HotState.ScheduleRetry: expiry of the metadata key, which nothing reads; a pipeline takes effect as a whole or not at all.
- HotStates.HotState.FlushForRebuild: the keys of statuses, statistics, breakers and counters, and the scan in batches.
- PartitionProcessors.PerKeyFifo: a send on a channel that is closed at that very moment, which panics, and the 30-second wait are not modelled; cancelled workers are those that take no more messages.
- Rebuild.RebuiltPublishesTheSame: retry data does not expire during the run, as in the other rebuild results.
- PartitionProcessors.PrefixCommittedIff: an initial offset that is not the offset of the first message (a symbolic -1 or -2, or a gap) blocks commits; `CommitExact` covers it without assuming contiguity.
- OffsetTrackers.OffsetTracker.MarkCompleted: offsets are unbounded integers; `highestReceived` is written by the code and never read.
- CircuitBreakers.CircuitBreaker.ShouldAllow: calls are atomic and Redis does not fail; `BreakerProbes` splits them. A failed WATCH is the `Abandon` step: what the worker does with the error is its own branch.
- BreakerProbes.ProbesUnderInterleaving: WATCH and the read after it are one step; a write between the two would only make the transaction fail. Expiry of a watched key counts as a change.
- BreakerHistory.LeavesClosedIff: no record expires; `BreakerExpiry` says when that matters.
- Slots.HoldersWithinCap: holders re-acquired without a check after a failed divert are counted apart from the cap.
- ScriptMirror.MirrorConvergesIff: Redis writes of consumers succeed; a write that fails is not repeated before the next replay. The mirror's keys have no expiry, as every program sets it up (cmd/api/main.go:81, cmd/worker/main.go:137, cmd/dev/main.go:138). A record superseded only by one that handlers reject stays in this log; `CompactionExactIff` says what its removal does. The API handler's write to its own local table (internal/api/h_script.go:134) is not modelled.
- StatusStores.StatusStore.SetStatus: expiry of the status key.
- StatusStores.SurvivorWithin256: for nanosecond timestamps in [2^60, 2^61), the years 2006 to 2043; expiry of status keys is not modelled.
- Backoff.JitteredSumRange: over real numbers and non-negative attempts; the rounding of binary64 products is not modelled.
- Statistics, HyperLogLog, canary, epoch and reconciler lock, slow-lane rate limits, host matching, header redaction, null routing, the in-memory broker: easy or not connected to the state above.
