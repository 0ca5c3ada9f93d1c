# A verified model of the delivery pipeline

The repository replicates PostgreSQL's logical replication stream into Redis and SQS. This project
models, in Dafny, the part that decides *when a WAL position may be confirmed* and *what has to be
delivered before it is*, and proves that every write in flight is accounted for.

| files | what they model |
|---|---|
| `WriteQueue.dfy` | the doubly linked FIFO below the tracker, with its two-ended `PushBefore` search |
| `Wal.dfy` | write requests, responses and failure reasons |
| `TrackerSpec.dfy`, `TrackerInvariant.dfy`, `TrackerRuns.dfy` | the LSN tracker: one function for each locked section, what each keeps, and all runs in which adds, responses, error handlers, retry timers and pops interleave |
| `TrackerTheorems.dfy`, `TrackerProgress.dfy`, `TrackerDelivery.dfy`, `TrackerStranding.dfy`, `RetryLimits.dfy`, `TrackerVerdicts.dfy`, `TrackerOrder.dfy` | safety of the watermark, conservation, runs in which writers answer what they were handed, when no entry is stranded, bounded retries, what becomes of each failure, the order in which writes are handed over |
| `TrackerGrouping.dfy`, `Tracker.dfy`, `TrackerCalls.dfy`, `TrackerGap.dfy` | the tracker as objects updated in place, proved against the sections; whole calls are runs; the gap between acknowledging and releasing |
| `TrackingQueue.dfy` | the tracking queue as the tracker uses it: the linked queue with the LSN predicates and the releasing callback |
| `Replicator.dfy`, `EndToEnd.dfy`, `CommitPositions.dfy` | standby status updates, tracker and replicator together, and confirmed positions against commit records |
| `Coalescing.dfy`, `RowKeys.dfy`, `CoalescedStore.dfy`, `Listener.dfy`, `ListenerReconnect.dfy`, `BufferedListener.dfy`, `CommitKeys.dfy` | the transaction demultiplexer, which rows share an entry, what coalescing does to a store, reconnects inside transactions, and the LSN under which a transaction is tracked |
| `SnapshotRanges.dfy`, `SnapshotWorker.dfy`, `LsnAllocator.dfy`, `SnapshotProgress.dfy`, `SnapshotDelivery.dfy` | the snapshot engine, and its allocator, tracker and completion together |
| `OffsetTracker.dfy`, `OffsetCompaction.dfy` | the offset watermark with prefix compaction, and when compaction shows |
| `OrderedMap.dfy`, `RedisCommand.dfy`, `RedisArguments.dfy` | row tuples, the two-pass Redis argument builder and what each argument stands for |
| `SqsWriter.dfy`, `CircuitBreaker.dfy`, `LicenseCodec.dfy` | SQS accounting, the circuit breaker, the binary license form |

State that the source updates in place is a class whose methods are proved against functions on
values; protocols with several goroutines are state machines whose steps are the sections that run
under a lock (or single atomic operations), and theorems range over every sequence of steps. What
holds in all runs is proved of all of them; where some run is claimed to exist, its writers answer only
what they were handed (`TrackerDelivery.Genuine`).

What the code relies on is a hypothesis here: LSNs are positive, the server sends nothing from
before the start position (`EndToEnd.Possible`), after a reconnect it starts again at a transaction it
has sent already or goes on (`CommitKeys.Sends`) and sends a transaction from its first row
(`ListenerReconnect.SentAgain`), a row carries the xid of its transaction (`Listener.LegalNext`;
`Listener.CacheExact` does without it), a task's batches are reported before the task is
(`SnapshotProgress.Enabled`), writers never report an empty request as failed (`TrackerProgress.Fair`),
and a timer fires no earlier than its duration (`CircuitBreaker.Fires`).

Properties that do not hold as one would like, with the exact condition under which they do:

- A transaction is dropped when a streamed commit record starts where an ordinary one ends, because
  the two are tracked under the same LSN (`CommitKeys.AllTakenInExactly`,
  `CommitKeys.ListenerTakenInExactly`, with a run in `CommitKeys.CollisionDrops`).
- A position inside the commit record of an unfinished transaction is confirmed in some run when an
  ordinary record starts where another ends (`CommitPositions.ConfirmedInsideExactly`,
  `CommitPositions.RecordNotConfirmedExactly`).
- Retrying never ends when the connection limit is switched off, more than one try is allowed and there
  is a backoff (`RetryLimits.UnboundedExactly`).
- A failed entry is neither retried nor skipped when there is no backoff and more than one try is
  allowed, as in the default configuration (`TrackerStranding.StrandedExactly`,
  `TrackerStranding.StrandingRun`).
- A streamed commit leaves out the rows of its blocks that carry another xid, as those of
  subtransactions do (`Listener.StreamCarriesAllExactly`, `Listener.LosesARow`).
- Rows of two tables share an entry when one table's name continues the other past the separator and the
  rest of the name and the primary keys fit (`RowKeys.SameKeyExactly`, `RowKeys.TablesApartExactly`,
  `RowKeys.TablesMeet`).
- Coalesced entries leave another value under a key than its rows when the first row of the key is a
  delete and the last is not, or the other way round (`CoalescedStore.StoredExactly`,
  `CoalescedStore.InsertedAndDeleted`).
- A table is completed although a batch of it never reached the writer when that batch is added after
  the watermark has passed its LSN, which takes two workers (`SnapshotDelivery.CompletedArrivedExactly`,
  `SnapshotDelivery.OneWorkerArrives`, `SnapshotDelivery.TwoWorkersLoseABatch`).
- A request whose LSN arrives after a larger one was acknowledged is dropped
  (`TrackerTheorems.AddAccepts`, `TrackerDelivery.LateLsnIsDropped`).
- The Redis builder writes past its array when `{json:*}` adds the commit time before a star argument
  and unset columns do not make up for it (`RedisCommand.BuilderSoundExactly`,
  `RedisCommand.CrashExample`).
- Compaction shows when the offset returned last is added again after it was thrown away
  (`OffsetCompaction.CompactionShowsExactly`, `OffsetCompaction.ReaddedHoldsBack`, and two runs in
  `OffsetCompaction.CompactionShows`).
- A query snapshot with rows but no estimated blocks plans no range at all
  (`SnapshotRanges.PlanFromBounds`).
- The license round trip holds only while the total size fits in 32 bits (`LicenseCodec.RoundTrip`).

## Model

| member | source | states |
|---|---|---|
| WriteQueues.BoundaryIsLinearInsertion | writequeue/write_queue_benchmark_test.go:186-215 | on a monotone predicate the one boundary of the queue is where linear insertion puts the entry |
| WriteQueues.SortedInsertion | pg2buffer/pglsntracker/buffered_lsn_tracker.go:544-548 | with a predicate that compares LSNs, insertion of a new LSN keeps the queue strictly increasing, and the predicate is monotone on it |
| WriteQueues.WriteQueue.Push | writequeue/write_queue.go:82-102 | appends to the contents; links agree in both directions and the count is the sum of the sizes |
| WriteQueues.WriteQueue.PutAtTail | writequeue/write_queue.go:60-80 | prepends to the contents under the same invariant |
| WriteQueues.WriteQueue.PushBefore | writequeue/write_queue.go:104-152 | inserts at a boundary for every predicate within half the queue length, and exactly where linear insertion would for every monotone one |
| WriteQueues.WriteQueue.SearchBetween | writequeue/write_queue.go:121-145 | the two cursors meet; the branch in which the backward cursor runs out is unreachable |
| WriteQueues.WriteQueue.InsertBeforeNode | writequeue/write_queue.go:154-165 | the four links of an insertion keep the chain |
| WriteQueues.WriteQueue.InsertAfterNode | writequeue/write_queue.go:167-178 | the four links of an insertion keep the chain |
| WriteQueues.WriteQueue.Find | writequeue/write_queue.go:190-209 | the first match in queue order, or none |
| WriteQueues.WriteQueue.Pop | writequeue/write_queue.go:283-313 | removes the oldest entry; the count never underflows |
| WriteQueues.WriteQueue.PopUntil | writequeue/write_queue.go:257-281 | removes exactly the longest prefix that satisfies a predicate without effects |
| TrackingQueues.TrackingQueue.PushTrackedWrite | pg2buffer/pglsntracker/buffered_lsn_tracker.go:544-548 | inserts by the two-ended search; the queue stays strictly increasing in LSN and the count is the sum of the cached sizes |
| TrackingQueues.TrackingQueue.FindTrackedWrite | pg2buffer/pglsntracker/buffered_lsn_tracker.go:521-525 | the entry with the LSN, or none when there is none |
| TrackingQueues.TrackingQueue.PopAcknowledged | pg2buffer/pglsntracker/buffered_lsn_tracker.go:531-542 | with the callback that releases entries while they are popped: exactly the longest prefix with nothing pending leaves, all of it released and counted off the gauge, the rest unchanged, and the watermark is the point of the last |
| TrackerInvariant.TrackKeeps | pg2buffer/pglsntracker/buffered_lsn_tracker.go:766-821 | adding keeps the queue strictly increasing in LSN, above the watermark, and the gauge exact |
| TrackerInvariant.QueueWriteKeeps | pg2buffer/pglsntracker/buffered_lsn_tracker.go:112-123 | queueing keeps the invariant and moves the gauge balance by one |
| TrackerInvariant.TakeQueuedKeeps | pg2buffer/pglsntracker/buffered_lsn_tracker.go:133-147 | what leaves a queue belongs to a write that has not been released |
| TrackerInvariant.AckIdKeeps | pg2buffer/pglsntracker/buffered_lsn_tracker.go:495-510 | a write is released, once, at the step its pending set becomes empty, and its queued writes leave the gauge |
| TrackerGap.GapHarmless | pg2buffer/pglsntracker/buffered_lsn_tracker.go:495-510 | whatever pops and attempts to queue, of any writes, run between the two locked sections of an acknowledgement that leaves nothing pending, the outcome is that of running them before it as one step; only attempts to queue something of this write come to nothing |
| TrackerInvariant.AdvanceKeeps | pg2buffer/pglsntracker/buffered_lsn_tracker.go:531-542 | the watermark only rises, past writes with nothing pending, until the oldest has something pending |
| TrackerInvariant.ErrorsKeep | pg2buffer/pglsntracker/buffered_lsn_tracker.go:587-667 | error processing keeps the invariant |
| TrackerRuns.ErrorsEffect | pg2buffer/pglsntracker/buffered_lsn_tracker.go:587-667 | error processing changes nothing but failure counts, and its retries belong to their tracked write |
| TrackerRuns.StepKeeps | pg2buffer/pglsntracker/buffered_lsn_tracker.go:404-821 | every step of every goroutine keeps the run invariant and never lowers the watermark |
| TrackerTheorems.RunsKeep | pg2buffer/pglsntracker/buffered_lsn_tracker.go:512-542 | over every run the invariant holds and the watermark never decreases |
| TrackerTheorems.WatermarkSafe | pg2buffer/pglsntracker/buffered_lsn_tracker.go:462-542 | in every reachable state every accepted write at or below the watermark has nothing pending and a response for every offset, every other is tracked, and the queue is sorted |
| TrackerTheorems.WatermarkExact | pg2buffer/pglsntracker/buffered_lsn_tracker.go:512-542 | after a poll the watermark covers a write if and only if nothing up to it is pending |
| TrackerOrder.WatermarkPoint | pg2buffer/pglsntracker/buffered_lsn_tracker.go:531-542 | over every run the watermark is where it started, or the LSN and xid of one accepted request |
| TrackerTheorems.LifecycleConserved | pg2buffer/pglsntracker/buffered_lsn_tracker.go:267-291 | entries are released exactly once, when nothing is pending; the gauge is the number of queued writes, counting goroutines on their way to it |
| TrackerTheorems.MissingExactly | pg2buffer/pglsntracker/buffered_lsn_tracker.go:610-622 | the missing-write fatal is reached exactly for an LSN above the watermark that was never accepted |
| TrackerTheorems.MissingUnreachable | pg2buffer/pglsntracker/buffered_lsn_tracker.go:610-622 | hence never by a response to accepted writes |
| TrackerTheorems.AddAccepts | pg2buffer/pglsntracker/buffered_lsn_tracker.go:778-816 | a request is taken in if and only if its LSN is above the watermark and new |
| TrackerTheorems.NothingDropped | pg2buffer/pglsntracker/buffered_lsn_tracker.go:766-821 | in a run whose added LSNs each exceed all before or come again, as after a reconnect, the first request of each LSN is accepted, once, and nothing else, however responses interleave |
| TrackerTheorems.NothingDroppedInOrder | pg2buffer/pglsntracker/buffered_lsn_tracker.go:766-821 | when none comes again, every added request |
| TrackerDelivery.Delivers | pg2buffer/pglsntracker/buffered_lsn_tracker.go:375-393 | a write on its way into its queue reaches the writer, after which nothing else has changed |
| TrackerDelivery.LateLsnIsDropped | pg2buffer/pglsntracker/buffered_lsn_tracker.go:778-783 | a run, in which the writer answers what it was handed, that loses the request with LSN 1 after LSN 2 was acknowledged |
| TrackerProgress.NoEntryStranded | pg2buffer/pglsntracker/buffered_lsn_tracker.go:404-446 | with backoff or at most one try, over every fair run each pending offset is queued, in a goroutine's hands, in flight, being skipped or on a timer, and every queued write has its marker |
| TrackerStranding.StrandedExactly | pg2buffer/pglsntracker/buffered_lsn_tracker.go:654-664 | no fair run strands an entry if and only if there is backoff or at most one try |
| TrackerStranding.StrandingRun | pg2buffer/pglsntracker/buffered_lsn_tracker.go:315-326 | for every other configuration, the default among them, a fair run, in which the writer answers what it was handed, at whose end a pending offset is carried by nothing |
| RetryLimits.FailureUsesBudget | pg2buffer/pglsntracker/buffered_lsn_tracker.go:174-207 | each failure of a tracked write strictly decreases what is left of the two limits, for that offset alone |
| RetryLimits.RetriesBounded | pg2buffer/pglsntracker/buffered_lsn_tracker.go:626-652 | over every run with a connection limit and no shutdown, in any mix of failure kinds, an offset is judged to be tried again at most maxRetries + maxConnectionRetries - 2 times |
| RetryLimits.UnboundedExactly | pg2buffer/pglsntracker/buffered_lsn_tracker.go:628-664 | for every n some run in which writers answer what they were handed schedules n retries of one offset, exactly without a connection limit, with more than one try and with a backoff |
| TrackerGrouping.GroupingIrrelevant | pg2buffer/pglsntracker/buffered_lsn_tracker.go:466-487 | acknowledging groups by commit point in any order ends in the state of acknowledging entry by entry |
| Tracker.TrackedWriteRequest.PendingOf | pg2buffer/pglsntracker/buffered_lsn_tracker.go:87-106 | the offsets of the request, or offset 0 of an empty one |
| Tracker.TrackedWriteRequest.HasPending | pg2buffer/pglsntracker/buffered_lsn_tracker.go:247-265 | whether the request shares an offset with the pending set |
| Tracker.TrackedWriteRequest.QueueWrite | pg2buffer/pglsntracker/buffered_lsn_tracker.go:112-123 | queues a write exactly when the request is not released and something of it is pending |
| Tracker.TrackedWriteRequest.PopQueuedWrite | pg2buffer/pglsntracker/buffered_lsn_tracker.go:133-147 | takes the oldest queued write |
| Tracker.TrackedWriteRequest.Ack | pg2buffer/pglsntracker/buffered_lsn_tracker.go:149-158 | removes the offsets and tells whether anything is left |
| Tracker.TrackedWriteRequest.GetFailedEntry | pg2buffer/pglsntracker/buffered_lsn_tracker.go:174-207 | counts a failure, the first as one retry whatever its kind |
| Tracker.TrackedWriteRequest.RetryWrite | pg2buffer/pglsntracker/buffered_lsn_tracker.go:209-234 | a request with the one entry of a pending offset, or none |
| Tracker.TrackedWriteRequest.FullWrite | pg2buffer/pglsntracker/buffered_lsn_tracker.go:236-245 | the whole request while something of it is pending |
| Tracker.TrackedWriteRequest.Release | pg2buffer/pglsntracker/buffered_lsn_tracker.go:267-291 | releases once and reports the queued writes dropped with it |
| Tracker.PGBufferedLSNTracker.FindTrackedWrite | pg2buffer/pglsntracker/buffered_lsn_tracker.go:521-525 | the tracked write with the LSN, or none |
| Tracker.PGBufferedLSNTracker.AdvanceMaxAcknowledged | pg2buffer/pglsntracker/buffered_lsn_tracker.go:531-542 | the loop refines the watermark section |
| Tracker.PGBufferedLSNTracker.MaxAcknowledged | pg2buffer/pglsntracker/buffered_lsn_tracker.go:512-519 | advances, keeps the invariant and returns the watermark |
| Tracker.PGBufferedLSNTracker.OnSuccess | pg2buffer/pglsntracker/buffered_lsn_tracker.go:462-492 | whatever order the map yields the groups in, the state is that of acknowledging every entry and advancing |
| Tracker.PGBufferedLSNTracker.ProcessErrorResponse | pg2buffer/pglsntracker/buffered_lsn_tracker.go:587-667 | the loop refines entry-by-entry processing, with its early returns, skips and retries |
| Tracker.PGBufferedLSNTracker.OnError | pg2buffer/pglsntracker/buffered_lsn_tracker.go:688-714 | skipped entries are acknowledged and retries scheduled, unless a shutdown or a missing write ends it |
| TrackerVerdicts.VerdictExactly | pg2buffer/pglsntracker/buffered_lsn_tracker.go:610-664 | in every state the verdict on a failed entry of a pending write is that of its reasons so far: shutdown at the connection limit when the downstream is down, skip when not retryable or out of retries, retry of the one entry with a backoff, otherwise nothing; the failure is counted and nothing else changes |
| TrackerVerdicts.VerdictOverRuns | pg2buffer/pglsntracker/buffered_lsn_tracker.go:174-207 | over every run the verdict depends on the reasons reported for this entry in the run, its own and the limits alone |
| TrackerVerdicts.NoConcern | pg2buffer/pglsntracker/buffered_lsn_tracker.go:610-624 | an entry without a pending write is ignored, or its write is missing; nothing changes |
| TrackerVerdicts.ResponseExactly | pg2buffer/pglsntracker/buffered_lsn_tracker.go:587-667 | a response is processed to the end exactly when no verdict ends it; its skips and retries are those of the verdicts, in order |
| TrackerVerdicts.StoppedExactly | pg2buffer/pglsntracker/buffered_lsn_tracker.go:688-714 | otherwise the first verdict that ends it decides the outcome of OnError, and only failure counts have changed |
| TrackerVerdicts.FailureHandled | pg2buffer/pglsntracker/buffered_lsn_tracker.go:688-714 | after OnError the offset of a failure that is not retryable is acknowledged, and one still pending has a timer unless there is no backoff or no entry |
| TrackerVerdicts.TimersAdded | pg2buffer/pglsntracker/buffered_lsn_tracker.go:669-686 | every timer OnError sets is for a retryable failure, with the one entry that failed |
| Tracker.PGBufferedLSNTracker.EnqueueReadyWrite | pg2buffer/pglsntracker/buffered_lsn_tracker.go:550-561 | one queued write, one marker, one on the gauge, or nothing |
| Tracker.PGBufferedLSNTracker.OnRetryTimer | pg2buffer/pglsntracker/buffered_lsn_tracker.go:404-428 | takes one timer away and enqueues its write |
| Tracker.PGBufferedLSNTracker.Add | pg2buffer/pglsntracker/buffered_lsn_tracker.go:766-821 | refines the section that ignores, resends or tracks a request, and keeps the invariant |
| Tracker.PGBufferedLSNTracker.Pop | pg2buffer/pglsntracker/buffered_lsn_tracker.go:375-393 | drops markers until one leads to a queued write |
| Tracker.PoppedKeeps | pg2buffer/pglsntracker/buffered_lsn_tracker.go:375-393 | what is popped was queued in a write that has not been released; nothing else moves |
| TrackerOrder.MarkersFifo | pg2buffer/pglsntracker/buffered_lsn_tracker.go:550-561 | over every run markers are popped in the order they were pushed, and the rest are waiting |
| TrackerOrder.QueueFifo | pg2buffer/pglsntracker/buffered_lsn_tracker.go:112-147 | over every run the queued writes of an unreleased tracked write are taken in the order they were queued |
| TrackerOrder.HandedInOrder | pg2buffer/pglsntracker/buffered_lsn_tracker.go:375-393 | whatever calls of Add with new increasing LSNs and of Pop are made, what Pop hands over followed by what is waiting is what was waiting followed by what was added |
| TrackerOrder.PoppedExactly | pg2buffer/pglsntracker/buffered_lsn_tracker.go:375-393 | Pop drops the markers that lead nowhere, takes the oldest queued write of the first that does not, and finds nothing exactly when there is none |
| TrackerOrder.QueuedExactly | pg2buffer/pglsntracker/buffered_lsn_tracker.go:112-131 | a write is queued if and only if some offset of it is pending, so a late retry of an acknowledged entry is not sent |
| TrackerOrder.SentAgainExactly | pg2buffer/pglsntracker/buffered_lsn_tracker.go:785-809 | a request whose LSN is tracked is sent again, as first added, if and only if a failure has been recorded for it |
| TrackerCalls.AddIsRun | pg2buffer/pglsntracker/buffered_lsn_tracker.go:766-821 | a whole call of Add is a run of locked sections |
| TrackerCalls.TimerIsRun | pg2buffer/pglsntracker/buffered_lsn_tracker.go:404-428 | a whole timer callback is a run of locked sections |
| TrackerCalls.PopIsRun | pg2buffer/pglsntracker/buffered_lsn_tracker.go:375-393 | a whole call of Pop is a run of locked sections |
| TrackerCalls.ErrorIsRun | pg2buffer/pglsntracker/buffered_lsn_tracker.go:688-714 | a whole call of OnError is a run of locked sections |
| Replicator.PGReplicator.constructor | replicator/pg_replicator.go:227-237 | the position starts one below the start LSN |
| Replicator.PGReplicator.Poll | replicator/pg_replicator.go:559-563 | the position is raised to the watermark and never lowered |
| Replicator.PGReplicator.SendStandBy | replicator/pg_replicator.go:709-743 | sends exactly when due or when the position has moved, fails exactly when that send does, and then sets the next time; after a call that did not fail the server knows the position; reported positions stay in order |
| EndToEnd.NothingConfirmedEarly | replicator/pg_replicator.go:709-743 | over every run with reconnects reported positions never decrease, and a write with something pending or unanswered has its LSN at or above every reported position and above every restart position |
| EndToEnd.RoundReportsWatermark | replicator/pg_replicator.go:534-563 | after one round of the read loop the position is the larger of the watermark and one below the start, and the last report is one past it |
| EndToEnd.ReconnectStarts | replicator/pg_replicator.go:316-325 | a reconnect starts from the position, which everything reported exceeds by at most one and which is the watermark once that was reported |
| EndToEnd.SlotsFollow | replicator/pg_replicator.go:487-503 | the replicas' slots are given the position reported last exactly when it is above what they are known to have |
| CommitPositions.RecordNotConfirmedExactly | replicator/pg_replicator.go:709-743 | over every run the commit record of an unfinished transaction starts at or above every reported position if and only if it does not start where a confirmed ordinary one ends |
| CommitPositions.ConfirmedInsideExactly | replicator/pg_replicator.go:709-743 | for a given WAL some run, in which writers answer what they were handed, reports a position inside an unfinished commit record if and only if an ordinary record starts where another ends |
| CommitPositions.RecordConfirmedEarly | pg2buffer/buffered_listener.go:280-294 | two records that meet at 20, and such a run that reports 21 while the second is pending |
| Coalescing.PutAllCoalesces | pg2buffer/buffered_listener.go:599-654 | the incremental form computes the reference: last writes in order, last tuple, first kind and previous tuple |
| Coalescing.CoalescedKeys | pg2buffer/buffered_listener.go:84-125 | no key occurs twice |
| Coalescing.CoalescedKeySet | pg2buffer/buffered_listener.go:84-125 | the keys are those of the rows |
| Coalescing.CoalescedUnique | pg2buffer/buffered_listener.go:599-654 | the reference leaves no choice |
| CoalescedStore.StoredExactly | pg2redis/redis_writer.go:580-591 | replaying the entries leaves the value under a key that replaying the rows leaves, if and only if the first and the last row of the key are both deletes or neither is |
| CoalescedStore.StoreExactly | pg2redis/redis_writer.go:580-591 | so for the whole store, if and only if this is so for every key |
| CoalescedStore.InsertedAndDeleted | pg2buffer/buffered_listener.go:599-654 | a row inserted and deleted in one transaction stays in the store |
| CoalescedStore.RowsAgain | pg2buffer/buffered_listener.go:599-654 | rows received before, of which each key occurs first as in the transaction, make no difference to its entries |
| CoalescedStore.PrefixAlike | pg2buffer/buffered_listener.go:599-654 | this is so for first rows of the transaction, received any number of times |
| Listener.DemuxExact | pg2buffer/buffered_listener.go:272-347 | for every legal interleaving each commit sends one request with the coalesced rows of its own transaction, each abort none |
| Listener.OneRequestPerCommit | pg2buffer/buffered_listener.go:280-328 | as many requests as commits |
| Listener.CarriedEntries | pg2buffer/buffered_listener.go:796-838 | one entry for each row key of the transaction, with offsets 0..n-1 |
| Listener.CacheExact | pg2buffer/buffered_listener.go:272-403 | for every message sequence, legal or not, what is kept under an xid is the coalescing of exactly the readable rows that carried it since its last commit or abort |
| Listener.StreamCommitSends | pg2buffer/buffered_listener.go:313-328 | hence a streamed commit sends those rows, whatever came before |
| Listener.SubtransactionRowIsLost | pg2buffer/buffered_listener.go:313-403 | a row with another xid makes no difference to the request the commit of the stream sends, whatever came before |
| Listener.StreamCarriesAllExactly | pg2buffer/buffered_listener.go:296-356 | a streamed commit carries all rows of its blocks if and only if each of them has its xid |
| Listener.LosesARow | pg2buffer/buffered_listener.go:296-356 | a stream whose only row is of a subtransaction, and a commit that sends nothing of it |
| ListenerReconnect.ReconnectSends | pg2buffer/buffered_listener.go:272-403 | a session after a reconnect inside transactions sends what it would have sent on its own, although the listener keeps what it had received of them |
| ListenerReconnect.CarriedAfter | pg2buffer/buffered_listener.go:599-654 | what is kept under an xid is what is left of earlier sessions followed by the rows of this one |
| ListenerReconnect.LegalSelfContained | pg2buffer/buffered_listener.go:272-403 | legal sessions name the relations and transactions they rely on, as this needs |
| BufferedListener.TxList.Add | pg2buffer/buffered_listener.go:105-108 | appends an element and its key |
| BufferedListener.TxList.MoveKeyToEnd | pg2buffer/buffered_listener.go:110-117 | moves the element of a key to the end; an unknown key changes nothing |
| BufferedListener.TxList.Append | pg2buffer/buffered_listener.go:621-645 | refines one step of coalescing |
| BufferedListener.TxList.Entries | pg2buffer/buffered_listener.go:801-829 | entries in list order with offsets 0..n-1 |
| BufferedListener.PGBufferedListener.OnTxBegin | pg2buffer/buffered_listener.go:272-277 | sets the current transaction |
| BufferedListener.PGBufferedListener.OnTxCommit | pg2buffer/buffered_listener.go:280-294 | sends the current transaction under its end LSN, or nothing when there is none |
| BufferedListener.PGBufferedListener.OnStreamCommit | pg2buffer/buffered_listener.go:313-328 | sends the streamed transaction under its commit LSN |
| BufferedListener.PGBufferedListener.OnStreamAbort | pg2buffer/buffered_listener.go:331-339 | forgets the transaction and sends nothing |
| BufferedListener.PGBufferedListener.OnRow | pg2buffer/buffered_listener.go:350-403 | adds the row to its transaction; an unknown relation or unreadable tuple is an error that changes nothing |
| RowKeys.NewRowIs | pg2buffer/buffered_listener.go:626-641 | a decoded row keeps its table, primary key, kind and tuples, under the key of table and primary key |
| RowKeys.SameKeyExactly | pg2buffer/buffered_listener.go:626 | two rows share a key if and only if they agree in table and primary key, or one table's name continues the other and the rest fits |
| RowKeys.TablesApartExactly | pg2buffer/buffered_listener.go:626 | rows of two tables never share a key if and only if neither name continues the other past the separator |
| RowKeys.CarriedByRow | pg2buffer/buffered_listener.go:796-838 | the entries of a transaction, one for each table and primary key in the order of the last rows, with the tuple of the last row, kind and previous tuple of the first, and rising offsets |
| RowKeys.CommitSendsByRow | pg2buffer/buffered_listener.go:280-328 | for every legal interleaving a commit sends exactly these for the rows of its own transaction, under its LSN, xid and time |
| RowKeys.TablesMeet | pg2buffer/buffered_listener.go:620-633 | rows of two tables that become one entry |
| CommitKeys.KeysOrdered | pg2buffer/buffered_listener.go:280-328 | tracked LSNs never decrease in WAL order and coincide exactly for a streamed record that starts where an ordinary one ends |
| CommitKeys.AllTakenInExactly | pg2buffer/buffered_listener.go:280-328 | over every run that adds the transactions of the WAL in order, with whatever is sent again after reconnects, the tracker takes in all of them if and only if no two commit records meet that way |
| CommitKeys.SentKeyed | pg2buffer/buffered_listener.go:280-328 | the requests the listener sends for any message sequence carry these LSNs, in the order of the commits |
| CommitKeys.ListenerTakenInExactly | pg2buffer/buffered_listener.go:280-328 | listener and tracker together, with reconnects: every transaction of the WAL is taken in if and only if no two commit records meet that way |
| CommitKeys.CollisionDrops | pg2buffer/buffered_listener.go:280-328 | a run that takes in one of two colliding transactions |
| SnapshotRanges.TilesPartition | snapshot/manager.go:1256-1294 | every tuple id of the planned blocks lies in exactly one range, every other in none |
| SnapshotRanges.SplitCtidRange | snapshot/manager.go:1256-1271 | tiles the table with as many ranges as were allocated |
| SnapshotRanges.SplitCtidRangeBetween | snapshot/manager.go:1273-1294 | tiles the bounds, or fails exactly on reversed bounds |
| SnapshotRanges.BlocksPerBatchLeast | snapshot/manager.go:1225-1249 | the least positive b with b times the estimated rows at least the batch size times the blocks; 1 without estimate or batch size, 0 without blocks |
| SnapshotRanges.PlanFromBounds | snapshot/manager.go:1060-1096 | a zero estimate gives one covering range; the bounds are covered if and only if the estimate is zero or there are blocks |
| SnapshotRanges.PlanCtidRanges | snapshot/manager.go:1098-1109 | the whole heap is tiled whatever the estimate |
| SnapshotWorker.ProcessTableRange | snapshot/worker.go:201-268 | batches in order are the rows, all but the last full, offsets from 0; on an error a prefix, which includes the last batch when only its report failed |
| SnapshotWorker.SendBatch | snapshot/worker.go:206-221 | a batch is handed over before it is reported, so a failed report leaves it sent |
| LsnAllocator.StepKeeps | snapshot/worker.go:40-61 | every atomic step keeps the allocator's invariant and never lowers the maximum |
| LsnAllocator.AllocatorExact | snapshot/worker.go:35-65 | under every interleaving LSNs are distinct and the published maximum is that of the submitted ones |
| SnapshotProgress.SnapshotProgressTracker.Ack | snapshot/progress_tracker.go:50-70 | settles every table and names exactly those completed by the call |
| SnapshotProgress.SnapshotProgressTracker.MarkStarted | snapshot/progress_tracker.go:72-84 | the table is in progress; an unknown one is ignored |
| SnapshotProgress.SnapshotProgressTracker.Add | snapshot/progress_tracker.go:86-119 | rows are added and reported, with the total, at the configured share |
| SnapshotProgress.ReportsExactly | snapshot/progress_tracker.go:86-119 | over all calls for a table rows are summed up, and a call reports if and only if the rows since the last report have reached the configured share, or there is none |
| SnapshotProgress.SnapshotProgressTracker.CompleteTask | snapshot/progress_tracker.go:121-138 | one more task done, and settled |
| SnapshotProgress.SnapshotProgressTracker.MarkDispatched | snapshot/progress_tracker.go:140-158 | the task count is known, and settled |
| SnapshotProgress.SnapshotProgressTracker.AddMaxLsn | snapshot/progress_tracker.go:160-179 | the largest batch LSN, and settled |
| SnapshotProgress.CompletedExactly | snapshot/progress_tracker.go:50-179 | a started table is Completed exactly when dispatched, all tasks done and its batches all acknowledged, and then stays so |
| SnapshotDelivery.CompletedArrivedExactly | snapshot/worker.go:206-221 | over every run of allocator, tracker and reports together, all batches of a completed table were taken in and acknowledged if and only if none found the watermark at or above its LSN when it was added |
| SnapshotDelivery.OneWorkerArrives | snapshot/manager.go:472-480 | with one worker every batch of a completed table was taken in and acknowledged |
| SnapshotDelivery.TwoWorkersLoseABatch | snapshot/manager.go:472-480 | a run of two workers that loses a batch of a completed table |
| OffsetTracker.AcknowledgeSimulates | offsettracker/offset_tracker.go:123-149 | acknowledging agrees with a tracker that throws nothing away |
| OffsetTracker.AddSimulatesExactly | offsettracker/offset_tracker.go:90-120 | adding keeps the coupling with it if and only if it does not bring back a thrown-away watermark |
| OffsetTracker.MaxSimulates | offsettracker/offset_tracker.go:158-204 | for every threshold the answer is the largest offset up to which everything is acknowledged |
| OffsetTracker.CompactionInvisible | offsettracker/offset_tracker.go:158-204 | the same calls return the same answers whenever compaction happens |
| OffsetTracker.AnswersNeverDecrease | offsettracker/offset_tracker.go:158-204 | answers never decrease over any calls, also when a watermark is added again |
| OffsetTracker.FromTheStart | offsettracker/offset_tracker.go:90-204 | both of a new tracker: its answers never decrease, and do not depend on when it compacts unless a thrown-away watermark is added again |
| OffsetTracker.FewKept | offsettracker/offset_tracker.go:158-204 | over any calls fewer acknowledged offsets than the threshold are kept below the place where the next scan starts |
| OffsetCompaction.ReaddedHoldsBack | offsettracker/offset_tracker.go:96-117 | after a thrown-away watermark is added again, every later answer is that watermark until it is acknowledged again |
| OffsetCompaction.CompactionShowsExactly | offsettracker/offset_tracker.go:90-204 | of two trackers with one history, the second of which still knows its watermark, some later calls get different answers after an add if and only if the first one threw the added offset away |
| OffsetCompaction.CompactionShows | offsettracker/offset_tracker.go:158-204 | the same calls from the start, with two thresholds, get different answers |
| OffsetTracker.Tracker.AddWithSubOffsets | offsettracker/offset_tracker.go:90-120 | refines the value form, with the answer for ignored, known and new offsets |
| OffsetTracker.Tracker.AcknowledgeWithSubOffsets | offsettracker/offset_tracker.go:123-149 | refines the value form and tells whether the offset is acknowledged |
| OffsetTracker.Tracker.MaxAcknowledged | offsettracker/offset_tracker.go:158-204 | refines the value form for every threshold |
| OrderedMaps.NewKeyMap | keymap/key_map.go:9-22 | each key leads to its last position |
| OrderedMaps.PairsCount | orderedmap/ordered_map.go:176-188 | Iter yields one pair for each set slot, also when a key has two slots |
| OrderedMaps.OrderedMap.Set | orderedmap/ordered_map.go:36-51 | sets the slot of the key and keeps the size equal to the set slots; an unknown key is a panic |
| OrderedMaps.OrderedMap.Get | orderedmap/ordered_map.go:53-63 | the value of the slot of the key, if set |
| OrderedMaps.OrderedMap.Iter | orderedmap/ordered_map.go:176-188 | the set columns in key order, as many as Size says |
| OrderedMaps.OrderedMap.Clear | orderedmap/ordered_map.go:190-198 | no slot is set |
| RedisCommand.BuildCommand | pg2redis/redis_writer.go:662-693 | the two loops over the array refine the fill pass |
| RedisArguments.RenderedExactly | pg2redis/redis_command.go:27-160 | what each kind of argument stands for, said of the columns: set columns in key order or as asked for, with their values, the commit time, JSON of them, the difference to the previous value, the joined template; with the exact conditions for a panic and a JSON error |
| RedisArguments.CommandIs | pg2redis/redis_writer.go:662-693 | a command that is built is the name followed by what each argument stands for, in order |
| RedisArguments.FailsAt | pg2redis/redis_writer.go:680-687 | the first argument that fails decides, if what comes before it fits |
| RedisArguments.PairsAre | orderedmap/ordered_map.go:176-188 | the pairs are exactly the set columns in key order with their values |
| RedisArguments.LookupHas | orderedmap/ordered_map.go:53-63 | a column's value is that of the last position with its name, if set |
| RedisCommand.RenderAllLength | pg2redis/redis_command.go:27-160 | how many pieces the arguments have, against the size pass |
| RedisCommand.BuilderSoundExactly | pg2redis/redis_writer.go:662-693 | the result is the name followed by all renderings if and only if the pieces fit, otherwise it runs past the array |
| RedisCommand.CrashExample | pg2redis/redis_writer.go:662-693 | a row and a pattern with which the builder runs past its array |
| RedisCommand.SafeUse | pg2redis/redis_command.go:107-123 | the pieces fit when no json star precedes a star argument, or no commit time is added |
| SqsWriter.Worker.OnEntry | pg2sqs/sqs_writer.go:219-248 | for each queue flushed batches followed by the buffer are the entries received in order; a full buffer is flushed at once |
| SqsWriter.Worker.OnTimer | pg2sqs/sqs_writer.go:197-205 | keeps that and empties every buffer unless a submission fails |
| SqsWriter.Worker.TryFlushBatch | pg2sqs/sqs_writer.go:186-195 | moves one buffer to the flushed batches |
| SqsWriter.FlushBatch | pg2sqs/sqs_writer.go:448-571 | every entry of the batch is in exactly one response, once; fatal exactly on an unknown or repeated id |
| SqsWriter.ProcessFailures | pg2sqs/sqs_writer.go:573-625 | the failed entries in order, or an unknown id |
| CircuitBreaker.CircuitBreaker.Run | circuitbreaker/circuit_breaker.go:88-143 | outside Closed nothing runs before the next attempt, and a cancelled wait changes nothing |
| CircuitBreaker.CircuitBreaker.WaitUntilNextAttempt | circuitbreaker/circuit_breaker.go:222-242 | a wait that is not cancelled ends at or after the next attempt, from the duration given to the timer |
| CircuitBreaker.CircuitBreaker.FailInClosed | circuitbreaker/circuit_breaker.go:145-168 | the first error only starts the window; a late one resets it |
| CircuitBreaker.CircuitBreaker.FailInHalfOpen | circuitbreaker/circuit_breaker.go:209-220 | opens at the threshold, otherwise postpones |
| CircuitBreaker.ThresholdsHold | circuitbreaker/circuit_breaker.go:92-220 | over every run the error count is at the thresholds outside Closed |
| CircuitBreaker.OpenedCloses | circuitbreaker/circuit_breaker.go:102-143 | Opened returns to Closed only through two consecutive successful executions |
| CircuitBreaker.TripsExactly | circuitbreaker/circuit_breaker.go:145-168 | over every run from the start the breaker stays closed if and only if the failures never fill a window, and meanwhile counts those of the window |
| CircuitBreaker.TripsTogether | circuitbreaker/circuit_breaker.go:145-168 | n failures within the interval after the first make it leave Closed if and only if n is at least 2 and at least the configured number |
| CircuitBreaker.OpensExactly | circuitbreaker/circuit_breaker.go:209-220 | failing executions outside Closed are all counted, and it is opened if and only if the count has reached the configured number |
| CircuitBreaker.SuccessCloses | circuitbreaker/circuit_breaker.go:92-143 | a success closes a half opened breaker, makes an opened one half opened with its count, and leaves a closed one alone |
| CircuitBreaker.TwoSuccessesClose | circuitbreaker/circuit_breaker.go:92-143 | two in a row close it with nothing left counted |
| CircuitBreaker.Spacing | circuitbreaker/circuit_breaker.go:180-242 | outside Closed the next execution starts when it is called or when the pause of the state is over, whichever is later, hence after the shorter configured pause |
| LicenseCodec.MarshalBinary | licensemanager/license.go:68-110 | the laid-out bytes when the total fits in 32 bits |
| LicenseCodec.UnmarshalLicense | licensemanager/license.go:112-125 | refines reading field by field, with short data as a panic |
| LicenseCodec.LayoutRoundTrip | licensemanager/license.go:140-170 | reading the layout gives back the license, and the stored total is the length |
| LicenseCodec.LayoutFields | licensemanager/license.go:68-110 | where each field is in the bytes |
| LicenseCodec.MostSignificantFirst | licensemanager/license.go:80-108 | numbers have their most significant byte first |
| LicenseCodec.VersionDecides | licensemanager/license.go:112-125 | the first two bytes decide between this form, the JSON form and no license |
| LicenseCodec.RoundTrip | licensemanager/license.go:68-125 | the round trip holds exactly for licenses whose total fits in 32 bits |
| LicenseCodec.LayoutInjective | licensemanager/license.go:68-110 | no two licenses share an encoding |

## Left out

- WriteQueues.WriteQueue.Push: the count is a natural number; wrap-around of the 64-bit counter, waiting on the condition variable and `WaitUntil`/`Sum` are not modelled.
- TrackerInvariant.AckIdKeeps: acknowledging the last offset and releasing are one step here, two locked sections in the source; between them only pops and attempts to queue can run, which hold no lock of the tracker, and `TrackerGap.GapHarmless` shows that their outcome is the same.
- Tracker.PGBufferedLSNTracker.Add: the tracking queue is a sequence in this class and its insertion the linear reference, to which `PushBefore` is proved equal; `TrackingQueues.TrackingQueue` composes the linked queue with the tracked writes. `AddEmpty` is not modelled.
- WriteQueues.WriteQueue.PopUntil: the predicate has no effects; the tracker's callback, which releases entries, is `TrackingQueues.TrackingQueue.PopAcknowledged`.
- CoalescedStore.StoredExactly: the store is one in which inserts and updates set a key and deletes remove it; configured commands and conditions are not modelled.
- BufferedListener.TxList.Add: only for a key that is not in the list, which is how `Append` calls it; a second element under one key is not modelled.
- Tracker.PGBufferedLSNTracker.OnRetryTimer: the timing wheel is the collection of waiting timers; backoff lengths, jitter and rounding are not modelled.
- Replicator.PGReplicator.SendStandBy: one past the largest 64-bit LSN is not modelled as a wrap-around.
- SnapshotRanges.BlocksPerBatchLeast: the 64-bit product of batch size and blocks does not overflow.
- SnapshotRanges.SplitCtidRange: a table has at most 2^32 blocks, PostgreSQL's own limit.
- RedisCommand.BuildCommand: values, JSON and number formatting are parameters; 32-bit lengths do not wrap; how a pattern is split into arguments is not modelled.
- SqsWriter.Worker.OnTimer: a batch whose submission failed counts as flushed; the error is handled outside.
- Everything after `Stop`, coordinated shutdown and heartbeat messages.
- Connections, SQL text, timeouts, retries of connections, logging, statistics and metrics.
- Value decoding, JSON encoding, primary-key construction and relation caching in the listener.
- Persisting snapshot state, estimates and the empty-query probes of the snapshot planner.
- The Redis transaction pipeline and its all-or-nothing responses.
- License signing, encryption and the JSON license form.
- Configuration loading, migrations and the example applications.
