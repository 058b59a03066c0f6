# Verified model of graphile_worker_rs

This project models the hard core of graphile_worker_rs, a job queue on PostgreSQL, and
proves what it promises over every input, every run and every interleaving.

* **Job tables** (`JobTable`): the jobs and job_queues tables and the statements that claim,
  return, fail and complete jobs. One SQL statement is one atomic transition.
* **Local queue** (`LocalQueue*`): the prefetching queue of a worker as a step machine. Any
  number of queues of one worker come and go and share the claim coordinator and the task
  details; fetch loops, `get_job` callers, TTL timers and release calls are tasks; a step is
  what a task does between two suspension points. Futures can be dropped wherever they can be
  suspended, statements can lose their answers or take effect late, after their caller has
  gone on, and other workers run any statements in between, completions of jobs they have
  lost included. `LocalQueueLocks`,
  `LocalQueueLife` and `LocalQueueClaims` hold one part of the invariant each,
  `LocalQueueSafety` puts them together, `LocalQueueTheorems` (claims), `LocalQueueRelease`
  and `LocalQueueProgress` (deadlock freedom) draw the conclusions, and `LocalQueueWitness`
  gives executions for the negative ones.
* **Cron** (`Cron`, `CronRunner`): the scheduling statement under any number of runners, and
  one runner through registration, backfill and live ticks, with crashes, rollbacks and lost
  answers at every statement.
* **Claim queries** (`FlagFilter`, `Identifier`, `QueryCache`): the generated flag clause as
  syntax with PostgreSQL's three-valued meaning, identifier escaping against PostgreSQL's
  reading rules, and the per-thread query cache over any call history.
* **Batcher and wakeups** (`Batcher`, `BatchFlush`, `QueueWakeup`): the background batcher
  with its channel, its shutdown and the direct path of rejected requests, the failure flush
  with its per-job fallback amid anybody's statements, and the release hints with the
  notifier under them.
* **Smaller cores**: concurrent migration runners and the migration list (`Migrations`), the
  crontab parser (`CrontabParser`), and the two retry loops (`SqlRetry`).

Code that is a loop over local variables is a method proved against a specification
(`Clause`, `Bind`, `PushParams`, `BackfillPlan`, `EscapeIdentifier`, `Construct`,
`RunFallback`, `PersistFailures`, `Announce`, `FlushFailures`, `SortByNumber`,
`SortAndValidate`, `Run`, `ReturnJobsWithRetry`), the query cache is a class, and code whose point is interleaving is a step relation over explicit state.

## Where the code does less than one might expect

Each of these is stated as a lemma, with the exact condition beside it.

* `get_job` can be cancelled after it took a job and before it returned it: in `set_mode` after
  the last cached job was popped, or when the direct claim has been answered. The job then
  stays locked and no cache, pending list or caller has it (`DroppedGetJobStrands`, with an
  execution in `PoppedJobIsLost`); these are the only points (`DroppableHolding`), and besides
  them only statements without an answer, dropped queues and late claims of a job that is being
  returned strand a job (`ClaimsConserved`).
* A statement that takes effect late can unlock a job that the same worker has claimed again:
  the per-job fallback of a failure batch whose answer was lost, or a completion or return
  whose future was dropped. Completions check no owner, so another worker whose handler was
  robbed of a job deletes it under this one. A step hits a job when it takes it in one of these
  ways while the worker relies on it, and in no other way does a job the worker goes on relying
  on lose its lock (`HitExactly`, `LateHarmlessExactly`; for the flush alone
  `FallbackHarmlessExactly`).
  Executions are in `ReclaimedJobIsRobbed` and `StrayCompletionReached`. The theorems on
  ownership, places and conservation hold job by job: for every job that was not hit, and
  again for one that was, once the worker has no trace of it left.
* A completion of a job its sender has lost may leave the job's named queue locked without a
  job or open it under another one. A named queue stays serial exactly as long as no such
  completion has spoilt it (`SerialThroughout`; for all workers' statements alone
  `QueuesStaySerial`). What other workers complete never frees a queue that this worker holds;
  only its own completion of a lost job opens a queue under another job of its own
  (`ExecutesSole`). The worker owns all its jobs and their named queues throughout an execution
  if and only if no step hits a job or opens a queue so (`OwnedThroughout`). Locks, permits,
  release and deadlock freedom hold regardless.
* A release leaves a permit exactly when a TTL return that overlapped it still has it or was
  cancelled while waiting for the cache (`PermitAfterRelease`, with an execution in
  `PermitOutlivesRelease`). `release` itself is terminal either way.
* PostgreSQL rejects an empty quoted identifier and reads only the first 63 bytes of a long
  one, so escaping round-trips exactly for names that it can hold (`EscapedReadsBack`), and
  schema names that share those bytes name the same tables (`LongSchemasShareTables`).
* A cron start that falls exactly on a minute boundary covers that minute neither by backfill
  nor live (`MinutesPartition`). Minutes are added exactly once if every start is timely
  (`ExactlyOnce`), and a start that is not timely misses (`UntimelyStartMisses`). Several
  runners together leave no minute out exactly when no tick of any of them overtakes one that
  is still missing (`GaplessExactly`).
* Cancelling the only waiting `next` call of the queue wakeup after it was notified drops the
  notification while the hint count stays positive (`CancelledNextLosesTheWakeup`); a drop
  leaves the count without a notification in exactly that situation (`DropLosesExactly`).

## Model

| member | source | states |
|---|---|---|
| FlagFilter.Clause | crates/graphile-worker-queries/src/flag_filter.rs:78-100 | The clause built by counting ordinals up depends on the filter's shape only and uses one ordinal per configured part |
| FlagFilter.Bind | crates/graphile-worker-queries/src/flag_filter.rs:102-114 | Binding appends exactly the configured arrays, as many as the clause has ordinals |
| FlagFilter.PushParams | crates/graphile-worker-queries/src/batch_get_jobs.rs:97-106 | The pushed vector is worker, tasks, limit if any, the filter's arrays and the clock last |
| FlagFilter.ClauseMeansAdmits | crates/graphile-worker-queries/src/get_job.rs:51-95 | For every filter, flags value, limit and clock the clause over the bound parameters never raises, keeps a row exactly when the documented rule admits it, and the clock's ordinal names the clock |
| FlagFilter.AllowlistMeans | crates/graphile-worker-queries/src/flag_filter.rs:93-98 | The allowlist case holds for null flags or an object whose keys are all listed, and never raises |
| JobTable.WinnersExact | crates/graphile-worker-queries/src/batch_get_jobs.rs:78-84 | Every unnamed candidate wins; every queue with a candidate has one winner, the least by priority, run_at and id |
| JobTable.ClaimExact | crates/graphile-worker-queries/src/batch_get_jobs.rs:64-92 | A claim locks only eligible jobs and their queues, adds one attempt to each, leaves every other row unchanged, takes nothing from any owner and keeps named queues serial |
| JobTable.ReturnExact | crates/graphile-worker-migrations/src/sql/m000022.sql:274-312 | A return unlocks exactly the listed jobs the worker still holds and their queues; every other owner keeps job and queue |
| JobTable.FailExact | crates/graphile-worker-queries/src/fail_job/single.rs:29-75 | A failure lets go of exactly that job and its queue if the worker still holds it, and of nothing else |
| JobTable.FailFrees | crates/graphile-worker-queries/src/fail_job/single.rs:60-75 | A failed job and its named queue are open to everybody afterwards |
| JobTable.CompleteAny | crates/graphile-worker-queries/src/complete_job.rs:19-55 | A completion deletes the job whoever holds it, changes no other row and no other lock, and keeps named queues serial exactly when the holder completes a named job as named, or the job is unlocked and its queue not in use by the worker |
| JobTable.CompleteExact | crates/graphile-worker-queries/src/complete_job.rs:19-55 | Completing a held job removes it, frees exactly its queue and disturbs no other lock |
| JobTable.ReturnUndoesClaim | crates/graphile-worker-migrations/src/sql/m000022.sql:289-305 | Returning a whole claim restores the tables exactly: attempts, locks and queues |
| JobTable.ReturnIdempotent | crates/graphile-worker-migrations/src/sql/m000022.sql:289-311 | A repeated return changes nothing |
| JobTable.ExecutesKeeps | crates/graphile-worker-queries/src/job_query_helpers.rs:3-41 | No statement takes a job or queue from a worker that did not send it, or locks one for it, except that a completion deletes its own job whoever holds it; a statement keeps all named queues serial exactly when it spoils none |
| JobTable.ExecutesSole | crates/graphile-worker-queries/src/complete_job.rs:19-55 | A worker's locked jobs, at most one per named queue, keep their queues through everybody's statements, except exactly when its own completion of a job it has lost opens the queue under another job of its own |
| JobTable.QueuesStaySerial | crates/graphile-worker-queries/src/complete_job.rs:19-55 | Over every interleaving of all workers' statements, completions of lost jobs included, a named queue has at most one locked job and is locked with it if and only if no committed completion spoils it |
| LocalQueueLocks.LocksKept | src/local_queue/claims.rs:29-41 | Every step keeps clashing locks from being held together |
| LocalQueueLocks.PermitKept | src/local_queue/claims.rs:35-51 | Every step keeps the return count equal to the queues with a permit, and pending jobs covered by a permit |
| LocalQueueLife.LifeKept | src/local_queue/release.rs:110-151 | Every step keeps what release relies on: mode, loop completion and cleanup agree, and a released queue's loop will notice |
| LocalQueueClaims.ClaimedAreNew | src/local_queue/fetch.rs:52-83 | A claim under the fetch guard returns no job that this worker still has pending, cached, in flight, handed out or stranded, if that job is locked wherever it has it |
| LocalQueueClaims.GuardMeansNoPending | src/local_queue/claims.rs:29-33 | While any fetch guard is held no queue of the worker has a permit or pending jobs |
| LocalQueueClaims.ReturnKeeps | src/local_queue/release.rs:69-102 | A return statement, whenever it takes effect, keeps each job in one place, locked outside the pending lists and unlocked in its own |
| LocalQueueSafety.NextKeeps | src/local_queue/mod.rs:74-131 | Every step of every task, timer, caller, handler, late statement or other worker, and every queue that comes or goes, keeps locks, permits and lives in order and every job it does not hit; it keeps a serial named queue serial, and the worker's jobs in possession of theirs, exactly when it does not spoil or open the queue |
| LocalQueueSafety.Reachable | src/local_queue/mod.rs:74-131 | In every state of every execution locks, permits and lives are in order, and so is every job the worker was not robbed of, every named queue that was not spoilt, and the worker's hold on every named queue it did not open under its own job |
| LocalQueueSafety.LateKeeps | src/local_queue/release.rs:68-92 | A late return, claim, completion or failure report keeps every job locked and in one place that it does not list or that the worker does not rely on, and only a late completion can spoil a named queue |
| LocalQueueSafety.DropKeeps | src/local_queue/claims.rs:43-51 | Dropping a queue gives its permit back and forgets exactly its locked jobs |
| LocalQueueTheorems.ClaimsStayOwned | src/local_queue/release.rs:69-102 | In every execution a job in a cache, in flight, with a handler or stranded is locked by this worker unless it was robbed of that job and has had a trace of it ever since, and its named queue is locked with it unless the worker opened that queue under its own job |
| LocalQueueTheorems.LateHarmlessExactly | src/batcher/failure/persistence.rs:35-47 | When a late statement or one of another worker takes effect, a job the worker relies on stays relied on, and stays locked if and only if the late statement does not list it and the other worker does not complete it |
| LocalQueueTheorems.HitExactly | src/local_queue/release.rs:127-129 | Over any step whatsoever, a job the worker relies on before and after it loses its lock if and only if the step is a late failure, completion or return that lists it or another worker's completion of it |
| LocalQueueTheorems.OwnedThroughout | src/batcher/failure/persistence.rs:35-47 | In every state of an execution the worker has locked all its jobs and holds the named queues of all it has locked, if and only if no step hits a job it relies on and no completion of its own opens a named queue under another of its jobs |
| LocalQueueTheorems.SerialThroughout | crates/graphile-worker-queries/src/complete_job.rs:19-55 | A named queue is serial in every state of an execution if and only if no completion, of this worker or another one, on time or late, spoilt it |
| LocalQueueTheorems.SpoilerWasRobbed | crates/graphile-worker-queries/src/complete_job.rs:19-55 | A report of this worker's handler that takes effect on time spoils a named queue only by completing a job the worker was robbed of |
| LocalQueueTheorems.FallbackRobsHandler | crates/graphile-worker-queries/src/fail_job/single.rs:60-75 | A fallback that finds its job running again takes the job, and the queue unless it was opened before, from the running handler |
| LocalQueueTheorems.StrayCompletionRobs | src/batcher/completion/persistence/queued.rs:20-32 | In every reachable state another worker can complete a job this worker relies on: the row is gone, and its named queue is spoilt, locked by this worker without a job of its own |
| LocalQueueTheorems.RetriedReturnIsHarmless | src/local_queue/release.rs:15-46 | A return statement, first or retried, changes no row of a job outside the pending lists that the worker was not robbed of and none of another worker, and takes neither job nor queue from them |
| LocalQueueTheorems.ExactlyOnePlace | src/local_queue/jobs.rs:53-85 | Every job the worker has locked is in exactly one place, unless the worker was robbed of it before and has had a trace of it ever since |
| LocalQueueTheorems.ClaimsConserved | src/local_queue/jobs.rs:26-85 | Job by job, unless robbed: a claim leaves its places only by an acknowledged return, a reported handler, or, when stranded, a late statement or another worker's completion; it is stranded exactly by an unanswered claim or report, a dropped queue, a future dropped while holding it, or an acknowledged return under which a late claim had locked it again |
| LocalQueueTheorems.RelockedExactly | src/local_queue/fetch.rs:52-83 | A job counts as locked again exactly when an earlier late claim took it while its return was pending |
| LocalQueueTheorems.DroppableHolding | src/local_queue/jobs.rs:72-81 | The suspension points at which dropping a future loses claims, exactly |
| LocalQueueTheorems.DroppedGetJobStrands | src/local_queue/jobs.rs:72-81 | At each of those points, in every reachable state and for every job the worker was not robbed of, the drop is possible and leaves the job locked and nowhere else |
| LocalQueueTheorems.CoordinatorExcludes | src/local_queue/claims.rs:29-51 | The return count equals the number of live permits, and no fetch guard coexists with a permit or with the write lock |
| LocalQueueRelease.ReleasedForever | src/local_queue/state/mode.rs:10-23 | The released mode, and a completed release, last until the queue is dropped |
| LocalQueueRelease.ReleaseOkMeansFinished | src/local_queue/release.rs:110-151 | A release that returns Ok leaves no fetch loop, no cached or pending job, no release and no return statement under way |
| LocalQueueRelease.FinishedForever | src/local_queue/release.rs:104-151 | After a release has returned Ok its queue stays cleaned up whatever callers and timers overlapped it |
| LocalQueueRelease.NothingPoppedWhileShut | src/local_queue/jobs.rs:66-72 | While a queue stays released or expired nothing is popped, cached jobs leave only to be returned, and whoever carries a popped job carried it before |
| LocalQueueRelease.NobodyAdmittedAfterRelease | src/local_queue/jobs.rs:26-32 | After a release no further direct claim gets past the mode check |
| LocalQueueRelease.HandOutsAfterRelease | src/local_queue/jobs.rs:13-85 | Every hand-out after a release is of a job popped before it, or of a direct claim that had read the mode before it |
| LocalQueueRelease.PermitAfterRelease | src/local_queue/release.rs:69-102 | After a release has returned its jobs the permit is there if and only if a TTL return holds the pending lock with it, or one was dropped waiting for the cache and no return has closed it since |
| LocalQueueRelease.QuietForever | src/local_queue/release.rs:69-82 | After a release with no return under way the permit stays dropped for good |
| LocalQueueRelease.StragglerKeepsPermit | src/local_queue/release.rs:74-82 | A TTL return dropped there after a finished release leaves its permit with nothing pending |
| LocalQueueWitness.PoppedJobIsLost | src/local_queue/jobs.rs:72-81 | Wherever a claim selects one job, an execution from the start fetches, caches and pops it and ends with it locked and in no place |
| LocalQueueWitness.PermitOutlivesRelease | src/local_queue/release.rs:49-82 | An execution from the start ends with a release completed, no task left, and a permit that stops all fetches of the worker |
| LocalQueueWitness.ReclaimedJobIsRobbed | src/batcher/failure/persistence.rs:35-47 | Wherever two claims are possible, an execution fetches, hands out and fails a job with the answer lost, claims it again, and then the fallback unlocks the claim |
| LocalQueueWitness.StrayCompletionReached | src/batcher/completion/persistence/queued.rs:20-32 | Wherever the claims are possible, an execution has another worker claim a job, fail it with the answer lost, claim it again and lose it to its own fallback; this worker claims it, and then the other worker's handler completes it: the row is gone and the named queue stays locked without a job of this worker |
| LocalQueueProgress.WaitsGoUp | src/local_queue/jobs.rs:26-32 | In every reachable state every edge of the wait-for graph, readers stopped by waiting writers included, goes up in one order: release, loop end, pending, claim, cache, mode read, mode write, task details, their replacement |
| LocalQueueProgress.WaitsForSomebody | src/local_queue/release.rs:113-139 | A task that cannot go on waits for a task that exists: a lock holder, a waiting writer, the fetch loop of a release, or the release that will notify it |
| LocalQueueProgress.NoDeadlock | src/local_queue/release.rs:110-151 | In every reachable state, from every task under way, the chain of tasks it waits for ends at one that has what it wants and can step, nobody being dropped |
| Cron.RoundUpIsNext | crates/graphile-worker-crontab-runner/src/utils.rs:20-29 | Rounding up gives the first whole minute strictly after the instant |
| Cron.RejectedExactly | crates/graphile-worker-crontab-runner/src/sql/schedule.rs:44-54 | A statement is rejected exactly when it repeats an identifier whose row it would write |
| Cron.ScheduleExact | crates/graphile-worker-crontab-runner/src/sql/schedule.rs:44-70 | A committed tick adds exactly the submitted identifiers whose last execution is earlier, and moves exactly their rows |
| Cron.AddedAtMostOnce | crates/graphile-worker-crontab-runner/src/sql/schedule.rs:44-70 | Under any number of runners each identifier and minute is added at most once, in ascending order, and last_execution never decreases |
| Cron.PassedOverForGood | crates/graphile-worker-crontab-runner/src/sql/schedule.rs:51-54 | A minute passed over by a later execution is never added by anyone |
| Cron.GaplessExactly | crates/graphile-worker-crontab-runner/src/sql/schedule.rs:44-70 | Any number of runners together add an item at every due minute from its registration to its last execution if and only if no tick of any of them overtakes a minute that is still missing |
| CronRunner.LargestFillExact | crates/graphile-worker-crontab-runner/src/backfill.rs:78-82 | The loop's start uses the largest fill among the known items |
| CronRunner.BackfillPlan | crates/graphile-worker-crontab-runner/src/backfill.rs:78-121 | The loop submits exactly the due items whose window holds the minute, in ascending minutes |
| CronRunner.WindowAsDocumented | crates/graphile-worker-crontab-runner/src/backfill.rs:92-106 | Everything within the fill period and not before the known instant is in the window; nothing before it, one second beyond the fill or from the start on is |
| CronRunner.MinutesPartition | crates/graphile-worker-crontab-runner/src/runner/mod.rs:121-150 | A whole minute is before the start, or live, or the start itself, which neither covers |
| CronRunner.RunnerReachable | crates/graphile-worker-crontab-runner/src/runner/mod.rs:90-152 | Through timely starts, crashes and lost answers nothing before the runner's position is ever owed |
| CronRunner.ExactlyOnce | crates/graphile-worker-crontab-runner/src/runner/mod.rs:104-152 | A live runner's items have been added at exactly their due minutes since registration, each once and in order |
| CronRunner.UntimelyStartMisses | crates/graphile-worker-crontab-runner/src/backfill.rs:84-120 | What a start leaves outside its window, or the minute of the start itself, is never added by that incarnation |
| Identifier.EscapeIdentifier | crates/graphile-worker-database/src/identifier/mod.rs:3-21 | The loop leaves a safe identifier alone and quotes any other one with every quote doubled |
| Identifier.EscapedIsSeen | crates/graphile-worker-database/src/identifier/mod.rs:3-40 | PostgreSQL stops exactly where an escaped identifier ends and sees its first 63 bytes, or rejects an empty one and one with a zero character |
| Identifier.EscapedReadsBack | crates/graphile-worker-database/src/identifier/mod.rs:3-40 | PostgreSQL reads an escaped identifier as the raw one if and only if that is not empty, has no zero character and fits into 63 bytes |
| Identifier.LongNamesCollide | crates/graphile-worker-database/src/identifier/mod.rs:3-21 | Names that share their first 63 bytes are read as one, and the empty name is rejected |
| Identifier.EscapedInjective | crates/graphile-worker-database/src/identifier/mod.rs:3-40 | Different raw identifiers escape differently |
| Identifier.QualifiedIsSeen | crates/graphile-worker-database/src/schema/mod.rs:25-31 | A qualified name reads as the schema PostgreSQL sees, a dot and the name it sees |
| QueryCache.Construct | crates/graphile-worker-queries/src/batch_get_jobs.rs:57-95 | The closure builds the query that the call's own schema, filter shape, clock and limit determine |
| QueryCache.Cache.FetchQuery | crates/graphile-worker-queries/src/fetch_query_cache.rs:18-38 | The answer equals what this call would construct; a hit leaves the cache alone, a miss adds one entry after clearing a full cache |
| QueryCache.KeyDecidesText | crates/graphile-worker-queries/src/fetch_query_cache.rs:9-30 | Calls with one key name the same raw schema and construct the same text |
| QueryCache.ServedSound | crates/graphile-worker-queries/src/fetch_query_cache.rs:18-38 | After any call history the cache has at most 128 entries and each is what a caller with its key would construct |
| QueryCache.PrivateTableExact | crates/graphile-worker-database/src/schema/mod.rs:33-35 | A private table's name names a table of the raw schema exactly when PostgreSQL can hold the schema's name |
| QueryCache.LongSchemasShareTables | crates/graphile-worker-database/src/schema/mod.rs:15-35 | Schemas that share their first 63 bytes have different texts that name the same tables |
| QueryCache.CachedAnswerServesItsCaller | crates/graphile-worker-queries/src/fetch_query_cache.rs:18-38 | After any history the answer names the caller's own tables exactly when PostgreSQL can hold the schema's name, and over the caller's parameters its ordinals name the caller's own worker, tasks, limit and clock, and its clause keeps exactly the rows the caller's own filter admits |
| Batcher.AcceptedExactlyOnce | src/batcher/shared.rs:32-101 | In every run each request is accepted or handed back; accepted ones are flushed once and in order in non-empty batches, all of them when the task has ended; a handed-back one gets one direct statement and is answered after it, unless its sender was dropped; the direct path wakes exactly for acknowledged named requests |
| Batcher.AnsweredOnce | src/batcher/failure/mod.rs:74-85 | A request sent once and answered is in exactly one flushed batch or one direct statement once the task has ended |
| Batcher.NothingAfterTheEnd | src/batcher/shared.rs:89-101 | After the task has ended the channel accepts nothing and nothing more is flushed |
| Batcher.ShutdownNeverStuck | src/batcher/shared.rs:43-82 | Once shutdown is signalled a live task always has a step |
| Batcher.ShutdownDrains | src/batcher/shared.rs:89-101 | After the signal the task takes a bounded number of steps whatever senders do, and then everything accepted has been flushed |
| BatchFlush.FailAllExact | crates/graphile-worker-queries/src/fail_job/batch.rs:71-90 | The batch statement lets go of exactly the listed jobs the worker holds |
| BatchFlush.FallbackHarmlessExactly | crates/graphile-worker-queries/src/fail_job/single.rs:29-75 | On any database a single failure statement changes nothing, and takes nothing from anybody, if and only if the worker does not hold the job then |
| BatchFlush.FallbackUnlocksReclaimed | src/batcher/failure/persistence.rs:35-47 | After a batch that took effect and a new claim of the job by the same worker, the fallback unlocks the claimed job and opens its queue |
| BatchFlush.FallbackLeavesNoTrace | src/batcher/failure/persistence.rs:35-47 | Whatever runs in between, the fallback leaves no trace as long as no statement that takes effect finds its job held |
| BatchFlush.PersistFailures | src/batcher/failure/persistence.rs:21-52 | With any statements of anybody before each single statement: a failure counts as persisted exactly when its batch or its own statement was acknowledged, and its job is unlocked at that moment |
| BatchFlush.FlushFailures | src/batcher/failure/mod.rs:121-152 | The wakeup counts exactly the persisted named failures and exactly the persisted ones are announced, in order |
| QueueWakeup.TakeIsSaturatingSum | src/queue_wakeup.rs:14-36 | In every run the count is the saturating sum of the wakes since the previous take, and a take returns exactly that |
| QueueWakeup.HintsAreKept | src/queue_wakeup.rs:14-36 | Hints delivered plus pending equal hints added up to saturation, and unless a losing drop happened a positive count has a permit, a notification, a wake or a take behind it |
| QueueWakeup.HintReachesNext | src/queue_wakeup.rs:26-36 | A backed count can be taken by some `next` call, which gets all of it |
| QueueWakeup.DropLosesExactly | crates/graphile-worker-runtime/src/notify/waiter.rs:56-92 | A cancelled waiter leaves the count unbacked exactly when it was the only one and had the only notification |
| QueueWakeup.CancelledNextLosesTheWakeup | crates/graphile-worker-runtime/src/notify/waiter.rs:56-92 | For every hint size a run in which a cancelled `next` leaves the hint without a notification and the next caller waiting |
| QueueWakeup.NextWakeBacksAll | src/queue_wakeup.rs:14-24 | The next wake stands behind old and new hints together |
| Migrations.MigrationsSerial | crates/graphile-worker-migrations/src/runner.rs:11-89 | Over every interleaving of runners with crashes and lost answers the recorded migrations are 1..k, each applied once and in order, one runner at a time; a finished runner has its list applied, and a refusal has a recorded breaking migration beyond the list |
| Migrations.CompatibleExact | crates/graphile-worker-migrations/src/runner.rs:91-119 | The revision check refuses exactly when a recorded breaking migration lies beyond the runner's list |
| Migrations.SortByNumber | crates/graphile-worker-migrations-macros/src/lib.rs:194 | Sorting by number gives a sorted permutation |
| Migrations.CompleteInPlace | crates/graphile-worker-migrations-macros/src/lib.rs:196-211 | In a sorted list of n migrations with all of 1..n present each stands at its own number |
| Migrations.SortAndValidate | crates/graphile-worker-migrations-macros/src/lib.rs:187-214 | Accepts exactly the permutations of 1..n and returns them in order; a duplicate error names a number that occurs twice, a gap error a missing number, or the number 0 where 1 was expected |
| CrontabParser.TimerSound | crates/graphile-worker-crontab-parser/src/nom_crontab_timer.rs:34-105 | Every accepted timer is in its fields' bounds with strictly increasing ranges, and the rest of the text is untouched |
| CrontabParser.TimerRoundTrip | crates/graphile-worker-crontab-parser/src/nom_crontab_timer.rs:86-105 | The text of any in-bounds timer parses back to it and leaves the suffix, if and only if nothing at the front of the suffix continues the last value or the list |
| CrontabParser.LineProgress | crates/graphile-worker-crontab-parser/src/nom_crontab.rs:43-52 | Every accepted line consumes something |
| CrontabParser.FileSound | crates/graphile-worker-crontab-parser/src/nom_crontab.rs:43-54 | A successful parse consumes the whole file with all timers in bounds; a failing one failed at the end of a line |
| CrontabParser.FileRoundTrip | crates/graphile-worker-crontab-parser/src/nom_crontab.rs:15-54 | A file of timers, comments and blank lines parses to exactly its timers in order with nothing left |
| SqlRetry.Run | crates/graphile-worker-database/src/retry.rs:39-54 | At most the allowed executions, all but the last retryable, the last outcome returned; when retryable errors precede the commit the statement took effect at most once, and exactly once on success |
| SqlRetry.ReturnJobsWithRetry | src/local_queue/release.rs:15-46 | At most twenty attempts with anything in between; Ok leaves none of the jobs held at that moment, an error comes after the twentieth |
| SqlRetry.ReturnHarmlessExactly | crates/graphile-worker-migrations/src/sql/m000022.sql:289-311 | A return changes nothing if and only if the worker holds none of the jobs then |
| SqlRetry.GivenBackOnce | src/local_queue/release.rs:68-92 | As long as the permit keeps the worker from claiming the jobs again, every attempt after the first effective one changes nothing |

## Left out

- Stale-worker recovery, heartbeats and force-unlock: they take locks away from live claims, so ownership is stated without them.
- The exact SQL text: statements are modelled by their effect, the flag clause by its syntax tree.
- Refetch delay, thresholds, their lock and the fetch-in-progress flag of the local queue: the fetch loop may rest or be woken at any time instead.
- The order among several writers that wait for one read-write lock: each of them may be first.
- Administrative statements on jobs locked for more than four hours (crates/graphile-worker-migrations/src/sql/m000022.sql:179, 195, 221 and 258): an edit may change such a row but neither deletes it nor drops its lock.
- Batches of completions in the local queue: a batch is its completions one by one, on time or late; completions have no fallback.
- The completion flush: its two group flags only decide which requests count.
- Backoff delays, jitter and clocks: delays are arbitrary; the cron model takes instants as integers, minutes as whole multiples and an item's schedule as a predicate.
- Fill periods beyond 32 bits of seconds: the fill is unbounded.
- SqlRetry.Run: which errors precede the commit is a premise on the environment.
- The list of SQL keywords: escaping is proved for every set of keywords.
- Task identifiers, options and payloads in the crontab parser: one tail parser stands for them.
- The event listener under the notifier and the packing of its counters into one word: a pending notification may be taken by any registered waiter.
- Migration scripts and the parsing of their files: a script is one effect that commits with its row.
- Database drivers, TLS, row decoding, hooks, builders, the admin interface and the command line.
