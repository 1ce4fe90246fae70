# Verified model of the job scheduler's core

A Dafny model of the Postgres-backed job protocol of `@scheduler/shared` and of the worker's claim, dispatch and
heartbeat loops. Jobs, executions, queues with cached counters, dead-letter rows and cron schedules form one database
value; every SQL transaction is one step of a state machine; any number of workers, callers and maintenance loops
interleave, and the clock never goes back.

| module | subject |
|---|---|
| `Lifecycle`, `Backoff` | the declared status table; retry delays over the reals |
| `Model`, `Rows` | the tables' rows; the effect of every statement group on one job with its executions and dead-letter row, and what all of them keep |
| `Database`, `Steps`, `Invariant` | the whole database, its joint invariant, the 21 transactions, and the proof that each keeps it |
| `Runs`, `Guarantees`, `Batches`, `Cron` | consequences: properties of every run, of every reachable state, of the row loops and of the promoter |
| `Records`, `Origins`, `Settings` | where what is stored comes from: along every run each row is what one identifiable step wrote; how inserts, batches and schedules fill a row; the settings of a queue |
| `Selection` | which rows a claim takes, by their columns, and that a retried job is among them at once |
| `Handlers` | how a worker loses a job and gets it back, and which attempt its reports settle |
| `Admission` | the claim split into lock, snapshot and commit, interleaved with everything else |
| `Drain` | progress: a schedule that finishes every job, from every good state |
| `Contracts`, `BatchInsert` | the frozen retry contract; keyed inserts and batches whose statements interleave with other transactions |
| `Witness`, `Incidents` | concrete runs from the empty database: every lifecycle edge, the cases in which a documented promise fails, a job that comes back to the worker that lost it, and the race without the lock |
| `Updates`, `Store`, `Queries`, `Maintenance` | the program's own form: a class of mutable tables, one method per transaction, statement by statement and loop by loop, proved against the state machine |
| `Worker`, `Heartbeat` | the worker's map of running jobs and its poll tick; the self-rescheduling heartbeat and the settings validation |

The methods of `Store.Tables` and `Queries` ask only that the foreign keys hold, state the whole new state as that of
the machine's operation (`Do`, `DoAll`, `Transact`, `Insert`, `FireAll`, ...), and keep a valid store valid where the
machine's step would be enabled. Where a
call of the program runs two statements or transactions and others may commit in between, the method takes the
database that the second one meets as a parameter.

Where code and documentation part, the model follows the code:

- The fence compares worker and lease time, not the attempt (`StaleHandlerPassesIffSameWorker`,
  `SettlesLaterAttemptIffClaimedAgain`, `StaleReportPasses`).
- The worker's map is keyed by job, so handlers in flight can outnumber its slots (`TickFitsIffCovered`, `SlotsOverrun`).
- A manual retry sets `max_attempts = attempts + 3`, described as bumping the ceiling; it can lower it (`RetryLowersCeilingIff`,
  `RetryCanLowerCeiling`).
- A manual retry takes the dead job's dedupe key back and can be refused by the partial unique index; the call then fails
  with the index's error, which its result type does not list (`RetrySucceedsIffKeyFree`, `RetryCanBeRefused`).
- `createBatch` is described as one transaction and is one per item (`CreateBatch`, `RepeatInBatch`).
- `cancelJob` is two autocommitted statements; in between `stat_queued` runs ahead (`CancelThenSettle`, `CountersExact`).
- The environment validation compares the heartbeat with the unrounded `LEASE_MS` (`EnvCheckSufficesIff`).
- The throw of `insertJob` that its comment calls unreachable is not: INSERT and lookup are two statements, and the
  holder may finish in between (`LookupThrowsIffReleased`, `RepeatCanBeCreatedOrThrow`).
- For the same reason a key repeated within a batch is not always skipped (`RepeatInBatch`).

The backoff results carry the condition that the cap is not negative. The API refuses a negative `max_delay_ms`
(packages/api/src/routes/queues.ts:24); the columns themselves have no CHECK (packages/shared/src/db/migrations.ts:74
and 152), so the condition rests on the API alone.

## Model

| member | source | states |
|---|---|---|
| `Rows.LegalKeepsRow` | packages/shared/src/queries/jobs.ts:86-123 | Locks, attempt budget, execution history and dead-letter row of one job stay in agreement under every statement group that can touch it |
| `Rows.StatusFollowsEdges` | packages/shared/src/domain/lifecycle.ts:11-23 | Every status change by any operation is an edge of the lifecycle table, although no query consults the table |
| `Witness.EveryEdgeIsTaken` | packages/shared/src/domain/lifecycle.ts:11-23 | Conversely, each edge of the table is taken by an enabled step from a state reached from the empty database |
| `Rows.ClaimFindsFreshAttempt` | packages/shared/src/queries/jobs.ts:103-116 | The attempt number a claim inserts is not in the history yet, so the unique index on job and attempt is not violated |
| `Rows.DeathFindsNoDlqRow` | packages/shared/src/queries/jobs.ts:282-298 | All callers of the terminal-failure path arrive with a running job without dead-letter row: the ON CONFLICT and already-dead branches are unreachable from them |
| `Rows.FenceExcludesReaper` | packages/shared/src/queries/jobs.ts:371-372 | Fence and reaper are never enabled on the same row at the same instant |
| `Rows.LeaseDecides` | packages/shared/src/queries/jobs.ts:152 | Of a held job: before its lease runs out only its own worker's reports pass, after it only the reaper comes, at that instant neither |
| `Rows.FenceImpliesRunning` | packages/shared/src/queries/jobs.ts:148-155 | The fence does not test the status, yet only ever lets a running job through |
| `Rows.StaleHandlerPassesIffSameWorker` | packages/shared/src/queries/jobs.ts:152 | A handler whose job was reclaimed and claimed anew passes the fence exactly if the new claimant is its own worker, and then settles the newer attempt |
| `Rows.RetryLowersCeilingIff` | packages/shared/src/queries/jobs.ts:786-792 | A manual retry leaves exactly three attempts, which lowers the ceiling exactly when more than three were left |
| `Witness.RetryCanLowerCeiling` | packages/shared/src/queries/jobs.ts:786-792 | A reachable state in which a manual retry lowers the ceiling |
| `Rows.MeasureNonnegative` | packages/shared/src/queries/jobs.ts:86-103 | The step measure of a job is never negative and zero exactly when the job is finished |
| `Rows.MeasureDrops` | packages/shared/src/queries/jobs.ts:201-218 | Every status change uses up at least one unit of the measure; a manual retry adds at most nine |
| `Rows.CountersMatchStatus` | packages/shared/src/queries/jobs.ts:117-123 | The counter arithmetic of each operation, clamps included, equals the change in its job's status class |
| `Database.DoKeepsInv` | packages/shared/src/queries/jobs.ts:143-310 | One operation keeps the joint invariant: keys, rows, counters, dedupe index, cron slots |
| `Database.ClampNeverFires` | packages/shared/src/queries/jobs.ts:117-123 | No GREATEST(..., 0) ever cuts anything off in a reachable state |
| `Database.CountersDetermined` | packages/shared/src/queries/queues.ts:291-299 | The cached counters are a function of the rest of the database |
| `Database.DoAllView` | packages/shared/src/queries/jobs.ts:374-401 | A batch treats every listed row from the state it had before the batch, and no other row |
| `Invariant.InitOk` | packages/shared/src/db/migrations.ts:82-98 | The empty database satisfies the joint invariant |
| `Invariant.StepKeepsInv` | packages/shared/src/queries/jobs.ts:59-847 | Every enabled step (21 kinds of transaction) keeps the joint invariant |
| `Invariant.DeleteTakesOnlyFinished` | packages/shared/src/queries/queues.ts:248-264 | The guarded queue delete cascades to finished jobs only |
| `Runs.ReachableInv` | packages/shared/src/queries/jobs.ts:59-847 | The joint invariant holds in every state of every run from the empty database, whatever interleaves |
| `Runs.StepOnJob` | packages/shared/src/queries/jobs.ts:59-847 | Every transaction leaves each job alone, deletes it with its queue, or applies one operation whose WHERE clause matched |
| `Runs.RunFollowsLifecycle` | packages/shared/src/domain/lifecycle.ts:11-23 | Along every run every status change is a lifecycle edge |
| `Runs.FinishedForGood` | packages/shared/src/domain/lifecycle.ts:16-18 | Completed and cancelled are absorbing along every run |
| `Runs.CompletesOnce` | packages/shared/src/queries/jobs.ts:148-155 | In any run at most one completion of a job passes the fence |
| `Runs.LostWorkerIsFenced` | packages/shared/src/queries/jobs.ts:148-155 | Once a worker lost a job, every later complete, fail, dead-letter, heartbeat or requeue by it leaves that job, and for single-job calls the whole database, unchanged until it claims the job again |
| `Handlers.SecondClaimNeedsLoss` | packages/shared/src/queries/jobs.ts:148-155 | Along every run: between two claims of one job by one worker some step takes the job from it, and that is a report of its own, its shutdown or deletion, or the reaper |
| `Handlers.SettlesLaterAttemptIffClaimedAgain` | packages/shared/src/queries/jobs.ts:152 | Along every run: a completion by a worker settles a later attempt than the one it claimed exactly if it claimed the job again in between |
| `Incidents.StaleReportPasses` | packages/shared/src/queries/jobs.ts:152 | A run from the empty database: claim, lease lapse, reclaim, second claim by the same worker, and a completion that settles attempt 2 |
| `Runs.NoLeaseResurrection` | packages/shared/src/queries/workers.ts:50-57 | An expired lease is never extended and nothing commits under it until the job is given back |
| `Runs.WorkIsBounded` | packages/shared/src/queries/jobs.ts:201-218 | Over any run a job makes at most three status changes per attempt of its budget at insert plus nine per manual retry |
| `Runs.NotClaimedDuringBackoff` | packages/shared/src/queries/jobs.ts:209-215 | A job that failed with attempts left is not claimed before its computed delay has passed, unless retried by hand |
| `Records.WaitsHalfTheNominal` | packages/shared/src/queries/jobs.ts:209-215 | Along every run: after its n-th failure a job is not claimed before half of base, n times base, or base multiplied n - 1 times by the factor, capped, has passed, unless retried by hand |
| `Runs.BeatenJobStaysHeld` | packages/shared/src/queries/workers.ts:50-57 | A lease beaten at gaps below its length always reaches a full length past every claim or beat |
| `Runs.LiveWorkerNotReaped` | packages/shared/src/queries/jobs.ts:361-373 | The reaper never selects a job whose worker keeps beating in time |
| `Runs.GoneStaysGone` | packages/shared/src/db/migrations.ts:136 | An identifier whose job was deleted never comes back |
| `Contracts.DelayFollowsFrozenContract` | packages/shared/src/queries/jobs.ts:456-488 | A failure waits for half to all of the nominal delay of the curve that the queue's policy, as read when the job was inserted, prescribed for that many failures, whatever policy the queue got since |
| `Contracts.BudgetFollowsFrozenContract` | packages/shared/src/queries/jobs.ts:201-209 | Until a manual retry, a failure retries exactly while fewer attempts are used than that same contract grants, else the job dies |
| `Records.CompletedRecord` | packages/shared/src/queries/jobs.ts:143-168 | Along every run: a completed row is what one call within its holder's lease left: the duration reported, no error, no lock, the last attempt succeeded |
| `Records.RetryingRecord` | packages/shared/src/queries/jobs.ts:201-218 | Along every run: a retrying row is what one failure with attempts left wrote: the error at job and attempt, and a run time half to all of the nominal delay later |
| `Records.DeadRecord` | packages/shared/src/queries/jobs.ts:271-310 | Along every run: a dead row is what one step wrote, on the last attempt unless the worker asked for it: error of the attempt, reason, last_error, and the same in the dead-letter row while that is there |
| `Records.QueuedRecord` | packages/shared/src/queries/jobs.ts:321-403 | Along every run: a queued row is as inserted, or promoted when due with nothing else changed, or given back by reaper or shutdown with that error and to run at once, or retried by hand |
| `Records.CancelledRecord` | packages/shared/src/queries/jobs.ts:817-830 | Along every run: a cancelled row is the waiting row it was, but for the status |
| `Records.ScheduledRecord` | packages/shared/src/queries/jobs.ts:554-576 | Along every run: a scheduled row is as it was inserted |
| `Records.RunningRecord` | packages/shared/src/queries/jobs.ts:98-116 | Along every run: a running row is what its claim left, and its lease runs from the claim or the last beat of that worker for exactly as long as that step asked |
| `Records.LeaseIsBounded` | packages/shared/src/queries/workers.ts:49-57 | Along every run no lease reaches further than the longest ever asked for |
| `Records.ReportIsRecorded` | packages/shared/src/queries/jobs.ts:143-268 | Every completion, failure or dead-letter call that passes the fence leaves its full record |
| `Batches.OrderDoesNotMatter` | packages/shared/src/queries/jobs.ts:374-401 | All orders of the selected rows end in the same database, counters included |
| `Batches.ReclaimPass` | packages/shared/src/queries/jobs.ts:361-403 | A reaper pass gives back exactly the stuck, unlocked rows (queued with the attempt kept, or dead with a dead-letter row) and touches no other |
| `Batches.SecondReclaimIsIdle` | packages/shared/src/queries/jobs.ts:361-403 | A second pass at the same instant selects nothing |
| `Batches.RequeuePass` | packages/shared/src/queries/workers.ts:103-155 | A shutdown requeue gives back exactly the listed jobs the worker still holds, expired or not; afterwards it holds none of them |
| `Guarantees.ClaimNeverRefused` | packages/shared/src/db/migrations.ts:192 | No claim is ever refused by UNIQUE (job_id, attempt) |
| `Guarantees.HistoryAgrees` | packages/shared/src/db/migrations.ts:182-193 | Execution rows are exactly the attempts 1..attempts; running or succeeded exactly for the last one of a running or completed job |
| `Guarantees.LocksAndBudget` | packages/shared/src/queries/jobs.ts:86-103 | A lock implies a running job; a job that may be claimed has an attempt left, although the claim never checks |
| `Guarantees.DlqRowAgrees` | packages/shared/src/queries/jobs.ts:279-300 | A dead-letter row refers to a dead job of the same queue, payload, attempts, reason and error |
| `Guarantees.DeadCounterSplits` | packages/shared/src/queries/jobs.ts:301-309 | stat_dead equals the dead-letter rows plus the dead jobs whose row was discarded |
| `Guarantees.CountersExact` | packages/shared/src/queries/jobs.ts:833-835 | In every good state stat_running, stat_completed and stat_dead are exact, and stat_queued is the queued count plus the cancels between their two statements |
| `Guarantees.SettleNeverClamps` | packages/shared/src/queries/jobs.ts:834 | The second statement of a cancel never meets its clamp |
| `Admission.ClaimNeverClamps` | packages/shared/src/queries/jobs.ts:117-123 | The claim never decrements stat_queued below zero |
| `Guarantees.RetrySucceedsIffKeyFree` | packages/shared/src/queries/jobs.ts:774-806 | A retry of a retryable job goes through exactly if no other live job took its dedupe key; refused, it changes nothing |
| `Selection.RetriedIsAvailable` | packages/shared/src/queries/jobs.ts:786-800 | A retry that goes through makes the job available to claims at that very instant, ahead of its backoff, unlocked, with error, reason and dead-letter row cleared |
| `Selection.RetriedCanRunAtOnce` | packages/shared/src/queries/jobs.ts:786-800 | With its queue open and a slot free, a claim at the instant of the retry is enabled and takes the job |
| `Witness.RetryCanBeRefused` | packages/shared/src/db/migrations.ts:171 | A reachable state in which the index refuses a retry because another job took the key |
| `Guarantees.OneHolder` | packages/shared/src/db/migrations.ts:171 | At most one job that is neither completed nor dead holds a key of a queue |
| `Guarantees.CancelThenSettle` | packages/shared/src/queries/jobs.ts:816-835 | The two statements of a cancel take the job out of stat_queued once; between them the decrement is owed |
| `Cron.TickLeavesNothingDue` | packages/shared/src/queries/scheduled.ts:103-180 | After a tick each fired watermark lies beyond now, each poison schedule is off, only locked rows are still due |
| `Cron.TickFiresWhatHasCome` | packages/shared/src/queries/scheduled.ts:103-127 | A tick fires exactly the schedules that are on, whose watermark has come and that nobody else has locked; the others stay as they were |
| `Cron.SecondTickIsIdle` | packages/shared/src/queries/scheduled.ts:103-180 | A second tick at the same time finds nothing due |
| `Cron.TickSpawnsAtMostOne` | packages/shared/src/queries/scheduled.ts:160-176 | However long the backlog, one tick spawns at most one job per due schedule |
| `Cron.WatermarkOnlyForward` | packages/shared/src/queries/scheduled.ts:168-176 | Along every run the watermark of a schedule never moves back, and a deleted schedule never returns |
| `Cron.FiringMovesWatermark` | packages/shared/src/queries/scheduled.ts:128-134 | Each firing moves the watermark strictly forward, from at or before the instant of the firing to after it, for good |
| `Cron.SlotFiresOnce` | packages/shared/src/queries/scheduled.ts:147-160 | Along every run a slot spawns at most one job: whoever fired it in one state and whoever fired it in any later one are the same job |
| `Cron.PoisonIsIsolated` | packages/shared/src/queries/scheduled.ts:120-146 | The loop over all due rows equals the loop over the schedulable ones plus disabling the others |
| `Origins.TickJob` | packages/shared/src/queries/scheduled.ts:150-176 | Every job a tick adds is an occurrence of one schedule it fired: its handler, payload and queue, kind recurring, priority 5, queued to run now, under the queue's contract; that schedule remembers it |
| `Origins.TickSpawnsIffSlotFree` | packages/shared/src/queries/scheduled.ts:150-176 | A due schedule gets a job exactly if its next fire time can be computed and no live job holds the key of its slot; without one, what it remembers stays |
| `Admission.OnlyClaimsRaise` | packages/shared/src/queries/jobs.ts:59-134 | No transaction but a claim raises the running count of a queue |
| `Admission.ClaimRaises` | packages/shared/src/queries/jobs.ts:86-112 | A claim raises the running count of its queue by exactly the rows taken, and of no other queue |
| `Admission.LockInvRun` | packages/shared/src/queries/jobs.ts:66-97 | With the lock, in every run, limits lowered or not, no running count has grown since the snapshot of the claim that holds the queue |
| `Admission.CommitRespectsLimitRead` | packages/shared/src/queries/jobs.ts:66-97 | With the lock, in every run and however limits change, a commit never lifts the running count above the limit that its own earlier snapshot read, or what the count was |
| `Admission.LimitHolds` | packages/shared/src/queries/jobs.ts:66-97 | With the lock and no limit lowered, the running jobs of a queue never exceed its limit, however claims and all other steps interleave |
| `Admission.WithoutLockOverAdmits` | packages/shared/src/queries/jobs.ts:52-58 | Without the lock, from any good state with room and enough waiting jobs, two interleaved claims over-admit |
| `Incidents.LimitExceeded` | packages/shared/src/queries/jobs.ts:52-58 | The same from the empty database: a queue of limit one, two inserts, two interleaved claims, two running jobs |
| `Admission.UndisturbedClaimIsAtomic` | packages/shared/src/queries/jobs.ts:59-134 | Lock, snapshot and commit performed in sequence on a free lock are allowed and do exactly what the one-step claim does |
| `Selection.PickIsServedInOrder` | packages/shared/src/queries/jobs.ts:86-97 | Whatever a claim takes is queued, due and unlocked, and no such job left behind has a higher priority, or the same and an earlier run_at, or both the same and an earlier created_at |
| `Selection.TopPriorityIsPicked` | packages/shared/src/queries/jobs.ts:94 | An available job of the highest priority is in every pick that is not empty |
| `Selection.NoOvertaking` | packages/shared/src/queries/jobs.ts:94 | Of two available jobs a claim never takes only the one to be served later |
| `Drain.EveryJobCanFinish` | packages/shared/src/queries/jobs.ts:321-403 | From every good state with open queues a finite schedule of ticks, reclaims, promotions, claims and completions ends with every job completed, dead or cancelled, each as predicted |
| `Backoff.RawNondecreasing` | packages/shared/src/domain/backoff.ts:27-42 | The raw delay never falls from one attempt to a later one, on each curve |
| `Backoff.RawStartsAtBase` | packages/shared/src/domain/backoff.ts:27-42 | The first failure waits for the base delay, on every curve |
| `Backoff.RawGrowth` | packages/shared/src/domain/backoff.ts:27-42 | From one failure to the next the delay stays, grows by the base, or is multiplied by the factor |
| `Backoff.ClampedIsNominal` | packages/shared/src/domain/backoff.ts:27-48 | So the n-th delay is base, n times base, or base multiplied n - 1 times by the factor, cut at the cap |
| `Backoff.JitterIsEven` | packages/shared/src/domain/backoff.ts:55-62 | The draw 0 halves a delay, the draw 1 keeps it, a draw half-way lies half-way |
| `Backoff.DelayIsNearNominal` | packages/shared/src/domain/backoff.ts:55-62 | The delay computed is half to all of that nominal one, for every curve, cap and draw |
| `Backoff.DefaultDelays` | packages/shared/src/domain/backoff.ts:13-19 | The default contract: three attempts, one second, two seconds, and never more than a minute |
| `Backoff.DelayNondecreasing` | packages/shared/src/domain/backoff.ts:45-48 | Nor does the clamped delay |
| `Backoff.JitterKeepsHalf` | packages/shared/src/domain/backoff.ts:55-62 | The jittered delay lies between half the clamped delay and all of it, up to half a millisecond of rounding, exactly so for whole delays |
| `Backoff.InRangeIffNoNegativeCap` | packages/shared/src/domain/backoff.ts:55-62 | That range holds for every draw exactly when no negative cap clamps |
| `Backoff.CapHoldsIffNonnegative` | packages/shared/src/domain/backoff.ts:45-62 | The cap bounds every draw exactly when it is not negative |
| `Store.Tables.constructor` | packages/shared/src/db/migrations.ts:82-236 | An empty store is valid |
| `Store.Tables.CompleteJob` | packages/shared/src/queries/jobs.ts:143-168 | Passes exactly under the fence, then records the duration, clears lock and error and closes the attempt as succeeded; otherwise the store is unchanged |
| `Store.Tables.FailJob` | packages/shared/src/queries/jobs.ts:172-231 | Same fence; retries exactly while attempts remain, with run_at set from the returned delay, which is near the nominal one of the job's curve, else dead-letters |
| `Store.Tables.DeadLetterFenced` | packages/shared/src/queries/jobs.ts:242-268 | Same fence; dead-letters whatever attempts are left, and records reason and error at attempt, job and dead-letter row |
| `Store.Tables.MoveToDead` | packages/shared/src/queries/jobs.ts:271-310 | Statement by statement, the terminal-failure path is one row write with counters keyed off the prior status, from any status |
| `Store.Tables.ReclaimStuck` | packages/shared/src/queries/jobs.ts:361-403 | The loop is the batch of reclaims over exactly the stuck, unlocked rows, each once, and returns their number |
| `Store.Tables.RequeueInflight` | packages/shared/src/queries/workers.ts:103-155 | The loop is the batch over exactly the owned rows; the two results count rows with and without attempts left |
| `Store.Tables.PromoteDue` | packages/shared/src/queries/jobs.ts:321-336 | Exactly the scheduled and retrying jobs whose time has come are queued, nothing else of them changes, and one grouped counter UPDATE equals their single ones; returns their number |
| `Store.Tables.ExtendLeases` | packages/shared/src/queries/workers.ts:49-57 | Exactly the listed jobs that run under an unexpired lease of the worker get a lease from now, nothing else changes |
| `Store.Tables.ForgetWorker` | packages/shared/src/db/migrations.ts:153 | Nulling locked_by equals orphaning exactly the jobs the worker held |
| `Store.Tables.PickTop` | packages/shared/src/queries/jobs.ts:86-97 | ORDER BY ... LIMIT returns as many rows as asked or there are; no row left out comes before a row returned by priority, run_at and created_at |
| `Store.Tables.SelectPick` | packages/shared/src/queries/jobs.ts:66-97 | The claimed set has size max(0, min(local slots, limit minus running, cap, available)), zero for a paused or missing queue, and is served in order |
| `Store.Tables.ClaimJobs` | packages/shared/src/queries/jobs.ts:59-134 | The claim serves in order, equals row-by-row claims of the picked rows with one counter update, and is refused as a whole exactly if an execution row of an attempt exists |
| `Store.Tables.InsertRow` | packages/shared/src/queries/jobs.ts:508-525 | The INSERT with its counter is the machine's insert, with its outcome |
| `Store.Tables.FindHolder` | packages/shared/src/queries/jobs.ts:529-535 | The lookup finds a live holder of the key exactly if there is one |
| `Store.Tables.InsertJob` | packages/shared/src/queries/jobs.ts:506-539 | Contract read, INSERT, and on a conflict a lookup, each on the database as others left it by then: a row with every column as asked under the contract read first, a live job that really holds the key, a violation, or the throw, exactly if no holder is left |
| `Store.Tables.CreateBatch` | packages/shared/src/queries/jobs.ts:594-619 | One insert per item, its three statements each at a moment of its own; when it ran through, each item was skipped because a live job held its key, or is in the list of created; it stops exactly at the first item that throws |
| `Store.Tables.BatchTurn` | packages/shared/src/queries/jobs.ts:602-617 | A row that lands has the queue and handler of the batch and the payload, priority (5 if none) and dedupe key of its item, kind batch, queued, unattempted |
| `Store.Tables.RetryJob` | packages/shared/src/queries/jobs.ts:774-806 | All four outcomes by their exact conditions; retried, the job is queued to run now with a clean record; refused by the dedupe index it leaves the store unchanged |
| `Store.Tables.CancelJob` | packages/shared/src/queries/jobs.ts:817-846 | The first statement takes effect exactly on a job that is queued, scheduled or retrying; else the answer is that of a later SELECT on the database as others left it by then |
| `Store.Tables.SettleCancel` | packages/shared/src/queries/jobs.ts:833-835 | The second statement pays the owed decrement |
| `BatchInsert.LookupThrowsIffReleased` | packages/shared/src/queries/jobs.ts:527-537 | In every run: the throw commented as unreachable is reached exactly if the job that met the INSERT has released the key by the lookup and no other has taken it |
| `BatchInsert.UndisturbedNeverThrows` | packages/shared/src/queries/jobs.ts:527-537 | With INSERT and lookup on one state the throw is unreachable |
| `BatchInsert.RepeatIsCreatedIffReleased` | packages/shared/src/queries/jobs.ts:515-521 | In every run: an insert with the key of an earlier job is created exactly if that job has released it (completed, dead, deleted) and no other has taken it |
| `BatchInsert.RepeatInBatch` | packages/shared/src/queries/jobs.ts:602-617 | For two items of a batch with one key, whatever happens between them: the later one is a duplicate exactly if the earlier one's job still holds the key or another job does |
| `BatchInsert.SkippedIffDuplicate` | packages/shared/src/queries/jobs.ts:602-617 | In a batch that ran through, each index is accounted for once: skipped exactly if a duplicate at its own moment, else created |
| `BatchInsert.CreatedAreDistinct` | packages/shared/src/queries/jobs.ts:602-617 | No two items of a batch are created under one identifier |
| `BatchInsert.DuplicateIffHeldOrRepeated` | packages/shared/src/queries/jobs.ts:602-617 | While nobody else takes or releases its key between items, an item is a duplicate exactly if the key was held before the batch or an earlier item asked for it |
| `Origins.CreatedIff` | packages/shared/src/queries/jobs.ts:508-523 | An insert leaves a row exactly if its priority is allowed, its queue exists and no job of the queue that is neither completed nor dead has its key |
| `Origins.ContractIsPolicyOrDefault` | packages/shared/src/queries/jobs.ts:459-488 | The contract of an insert is the queue's policy, or the default with all its values |
| `Origins.EveryJobWasInserted` | packages/shared/src/queries/jobs.ts:506-525 | Along every run: handler, payload, queue, priority and key of a job are what one caller asked for, or what one schedule said when it fired, however long ago |
| `Origins.LandedIsOfItem` | packages/shared/src/queries/jobs.ts:602-614 | The row of a batch item, column by column |
| `Origins.BatchAccount` | packages/shared/src/queries/jobs.ts:602-617 | Each item of a finished batch was skipped with a live holder of its key at the INSERT and at the lookup, or was insertable, met none and is in the list of created |
| `Origins.UndisturbedItem` | packages/shared/src/queries/jobs.ts:602-617 | Undisturbed, an item is skipped exactly if its key was held before the batch or asked for by an earlier item |
| `Origins.UndisturbedAccount` | packages/shared/src/queries/jobs.ts:602-617 | So the skipped list of an undisturbed batch holds exactly those indexes |
| `Origins.RepeatedItem` | packages/shared/src/queries/jobs.ts:602-617 | Whatever comes in between: of two items with one key the later is skipped while the earlier one's job is there and not finished, and else exactly if another live job took the key |
| `Origins.DelayedJobWaits` | packages/shared/src/queries/jobs.ts:557-576 | A job inserted for a later time is not claimed before it, in any run |
| `BatchInsert.CancelledKeepsKey` | packages/shared/src/db/migrations.ts:171 | Along every run: a cancelled job keeps its dedupe key while its row exists; every later insert with it is a duplicate |
| `Witness.RepeatCanBeCreatedOrThrow` | packages/shared/src/queries/jobs.ts:602-617 | A run from the empty database in which the repeat of a key within a batch is created, and one of its lookups would throw |
| `Updates.ReaperStep` | packages/shared/src/queries/jobs.ts:361-373 | What the reaper selected makes an enabled step of the machine |
| `Updates.ClaimCounts` | packages/shared/src/queries/jobs.ts:117-123 | n single decrements with clamps equal one decrement by n with one clamp |
| `Updates.PromoteCounts` | packages/shared/src/queries/jobs.ts:327-332 | Single increments equal the grouped ones |
| `Updates.StatementIsBatch` | packages/shared/src/queries/jobs.ts:98-123 | One UPDATE over many rows has the effect of its single-row operations |
| `Queries.CreateRecurringJob` | packages/shared/src/queries/scheduled.ts:45-71 | Four outcomes by their conditions: a schedule is stored only with a valid expression, an existing queue and a computable first fire time |
| `Queries.FireOne` | packages/shared/src/queries/scheduled.ts:120-178 | One turn of the promoter: off on a poison row; else the watermark moves on, and either a job with the handler and payload of the schedule was added and is remembered, or none and the memory stays |
| `Queries.PromoteRecurringJobs` | packages/shared/src/queries/scheduled.ts:103-180 | The loop is the tick over exactly the due, unlocked schedules, returns how many could be fired, and every job it adds is an occurrence of one of them |
| `Queries.DiscardDeadLetter` | packages/shared/src/queries/dlq.ts:94-102 | The entry goes, the job row stays |
| `Queries.RequeueDeadLetter` | packages/shared/src/queries/dlq.ts:72-87 | Lookup, then a retry on the database as others left it by then: requeued, with a clean record and to run now, exactly if the entry was listed and the job is then retryable with a free key |
| `Queries.CreateQueueRow` | packages/shared/src/queries/queues.ts:101-140 | Four outcomes by their conditions; a new queue starts open with zero counters |
| `Queries.UpdateQueueSettings` | packages/shared/src/queries/queues.ts:187-216 | Four outcomes by their conditions; exactly the given settings change |
| `Queries.SetQueuePaused` | packages/shared/src/queries/queues.ts:218-234 | The pause flag and nothing else changes |
| `Queries.DeleteQueueGuarded` | packages/shared/src/queries/queues.ts:248-264 | Deletes exactly if no job of the queue is unfinished and no schedule of it on; three outcomes |
| `Queries.GetQueueStats` | packages/shared/src/queries/queues.ts:277-332 | The seven counts and the dead-letter size are the true ones, up to pending cancels |
| `Settings.StepSetsAsGiven` | packages/shared/src/queries/queues.ts:187-234 | Every transaction sets of limit, pause flag and policy what it is given for that queue and nothing else; a new queue is open, empty and as asked |
| `Settings.LastGivenStands` | packages/shared/src/queries/queues.ts:187-234 | Along every run each setting of a queue is the last value given to it |
| `Settings.FirstSettingsStand` | packages/shared/src/queries/queues.ts:101-140 | Along every run, until given anew, it is what the queue was created with |
| `Settings.PausedAdmitsNothing` | packages/shared/src/queries/jobs.ts:75-80 | Along every run no claim takes a job of a queue from its pause until it is resumed |
| `Settings.DeleteTakesWhatRefers` | packages/shared/src/queries/queues.ts:248-264 | A queue is deleted exactly if all its jobs are finished and its schedules off, and with it exactly the rows that refer to it |
| `Maintenance.Tick` | packages/worker/src/maintenance.ts:38-52 | A tick keeps the store valid whichever of its locks it gets, and counts what was stuck, due and could be fired; with all locks it leaves nothing stuck, due or to fire |
| `Worker.DispatchKeepsMatchedIff` | packages/worker/src/worker.ts:101-113 | A dispatch keeps map and handlers in step exactly if the job was not in the map |
| `Worker.MatchedSize` | packages/worker/src/worker.ts:97-99 | In step, the map's size is the number of handlers in flight |
| `Worker.OverwriteOverruns` | packages/worker/src/worker.ts:101-113 | A re-claimed job overwrites its entry, three handlers run on two slots, and the old finally deletes the new entry |
| `Worker.FitsIffCovered` | packages/worker/src/worker.ts:97-113 | For every life of a worker: the handlers in flight never exceed the slots exactly if the debt of overwritten entries never exceeds the slots that the map leaves free |
| `Worker.TickFitsIffCovered` | packages/worker/src/pollLoop.ts:58-77 | The same for every poll tick, with what is owed when it starts, counting the most handlers after any dispatch |
| `Incidents.SlotsOverrun` | packages/worker/src/worker.ts:101-113 | A run from the empty database in which a worker of two slots, told its free slots at each claim, is given one job twice and then another, and a tick ends with three handlers |
| `Worker.HeldJobsAreNotClaimed` | packages/worker/src/pollLoop.ts:65-73 | While the worker holds all jobs in its map, no claim returns one of them |
| `Worker.ClaimFitsTheSlots` | packages/worker/src/pollLoop.ts:63-71 | A claim is answered with at most as many rows as free slots and batch cap, and leaves an available row only when a bound is reached |
| `Worker.LocalWorker.Dispatch` | packages/worker/src/worker.ts:101-113 | Registers the handler under its job, over any older entry |
| `Worker.LocalWorker.Finish` | packages/worker/src/worker.ts:107-109 | The finally deletes by job id |
| `Worker.ClashIffRepeated` | packages/worker/src/worker.ts:101-113 | The rows of a claim clash exactly if two are the same or one is in the map |
| `Worker.FreshOffersNeverClash` | packages/worker/src/pollLoop.ts:58-77 | A tick that is offered each job once, and none in the map, never clashes, whatever settles meanwhile |
| `Worker.LocalWorker.PollOnce` | packages/worker/src/pollLoop.ts:58-77 | The tick as a function of offers and settling handlers: the map never exceeds the concurrency; the peak of the handlers in flight stays within it exactly if the debt of overwritten entries is covered, in particular if no dispatched job is in the map |
| `Heartbeat.HeartbeatLoop.constructor` | packages/worker/src/heartbeat.ts:24-26 | The first beat is scheduled one interval after the start |
| `Heartbeat.HeartbeatLoop.Fire` | packages/worker/src/heartbeat.ts:38-40 | A firing timer sends a beat |
| `Heartbeat.HeartbeatLoop.Settled` | packages/worker/src/heartbeat.ts:41-50 | Success or caught failure alike, a settled beat schedules the next unless stopped, and the log stays on pace |
| `Heartbeat.HeartbeatLoop.Stop` | packages/worker/src/heartbeat.ts:28-31 | Stopping clears the timer for good |
| `Heartbeat.PacedLoopIsNeverReaped` | packages/worker/src/heartbeat.ts:33-50 | A loop of whose beats at most `misses` in a row fail keeps every claimed job from the reaper, in every run, if (misses + 1) times interval and latency, plus another latency and the time to register a claim, stay below the rounded lease |
| `Heartbeat.EnvCheckSufficesIff` | packages/shared/src/config/env.ts:48-54 | The environment validation keeps every accepted interval below the real lease exactly when LEASE_MS does not round down |
| `Heartbeat.EnvCheckAcceptsTooSlowABeat` | packages/shared/src/config/env.ts:48-54 | LEASE_MS 1400 with interval 1200 is accepted and too slow |
| `Heartbeat.LeaseRounding` | packages/worker/src/config.ts:26 | leaseSeconds in whole-number terms |
| `Heartbeat.SlowBeatExtendsNothing` | packages/shared/src/queries/workers.ts:51-56 | A beat one interval after the claim extends nothing exactly if the interval is at least the lease |

## Left out

- The `workers` and `worker_heartbeats` tables, `markDeadWorkers`, and `job_executions.worker_id`: liveness display; deleting a worker is modelled by what it does to `jobs.locked_by`.
- `claimed_at`, `started_at`, `finished_at`, `updated_at` and execution durations: written, never read by a statement modelled here.
- Identifiers are a counter that never repeats (`gen_random_uuid()`); the dead-letter table is keyed by its unique `job_id`, so rows whose job was deleted individually do not exist, as no modelled statement makes one.
- One `now` per transaction that never decreases from step to step; no skew between application clock and database clock.
- Postgres itself: isolation below the transaction is modelled only for the claim (`Admission`), the keyed insert and the cancel; SKIP LOCKED may leave out any set of rows; statement errors other than constraint violations, and lock-hash collisions are not part of this model.
- `nextRunAt` of cron-parser: any partial function whose results lie strictly after the given time; expressions, timezones and daylight saving are not part of this model.
- The promoter's key `cron:{id}:{time}` is a key of its own kind, hence injective; a caller may use it, as any other key.
- Retry policies with a factor or an attempt number below one or a negative base delay: the API's schema refuses them, the table does not; an insert under one would violate a CHECK on `jobs`.
- `run_at` of single inserts comes from the caller's clock; it is an input.
- Organisations, projects and their scoping checks, `deleteProject`, queue names and queue priority.
- Maintenance.Tick: `markDeadWorkers` is left out with the `workers` table; other transactions between the parts of a tick are in the run theorems only.
- Queries.CreateQueueRow: queue names and queue priority are left out; whether the project and the policy are found are inputs.
- Queries.UpdateQueueSettings: likewise.
- Queries.GetQueueStats: the windowed execution aggregates are left out.
- Backoff.JitterKeepsHalf: real arithmetic; floating-point rounding and overflow of the delay are not modelled.
- Worker.LocalWorker.PollOnce: claims are answered from an arbitrary script of offers, cut to the slots asked for, not by a `Store.Tables`; `ClaimFitsTheSlots` and `HeldJobsAreNotClaimed` give what the store guarantees of such answers.
- Queries.FireOne: the retry contract of an occurrence is read at the moment of its INSERT, not by a statement before it.
- Shutdown beyond `RequeueInflight`: an in-flight poll can still dispatch after the drain snapshot, so no claim is made about jobs running at exit.
- The order of the rows that a claim returns (its last SELECT has no ORDER BY); only the set and its rank are determined.
- Handlers, payload validation, logs, metrics, listing, pagination, the API, the web package and migrations tooling.
