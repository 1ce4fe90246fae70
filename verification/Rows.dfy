/** What every operation keeps of a single job and its child rows. */
module Rows {
  import opened Common
  import opened Lifecycle
  import opened Model

  /** The status an execution row must show, given its job. */
  function ExpectedExec(j: Job, a: nat): ExecStatus {
    if a != j.attempts then ExecFailed
    else if j.status.Running? then ExecRunning
    else if j.status.Completed? then ExecSucceeded
    else ExecFailed
  }

  /** The executions are exactly the attempts 1..attempts, each with the status that the job dictates. */
  ghost predicate HistoryOk(r: Row) {
    && (forall a: nat :: a in r.execs <==> 1 <= a <= r.job.attempts)
    && (forall a: nat :: a in r.execs ==> r.execs[a].status == ExpectedExec(r.job, a))
  }

  /** Only running jobs are locked; only a running job has a lease time. */
  predicate LockOk(j: Job) {
    && (j.lockedBy.Some? ==> j.status.Running?)
    && (j.lockedUntil.Some? <==> j.status.Running?)
  }

  /** Attempts stay within the ceiling, and strictly below it wherever another claim may come. */
  predicate BudgetOk(j: Job) {
    && j.attempts <= j.maxAttempts
    && (j.status in {Queued, Scheduled, Retrying, Cancelled} ==> j.attempts < j.maxAttempts)
    && (j.status in {Running, Completed, Dead} ==> j.attempts >= 1)
  }

  /** A dead-letter row belongs to a dead job and repeats what that job says. */
  predicate DlqOk(r: Row) {
    var j := r.job;
    && (j.deathReason.Some? <==> j.status.Dead?)
    && (r.dlq.Some? ==>
          && j.status.Dead?
          && r.dlq.value.queue == j.spec.queue && r.dlq.value.payload == j.spec.payload
          && r.dlq.value.attempts == j.attempts
          && Some(r.dlq.value.reason) == j.deathReason && r.dlq.value.finalError == j.lastError)
  }

  ghost predicate RowOk(r: Row) {
    LockOk(r.job) && BudgetOk(r.job) && DlqOk(r) && HistoryOk(r)
  }

  lemma CloseKeepsHistory(r: Row, error: string)
    requires HistoryOk(r) && r.job.status.Running? && r.job.attempts >= 1
    ensures forall j: Job :: j.attempts == r.job.attempts && j.status !in {Running, Completed} ==>
              HistoryOk(CloseFailed(r, error).(job := j))
  {
    var c := CloseFailed(r, error);
    assert c.execs == r.execs[r.job.attempts := Exec(ExecFailed, Some(error))];
    forall j: Job | j.attempts == r.job.attempts && j.status !in {Running, Completed}
      ensures HistoryOk(c.(job := j))
    {
    }
  }

  /** Every legal operation keeps locks, budget, execution history and dead-letter row in agreement. */
  lemma LegalKeepsRow(r: Row, op: Op, now: int)
    requires RowOk(r) && Legal(r, op, now)
    ensures RowOk(After(r, op, now))
  {
    var s := After(r, op, now);
    if op.Fail? || op.DeadLetter? || op.Reclaim? || op.Requeue? {
      var error := if op.Fail? || op.DeadLetter? then op.error else if op.Reclaim? then RECLAIMED else REQUEUED;
      CloseKeepsHistory(r, error);
      assert s.execs == CloseFailed(r, error).execs;
      assert HistoryOk(CloseFailed(r, error).(job := s.job));
    }
  }

  /** Every status change is an edge of the lifecycle table, whatever the operation; nothing else changes
      the columns fixed at insert. */
  lemma StatusFollowsEdges(r: Row, op: Op, now: int)
    requires RowOk(r) && Legal(r, op, now)
    ensures var s := After(r, op, now).job;
            && s.spec == r.job.spec
            && (s.status == r.job.status || CanTransition(r.job.status, s.status))
  {}

  /** The claim never meets an execution row with its attempt number: UNIQUE (job_id, attempt) holds. */
  lemma ClaimFindsFreshAttempt(r: Row, op: Op, now: int)
    requires RowOk(r) && op.Claim? && Legal(r, op, now)
    ensures r.job.attempts + 1 !in r.execs
  {}

  /** Every caller of the terminal-failure path holds a running job without a dead-letter row, so neither
      the ON CONFLICT branch nor the already-dead branch is ever taken. */
  lemma DeathFindsNoDlqRow(r: Row, op: Op, now: int)
    requires RowOk(r) && Legal(r, op, now) && (op.Fail? || op.DeadLetter? || op.Reclaim? || op.Requeue?)
    ensures r.dlq.None? && r.job.status.Running?
    ensures After(r, op, now).job.status.Dead? ==> After(r, op, now).dlq.Some?
  {}

  /** The fence and the reaper exclude each other on one row at one instant. */
  lemma FenceExcludesReaper(j: Job, worker: Id, now: int)
    requires Fenced(j, worker, now)
    ensures !Stuck(j, now)
  {}

  /** Of a held job the instant decides: before its lease runs out only its own worker's reports pass, after it only the
      reaper comes, and at the very instant neither; a job without owner is the reaper's at any time. */
  lemma LeaseDecides(j: Job, w: Id, now: int)
    requires j.status.Running? && j.lockedUntil.Some?
    ensures Fenced(j, w, now) <==> j.lockedBy == Some(w) && now < j.lockedUntil.value
    ensures Stuck(j, now) <==> j.lockedBy.None? || j.lockedUntil.value < now
  {}

  /** A fenced terminal write changes the status only of a running job, although no fence tests the status. */
  lemma FenceImpliesRunning(r: Row, worker: Id, now: int)
    requires RowOk(r) && Fenced(r.job, worker, now)
    ensures r.job.status.Running?
  {}

  predicate Terminal(j: Job) {
    IsTerminal(j.status)
  }

  /** Steps left in a job: three per remaining attempt, shifted by where in the attempt the job stands. */
  function Measure(j: Job): int {
    var left := 3 * (j.maxAttempts - j.attempts);
    match j.status
    case Scheduled => left
    case Retrying => left
    case Queued => left - 1
    case Running => left + 1
    case Completed => 0
    case Dead => 0
    case Cancelled => 0
  }

  lemma MeasureNonnegative(r: Row)
    requires RowOk(r)
    ensures Measure(r.job) >= 0
    ensures Measure(r.job) == 0 <==> Terminal(r.job)
  {}

  /** Every status change uses up measure, except that a manual retry grants at most nine steps. */
  lemma MeasureDrops(r: Row, op: Op, now: int)
    requires RowOk(r) && Legal(r, op, now)
    ensures var s := After(r, op, now).job;
            var change := if s.status == r.job.status then 0 else 1;
            Measure(s) + change <= Measure(r.job) + (if op.Retry? then 9 else 0)
  {}

  function Ind(b: bool): int {
    if b then 1 else 0
  }

  /** The counter writes of an operation are exactly the change in its job's status, for a counter that
      already counts the job; the cancel's decrement is the one that is still owed. */
  lemma CountersMatchStatus(r: Row, op: Op, now: int, queued: int, running: int, completed: int, dead: int)
    requires RowOk(r) && Legal(r, op, now)
    requires queued >= Ind(r.job.status.Queued?) && running >= Ind(r.job.status.Running?)
    requires completed >= Ind(r.job.status.Completed?) && dead >= Ind(r.job.status.Dead?)
    ensures var s, d := After(r, op, now).job.status, CounterUpdate(r, op);
            && Shift(queued, d.queued) ==
                 queued - Ind(r.job.status.Queued?) + Ind(s.Queued?) + Ind(op.Cancel? && r.job.status.Queued?)
            && Shift(running, d.running) == running - Ind(r.job.status.Running?) + Ind(s.Running?)
            && Shift(completed, d.completed) == completed - Ind(r.job.status.Completed?) + Ind(s.Completed?)
            && Shift(dead, d.dead) == dead - Ind(r.job.status.Dead?) + Ind(s.Dead?)
  {}

  /** A handler that lost its job gets through the fence again exactly when its own worker claimed the job anew: the
      fence compares workers and lease times, not attempts. It then settles the newer attempt. */
  lemma StaleHandlerPassesIffSameWorker(r: Row, w: Id, v: Id, lease: nat, t0: int, t1: int, t2: int, ms: int)
    requires RowOk(r) && Legal(r, Claim(w, lease), t0) && r.job.attempts + 1 < r.job.maxAttempts
    requires t0 + lease * 1000 < t1 <= t2 < t1 + lease * 1000
    ensures var held := After(r, Claim(w, lease), t0);
            var lost := After(held, Reclaim, t1);
            var anew := After(lost, Claim(v, lease), t1);
            && Legal(held, Reclaim, t1) && Legal(lost, Claim(v, lease), t1)
            && (Legal(anew, Complete(w, ms), t2) <==> v == w)
            && anew.job.attempts == r.job.attempts + 2 && anew.job.attempts in After(anew, Complete(w, ms), t2).execs
            && After(anew, Complete(w, ms), t2).execs[anew.job.attempts].status.ExecSucceeded?
  {}

  /** A manual retry grants exactly three more attempts, which lowers the ceiling of a job with more than that left. */
  lemma RetryLowersCeilingIff(r: Row, now: int)
    requires RowOk(r) && Legal(r, Retry, now)
    ensures var s := After(r, Retry, now).job;
            && s.maxAttempts - s.attempts == 3
            && (s.maxAttempts < r.job.maxAttempts <==> r.job.maxAttempts - r.job.attempts > 3)
            && (r.job.attempts == r.job.maxAttempts ==> s.maxAttempts == r.job.maxAttempts + 3)
  {}
}
