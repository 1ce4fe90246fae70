/** The tables as values: jobs, executions, dead-letter rows, queues and schedules; and the effect of every
    statement group on one job together with its child rows. */
module Model {
  import opened Common
  import opened Lifecycle
  import opened Backoff

  // gen_random_uuid(): an identifier that was never issued before.
  type Id = nat

  datatype Kind = Immediate | Delayed | OneShot | Recurring | Batch

  /** A dedupe key. The promoter's key is the text cron:{schedule}:{slot}; callers may pass any text, so any Key. */
  datatype Key = TextKey(text: string) | CronKey(schedule: Id, slot: int)

  /** The columns of a job that no statement changes after the insert. */
  datatype Spec = Spec(queue: Id, kind: Kind, handler: string, payload: string, priority: int, dedupe: Option<Key>,
                       curve: Curve, recurring: Option<Id>, createdAt: int)

  // The CHECK on dead_letter_jobs.death_reason.
  datatype DeathReason = MaxAttemptsExhausted | ReclaimedFinal | InvalidPayload | UnknownHandler | ShutdownFinal

  datatype Job = Job(spec: Spec, status: Status, runAt: int, attempts: nat, maxAttempts: nat,
                     lockedBy: Option<Id>, lockedUntil: Option<int>,
                     lastError: Option<string>, deathReason: Option<DeathReason>, durationMs: Option<int>)

  datatype ExecStatus = ExecRunning | ExecSucceeded | ExecFailed

  datatype Exec = Exec(status: ExecStatus, error: Option<string>)

  datatype DlqRow = DlqRow(queue: Id, payload: string, attempts: nat, reason: DeathReason,
                           finalError: Option<string>, diedAt: int)

  datatype Queue = Queue(limit: int, paused: bool, policy: Option<RetryPolicy>,
                         statQueued: int, statRunning: int, statCompleted: int, statDead: int)

  datatype Schedule = Schedule(queue: Id, handler: string, expr: string, timezone: string, payload: string,
                               nextRun: int, enabled: bool, lastEnqueuedAt: Option<int>, lastJob: Option<Id>)

  /** A job with the child rows that refer to it: its executions by attempt, and its dead-letter row. */
  datatype Row = Row(job: Job, execs: map<nat, Exec>, dlq: Option<DlqRow>)

  const RECLAIMED := "reclaimed: worker lease expired"
  const RECLAIMED_FINAL := "reclaimed on final attempt: worker lease expired"
  const REQUEUED := "requeued on worker shutdown"
  const SHUTDOWN_FINAL := "worker shutdown on final attempt: requeued to DLQ"

  /** What a transaction does to one job. */
  datatype Op =
    | Claim(worker: Id, lease: nat)
    | Complete(worker: Id, ms: int)
    | Fail(worker: Id, error: string, rand: real)
    | DeadLetter(worker: Id, reason: DeathReason, error: string)
    | Promote
    | Reclaim
    | Requeue(worker: Id)
    | Beat(worker: Id, lease: nat)
    | Retry
    | Cancel
    | Discard
    | Orphan(worker: Id)

  /** The fence of every terminal write: own the job and hold a lease that has not run out. */
  predicate Fenced(j: Job, worker: Id, now: int) {
    j.lockedBy == Some(worker) && j.lockedUntil.Some? && j.lockedUntil.value > now
  }

  /** The reaper's selection: an expired lease, or no owner at all. */
  predicate Stuck(j: Job, now: int) {
    j.status.Running? && ((j.lockedUntil.Some? && j.lockedUntil.value < now) || j.lockedBy.None?)
  }

  /** The WHERE clause under which an operation touches a job. */
  predicate Legal(r: Row, op: Op, now: int) {
    var j := r.job;
    match op
    case Claim(_, _) => j.status.Queued? && j.runAt <= now
    case Complete(w, _) => Fenced(j, w, now)
    case Fail(w, _, _) => Fenced(j, w, now)
    case DeadLetter(w, _, _) => Fenced(j, w, now)
    case Promote => j.status in {Scheduled, Retrying} && j.runAt <= now
    case Reclaim => Stuck(j, now)
    case Requeue(w) => j.lockedBy == Some(w) && j.status.Running?
    case Beat(w, _) => j.status.Running? && Fenced(j, w, now)
    case Retry => j.status in {Dead, Retrying}
    case Cancel => j.status in {Queued, Scheduled, Retrying}
    case Discard => r.dlq.Some?
    case Orphan(w) => j.lockedBy == Some(w)
  }

  /** UPDATE job_executions ... WHERE attempt = a AND status = 'running'. */
  function CloseExec(execs: map<nat, Exec>, a: nat, e: Exec): map<nat, Exec> {
    if a in execs && execs[a].status.ExecRunning? then execs[a := e] else execs
  }

  function CloseSucceeded(execs: map<nat, Exec>, a: nat): map<nat, Exec> {
    if a in execs then CloseExec(execs, a, execs[a].(status := ExecSucceeded)) else execs
  }

  function CloseFailed(r: Row, error: string): Row {
    r.(execs := CloseExec(r.execs, r.job.attempts, Exec(ExecFailed, Some(error))))
  }

  function Unlock(j: Job): Job {
    j.(lockedBy := None, lockedUntil := None)
  }

  /** The one terminal-failure path: insert the dead-letter row unless one is there, then flip any status but dead. */
  function MoveToDead(r: Row, reason: DeathReason, error: string, now: int): Row {
    var j := r.job;
    var d := DlqRow(j.spec.queue, j.spec.payload, j.attempts, reason, Some(error), now);
    var dlq := if r.dlq.None? then Some(d) else r.dlq;
    if j.status.Dead? then r.(dlq := dlq)
    else r.(dlq := dlq,
            job := Unlock(j).(status := Dead, deathReason := Some(reason), lastError := Some(error)))
  }

  /** Back to queued with the attempt kept, or dead on the final attempt. */
  function GiveBack(r: Row, error: string, reason: DeathReason, finalError: string, now: int): Row {
    var c := CloseFailed(r, error);
    if r.job.attempts < r.job.maxAttempts then
      c.(job := Unlock(r.job).(status := Queued, runAt := now, lastError := Some(error)))
    else
      MoveToDead(c, reason, finalError, now)
  }

  function ClaimJob(j: Job, worker: Id, lease: nat, now: int): Job {
    j.(status := Running, lockedBy := Some(worker), lockedUntil := Some(now + lease * 1000), attempts := j.attempts + 1)
  }

  /** The row after the operation, which must be Legal. */
  function After(r: Row, op: Op, now: int): Row {
    var j := r.job;
    match op
    case Claim(w, lease) =>
      r.(job := ClaimJob(j, w, lease, now), execs := r.execs[j.attempts + 1 := Exec(ExecRunning, None)])
    case Complete(w, ms) =>
      r.(job := Unlock(j).(status := Completed, lastError := None, durationMs := Some(ms)),
         execs := CloseSucceeded(r.execs, j.attempts))
    case Fail(w, error, rand) =>
      var c := CloseFailed(r, error);
      if ShouldRetry(j.attempts, j.maxAttempts) then
        c.(job := Unlock(j).(status := Retrying, lastError := Some(error),
                             runAt := now + ComputeBackoffMs(j.spec.curve, j.attempts, rand)))
      else
        MoveToDead(c, MaxAttemptsExhausted, error, now)
    case DeadLetter(w, reason, error) => MoveToDead(CloseFailed(r, error), reason, error, now)
    case Promote => r.(job := j.(status := Queued))
    case Reclaim => GiveBack(r, RECLAIMED, ReclaimedFinal, RECLAIMED_FINAL, now)
    case Requeue(w) => GiveBack(r, REQUEUED, ShutdownFinal, SHUTDOWN_FINAL, now)
    case Beat(w, lease) => r.(job := j.(lockedUntil := Some(now + lease * 1000)))
    case Retry =>
      r.(job := Unlock(j).(status := Queued, runAt := now, maxAttempts := j.attempts + DEFAULT_RETRY.maxAttempts,
                           deathReason := None, lastError := None),
         dlq := if j.status.Dead? then None else r.dlq)
    case Cancel => r.(job := Unlock(j).(status := Cancelled))
    case Discard => r.(dlq := None)
    case Orphan(w) => r.(job := j.(lockedBy := None))
  }

  /** A counter column in one UPDATE: untouched, `+ n`, or `GREATEST(... - n, 0)`. */
  datatype Delta = Keep | Inc(n: nat) | Dec(n: nat)

  function Shift(x: int, d: Delta): int {
    match d
    case Keep => x
    case Inc(n) => x + n
    case Dec(n) => Max(x - n, 0)
  }

  datatype Deltas = Deltas(queued: Delta, running: Delta, completed: Delta, dead: Delta)

  function Bump(q: Queue, d: Deltas): Queue {
    q.(statQueued := Shift(q.statQueued, d.queued), statRunning := Shift(q.statRunning, d.running),
       statCompleted := Shift(q.statCompleted, d.completed), statDead := Shift(q.statDead, d.dead))
  }

  const UNTOUCHED := Deltas(Keep, Keep, Keep, Keep)

  /** The counter update of the terminal-failure path, keyed off the status before it. */
  function DeadDeltas(prev: Status): Deltas {
    if prev.Dead? then UNTOUCHED
    else Deltas(Dec(if prev.Queued? then 1 else 0), Dec(if prev.Running? then 1 else 0), Keep, Inc(1))
  }

  function GiveBackDeltas(j: Job): Deltas {
    if j.attempts < j.maxAttempts then Deltas(Inc(1), Dec(1), Keep, Keep) else DeadDeltas(j.status)
  }

  /** The queue counters each operation's own statements write. */
  function CounterUpdate(r: Row, op: Op): Deltas {
    var j := r.job;
    match op
    case Claim(_, _) => Deltas(Dec(1), Inc(1), Keep, Keep)
    case Complete(_, _) => Deltas(Keep, Dec(1), Inc(1), Keep)
    case Fail(_, _, _) =>
      if ShouldRetry(j.attempts, j.maxAttempts) then Deltas(Keep, Dec(1), Keep, Keep) else DeadDeltas(j.status)
    case DeadLetter(_, _, _) => DeadDeltas(j.status)
    case Promote => Deltas(Inc(1), Keep, Keep, Keep)
    case Reclaim => GiveBackDeltas(j)
    case Requeue(_) => GiveBackDeltas(j)
    case Retry => if j.status.Dead? then Deltas(Inc(1), Keep, Keep, Dec(1)) else Deltas(Inc(1), Keep, Keep, Keep)
    case Beat(_, _) => UNTOUCHED
    case Cancel => UNTOUCHED  // its second statement comes later
    case Discard => UNTOUCHED
    case Orphan(_) => UNTOUCHED
  }
}
