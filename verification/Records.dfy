/** Where the columns of a job come from: along every run, what a job's row says was written by one step of the run,
    the last one that gave the job its status. */
module Records {
  import opened Common
  import opened Lifecycle
  import opened Backoff
  import opened Model
  import opened Rows
  import opened Database
  import opened Steps
  import opened Batches
  import opened Runs
  import opened Contracts
  import opened Selection

  predicate StatusAt(db: DB, i: Id, s: Status) {
    i in db.jobs && db.jobs[i].status == s
  }

  /** The job has the status in every state from a to b. */
  ghost predicate Throughout(dbs: seq<DB>, i: Id, s: Status, a: nat, b: nat) {
    forall p :: a <= p <= b && p < |dbs| ==> StatusAt(dbs[p], i, s)
  }

  /** The step that gave a job the status it has. */
  lemma {:induction false} LastEntry(dbs: seq<DB>, i: Id, s: Status, k: nat, m: nat) returns (n: nat)
    requires k < m < |dbs| && !StatusAt(dbs[k], i, s) && StatusAt(dbs[m], i, s)
    ensures k <= n < m && !StatusAt(dbs[n], i, s) && Throughout(dbs, i, s, n + 1, m)
  {
    if StatusAt(dbs[m - 1], i, s) {
      n := LastEntry(dbs, i, s, k, m - 1);
    } else {
      n := m - 1;
    }
  }

  // ---- rows that keep their status

  lemma IdleRow(r: Row, op: Op, now: int)
    requires RowOk(r) && Legal(r, op, now) && After(r, op, now).job.status == r.job.status
    ensures var s := After(r, op, now);
            && (r.job.status !in {Running, Dead} ==> s == r)
            && (r.job.status.Dead? ==> s == r.(dlq := None))
            && (r.job.status.Running? ==> (op.Beat? || op.Orphan?) && s.execs == r.execs && s.dlq == r.dlq)
            && (op.Beat? ==> r.job.lockedBy == Some(op.worker))
            && (op.Beat? ==> s.job == r.job.(lockedUntil := Some(now + op.lease * 1000)))
            && (op.Orphan? ==> s.job == r.job.(lockedBy := None))
  {}

  lemma IdleStep(db: DB, e: DB, step: Step, i: Id, s: Status)
    requires JobStep(db, e, step, i) && StatusAt(db, i, s) && StatusAt(e, i, s)
    ensures s !in {Running, Dead} ==> View(e, i) == View(db, i)
    ensures s.Dead? ==> View(e, i) == View(db, i) || View(e, i) == View(db, i).(dlq := None)
  {
    assert View(e, i).job == e.jobs[i];
    if Acts(db, step, i) {
      IdleRow(View(db, i), WorkOf(step).value.op, db.now);
    }
  }

  /** While a job is neither running nor dead, its row changes only together with its status. */
  lemma {:induction false} RowUntouched(dbs: seq<DB>, steps: seq<Step>, i: Id, s: Status, a: nat, b: nat)
    requires JobRun(dbs, steps, i) && a <= b < |dbs| && s !in {Running, Dead} && Throughout(dbs, i, s, a, b)
    ensures StatusAt(dbs[a], i, s) && StatusAt(dbs[b], i, s) && View(dbs[b], i) == View(dbs[a], i)
  {
    assert StatusAt(dbs[b], i, s);
    if a < b {
      RowUntouched(dbs, steps, i, s, a, b - 1);
      IdleStep(dbs[b - 1], dbs[b], steps[b - 1], i, s);
    }
  }

  /** While a job is dead, its row changes only in that its dead-letter row may go. */
  lemma {:induction false} DeadUntouched(dbs: seq<DB>, steps: seq<Step>, i: Id, a: nat, b: nat)
    requires JobRun(dbs, steps, i) && a <= b < |dbs| && Throughout(dbs, i, Dead, a, b)
    ensures StatusAt(dbs[a], i, Dead) && StatusAt(dbs[b], i, Dead)
    ensures View(dbs[b], i) == View(dbs[a], i) || View(dbs[b], i) == View(dbs[a], i).(dlq := None)
  {
    assert StatusAt(dbs[b], i, Dead);
    if a < b {
      DeadUntouched(dbs, steps, i, a, b - 1);
      IdleStep(dbs[b - 1], dbs[b], steps[b - 1], i, Dead);
    }
  }

  // ---- completed

  lemma RowCompletes(r: Row, op: Op, now: int)
    requires RowOk(r) && Legal(r, op, now) && !r.job.status.Completed? && After(r, op, now).job.status.Completed?
    ensures op.Complete? && Fenced(r.job, op.worker, now) && r.job.attempts in r.execs
    ensures var s := After(r, op, now);
            && s.job == r.job.(status := Completed, lockedBy := None, lockedUntil := None, lastError := None,
                               durationMs := Some(op.ms))
            && s.execs == r.execs[r.job.attempts := Exec(ExecSucceeded, r.execs[r.job.attempts].error)]
  {}

  /** The step completes the job: within the holder's lease, with the duration reported and no error left. */
  predicate Completion(db: DB, e: DB, step: Step, i: Id) {
    && step.CompleteJob? && step.id == i && i in db.jobs && i in e.jobs && Fenced(db.jobs[i], step.worker, db.now)
    && e.jobs[i] == db.jobs[i].(status := Completed, lockedBy := None, lockedUntil := None, lastError := None,
                                durationMs := Some(step.ms))
    && db.jobs[i].attempts in View(db, i).execs
    && View(e, i).execs == View(db, i).execs[db.jobs[i].attempts := Exec(ExecSucceeded,
                                                                         View(db, i).execs[db.jobs[i].attempts].error)]
  }

  lemma StepCompletes(db: DB, e: DB, step: Step, i: Id)
    requires JobStep(db, e, step, i) && !StatusAt(db, i, Completed) && StatusAt(e, i, Completed)
    ensures Completion(db, e, step, i)
  {
    assert View(e, i).job == e.jobs[i];
    if Acts(db, step, i) {
      RowCompletes(View(db, i), WorkOf(step).value.op, db.now);
    }
  }

  /** A completed job was completed by one call of the worker that held it then, and its row is exactly what that call
      left, however long ago: the duration it reported, no error, no lock, the last attempt succeeded. */
  lemma CompletedRecord(dbs: seq<DB>, steps: seq<Step>, k: nat, m: nat, i: Id) returns (n: nat)
    requires IsRun(dbs, steps) && k < m < |dbs| && i !in dbs[k].jobs && StatusAt(dbs[m], i, Completed)
    ensures k <= n < m && Completion(dbs[n], dbs[n + 1], steps[n], i) && View(dbs[m], i) == View(dbs[n + 1], i)
  {
    RunOfJob(dbs, steps, i);
    n := LastEntry(dbs, i, Completed, k, m);
    RowUntouched(dbs, steps, i, Completed, n + 1, m);
    StepCompletes(dbs[n], dbs[n + 1], steps[n], i);
  }

  // ---- retrying

  lemma RowRetries(r: Row, op: Op, now: int)
    requires RowOk(r) && Legal(r, op, now) && !r.job.status.Retrying? && After(r, op, now).job.status.Retrying?
    ensures op.Fail? && Fenced(r.job, op.worker, now) && 1 <= r.job.attempts < r.job.maxAttempts
    ensures var s := After(r, op, now);
            && s.job == r.job.(status := Retrying, lockedBy := None, lockedUntil := None, lastError := Some(op.error),
                               runAt := now + ComputeBackoffMs(r.job.spec.curve, r.job.attempts, op.rand))
            && s.execs == r.execs[r.job.attempts := Exec(ExecFailed, Some(op.error))]
  {}

  /** The step is a failure with attempts left: the error is noted at the job and at the attempt, and the job waits for
      the nominal delay of its curve after that many failures, jitter apart. */
  predicate Postponement(db: DB, e: DB, step: Step, i: Id) {
    && step.FailJob? && step.id == i && i in db.jobs && i in e.jobs && Fenced(db.jobs[i], step.worker, db.now)
    && 1 <= db.jobs[i].attempts < db.jobs[i].maxAttempts
    && e.jobs[i] == db.jobs[i].(status := Retrying, lockedBy := None, lockedUntil := None,
                                lastError := Some(step.error), runAt := e.jobs[i].runAt)
    && NearNominal(db.jobs[i].spec.curve, db.jobs[i].attempts, step.rand, e.jobs[i].runAt - db.now)
    && View(e, i).execs == View(db, i).execs[db.jobs[i].attempts := Exec(ExecFailed, Some(step.error))]
  }

  lemma StepRetries(db: DB, e: DB, step: Step, i: Id)
    requires JobStep(db, e, step, i) && Enabled(db, step) && !StatusAt(db, i, Retrying) && StatusAt(e, i, Retrying)
    ensures Postponement(db, e, step, i)
  {
    assert View(e, i).job == e.jobs[i];
    if Acts(db, step, i) {
      RowRetries(View(db, i), WorkOf(step).value.op, db.now);
      DelayIsNearNominal(db.jobs[i].spec.curve, db.jobs[i].attempts, step.rand);
    }
  }

  /** A retrying job waits since one failure, for the nominal delay of its own curve. */
  lemma RetryingRecord(dbs: seq<DB>, steps: seq<Step>, k: nat, m: nat, i: Id) returns (n: nat)
    requires IsRun(dbs, steps) && k < m < |dbs| && i !in dbs[k].jobs && StatusAt(dbs[m], i, Retrying)
    ensures k <= n < m && Postponement(dbs[n], dbs[n + 1], steps[n], i) && View(dbs[m], i) == View(dbs[n + 1], i)
  {
    RunOfJob(dbs, steps, i);
    n := LastEntry(dbs, i, Retrying, k, m);
    RowUntouched(dbs, steps, i, Retrying, n + 1, m);
    StepRetries(dbs[n], dbs[n + 1], steps[n], i);
  }

  /** After its n-th failure, with attempts left, a job is not claimed before half of the nominal delay has passed: half
      the base, half of n times the base, or half the base multiplied n - 1 times by the factor, each no more than the
      cap; unless it is retried by hand. */
  lemma WaitsHalfTheNominal(dbs: seq<DB>, steps: seq<Step>, k: nat, m: nat, i: Id)
    requires IsRun(dbs, steps) && k < m < |steps| && FailsWithRetry(dbs[k], steps[k], i)
    requires forall n :: k < n < m ==> !Retried(dbs[n], steps[n], i)
    requires steps[m].ClaimJobs? && Acts(dbs[m], steps[m], i)
    ensures dbs[k].jobs[i].attempts >= 1
    ensures var d := NominalDelayMs(dbs[k].jobs[i].spec.curve, dbs[k].jobs[i].attempts);
            d >= 0.0 ==> (dbs[m].now - dbs[k].now) as real >= d / 2.0 - 0.5
  {
    RunOfJob(dbs, steps, i);
    assert JobStep(dbs[k], dbs[k + 1], steps[k], i) && Enabled(dbs[k], steps[k]);
    FailureIsNearNominal(dbs[k], dbs[k + 1], steps[k], i);
    if dbs[m].now < RetryTime(dbs[k], steps[k], i) {
      NotClaimedDuringBackoff(dbs, steps, k, m, i);
    }
  }

  // ---- dead

  /** What a death by the step leaves behind. */
  function NoteBy(step: Step): Note {
    match step
    case FailJob(_, _, error, _) => Note(error, MaxAttemptsExhausted, error)
    case DeadLetterFenced(_, _, reason, error) => Note(error, reason, error)
    case ReclaimStuck(_, _) => LAPSED
    case _ => SHUTDOWN
  }

  predicate MayBury(step: Step, i: Id) {
    match step
    case FailJob(j, _, _, _) => i == j
    case DeadLetterFenced(j, _, _, _) => i == j
    case ReclaimStuck(ids, _) => i in ids
    case RequeueInflight(_, ids) => i in ids
    case _ => false
  }

  lemma RowDies(r: Row, op: Op, now: int, note: Note)
    requires RowOk(r) && Legal(r, op, now) && !r.job.status.Dead? && After(r, op, now).job.status.Dead?
    requires op.Fail? ==> note == Note(op.error, MaxAttemptsExhausted, op.error)
    requires op.DeadLetter? ==> note == Note(op.error, op.reason, op.error)
    requires op.Reclaim? ==> note == LAPSED
    requires op.Requeue? ==> note == SHUTDOWN
    ensures op.Fail? || op.DeadLetter? || op.Reclaim? || op.Requeue?
    ensures op.DeadLetter? || r.job.attempts == r.job.maxAttempts
    ensures Buried(r, After(r, op, now), note, now)
  {}

  /** The step lets the job die, on its last attempt unless the worker asked for it: the attempt, the job and its
      dead-letter row record why. */
  predicate Burial(db: DB, e: DB, step: Step, i: Id) {
    && MayBury(step, i) && i in db.jobs && i in e.jobs
    && (step.DeadLetterFenced? || db.jobs[i].attempts == db.jobs[i].maxAttempts)
    && Buried(View(db, i), View(e, i), NoteBy(step), db.now)
  }

  lemma StepBuries(db: DB, e: DB, step: Step, i: Id)
    requires JobStep(db, e, step, i) && !StatusAt(db, i, Dead) && StatusAt(e, i, Dead)
    ensures Burial(db, e, step, i)
  {
    assert View(e, i).job == e.jobs[i];
    if Acts(db, step, i) {
      RowDies(View(db, i), WorkOf(step).value.op, db.now, NoteBy(step));
    }
  }

  /** A dead job died by one step, and says exactly why; so does its dead-letter row for as long as it is there. */
  lemma DeadRecord(dbs: seq<DB>, steps: seq<Step>, k: nat, m: nat, i: Id) returns (n: nat)
    requires IsRun(dbs, steps) && k < m < |dbs| && i !in dbs[k].jobs && StatusAt(dbs[m], i, Dead)
    ensures k <= n < m && Burial(dbs[n], dbs[n + 1], steps[n], i)
    ensures View(dbs[m], i) == View(dbs[n + 1], i) || View(dbs[m], i) == View(dbs[n + 1], i).(dlq := None)
  {
    RunOfJob(dbs, steps, i);
    n := LastEntry(dbs, i, Dead, k, m);
    DeadUntouched(dbs, steps, i, n + 1, m);
    StepBuries(dbs[n], dbs[n + 1], steps[n], i);
  }

  // ---- queued, scheduled, cancelled

  lemma RowQueues(r: Row, op: Op, now: int)
    requires RowOk(r) && Legal(r, op, now) && !r.job.status.Queued? && After(r, op, now).job.status.Queued?
    ensures var s := After(r, op, now);
            match op
            case Promote => r.job.runAt <= now && s == r.(job := r.job.(status := Queued))
            case Reclaim => Returned(r, s, LAPSED.error, now)
            case Requeue(_) => Returned(r, s, SHUTDOWN.error, now)
            case Retry => FreshlyRetried(r.job, s.job, now) && s.execs == r.execs && s.dlq.None?
            case _ => false
  {}

  /** The step puts the job into the queue, or back into it. */
  ghost predicate Queueing(db: DB, e: DB, step: Step, i: Id) {
    && i in e.jobs
    && if i !in db.jobs then step.InsertJob? || step.PromoteRecurring?
       else
         match step
         case PromoteDue(_) =>
           db.jobs[i].runAt <= db.now && View(e, i) == View(db, i).(job := db.jobs[i].(status := Queued))
         case ReclaimStuck(_, _) => Returned(View(db, i), View(e, i), LAPSED.error, db.now)
         case RequeueInflight(_, _) => Returned(View(db, i), View(e, i), SHUTDOWN.error, db.now)
         case RetryJob(_) =>
           FreshlyRetried(db.jobs[i], e.jobs[i], db.now) && View(e, i).execs == View(db, i).execs && i !in e.dlq
         case _ => false
  }

  lemma StepQueues(db: DB, e: DB, step: Step, i: Id)
    requires JobStep(db, e, step, i) && !StatusAt(db, i, Queued) && StatusAt(e, i, Queued)
    requires i !in db.jobs ==> step.InsertJob? || step.PromoteRecurring?
    ensures Queueing(db, e, step, i)
  {
    assert View(e, i).job == e.jobs[i];
    if Acts(db, step, i) {
      RowQueues(View(db, i), WorkOf(step).value.op, db.now);
    }
  }

  /** A queued job was inserted so, or promoted when its time had come, or given back by the reaper or a shutdown, or
      retried by hand; its row is what that step left. */
  lemma QueuedRecord(dbs: seq<DB>, steps: seq<Step>, k: nat, m: nat, i: Id) returns (n: nat)
    requires IsRun(dbs, steps) && k < m < |dbs| && i !in dbs[k].jobs && StatusAt(dbs[m], i, Queued)
    ensures k <= n < m && Queueing(dbs[n], dbs[n + 1], steps[n], i) && View(dbs[m], i) == View(dbs[n + 1], i)
  {
    RunOfJob(dbs, steps, i);
    n := LastEntry(dbs, i, Queued, k, m);
    RowUntouched(dbs, steps, i, Queued, n + 1, m);
    if i !in dbs[n].jobs {
      NewcomerStep(dbs[n], steps[n], i);
    }
    StepQueues(dbs[n], dbs[n + 1], steps[n], i);
  }

  lemma RowCancels(r: Row, op: Op, now: int)
    requires RowOk(r) && Legal(r, op, now) && !r.job.status.Cancelled? && After(r, op, now).job.status.Cancelled?
    ensures op.Cancel? && r.job.status in {Queued, Scheduled, Retrying}
    ensures After(r, op, now) == r.(job := r.job.(status := Cancelled))
  {}

  lemma StepCancels(db: DB, e: DB, step: Step, i: Id)
    requires JobStep(db, e, step, i) && !StatusAt(db, i, Cancelled) && StatusAt(e, i, Cancelled)
    ensures step == CancelJob(i) && i in db.jobs && db.jobs[i].status in {Queued, Scheduled, Retrying}
    ensures View(e, i) == View(db, i).(job := db.jobs[i].(status := Cancelled))
  {
    assert View(e, i).job == e.jobs[i];
    if Acts(db, step, i) {
      RowCancels(View(db, i), WorkOf(step).value.op, db.now);
    }
  }

  /** A cancelled job waited when one call cancelled it, and keeps everything else of the row it had then. */
  lemma CancelledRecord(dbs: seq<DB>, steps: seq<Step>, k: nat, m: nat, i: Id) returns (n: nat)
    requires IsRun(dbs, steps) && k < m < |dbs| && i !in dbs[k].jobs && StatusAt(dbs[m], i, Cancelled)
    ensures k <= n < m && steps[n] == CancelJob(i)
    ensures i in dbs[n].jobs && dbs[n].jobs[i].status in {Queued, Scheduled, Retrying}
    ensures View(dbs[m], i) == View(dbs[n], i).(job := dbs[n].jobs[i].(status := Cancelled))
  {
    RunOfJob(dbs, steps, i);
    n := LastEntry(dbs, i, Cancelled, k, m);
    RowUntouched(dbs, steps, i, Cancelled, n + 1, m);
    StepCancels(dbs[n], dbs[n + 1], steps[n], i);
  }

  lemma NoOpSchedules(r: Row, op: Op, now: int)
    requires RowOk(r) && Legal(r, op, now) && After(r, op, now).job.status.Scheduled?
    ensures r.job.status.Scheduled?
  {}

  lemma StepSchedules(db: DB, e: DB, step: Step, i: Id)
    requires JobStep(db, e, step, i) && !StatusAt(db, i, Scheduled) && StatusAt(e, i, Scheduled)
    ensures i !in db.jobs
  {
    if i in db.jobs {
      assert View(e, i).job == e.jobs[i];
      if Acts(db, step, i) {
        NoOpSchedules(View(db, i), WorkOf(step).value.op, db.now);
      }
    }
  }

  /** A scheduled job is as it was inserted. */
  lemma ScheduledRecord(dbs: seq<DB>, steps: seq<Step>, k: nat, m: nat, i: Id) returns (n: nat)
    requires IsRun(dbs, steps) && k < m < |dbs| && i !in dbs[k].jobs && StatusAt(dbs[m], i, Scheduled)
    ensures k <= n < m && i !in dbs[n].jobs && i in dbs[n + 1].jobs && View(dbs[m], i) == View(dbs[n + 1], i)
  {
    RunOfJob(dbs, steps, i);
    n := LastEntry(dbs, i, Scheduled, k, m);
    RowUntouched(dbs, steps, i, Scheduled, n + 1, m);
    StepSchedules(dbs[n], dbs[n + 1], steps[n], i);
  }

  // ---- running

  lemma RowStarts(r: Row, op: Op, now: int)
    requires RowOk(r) && Legal(r, op, now) && !r.job.status.Running? && After(r, op, now).job.status.Running?
    ensures op.Claim? && r.job.status.Queued? && r.job.runAt <= now
    ensures After(r, op, now) ==
              Row(r.job.(status := Running, lockedBy := Some(op.worker), lockedUntil := Some(now + op.lease * 1000),
                         attempts := r.job.attempts + 1),
                  r.execs[r.job.attempts + 1 := Exec(ExecRunning, None)], r.dlq)
  {}

  /** The step claims the job: its time had come, the worker holds it for the lease asked for, one more attempt is
      counted and has an execution that runs, and nothing else of the row changes. */
  predicate Started(db: DB, e: DB, step: Step, i: Id) {
    && step.ClaimJobs? && i in step.picked && i in db.jobs && i in e.jobs
    && db.jobs[i].status == Queued && db.jobs[i].runAt <= db.now
    && View(e, i) == Row(db.jobs[i].(status := Running, lockedBy := Some(step.worker),
                                     lockedUntil := Some(db.now + step.lease * 1000),
                                     attempts := db.jobs[i].attempts + 1),
                         View(db, i).execs[db.jobs[i].attempts + 1 := Exec(ExecRunning, None)], View(db, i).dlq)
  }

  lemma StepStarts(db: DB, e: DB, step: Step, i: Id)
    requires JobStep(db, e, step, i) && !StatusAt(db, i, Running) && StatusAt(e, i, Running)
    ensures Started(db, e, step, i)
  {
    assert View(e, i).job == e.jobs[i];
    if Acts(db, step, i) {
      RowStarts(View(db, i), WorkOf(step).value.op, db.now);
    }
  }

  /** The lease that a step grants. */
  function LeaseOf(step: Step): nat {
    match step
    case ClaimJobs(_, _, _, lease, _, _, _) => lease
    case Heartbeat(_, _, lease) => lease
    case _ => 0
  }

  /** The row is the one the claim left, but that the owner may be forgotten and the lease is that of one renewal. */
  predicate RunsSince(claimed: Row, r: Row, w: Id, until: int) {
    && r == claimed.(job := claimed.job.(lockedBy := r.job.lockedBy, lockedUntil := Some(until)))
    && r.job.lockedBy in {Some(w), None}
  }

  lemma RunningStep(db: DB, e: DB, step: Step, i: Id, claimed: Row, w: Id, until: int)
    requires JobStep(db, e, step, i) && StatusAt(db, i, Running) && StatusAt(e, i, Running)
    requires RunsSince(claimed, View(db, i), w, until)
    ensures RunsSince(claimed, View(e, i), w, until)
            || (BeatsFor(step, w, i) && RunsSince(claimed, View(e, i), w, db.now + step.lease * 1000))
  {
    assert View(e, i).job == e.jobs[i];
    if Acts(db, step, i) {
      IdleRow(View(db, i), WorkOf(step).value.op, db.now);
    }
  }

  /** Step r is the claim or a beat of worker w, and the lease runs from it. */
  predicate RenewedBy(dbs: seq<DB>, steps: seq<Step>, i: Id, w: Id, c: nat, r: nat, claimed: Row, now: Row)
    requires |dbs| == |steps| + 1 && r < |steps|
  {
    (r == c || BeatsFor(steps[r], w, i)) && RunsSince(claimed, now, w, dbs[r].now + LeaseOf(steps[r]) * 1000)
  }

  lemma {:induction false} LastRenewal(dbs: seq<DB>, steps: seq<Step>, i: Id, w: Id, c: nat, m: nat, claimed: Row)
      returns (r: nat)
    requires JobRun(dbs, steps, i) && c < m < |dbs| && Throughout(dbs, i, Running, c + 1, m)
    requires i in dbs[c + 1].jobs && RenewedBy(dbs, steps, i, w, c, c, claimed, View(dbs[c + 1], i))
    ensures c <= r < m && i in dbs[m].jobs && RenewedBy(dbs, steps, i, w, c, r, claimed, View(dbs[m], i))
  {
    assert StatusAt(dbs[m], i, Running);
    if m == c + 1 {
      r := c;
    } else {
      var p := m - 1;
      r := LastRenewal(dbs, steps, i, w, c, p, claimed);
      assert StatusAt(dbs[p], i, Running);
      RunningStep(dbs[p], dbs[m], steps[p], i, claimed, w, dbs[r].now + LeaseOf(steps[r]) * 1000);
      if !RunsSince(claimed, View(dbs[m], i), w, dbs[r].now + LeaseOf(steps[r]) * 1000) {
        r := p;
      }
    }
  }

  lemma StartRenews(dbs: seq<DB>, steps: seq<Step>, i: Id, c: nat)
    requires |dbs| == |steps| + 1 && c < |steps| && Started(dbs[c], dbs[c + 1], steps[c], i)
    ensures RenewedBy(dbs, steps, i, steps[c].worker, c, c, View(dbs[c + 1], i), View(dbs[c + 1], i))
  {}

  /** A running job was claimed by one step, and its row is what the claim left, but for the lease: that runs from the
      claim or the last beat of its worker, for exactly as long as that step asked. */
  lemma RunningRecord(dbs: seq<DB>, steps: seq<Step>, k: nat, m: nat, i: Id) returns (c: nat, r: nat)
    requires IsRun(dbs, steps) && k < m < |dbs| && i !in dbs[k].jobs && StatusAt(dbs[m], i, Running)
    ensures k <= c <= r < m && Started(dbs[c], dbs[c + 1], steps[c], i)
    ensures RenewedBy(dbs, steps, i, steps[c].worker, c, r, View(dbs[c + 1], i), View(dbs[m], i))
  {
    RunOfJob(dbs, steps, i);
    c := LastEntry(dbs, i, Running, k, m);
    assert StatusAt(dbs[c + 1], i, Running);
    StepStarts(dbs[c], dbs[c + 1], steps[c], i);
    StartRenews(dbs, steps, i, c);
    r := LastRenewal(dbs, steps, i, steps[c].worker, c, m, View(dbs[c + 1], i));
  }

  /** No lease reaches further than the longest that was ever asked for. */
  lemma LeaseIsBounded(dbs: seq<DB>, steps: seq<Step>, k: nat, m: nat, i: Id, longest: nat)
    requires IsRun(dbs, steps) && k < m < |dbs| && i !in dbs[k].jobs && StatusAt(dbs[m], i, Running)
    requires forall n :: 0 <= n < |steps| ==> LeaseOf(steps[n]) <= longest
    ensures dbs[m].jobs[i].lockedUntil.Some? && dbs[m].jobs[i].lockedUntil.value <= dbs[m].now + longest * 1000
  {
    var c, r := RunningRecord(dbs, steps, k, m, i);
    RunOfJob(dbs, steps, i);
    NowGrows(dbs, steps, i, r, m);
    assert View(dbs[m], i).job == dbs[m].jobs[i];
  }

  // ---- a worker's reports, at once

  predicate Reports(step: Step, i: Id) {
    (step.CompleteJob? || step.FailJob? || step.DeadLetterFenced?) && step.id == i
  }

  /** What a report that passes the fence leaves. */
  ghost predicate Recorded(db: DB, e: DB, step: Step, i: Id)
    requires i in db.jobs
  {
    if step.CompleteJob? then Completion(db, e, step, i)
    else if step.FailJob? && db.jobs[i].attempts < db.jobs[i].maxAttempts then Postponement(db, e, step, i)
    else Burial(db, e, step, i)
  }

  lemma ReportOutcome(r: Row, op: Op, now: int)
    requires RowOk(r) && Legal(r, op, now) && (op.Complete? || op.Fail? || op.DeadLetter?)
    ensures r.job.status.Running?
    ensures After(r, op, now).job.status ==
              if op.Complete? then Completed
              else if op.Fail? && r.job.attempts < r.job.maxAttempts then Retrying
              else Dead
  {}

  lemma ReportActs(db: DB, e: DB, step: Step, i: Id)
    requires JobStep(db, e, step, i) && Reports(step, i) && i in db.jobs && Fenced(db.jobs[i], step.worker, db.now)
    ensures Acts(db, step, i) && i in e.jobs && View(e, i) == After(View(db, i), WorkOf(step).value.op, db.now)
  {}

  /** A report that passes the fence is recorded in full. */
  lemma ReportIsRecorded(db: DB, step: Step, i: Id)
    requires Enabled(db, step) && Reports(step, i) && i in db.jobs && Fenced(db.jobs[i], step.worker, db.now)
    ensures Inv(db) ==> Recorded(db, Apply(db, step), step, i)
  {
    if Inv(db) {
      StepOnJob(db, step, i);
      RecordedStep(db, Apply(db, step), step, i);
    }
  }

  lemma RecordedStep(db: DB, e: DB, step: Step, i: Id)
    requires JobStep(db, e, step, i) && Enabled(db, step)
    requires Reports(step, i) && i in db.jobs && Fenced(db.jobs[i], step.worker, db.now)
    ensures Recorded(db, e, step, i)
  {
    ReportActs(db, e, step, i);
    ReportOutcome(View(db, i), WorkOf(step).value.op, db.now);
    assert View(e, i).job == e.jobs[i];
    if step.CompleteJob? {
      StepCompletes(db, e, step, i);
    } else if step.FailJob? && db.jobs[i].attempts < db.jobs[i].maxAttempts {
      StepRetries(db, e, step, i);
    } else {
      StepBuries(db, e, step, i);
    }
  }
}
