/** Runs of the scheduler, and what holds along every one of them. */
module Runs {
  import opened Common
  import opened Lifecycle
  import opened Backoff
  import opened Model
  import opened Rows
  import opened Database
  import opened Steps
  import opened Invariant

  /** States dbs[0..], joined by enabled steps of any number of workers and callers in any order. */
  ghost predicate IsRun(dbs: seq<DB>, steps: seq<Step>) {
    && |dbs| == |steps| + 1
    && Inv(dbs[0])
    && (forall k :: 0 <= k < |steps| ==> Enabled(dbs[k], steps[k]) && dbs[k + 1] == Apply(dbs[k], steps[k]))
  }

  lemma {:induction false} RunInv(dbs: seq<DB>, steps: seq<Step>, k: nat)
    requires IsRun(dbs, steps) && k < |dbs|
    ensures Inv(dbs[k])
  {
    if k > 0 {
      RunInv(dbs, steps, k - 1);
      StepKeepsInv(dbs[k - 1], steps[k - 1]);
    }
  }

  /** Every state of every run from the empty database satisfies the joint invariant. */
  lemma ReachableInv(dbs: seq<DB>, steps: seq<Step>, now: int, k: nat)
    requires |dbs| == |steps| + 1 && dbs[0] == Init(now) && k < |dbs|
    requires forall n :: 0 <= n < |steps| ==> Enabled(dbs[n], steps[n]) && dbs[n + 1] == Apply(dbs[n], steps[n])
    ensures Inv(dbs[k])
  {
    InitOk(now);
    RunInv(dbs, steps, k);
  }

  // ---- what one step does to one job

  /** The step's statements reach the job: the row is selected, legal, and no index refuses the transaction. */
  predicate Acts(db: DB, step: Step, i: Id) {
    && WorkOf(step).Some?
    && !Refused(db, WorkOf(step).value)
    && i in WorkOf(step).value.ids
    && i in db.jobs
    && Legal(View(db, i), WorkOf(step).value.op, db.now)
  }

  function RowAfterStep(db: DB, step: Step, i: Id): Row
    requires i in db.jobs
  {
    if Acts(db, step, i) then After(View(db, i), WorkOf(step).value.op, db.now) else View(db, i)
  }

  /** Nothing but new queued jobs under new identifiers. */
  ghost predicate OnlyAdds(db: DB, e: DB) {
    && e.nextId >= db.nextId
    && (forall i :: i in db.jobs ==> i in e.jobs && View(e, i) == View(db, i))
    && (forall i :: i in e.jobs && i !in db.jobs ==> i >= db.nextId && e.jobs[i].status.Queued?)
  }

  lemma InsertOnlyAdds(db: DB, a: NewJob)
    requires TablesOk(db) && a.status.Queued?
    ensures OnlyAdds(db, Insert(db, a))
  {
    InsertViews(db, a);
    var e := Insert(db, a);
    forall i | i in e.jobs && i !in db.jobs
      ensures i >= db.nextId && e.jobs[i].status.Queued?
    {
      assert View(e, i).job == e.jobs[i];
    }
  }

  lemma FireViews(db: DB, s: Id, next: Option<int>)
    requires TablesOk(db)
    ensures OnlyAdds(db, Fire(db, s, next))
  {
    if s in db.schedules && next.Some? {
      var e, f := Fire(db, s, next), Insert(db, Occurrence(db, s));
      InsertOnlyAdds(db, Occurrence(db, s));
      assert e.jobs == f.jobs && e.execs == f.execs && e.dlq == f.dlq && e.nextId == f.nextId;
      forall i | i in db.jobs ensures i in e.jobs && View(e, i) == View(db, i) {
        assert View(e, i) == View(f, i);
      }
    }
  }

  lemma AddsTransitive(a: DB, b: DB, c: DB)
    requires OnlyAdds(a, b) && OnlyAdds(b, c)
    ensures OnlyAdds(a, c)
  {
    forall i | i in c.jobs && i !in a.jobs
      ensures i >= a.nextId && c.jobs[i].status.Queued?
    {
      if i in b.jobs { assert View(c, i).job == View(b, i).job; }
    }
  }

  lemma FireKeepsTables(db: DB, s: Id, next: Option<int>)
    requires TablesOk(db)
    ensures TablesOk(Fire(db, s, next))
  {
    if s in db.schedules {
      InsertKeepsTables(db, Occurrence(db, s));
    }
  }

  lemma {:induction false} FireAllViews(db: DB, due: seq<Id>, next: NextRuns)
    requires TablesOk(db)
    ensures TablesOk(FireAll(db, due, next)) && OnlyAdds(db, FireAll(db, due, next))
  {
    if |due| > 0 {
      var m, last := FireAll(db, due[..|due| - 1], next), due[|due| - 1];
      FireAllViews(db, due[..|due| - 1], next);
      FireViews(m, last, NextRun(next, last));
      FireKeepsTables(m, last, NextRun(next, last));
      AddsTransitive(db, m, Fire(m, last, NextRun(next, last)));
    }
  }

  lemma BatchFrame(db: DB, w: Work, i: Id)
    requires NoDup(w.ids)
    ensures var e := Transact(db, w);
            && SameFrame(db, e)
            && (i in db.jobs ==> View(e, i) == if !Refused(db, w) && i in w.ids && Legal(View(db, i), w.op, db.now)
                                               then After(View(db, i), w.op, db.now) else View(db, i))
  {
    DoAllView(db, w.ids, w.op);
  }

  lemma WorkHasNoDup(db: DB, step: Step)
    requires Enabled(db, step) && WorkOf(step).Some?
    ensures NoDup(WorkOf(step).value.ids)
  {}

  lemma NewcomerStep(db: DB, step: Step, i: Id)
    requires Enabled(db, step) && i !in db.jobs && i in Apply(db, step).jobs
    ensures step.InsertJob? || step.PromoteRecurring?
  {
    if WorkOf(step).Some? {
      WorkHasNoDup(db, step);
      BatchFrame(db, WorkOf(step).value, i);
    }
  }

  /** How a step may treat one job: leave its rows alone, insert it, or drop it with its queue when finished. */
  ghost predicate Passive(db: DB, e: DB, step: Step, i: Id) {
    && e.now >= db.now && e.nextId >= db.nextId
    && (i in db.jobs && i in e.jobs ==> View(e, i) == View(db, i))
    && (i in db.jobs && i !in e.jobs ==> step.DeleteQueue? && IsTerminal(db.jobs[i].status))
    && (i in e.jobs && i !in db.jobs ==> i >= db.nextId && e.jobs[i].status in {Queued, Scheduled})
  }

  lemma PassiveInsert(db: DB, a: NewJob, step: Step, i: Id)
    requires TablesOk(db) && a.status in {Queued, Scheduled}
    ensures Passive(db, Insert(db, a), step, i)
  {
    InsertViews(db, a);
    if i in Insert(db, a).jobs && i !in db.jobs {
      assert View(Insert(db, a), i).job == FreshJob(db, a);
    }
  }

  lemma PassiveDelete(db: DB, q: Id, step: Step, i: Id)
    requires TablesOk(db) && RowsOk(db) && step.DeleteQueue?
    ensures Passive(db, DropQueue(db, q), step, i)
  {
    DropViews(db, q);
    if i in db.jobs && i !in DropQueue(db, q).jobs { DeleteTakesOnlyFinished(db, q, i); }
  }

  lemma PassiveRest(db: DB, step: Step, i: Id)
    requires Enabled(db, step) && WorkOf(step).None?
    requires !step.PromoteRecurring? && !step.InsertJob? && !step.DeleteQueue?
    ensures Passive(db, Apply(db, step), step, i)
  {
    var e := Apply(db, step);
    assert e.jobs == db.jobs && e.execs == db.execs && e.dlq == db.dlq;
  }

  lemma PassivePromote(db: DB, due: seq<Id>, next: NextRuns, step: Step, i: Id)
    requires TablesOk(db)
    ensures Passive(db, FireAll(db, due, next), step, i)
  {
    FireAllFrame(db, due, next);
    FireAllViews(db, due, next);
  }

  lemma OtherStepViews(db: DB, step: Step, i: Id)
    requires TablesOk(db) && RowsOk(db) && Enabled(db, step) && WorkOf(step).None?
    ensures Passive(db, Apply(db, step), step, i)
  {
    if step.PromoteRecurring? {
      PassivePromote(db, step.due, step.next, step, i);
    } else if step.InsertJob? {
      PassiveInsert(db, step.args, step, i);
    } else if step.DeleteQueue? {
      PassiveDelete(db, step.queue, step, i);
    } else {
      PassiveRest(db, step, i);
    }
  }

  /** One step seen from one job: its row is where the step's operation puts it, or untouched; it may be
      inserted under a new identifier; only the deletion of its queue removes it, and then it is finished. */
  ghost predicate JobStep(db: DB, e: DB, step: Step, i: Id) {
    && e.now >= db.now && e.nextId >= db.nextId
    && (i in db.jobs ==> i < db.nextId && RowOk(View(db, i)))
    && (i in e.jobs ==> i < e.nextId && RowOk(View(e, i)))
    && (i in db.jobs && i in e.jobs ==> View(e, i) == RowAfterStep(db, step, i))
    && (i in db.jobs && i !in e.jobs ==> step.DeleteQueue? && IsTerminal(db.jobs[i].status))
    && (i in e.jobs && i !in db.jobs ==> i >= db.nextId && e.jobs[i].status in {Queued, Scheduled})
  }

  /** Every step treats every job in one of these ways: no transaction touches a job twice or by a write that
      its own WHERE clause does not allow. */
  lemma StepOnJob(db: DB, step: Step, i: Id)
    requires Inv(db) && Enabled(db, step)
    ensures JobStep(db, Apply(db, step), step, i)
  {
    StepKeepsInv(db, step);
    if WorkOf(step).Some? {
      WorkHasNoDup(db, step);
      BatchFrame(db, WorkOf(step).value, i);
      WorkOnJob(db, Transact(db, WorkOf(step).value), step, i);
    } else {
      OtherStepViews(db, step, i);
      PassiveOnJob(db, Apply(db, step), step, i);
    }
  }

  lemma WorkOnJob(db: DB, e: DB, step: Step, i: Id)
    requires Inv(db) && Inv(e) && WorkOf(step).Some? && SameFrame(db, e)
    requires i in db.jobs ==> View(e, i) == RowAfterStep(db, step, i)
    ensures JobStep(db, e, step, i)
  {}

  lemma PassiveOnJob(db: DB, e: DB, step: Step, i: Id)
    requires Inv(db) && Inv(e) && WorkOf(step).None? && Passive(db, e, step, i)
    ensures JobStep(db, e, step, i)
  {}

  /** A run seen from one job. */
  ghost predicate JobRun(dbs: seq<DB>, steps: seq<Step>, i: Id) {
    && |dbs| == |steps| + 1
    && (forall k :: 0 <= k < |steps| ==> JobStep(dbs[k], dbs[k + 1], steps[k], i))
  }

  lemma RunOfJob(dbs: seq<DB>, steps: seq<Step>, i: Id)
    requires IsRun(dbs, steps)
    ensures JobRun(dbs, steps, i)
  {
    forall k | 0 <= k < |steps|
      ensures JobStep(dbs[k], dbs[k + 1], steps[k], i)
    {
      RunInv(dbs, steps, k);
      StepOnJob(dbs[k], steps[k], i);
    }
  }

  lemma JobIssued(db: DB, i: Id)
    requires Inv(db) && i in db.jobs
    ensures i < db.nextId && RowOk(View(db, i))
  {}

  lemma {:induction false} NowGrows(dbs: seq<DB>, steps: seq<Step>, i: Id, k: nat, m: nat)
    requires JobRun(dbs, steps, i) && k <= m < |dbs|
    ensures dbs[k].now <= dbs[m].now && dbs[k].nextId <= dbs[m].nextId
  {
    if k < m {
      NowGrows(dbs, steps, i, k, m - 1);
      assert JobStep(dbs[m - 1], dbs[m], steps[m - 1], i);
    }
  }

  /** An identifier whose job is gone is never issued again. */
  lemma {:induction false} GoneStaysGone(dbs: seq<DB>, steps: seq<Step>, i: Id, k: nat, m: nat)
    requires JobRun(dbs, steps, i) && k <= m < |dbs| && i < dbs[k].nextId && i !in dbs[k].jobs
    ensures i !in dbs[m].jobs
  {
    if k < m {
      GoneStaysGone(dbs, steps, i, k, m - 1);
      NowGrows(dbs, steps, i, k, m - 1);
      assert JobStep(dbs[m - 1], dbs[m], steps[m - 1], i);
    }
  }

  // ---- lifecycle

  lemma StepFollowsEdges(db: DB, e: DB, step: Step, i: Id)
    requires JobStep(db, e, step, i) && i in db.jobs && i in e.jobs
    ensures e.jobs[i].status == db.jobs[i].status || CanTransition(db.jobs[i].status, e.jobs[i].status)
    ensures e.jobs[i].spec == db.jobs[i].spec
  {
    assert View(e, i).job == e.jobs[i];
    if Acts(db, step, i) {
      StatusFollowsEdges(View(db, i), WorkOf(step).value.op, db.now);
    }
  }

  /** In every run every status change is an edge of the lifecycle table, although no statement consults it. */
  lemma RunFollowsLifecycle(dbs: seq<DB>, steps: seq<Step>, k: nat, i: Id)
    requires IsRun(dbs, steps) && k < |steps| && i in dbs[k].jobs && i in dbs[k + 1].jobs
    ensures var s, t := dbs[k].jobs[i].status, dbs[k + 1].jobs[i].status;
            s == t || CanTransition(s, t)
  {
    RunOfJob(dbs, steps, i);
    StepFollowsEdges(dbs[k], dbs[k + 1], steps[k], i);
  }

  lemma {:induction false} StaysFinished(dbs: seq<DB>, steps: seq<Step>, k: nat, m: nat, i: Id)
    requires JobRun(dbs, steps, i) && k <= m < |dbs|
    requires i in dbs[k].jobs && i < dbs[k].nextId && dbs[k].jobs[i].status in {Completed, Cancelled}
    ensures i in dbs[m].jobs ==> dbs[m].jobs[i].status == dbs[k].jobs[i].status
  {
    if k < m {
      StaysFinished(dbs, steps, k, m - 1, i);
      NowGrows(dbs, steps, i, k, m - 1);
      assert JobStep(dbs[m - 1], dbs[m], steps[m - 1], i);
      if i in dbs[m].jobs {
        StepFollowsEdges(dbs[m - 1], dbs[m], steps[m - 1], i);
      }
    }
  }

  /** Completed and cancelled jobs never change status again. */
  lemma FinishedForGood(dbs: seq<DB>, steps: seq<Step>, k: nat, m: nat, i: Id)
    requires IsRun(dbs, steps) && k <= m < |dbs|
    requires i in dbs[k].jobs && dbs[k].jobs[i].status in {Completed, Cancelled}
    ensures i in dbs[m].jobs ==> dbs[m].jobs[i].status == dbs[k].jobs[i].status
  {
    RunInv(dbs, steps, k);
    JobIssued(dbs[k], i);
    RunOfJob(dbs, steps, i);
    StaysFinished(dbs, steps, k, m, i);
  }

  predicate CompletesJob(db: DB, step: Step, i: Id) {
    step.CompleteJob? && step.id == i && Acts(db, step, i)
  }

  lemma CompleteStep(db: DB, e: DB, step: Step, i: Id)
    requires JobStep(db, e, step, i) && CompletesJob(db, step, i)
    ensures db.jobs[i].status.Running? && i in e.jobs && e.jobs[i].status.Completed?
  {
    FenceImpliesRunning(View(db, i), step.worker, db.now);
    assert i in e.jobs;
    assert View(e, i).job == e.jobs[i];
  }

  /** At most one completion per job ever passes the fence. */
  lemma CompletesOnce(dbs: seq<DB>, steps: seq<Step>, k: nat, m: nat, i: Id)
    requires IsRun(dbs, steps) && k < m < |steps|
    requires CompletesJob(dbs[k], steps[k], i)
    ensures !CompletesJob(dbs[m], steps[m], i)
  {
    RunOfJob(dbs, steps, i);
    CompleteStep(dbs[k], dbs[k + 1], steps[k], i);
    FinishedForGood(dbs, steps, k + 1, m, i);
    if CompletesJob(dbs[m], steps[m], i) {
      CompleteStep(dbs[m], dbs[m + 1], steps[m], i);
    }
  }

  // ---- the fence against a worker that lost its lease

  predicate ClaimsJob(step: Step, w: Id, i: Id) {
    step.ClaimJobs? && step.worker == w && i in step.picked
  }

  /** The operations by which worker w speaks for a job it holds. */
  predicate SpeaksFor(step: Step, w: Id, i: Id) {
    WorkOf(step).Some? && i in WorkOf(step).value.ids &&
    match WorkOf(step).value.op
    case Complete(v, _) => v == w
    case Fail(v, _, _) => v == w
    case DeadLetter(v, _, _) => v == w
    case Beat(v, _) => v == w
    case Requeue(v) => v == w
    case _ => false
  }

  predicate HeldBy(db: DB, w: Id, i: Id) {
    i in db.jobs && db.jobs[i].lockedBy == Some(w)
  }

  lemma OnlyClaimLocks(r: Row, op: Op, now: int, w: Id)
    requires RowOk(r) && Legal(r, op, now) && r.job.lockedBy != Some(w) && After(r, op, now).job.lockedBy == Some(w)
    ensures op.Claim? && op.worker == w
  {}

  lemma LockStep(db: DB, e: DB, step: Step, w: Id, i: Id)
    requires JobStep(db, e, step, i) && !HeldBy(db, w, i) && HeldBy(e, w, i)
    ensures ClaimsJob(step, w, i)
  {
    assert View(e, i).job == e.jobs[i];
    if i in db.jobs && Acts(db, step, i) {
      OnlyClaimLocks(View(db, i), WorkOf(step).value.op, db.now, w);
    }
  }

  lemma {:induction false} StaysLost(dbs: seq<DB>, steps: seq<Step>, k: nat, m: nat, w: Id, i: Id)
    requires JobRun(dbs, steps, i) && k <= m < |dbs| && !HeldBy(dbs[k], w, i)
    requires forall n :: k <= n < m ==> !ClaimsJob(steps[n], w, i)
    ensures !HeldBy(dbs[m], w, i)
  {
    if k < m {
      StaysLost(dbs, steps, k, m - 1, w, i);
      assert JobStep(dbs[m - 1], dbs[m], steps[m - 1], i);
      if HeldBy(dbs[m], w, i) {
        LockStep(dbs[m - 1], dbs[m], steps[m - 1], w, i);
      }
    }
  }

  lemma SpeakingNeedsHolding(db: DB, step: Step, w: Id, i: Id)
    requires SpeaksFor(step, w, i) && Acts(db, step, i)
    ensures HeldBy(db, w, i)
  {}

  lemma SilentStep(db: DB, step: Step, i: Id)
    requires WorkOf(step).Some? && WorkOf(step).value.ids == [i] && !Acts(db, step, i)
    ensures Apply(db, step) == db
  {
    var work := WorkOf(step).value;
    assert DoAll(db, work.ids[..0], work.op) == db;
    assert DoAll(db, work.ids, work.op) == Do(db, i, work.op);
    assert i in work.ids;
  }

  /** Once worker w has lost a job, and until w claims it again, nothing that w says about the job reaches it;
      a completion, failure, dead-letter or one-job beat leaves the whole database as it was. */
  lemma LostWorkerIsFenced(dbs: seq<DB>, steps: seq<Step>, k: nat, m: nat, w: Id, i: Id)
    requires IsRun(dbs, steps) && k <= m < |steps|
    requires !HeldBy(dbs[k], w, i) && SpeaksFor(steps[m], w, i)
    requires forall n :: k <= n < m ==> !ClaimsJob(steps[n], w, i)
    ensures !Acts(dbs[m], steps[m], i)
    ensures WorkOf(steps[m]).value.ids == [i] ==> dbs[m + 1] == dbs[m]
    ensures i in dbs[m].jobs && i in dbs[m + 1].jobs ==> View(dbs[m + 1], i) == View(dbs[m], i)
  {
    RunOfJob(dbs, steps, i);
    StaysLost(dbs, steps, k, m, w, i);
    if Acts(dbs[m], steps[m], i) {
      SpeakingNeedsHolding(dbs[m], steps[m], w, i);
    }
    if WorkOf(steps[m]).value.ids == [i] {
      SilentStep(dbs[m], steps[m], i);
    }
    assert JobStep(dbs[m], dbs[m + 1], steps[m], i);
  }

  // ---- leases

  predicate Expired(j: Job, now: int) {
    j.status.Running? && j.lockedUntil.Some? && j.lockedUntil.value <= now
  }

  /** The step gives the job back: the reaper, or its own worker's shutdown. */
  predicate GivesBack(db: DB, step: Step, i: Id) {
    Acts(db, step, i) && (step.ReclaimStuck? || step.RequeueInflight?)
  }

  lemma ExpiredOnlyGivenBack(r: Row, op: Op, now: int)
    requires RowOk(r) && Expired(r.job, now) && Legal(r, op, now) && !op.Reclaim? && !op.Requeue?
    ensures op.Orphan? && After(r, op, now) == r.(job := r.job.(lockedBy := None))
  {}

  /** The same run of the same job, up to an owner that a deleted worker no longer is. */
  predicate SameAttempt(r: Row, s: Row) {
    s == r.(job := r.job.(lockedBy := s.job.lockedBy)) && s.job.lockedBy in {r.job.lockedBy, None}
  }

  lemma ExpiredStep(db: DB, e: DB, step: Step, i: Id)
    requires JobStep(db, e, step, i) && i in db.jobs && Expired(db.jobs[i], db.now) && !GivesBack(db, step, i)
    ensures i in e.jobs && Expired(e.jobs[i], e.now) && SameAttempt(View(db, i), View(e, i))
  {
    assert i in e.jobs;
    assert View(e, i).job == e.jobs[i];
    if Acts(db, step, i) {
      ExpiredOnlyGivenBack(View(db, i), WorkOf(step).value.op, db.now);
    }
  }

  lemma {:induction false} StaysExpired(dbs: seq<DB>, steps: seq<Step>, k: nat, m: nat, i: Id)
    requires JobRun(dbs, steps, i) && k <= m < |dbs| && i in dbs[k].jobs && Expired(dbs[k].jobs[i], dbs[k].now)
    requires forall n :: k <= n < m ==> !GivesBack(dbs[n], steps[n], i)
    ensures i in dbs[m].jobs && Expired(dbs[m].jobs[i], dbs[m].now) && SameAttempt(View(dbs[k], i), View(dbs[m], i))
  {
    if k < m {
      StaysExpired(dbs, steps, k, m - 1, i);
      ExpiredStep(dbs[m - 1], dbs[m], steps[m - 1], i);
    }
  }

  /** An expired lease is never extended and no fenced write commits under it: until the job is given back
      it stays running with that lease time, that attempt and those executions. */
  lemma NoLeaseResurrection(dbs: seq<DB>, steps: seq<Step>, k: nat, m: nat, i: Id)
    requires IsRun(dbs, steps) && k <= m < |dbs| && i in dbs[k].jobs && Expired(dbs[k].jobs[i], dbs[k].now)
    requires forall n :: k <= n < m ==> !GivesBack(dbs[n], steps[n], i)
    ensures i in dbs[m].jobs && Expired(dbs[m].jobs[i], dbs[m].now) && SameAttempt(View(dbs[k], i), View(dbs[m], i))
  {
    RunOfJob(dbs, steps, i);
    StaysExpired(dbs, steps, k, m, i);
  }

  // ---- bounded work

  predicate StatusChanged(db: DB, e: DB, i: Id) {
    i in db.jobs && i in e.jobs && db.jobs[i].status != e.jobs[i].status
  }

  /** How often the job's status changes from state k on. */
  function Changes(dbs: seq<DB>, i: Id, k: nat): nat
    decreases |dbs| - k
  {
    if k + 1 >= |dbs| then 0
    else (if StatusChanged(dbs[k], dbs[k + 1], i) then 1 else 0) + Changes(dbs, i, k + 1)
  }

  predicate Retried(db: DB, step: Step, i: Id) {
    step.RetryJob? && Acts(db, step, i)
  }

  /** How often the job is retried by hand from step k on. */
  function Retries(dbs: seq<DB>, steps: seq<Step>, i: Id, k: nat): nat
    requires |dbs| == |steps| + 1
    decreases |dbs| - k
  {
    if k >= |steps| then 0
    else (if Retried(dbs[k], steps[k], i) then 1 else 0) + Retries(dbs, steps, i, k + 1)
  }

  function MeasureIn(db: DB, i: Id): int {
    if i in db.jobs then Measure(db.jobs[i]) else 0
  }

  lemma MeasureStep(db: DB, e: DB, step: Step, i: Id)
    requires JobStep(db, e, step, i) && i < db.nextId
    ensures MeasureIn(e, i) + Ind(StatusChanged(db, e, i)) <= MeasureIn(db, i) + 9 * Ind(Retried(db, step, i))
    ensures MeasureIn(db, i) >= 0
  {
    if i in db.jobs {
      MeasureNonnegative(View(db, i));
      if i in e.jobs {
        assert View(e, i).job == e.jobs[i];
        if Acts(db, step, i) {
          MeasureDrops(View(db, i), WorkOf(step).value.op, db.now);
        }
      }
    }
  }

  lemma {:induction false} ChangesBounded(dbs: seq<DB>, steps: seq<Step>, i: Id, k: nat)
    requires JobRun(dbs, steps, i) && k < |steps| && i < dbs[k].nextId
    ensures Changes(dbs, i, k) <= MeasureIn(dbs[k], i) + 9 * Retries(dbs, steps, i, k)
    decreases |dbs| - k
  {
    assert JobStep(dbs[k], dbs[k + 1], steps[k], i);
    MeasureStep(dbs[k], dbs[k + 1], steps[k], i);
    if k + 1 < |steps| {
      ChangesBounded(dbs, steps, i, k + 1);
    } else {
      LastMeasure(dbs, steps, i);
    }
  }

  lemma LastMeasure(dbs: seq<DB>, steps: seq<Step>, i: Id)
    requires JobRun(dbs, steps, i) && |steps| > 0
    ensures MeasureIn(dbs[|steps|], i) >= 0
  {
    var n := |steps| - 1;
    assert JobStep(dbs[n], dbs[n + 1], steps[n], i);
    if i in dbs[|steps|].jobs {
      MeasureNonnegative(View(dbs[|steps|], i));
    }
  }

  /** From its insert on, a job changes status at most three times per attempt of its original budget plus nine
      times per manual retry, whatever workers, reapers and callers do. */
  lemma WorkIsBounded(dbs: seq<DB>, steps: seq<Step>, i: Id, k: nat)
    requires IsRun(dbs, steps) && k < |steps| && i !in dbs[k].jobs && i in dbs[k + 1].jobs
    ensures Changes(dbs, i, k + 1) <= 3 * dbs[k + 1].jobs[i].maxAttempts + 9 * Retries(dbs, steps, i, k + 1)
  {
    RunOfJob(dbs, steps, i);
    assert JobStep(dbs[k], dbs[k + 1], steps[k], i);
    if k + 1 < |steps| {
      ChangesBounded(dbs, steps, i, k + 1);
    }
  }

  // ---- retries wait

  lemma RetryingWaits(r: Row, op: Op, now: int)
    requires RowOk(r) && Legal(r, op, now) && !op.Retry?
    requires r.job.status.Cancelled? || (r.job.status.Retrying? && now < r.job.runAt)
    ensures var s := After(r, op, now).job;
            s.status.Cancelled? || (s.status.Retrying? && s.runAt == r.job.runAt)
  {}

  predicate Waits(db: DB, i: Id, until: int) {
    && i < db.nextId
    && (i in db.jobs ==> db.jobs[i].status.Cancelled? || (db.jobs[i].status.Retrying? && db.jobs[i].runAt == until))
  }

  lemma WaitStep(db: DB, e: DB, step: Step, i: Id, until: int)
    requires JobStep(db, e, step, i) && Waits(db, i, until) && db.now < until && !Retried(db, step, i)
    ensures Waits(e, i, until)
  {
    if i in e.jobs {
      assert View(e, i).job == e.jobs[i];
      if Acts(db, step, i) {
        RetryingWaits(View(db, i), WorkOf(step).value.op, db.now);
      }
    }
  }

  lemma {:induction false} StaysWaiting(dbs: seq<DB>, steps: seq<Step>, k: nat, m: nat, i: Id, until: int)
    requires JobRun(dbs, steps, i) && k <= m < |dbs| && Waits(dbs[k], i, until) && dbs[m].now < until
    requires forall n :: k <= n < m ==> !Retried(dbs[n], steps[n], i)
    ensures Waits(dbs[m], i, until)
  {
    if k < m {
      assert JobStep(dbs[m - 1], dbs[m], steps[m - 1], i);
      StaysWaiting(dbs, steps, k, m - 1, i, until);
      WaitStep(dbs[m - 1], dbs[m], steps[m - 1], i, until);
    }
  }

  /** The job fails at this step with attempts left. */
  predicate FailsWithRetry(db: DB, step: Step, i: Id) {
    step.FailJob? && step.id == i && Acts(db, step, i) && ShouldRetry(db.jobs[i].attempts, db.jobs[i].maxAttempts)
  }

  function RetryTime(db: DB, step: Step, i: Id): int
    requires step.FailJob? && i in db.jobs
  {
    db.now + ComputeBackoffMs(db.jobs[i].spec.curve, db.jobs[i].attempts, step.rand)
  }

  lemma FailStep(db: DB, e: DB, step: Step, i: Id)
    requires JobStep(db, e, step, i) && FailsWithRetry(db, step, i)
    ensures Waits(e, i, RetryTime(db, step, i))
  {
    if i in e.jobs { assert View(e, i).job == e.jobs[i]; }
  }

  /** A job that fails with attempts left is not claimed again before its backoff delay has passed, unless
      it is retried by hand. */
  lemma NotClaimedDuringBackoff(dbs: seq<DB>, steps: seq<Step>, k: nat, m: nat, i: Id)
    requires IsRun(dbs, steps) && k < m < |steps|
    requires FailsWithRetry(dbs[k], steps[k], i)
    requires forall n :: k < n < m ==> !Retried(dbs[n], steps[n], i)
    requires dbs[m].now < RetryTime(dbs[k], steps[k], i)
    ensures !(steps[m].ClaimJobs? && Acts(dbs[m], steps[m], i))
  {
    RunOfJob(dbs, steps, i);
    FailStep(dbs[k], dbs[k + 1], steps[k], i);
    StaysWaiting(dbs, steps, k + 1, m, i, RetryTime(dbs[k], steps[k], i));
  }

  // ---- live workers

  /** Worker w beats for the job: its beat names the job. */
  predicate BeatsFor(step: Step, w: Id, i: Id) {
    step.Heartbeat? && step.worker == w && i in step.ids
  }

  /** Step r claims the job (at k) or beats for it. */
  predicate Renews(steps: seq<Step>, k: nat, r: nat, w: Id, i: Id)
    requires r < |steps|
  {
    r == k || BeatsFor(steps[r], w, i)
  }

  /** Some claim or beat from k on, before state n, is younger than the lease. */
  ghost predicate BeatenInTime(dbs: seq<DB>, steps: seq<Step>, k: nat, n: nat, w: Id, i: Id, leaseMs: int)
    requires |dbs| == |steps| + 1 && n < |dbs|
  {
    exists r :: k <= r < n && Renews(steps, k, r, w, i) && dbs[n].now - dbs[r].now < leaseMs
  }

  /** Worker w itself ends its hold on the job, or its row is deleted. */
  predicate LetsGo(db: DB, step: Step, w: Id, i: Id) {
    Acts(db, step, i) && EndsHold(WorkOf(step).value.op, w)
  }

  predicate EndsHold(op: Op, w: Id) {
    (op.Complete? || op.Fail? || op.DeadLetter? || op.Requeue? || op.Orphan?) && op.worker == w
  }

  lemma HeldRow(r: Row, op: Op, now: int, w: Id)
    requires RowOk(r) && Legal(r, op, now) && Fenced(r.job, w, now) && !EndsHold(op, w)
    ensures op.Beat? && op.worker == w
  {}

  predicate HoldsLease(db: DB, w: Id, i: Id, until: int) {
    i in db.jobs && db.jobs[i].status.Running? && db.jobs[i].lockedBy == Some(w)
    && db.jobs[i].lockedUntil.Some? && db.jobs[i].lockedUntil.value >= until
  }

  lemma ClaimStep(db: DB, e: DB, step: Step, w: Id, i: Id)
    requires JobStep(db, e, step, i) && ClaimsJob(step, w, i) && Acts(db, step, i)
    ensures HoldsLease(e, w, i, db.now + step.lease * 1000)
  {
    assert i in e.jobs;
    assert View(e, i).job == e.jobs[i];
  }

  /** A held, unexpired lease is kept by every step, and a beat for it sets it anew. */
  lemma HoldStep(db: DB, e: DB, step: Step, w: Id, i: Id, until: int, lease: nat)
    requires JobStep(db, e, step, i) && HoldsLease(db, w, i, until) && Fenced(db.jobs[i], w, db.now)
    requires !LetsGo(db, step, w, i) && (BeatsFor(step, w, i) ==> step.lease == lease)
    requires until <= db.now + lease * 1000
    ensures HoldsLease(e, w, i, until)
    ensures BeatsFor(step, w, i) ==> HoldsLease(e, w, i, db.now + lease * 1000)
  {
    assert i in e.jobs;
    assert View(e, i).job == e.jobs[i];
    if Acts(db, step, i) {
      HeldRow(View(db, i), WorkOf(step).value.op, db.now, w);
    }
  }

  /** Whoever claims a job and beats for it at gaps shorter than the lease keeps it: the lease always reaches
      past every claim or beat by its full length. */
  lemma {:induction false} BeatenJobStaysHeld(dbs: seq<DB>, steps: seq<Step>, k: nat, m: nat, w: Id, i: Id, lease: nat,
                                              r: nat)
    requires JobRun(dbs, steps, i) && k < m < |dbs|
    requires ClaimsJob(steps[k], w, i) && steps[k].lease == lease && Acts(dbs[k], steps[k], i)
    requires forall n :: k < n < m && BeatsFor(steps[n], w, i) ==> steps[n].lease == lease
    requires forall n :: k < n < m ==> !LetsGo(dbs[n], steps[n], w, i)
    requires forall n :: k < n < m ==> BeatenInTime(dbs, steps, k, n, w, i, lease * 1000)
    requires k <= r < m && Renews(steps, k, r, w, i)
    ensures HoldsLease(dbs[m], w, i, dbs[r].now + lease * 1000)
    decreases m
  {
    var p := m - 1;
    assert JobStep(dbs[p], dbs[m], steps[p], i);
    if p == k {
      ClaimStep(dbs[p], dbs[m], steps[p], w, i);
    } else {
      assert BeatenInTime(dbs, steps, k, p, w, i, lease * 1000);
      var b :| k <= b < p && Renews(steps, k, b, w, i) && dbs[p].now - dbs[b].now < lease * 1000;
      BeatenJobStaysHeld(dbs, steps, k, p, w, i, lease, b);
      var t := if r == p then b else r;
      BeatenJobStaysHeld(dbs, steps, k, p, w, i, lease, t);
      NowGrows(dbs, steps, i, t, p);
      assert !LetsGo(dbs[p], steps[p], w, i);
      HoldStep(dbs[p], dbs[m], steps[p], w, i, dbs[t].now + lease * 1000, lease);
    }
  }

  lemma FencedNotStuck(db: DB, step: Step, w: Id, i: Id)
    requires Enabled(db, step) && i in db.jobs && Fenced(db.jobs[i], w, db.now)
    ensures i !in StuckJobs(db)
    ensures !(step.ReclaimStuck? && i in step.ids)
  {
    assert step.ReclaimStuck? ==> (i in step.ids <==> i in Elems(step.ids));
  }

  /** A live worker is never reaped: while every state finds a claim or beat younger than the lease, the
      reaper does not select the job. */
  lemma LiveWorkerNotReaped(dbs: seq<DB>, steps: seq<Step>, k: nat, m: nat, w: Id, i: Id, lease: nat)
    requires IsRun(dbs, steps) && k < m < |steps|
    requires ClaimsJob(steps[k], w, i) && steps[k].lease == lease && Acts(dbs[k], steps[k], i)
    requires forall n :: k < n < m && BeatsFor(steps[n], w, i) ==> steps[n].lease == lease
    requires forall n :: k < n < m ==> !LetsGo(dbs[n], steps[n], w, i)
    requires forall n :: k < n <= m ==> BeatenInTime(dbs, steps, k, n, w, i, lease * 1000)
    ensures i in dbs[m].jobs && Fenced(dbs[m].jobs[i], w, dbs[m].now)
    ensures i !in StuckJobs(dbs[m])
    ensures !(steps[m].ReclaimStuck? && i in steps[m].ids)
  {
    RunOfJob(dbs, steps, i);
    assert BeatenInTime(dbs, steps, k, m, w, i, lease * 1000);
    var r :| k <= r < m && Renews(steps, k, r, w, i) && dbs[m].now - dbs[r].now < lease * 1000;
    BeatenJobStaysHeld(dbs, steps, k, m, w, i, lease, r);
    FencedNotStuck(dbs[m], steps[m], w, i);
  }
}
