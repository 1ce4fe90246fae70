/** The retry contract: frozen into a job at its insert, whatever happens to its queue's policy afterwards. */
module Contracts {
  import opened Common
  import opened Lifecycle
  import opened Backoff
  import opened Model
  import opened Rows
  import opened Database
  import opened Steps
  import opened Invariant
  import opened Runs

  /** The job carries the contract. */
  predicate Carries(c: RetryPolicy, j: Job) {
    j.spec.curve == c.curve && j.maxAttempts == c.maxAttempts
  }

  /** The contract under which a step inserts into a queue: what the insert's own earlier statement read, or what the
      queue offers. */
  function Granted(db: DB, step: Step, q: Id): RetryPolicy {
    if step.InsertJob? then ContractOf(db, step.args) else Contract(db, q)
  }

  lemma InsertedCarries(db: DB, a: NewJob, i: Id)
    requires TablesOk(db) && i in Insert(db, a).jobs && i !in db.jobs
    ensures Carries(ContractOf(db, a), Insert(db, a).jobs[i])
  {
    InsertViews(db, a);
  }

  lemma FireKeepsContracts(db: DB, s: Id, next: Option<int>, q: Id)
    ensures Contract(Fire(db, s, next), q) == Contract(db, q)
  {}

  lemma FiredCarries(db: DB, s: Id, next: Option<int>, i: Id)
    requires TablesOk(db) && i in Fire(db, s, next).jobs && i !in db.jobs
    ensures var j := Fire(db, s, next).jobs[i]; Carries(Contract(db, j.spec.queue), j)
  {
    InsertedCarries(db, Occurrence(db, s), i);
  }

  lemma {:induction false} TickKeepsContracts(db: DB, due: seq<Id>, next: NextRuns, q: Id)
    ensures Contract(FireAll(db, due, next), q) == Contract(db, q)
  {
    if |due| > 0 {
      var front, last := due[..|due| - 1], due[|due| - 1];
      TickKeepsContracts(db, front, next, q);
      FireKeepsContracts(FireAll(db, front, next), last, NextRun(next, last), q);
    }
  }

  lemma {:induction false} TickCarries(db: DB, due: seq<Id>, next: NextRuns, i: Id)
    requires TablesOk(db) && i in FireAll(db, due, next).jobs && i !in db.jobs
    ensures var j := FireAll(db, due, next).jobs[i]; Carries(Contract(db, j.spec.queue), j)
  {
    var front, last := due[..|due| - 1], due[|due| - 1];
    var m, e := FireAll(db, front, next), FireAll(db, due, next);
    FireAllViews(db, front, next);
    FireViews(m, last, NextRun(next, last));
    if i in m.jobs {
      assert View(e, i).job == View(m, i).job;
      TickCarries(db, front, next, i);
    } else {
      FiredCarries(m, last, NextRun(next, last), i);
      TickKeepsContracts(db, front, next, e.jobs[i].spec.queue);
    }
  }

  lemma NewcomerCarries(db: DB, step: Step, i: Id)
    requires Inv(db) && Enabled(db, step) && i in Apply(db, step).jobs && i !in db.jobs
    ensures var j := Apply(db, step).jobs[i]; Carries(Granted(db, step, j.spec.queue), j)
  {
    if WorkOf(step).Some? {
      WorkHasNoDup(db, step);
      BatchFrame(db, WorkOf(step).value, i);
      assert false;
    } else if step.PromoteRecurring? {
      TickCarries(db, step.due, step.next, i);
    } else if step.InsertJob? {
      InsertedCarries(db, step.args, i);
    }
  }

  /** The columns fixed at insert stay for as long as the job exists. */
  lemma {:induction false} SpecStays(dbs: seq<DB>, steps: seq<Step>, k: nat, m: nat, i: Id)
    requires JobRun(dbs, steps, i) && k <= m < |dbs| && i in dbs[k].jobs && i in dbs[m].jobs
    ensures dbs[m].jobs[i].spec == dbs[k].jobs[i].spec
  {
    if k < m {
      var p := m - 1;
      NowGrows(dbs, steps, i, k, p);
      assert JobStep(dbs[p], dbs[m], steps[p], i);
      assert i < dbs[k].nextId by { assert JobStep(dbs[k], dbs[k + 1], steps[k], i); }
      SpecStays(dbs, steps, k, p, i);
      StepFollowsEdges(dbs[p], dbs[m], steps[p], i);
    }
  }

  /** A failure is timed by the contract under which the job was inserted, not by any policy its queue got since. */
  lemma DelayFollowsFrozenContract(dbs: seq<DB>, steps: seq<Step>, k: nat, m: nat, i: Id)
    requires IsRun(dbs, steps) && k < m < |steps|
    requires i !in dbs[k].jobs && i in dbs[k + 1].jobs && FailsWithRetry(dbs[m], steps[m], i)
    ensures i in dbs[m + 1].jobs && dbs[m + 1].jobs[i].status.Retrying?
    ensures var c := Granted(dbs[k], steps[k], dbs[m].jobs[i].spec.queue);
            && dbs[k + 1].jobs[i].maxAttempts == c.maxAttempts
            && dbs[m + 1].jobs[i].runAt ==
                 dbs[m].now + ComputeBackoffMs(c.curve, dbs[m].jobs[i].attempts, steps[m].rand)
            && dbs[m].jobs[i].attempts >= 1
            && NearNominal(c.curve, dbs[m].jobs[i].attempts, steps[m].rand, dbs[m + 1].jobs[i].runAt - dbs[m].now)
  {
    RunOfJob(dbs, steps, i);
    RunInv(dbs, steps, k);
    NewcomerCarries(dbs[k], steps[k], i);
    SpecStays(dbs, steps, k + 1, m, i);
    FailedJob(dbs[m], dbs[m + 1], steps[m], i);
    FailureIsNearNominal(dbs[m], dbs[m + 1], steps[m], i);
  }

  lemma FailureIsNearNominal(db: DB, e: DB, step: Step, i: Id)
    requires JobStep(db, e, step, i) && Enabled(db, step) && FailsWithRetry(db, step, i)
    ensures db.jobs[i].attempts >= 1
    ensures NearNominal(db.jobs[i].spec.curve, db.jobs[i].attempts, step.rand,
                        ComputeBackoffMs(db.jobs[i].spec.curve, db.jobs[i].attempts, step.rand))
  {
    FenceImpliesRunning(View(db, i), step.worker, db.now);
    DelayIsNearNominal(db.jobs[i].spec.curve, db.jobs[i].attempts, step.rand);
  }

  lemma BudgetStep(db: DB, e: DB, step: Step, i: Id)
    requires JobStep(db, e, step, i) && i in db.jobs && i in e.jobs && !Retried(db, step, i)
    ensures e.jobs[i].maxAttempts == db.jobs[i].maxAttempts
  {
    assert View(e, i).job == e.jobs[i];
    if Acts(db, step, i) {
      BudgetKept(View(db, i), WorkOf(step).value.op, db.now);
    }
  }

  lemma BudgetKept(r: Row, op: Op, now: int)
    requires !op.Retry?
    ensures After(r, op, now).job.maxAttempts == r.job.maxAttempts
  {}

  lemma {:induction false} BudgetStays(dbs: seq<DB>, steps: seq<Step>, k: nat, m: nat, i: Id)
    requires JobRun(dbs, steps, i) && k <= m < |dbs| && i in dbs[k].jobs && i in dbs[m].jobs
    requires forall n :: k <= n < m ==> !Retried(dbs[n], steps[n], i)
    ensures dbs[m].jobs[i].maxAttempts == dbs[k].jobs[i].maxAttempts
  {
    if k < m {
      var p := m - 1;
      NowGrows(dbs, steps, i, k, p);
      assert JobStep(dbs[p], dbs[m], steps[p], i);
      assert i < dbs[k].nextId by { assert JobStep(dbs[k], dbs[k + 1], steps[k], i); }
      BudgetStays(dbs, steps, k, p, i);
      BudgetStep(dbs[p], dbs[m], steps[p], i);
    }
  }

  /** Until it is retried by hand a job has the attempts of the contract under which it was inserted: a failure retries
      exactly while fewer are used. */
  lemma BudgetFollowsFrozenContract(dbs: seq<DB>, steps: seq<Step>, k: nat, m: nat, i: Id)
    requires IsRun(dbs, steps) && k < m < |steps|
    requires i !in dbs[k].jobs && i in dbs[k + 1].jobs && i in dbs[m].jobs && steps[m].FailJob? && steps[m].id == i
    requires Acts(dbs[m], steps[m], i) && forall n :: k < n < m ==> !Retried(dbs[n], steps[n], i)
    ensures var c := Granted(dbs[k], steps[k], dbs[m].jobs[i].spec.queue);
            && dbs[m].jobs[i].maxAttempts == c.maxAttempts && i in dbs[m + 1].jobs
            && dbs[m + 1].jobs[i].status == if dbs[m].jobs[i].attempts < c.maxAttempts then Retrying else Dead
  {
    RunOfJob(dbs, steps, i);
    RunInv(dbs, steps, k);
    NewcomerCarries(dbs[k], steps[k], i);
    SpecStays(dbs, steps, k + 1, m, i);
    BudgetStays(dbs, steps, k + 1, m, i);
    FailureOutcome(dbs[m], dbs[m + 1], steps[m], i);
  }

  lemma FailureOutcome(db: DB, e: DB, step: Step, i: Id)
    requires JobStep(db, e, step, i) && Acts(db, step, i) && step.FailJob? && step.id == i
    ensures i in e.jobs
    ensures e.jobs[i].status == if db.jobs[i].attempts < db.jobs[i].maxAttempts then Retrying else Dead
  {
    FenceImpliesRunning(View(db, i), step.worker, db.now);
    if i in e.jobs {
      assert View(e, i).job == e.jobs[i];
    }
  }

  lemma FailedJob(db: DB, e: DB, step: Step, i: Id)
    requires JobStep(db, e, step, i) && FailsWithRetry(db, step, i)
    ensures i in e.jobs && e.jobs[i].status.Retrying? && e.jobs[i].runAt == RetryTime(db, step, i)
  {
    if i in e.jobs {
      assert View(e, i).job == e.jobs[i];
    }
  }
}
