/** What becomes of a handler whose worker lost the job and claimed it again: the fence compares workers, not
    attempts. */
module Handlers {
  import opened Common
  import opened Model
  import opened Rows
  import opened Database
  import opened Steps
  import opened Runs

  /** The claim reaches the job. */
  predicate ClaimActs(db: DB, step: Step, w: Id, i: Id) {
    ClaimsJob(step, w, i) && Acts(db, step, i)
  }

  // ---- how a worker comes to hold a job, and to lose it

  lemma ClaimedStep(db: DB, e: DB, step: Step, w: Id, i: Id)
    requires JobStep(db, e, step, i) && ClaimActs(db, step, w, i)
    ensures !HeldBy(db, w, i) && HeldBy(e, w, i) && e.jobs[i].attempts == db.jobs[i].attempts + 1
  {
    assert i in e.jobs;
    assert View(e, i).job == e.jobs[i];
  }

  lemma HoldNeedsClaim(db: DB, e: DB, step: Step, w: Id, i: Id)
    requires JobStep(db, e, step, i) && !HeldBy(db, w, i) && HeldBy(e, w, i)
    ensures ClaimActs(db, step, w, i)
  {
    LockStep(db, e, step, w, i);
    assert View(e, i).job == e.jobs[i];
  }

  /** The operations that take a job from worker w: its own reports, its shutdown, its deletion, and the reaper. */
  predicate TakesFrom(op: Op, w: Id) {
    op.Reclaim? || ((op.Complete? || op.Fail? || op.DeadLetter? || op.Requeue? || op.Orphan?) && op.worker == w)
  }

  lemma LossOfRow(r: Row, op: Op, now: int, w: Id)
    requires RowOk(r) && Legal(r, op, now) && r.job.lockedBy == Some(w) && After(r, op, now).job.lockedBy != Some(w)
    ensures TakesFrom(op, w)
  {}

  lemma LossStep(db: DB, e: DB, step: Step, w: Id, i: Id)
    requires JobStep(db, e, step, i) && HeldBy(db, w, i) && !HeldBy(e, w, i)
    ensures Acts(db, step, i) && TakesFrom(WorkOf(step).value.op, w)
  {
    assert RowOk(View(db, i)) && i in e.jobs;
    assert View(e, i).job == e.jobs[i];
    LossOfRow(View(db, i), WorkOf(step).value.op, db.now, w);
  }

  lemma {:induction false} SomeLoss(dbs: seq<DB>, steps: seq<Step>, k: nat, m: nat, w: Id, i: Id) returns (n: nat)
    requires JobRun(dbs, steps, i) && k < m < |dbs| && HeldBy(dbs[k], w, i) && !HeldBy(dbs[m], w, i)
    ensures k <= n < m && HeldBy(dbs[n], w, i) && !HeldBy(dbs[n + 1], w, i)
  {
    if HeldBy(dbs[m - 1], w, i) {
      n := m - 1;
    } else {
      n := SomeLoss(dbs, steps, k, m - 1, w, i);
    }
  }

  /** Between two claims of one job by one worker some step took the job from it; so a worker none of whose handlers for
      the job has reported meanwhile lost it to the reaper, or by its own shutdown or deletion. */
  lemma SecondClaimNeedsLoss(dbs: seq<DB>, steps: seq<Step>, c: nat, m: nat, w: Id, i: Id) returns (n: nat)
    requires IsRun(dbs, steps) && c < m < |steps|
    requires ClaimActs(dbs[c], steps[c], w, i) && ClaimActs(dbs[m], steps[m], w, i)
    ensures c < n < m && HeldBy(dbs[n], w, i) && !HeldBy(dbs[n + 1], w, i)
    ensures Acts(dbs[n], steps[n], i) && TakesFrom(WorkOf(steps[n]).value.op, w)
  {
    RunOfJob(dbs, steps, i);
    ClaimedStep(dbs[c], dbs[c + 1], steps[c], w, i);
    ClaimedStep(dbs[m], dbs[m + 1], steps[m], w, i);
    n := SomeLoss(dbs, steps, c + 1, m, w, i);
    LossStep(dbs[n], dbs[n + 1], steps[n], w, i);
  }

  // ---- attempts

  lemma AttemptsOfRow(r: Row, op: Op, now: int)
    requires RowOk(r) && Legal(r, op, now)
    ensures r.job.attempts <= After(r, op, now).job.attempts
    ensures r.job.lockedBy.Some? ==> After(r, op, now).job.attempts == r.job.attempts
  {}

  lemma AttemptsStep(db: DB, e: DB, step: Step, i: Id)
    requires JobStep(db, e, step, i) && i in db.jobs && i in e.jobs
    ensures db.jobs[i].attempts <= e.jobs[i].attempts
    ensures db.jobs[i].lockedBy.Some? ==> e.jobs[i].attempts == db.jobs[i].attempts
  {
    assert View(e, i).job == e.jobs[i];
    if Acts(db, step, i) {
      AttemptsOfRow(View(db, i), WorkOf(step).value.op, db.now);
    }
  }

  lemma {:induction false} AttemptsGrow(dbs: seq<DB>, steps: seq<Step>, k: nat, m: nat, i: Id)
    requires JobRun(dbs, steps, i) && k <= m < |dbs| && i in dbs[k].jobs && i in dbs[m].jobs && i < dbs[k].nextId
    ensures dbs[k].jobs[i].attempts <= dbs[m].jobs[i].attempts
  {
    if k < m {
      NowGrows(dbs, steps, i, k, m - 1);
      assert JobStep(dbs[m - 1], dbs[m], steps[m - 1], i);
      AttemptsGrow(dbs, steps, k, m - 1, i);
      AttemptsStep(dbs[m - 1], dbs[m], steps[m - 1], i);
    }
  }

  predicate HoldsAttempt(db: DB, w: Id, i: Id, n: nat) {
    HeldBy(db, w, i) && db.jobs[i].attempts == n
  }

  lemma HeldStep(db: DB, e: DB, step: Step, w: Id, i: Id, n: nat)
    requires JobStep(db, e, step, i) && HoldsAttempt(e, w, i, n)
    ensures ClaimActs(db, step, w, i) || HoldsAttempt(db, w, i, n)
  {
    if !HeldBy(db, w, i) {
      HoldNeedsClaim(db, e, step, w, i);
    }
    AttemptsStep(db, e, step, i);
  }

  /** A worker that holds a job has either claimed it since an earlier moment, or held it and its attempt all along. */
  lemma {:induction false} HeldOrClaimed(dbs: seq<DB>, steps: seq<Step>, k: nat, m: nat, w: Id, i: Id, n: nat)
      returns (claim: Option<nat>)
    requires JobRun(dbs, steps, i) && k <= m < |dbs| && HoldsAttempt(dbs[m], w, i, n)
    ensures claim.Some? ==> k <= claim.value < m && ClaimActs(dbs[claim.value], steps[claim.value], w, i)
    ensures claim.None? ==> HoldsAttempt(dbs[k], w, i, n)
  {
    if k == m {
      claim := None;
    } else {
      HeldStep(dbs[m - 1], dbs[m], steps[m - 1], w, i, n);
      if HoldsAttempt(dbs[m - 1], w, i, n) {
        claim := HeldOrClaimed(dbs, steps, k, m - 1, w, i, n);
      } else {
        claim := Some(m - 1);
      }
    }
  }

  lemma CompletedAttempt(db: DB, e: DB, step: Step, i: Id)
    requires JobStep(db, e, step, i) && Acts(db, step, i) && step.CompleteJob? && step.id == i
    ensures HeldBy(db, step.worker, i) && i in e.jobs
    ensures db.jobs[i].attempts in View(e, i).execs && View(e, i).execs[db.jobs[i].attempts].status.ExecSucceeded?
  {
    assert RowOk(View(db, i)) && i in e.jobs;
  }

  lemma ClaimRaisesAttempt(dbs: seq<DB>, steps: seq<Step>, c: nat, n: nat, m: nat, w: Id, i: Id)
    requires JobRun(dbs, steps, i) && c < n < m < |dbs| && i in dbs[m].jobs
    requires ClaimActs(dbs[c], steps[c], w, i) && ClaimActs(dbs[n], steps[n], w, i)
    ensures dbs[m].jobs[i].attempts > dbs[c].jobs[i].attempts + 1
  {
    ClaimedStep(dbs[c], dbs[c + 1], steps[c], w, i);
    ClaimedStep(dbs[n], dbs[n + 1], steps[n], w, i);
    assert JobStep(dbs[c], dbs[c + 1], steps[c], i) && JobStep(dbs[n], dbs[n + 1], steps[n], i);
    AttemptsGrow(dbs, steps, c + 1, n, i);
    AttemptsGrow(dbs, steps, n + 1, m, i);
  }

  /** Along every run: a completion by a worker that claimed the job settles the job's current attempt, and that is a
      later attempt than the one it claimed exactly if it claimed the job again in between. */
  lemma SettlesLaterAttemptIffClaimedAgain(dbs: seq<DB>, steps: seq<Step>, c: nat, m: nat, w: Id, i: Id)
    requires IsRun(dbs, steps) && c < m < |steps| && ClaimActs(dbs[c], steps[c], w, i)
    requires steps[m].CompleteJob? && steps[m].id == i && steps[m].worker == w && Acts(dbs[m], steps[m], i)
    ensures i in dbs[m + 1].jobs && dbs[m].jobs[i].attempts in View(dbs[m + 1], i).execs
    ensures View(dbs[m + 1], i).execs[dbs[m].jobs[i].attempts].status.ExecSucceeded?
    ensures dbs[m].jobs[i].attempts >= dbs[c].jobs[i].attempts + 1
    ensures dbs[m].jobs[i].attempts > dbs[c].jobs[i].attempts + 1 <==>
              exists n :: c < n < m && ClaimActs(dbs[n], steps[n], w, i)
  {
    RunOfJob(dbs, steps, i);
    CompletedAttempt(dbs[m], dbs[m + 1], steps[m], i);
    ClaimedStep(dbs[c], dbs[c + 1], steps[c], w, i);
    if n :| c < n < m && ClaimActs(dbs[n], steps[n], w, i) {
      ClaimRaisesAttempt(dbs, steps, c, n, m, w, i);
    } else {
      var _ := HeldOrClaimed(dbs, steps, c + 1, m, w, i, dbs[m].jobs[i].attempts);
    }
  }
}
