/** The reaper's and the shutdown's loops over rows: the order in which rows come does not matter. */
module Batches {
  import opened Common
  import opened Lifecycle
  import opened Model
  import opened Rows
  import opened Database
  import opened Steps

  lemma {:induction false} BatchKeepsOwed(db: DB, ids: seq<Id>, op: Op)
    requires !op.Cancel?
    ensures DoAll(db, ids, op).owed == db.owed
  {
    if |ids| > 0 {
      BatchKeepsOwed(db, ids[..|ids| - 1], op);
    }
  }

  lemma SameViewsSameTables(a: DB, b: DB)
    requires KeysOk(a.jobs, a.execs, a.dlq) && KeysOk(b.jobs, b.execs, b.dlq) && a.jobs.Keys == b.jobs.Keys
    requires forall i :: i in a.jobs ==> View(a, i) == View(b, i)
    ensures a.jobs == b.jobs && a.execs == b.execs && a.dlq == b.dlq
  {
    forall i | i in a.jobs
      ensures a.jobs[i] == b.jobs[i] && a.execs[i] == b.execs[i]
      ensures (i in a.dlq <==> i in b.dlq) && (i in a.dlq ==> a.dlq[i] == b.dlq[i])
    {
      assert View(a, i) == View(b, i);
    }
  }

  /** Two good states with the same rows and the same settings are the same state. */
  lemma SameViewsSameState(a: DB, b: DB)
    requires TablesOk(a) && TablesOk(b) && CountersOk(a) && CountersOk(b) && SameFrame(a, b) && a.owed == b.owed
    requires forall i :: i in a.jobs ==> View(a, i) == View(b, i)
    ensures a == b
  {
    SameViewsSameTables(a, b);
    CountersDetermined(a, b);
  }

  lemma FrameEuclid(a: DB, b: DB, c: DB)
    requires SameFrame(a, b) && SameFrame(a, c)
    ensures SameFrame(b, c)
  {}

  lemma SameSetSameRow(db: DB, a: seq<Id>, b: seq<Id>, op: Op, i: Id)
    requires Elems(a) == Elems(b) && i in db.jobs
    ensures BatchRow(db, a, op, i) == BatchRow(db, b, op, i)
  {
    assert i in a <==> i in Elems(a);
    assert i in b <==> i in Elems(b);
  }

  lemma BatchFacts(db: DB, ids: seq<Id>, op: Op)
    requires Inv(db) && NoDup(ids) && !op.Retry? && !op.Cancel?
    ensures var e := DoAll(db, ids, op);
            TablesOk(e) && CountersOk(e) && SameFrame(db, e) && e.owed == db.owed
  {
    DoAllKeepsInv(db, ids, op);
    DoAllView(db, ids, op);
    BatchKeepsOwed(db, ids, op);
  }

  /** Every order of the selected rows ends in the same database, counters and dead-letter rows included. */
  lemma OrderDoesNotMatter(db: DB, a: seq<Id>, b: seq<Id>, op: Op)
    requires Inv(db) && NoDup(a) && NoDup(b) && Elems(a) == Elems(b) && !op.Retry? && !op.Cancel?
    ensures DoAll(db, a, op) == DoAll(db, b, op)
  {
    BatchFacts(db, a, op);
    BatchFacts(db, b, op);
    SameRowsEither(db, a, b, op);
    FrameEuclid(db, DoAll(db, a, op), DoAll(db, b, op));
    SameViewsSameState(DoAll(db, a, op), DoAll(db, b, op));
  }

  lemma SameRowsEither(db: DB, a: seq<Id>, b: seq<Id>, op: Op)
    requires NoDup(a) && NoDup(b) && Elems(a) == Elems(b)
    ensures DoAll(db, a, op).jobs.Keys == DoAll(db, b, op).jobs.Keys == db.jobs.Keys
    ensures forall i :: i in db.jobs ==> View(DoAll(db, a, op), i) == View(DoAll(db, b, op), i)
  {
    DoAllView(db, a, op);
    DoAllView(db, b, op);
    forall i | i in db.jobs
      ensures View(DoAll(db, a, op), i) == View(DoAll(db, b, op), i)
    {
      SameSetSameRow(db, a, b, op, i);
    }
  }

  /** What a failure leaves behind: the error of the attempt; and of a final attempt, why the job died and what it and
      its dead-letter row say. */
  datatype Note = Note(error: string, reason: DeathReason, finalError: string)

  const LAPSED := Note("reclaimed: worker lease expired", ReclaimedFinal,
                       "reclaimed on final attempt: worker lease expired")
  const SHUTDOWN := Note("requeued on worker shutdown", ShutdownFinal,
                         "worker shutdown on final attempt: requeued to DLQ")

  /** The job comes back from a worker with its attempt used up and attempts left: it may run again at once. */
  predicate Returned(r: Row, s: Row, error: string, now: int) {
    && r.job.status.Running? && r.job.attempts < r.job.maxAttempts
    && s.job == r.job.(status := Queued, lockedBy := None, lockedUntil := None, runAt := now, lastError := Some(error))
    && s.execs == r.execs[r.job.attempts := Exec(ExecFailed, Some(error))] && s.dlq.None?
  }

  /** The job dies, and its attempt, its row and its dead-letter row say why. */
  predicate Buried(r: Row, s: Row, note: Note, now: int) {
    && r.job.status.Running?
    && s.job == r.job.(status := Dead, lockedBy := None, lockedUntil := None, deathReason := Some(note.reason),
                       lastError := Some(note.finalError))
    && s.execs == r.execs[r.job.attempts := Exec(ExecFailed, Some(note.error))]
    && s.dlq == Some(DlqRow(r.job.spec.queue, r.job.spec.payload, r.job.attempts, note.reason,
                            Some(note.finalError), now))
  }

  /** A job given back is queued again with the attempt it used, or dead with a dead-letter row on its last one. */
  predicate GivenBack(r: Row, s: Row, now: int, note: Note) {
    if r.job.attempts < r.job.maxAttempts then Returned(r, s, note.error, now) else Buried(r, s, note, now)
  }

  lemma GiveBackOutcome(r: Row, op: Op, now: int)
    requires RowOk(r) && (op.Reclaim? || op.Requeue?) && Legal(r, op, now)
    ensures GivenBack(r, After(r, op, now), now, if op.Reclaim? then LAPSED else SHUTDOWN)
  {}

  lemma ReclaimedJob(db: DB, ids: seq<Id>, locked: set<Id>, i: Id, s: Row)
    requires i in db.jobs && RowOk(View(db, i)) && Elems(ids) == StuckJobs(db) - locked
    requires s == BatchRow(db, ids, Reclaim, i)
    ensures i in ids ==> GivenBack(View(db, i), s, db.now, LAPSED)
    ensures i !in ids ==> s == View(db, i)
    ensures Stuck(s.job, db.now) <==> i in StuckJobs(db) * locked
  {
    assert i in ids <==> i in Elems(ids);
    if i in ids {
      GiveBackOutcome(View(db, i), Reclaim, db.now);
    }
  }

  lemma ReclaimRows(db: DB, ids: seq<Id>, locked: set<Id>, i: Id)
    requires RowsOk(db) && NoDup(ids) && Elems(ids) == StuckJobs(db) - locked && i in db.jobs
    ensures var e := DoAll(db, ids, Reclaim);
            && SameFrame(db, e)
            && (i in ids ==> GivenBack(View(db, i), View(e, i), db.now, LAPSED))
            && (i !in ids ==> View(e, i) == View(db, i))
            && (i in StuckJobs(e) <==> i in StuckJobs(db) * locked)
  {
    var e := DoAll(db, ids, Reclaim);
    DoAllView(db, ids, Reclaim);
    assert View(e, i).job == e.jobs[i];
    ReclaimedJob(db, ids, locked, i, View(e, i));
  }

  /** One reaper pass gives back exactly the stuck jobs that no other transaction had locked, leaves every other
      job as it was, and leaves nothing stuck but those locked jobs. */
  lemma ReclaimPass(db: DB, ids: seq<Id>, locked: set<Id>)
    requires RowsOk(db) && NoDup(ids) && Elems(ids) == StuckJobs(db) - locked
    ensures var e := DoAll(db, ids, Reclaim);
            && e.jobs.Keys == db.jobs.Keys
            && (forall i :: i in db.jobs && i in ids ==> GivenBack(View(db, i), View(e, i), db.now, LAPSED))
            && (forall i :: i in db.jobs && i !in ids ==> View(e, i) == View(db, i))
            && StuckJobs(e) == StuckJobs(db) * locked
  {
    var e := DoAll(db, ids, Reclaim);
    DoAllView(db, ids, Reclaim);
    forall i | i in db.jobs
      ensures i in ids ==> GivenBack(View(db, i), View(e, i), db.now, LAPSED)
      ensures i !in ids ==> View(e, i) == View(db, i)
      ensures i in StuckJobs(e) <==> i in StuckJobs(db) * locked
    {
      ReclaimRows(db, ids, locked, i);
    }
  }

  /** A second pass at the same instant selects nothing, if no row was locked. */
  lemma SecondReclaimIsIdle(db: DB, ids: seq<Id>)
    requires Inv(db) && NoDup(ids) && Elems(ids) == StuckJobs(db)
    ensures StuckJobs(DoAll(db, ids, Reclaim)) == {}
  {
    assert StuckJobs(db) - {} == StuckJobs(db);
    ReclaimPass(db, ids, {});
  }

  lemma RequeuedJob(db: DB, w: Id, ids: seq<Id>, i: Id, s: Row)
    requires i in db.jobs && RowOk(View(db, i)) && s == BatchRow(db, ids, Requeue(w), i)
    ensures i in ids && db.jobs[i].lockedBy == Some(w) ==> GivenBack(View(db, i), s, db.now, SHUTDOWN)
    ensures !(i in ids && db.jobs[i].lockedBy == Some(w)) ==> s == View(db, i)
    ensures i in ids ==> s.job.lockedBy != Some(w)
  {
    if i in ids && db.jobs[i].lockedBy == Some(w) {
      GiveBackOutcome(View(db, i), Requeue(w), db.now);
    }
  }

  /** Shutdown gives back every listed job the worker still holds, expired lease or not, and no other. */
  lemma RequeuePass(db: DB, w: Id, ids: seq<Id>)
    requires Inv(db) && NoDup(ids)
    ensures var e := DoAll(db, ids, Requeue(w));
            && e.jobs.Keys == db.jobs.Keys
            && (forall i :: i in db.jobs && i in ids && db.jobs[i].lockedBy == Some(w) ==>
                  GivenBack(View(db, i), View(e, i), db.now, SHUTDOWN))
            && (forall i :: i in db.jobs && !(i in ids && db.jobs[i].lockedBy == Some(w)) ==> View(e, i) == View(db, i))
            && (forall i :: i in ids && i in e.jobs ==> e.jobs[i].lockedBy != Some(w))
  {
    var e := DoAll(db, ids, Requeue(w));
    DoAllView(db, ids, Requeue(w));
    forall i | i in db.jobs
      ensures i in ids && db.jobs[i].lockedBy == Some(w) ==> GivenBack(View(db, i), View(e, i), db.now, SHUTDOWN)
      ensures !(i in ids && db.jobs[i].lockedBy == Some(w)) ==> View(e, i) == View(db, i)
      ensures i in ids ==> e.jobs[i].lockedBy != Some(w)
    {
      assert View(e, i).job == e.jobs[i];
      RequeuedJob(db, w, ids, i, View(e, i));
    }
  }
}
