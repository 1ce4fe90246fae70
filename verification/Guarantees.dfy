/** What the joint invariant gives a reader of the database, in every reachable state. */
module Guarantees {
  import opened Common
  import opened Lifecycle
  import opened Model
  import opened Rows
  import opened Database
  import opened Steps

  /** UNIQUE (job_id, attempt) never trips: no claim of queued jobs is ever refused. */
  lemma ClaimNeverRefused(db: DB, w: Id, lease: nat, picked: seq<Id>)
    requires Inv(db)
    ensures (forall i :: i in picked && i in db.jobs ==> db.jobs[i].status.Queued?) ==>
              !Refused(db, Work(picked, Claim(w, lease)))
  {
    forall i | i in picked && i in db.jobs
      ensures db.jobs[i].attempts + 1 !in View(db, i).execs
    {
      assert RowOk(View(db, i));
    }
  }

  /** The execution rows of a job number exactly its attempts; one of them runs exactly when the job does, and one
      succeeded exactly when the job completed: the last. */
  lemma HistoryAgrees(db: DB, i: Id, a: nat)
    requires Inv(db) && i in db.jobs
    ensures a in db.execs[i] <==> 1 <= a <= db.jobs[i].attempts
    ensures a in db.execs[i] ==>
              && (db.execs[i][a].status.ExecRunning? <==> db.jobs[i].status.Running? && a == db.jobs[i].attempts)
              && (db.execs[i][a].status.ExecSucceeded? <==> db.jobs[i].status.Completed? && a == db.jobs[i].attempts)
  {
    assert RowOk(View(db, i));
    assert View(db, i).execs == db.execs[i];
  }

  /** A lock implies a running job, and no attempt is left over on one that may be claimed. */
  lemma LocksAndBudget(db: DB, i: Id)
    requires Inv(db) && i in db.jobs
    ensures db.jobs[i].lockedBy.Some? ==> db.jobs[i].status.Running?
    ensures db.jobs[i].status in {Queued, Scheduled, Retrying} ==> db.jobs[i].attempts < db.jobs[i].maxAttempts
  {
    assert RowOk(View(db, i));
  }

  function DlqOf(db: DB, q: Id): set<Id> {
    set i | i in db.dlq && db.dlq[i].queue == q
  }

  function Discarded(db: DB, q: Id): set<Id> {
    set i | i in db.jobs && db.jobs[i].spec.queue == q && db.jobs[i].status.Dead? && i !in db.dlq
  }

  lemma DlqRowAgrees(db: DB, i: Id)
    requires Inv(db) && i in db.dlq
    ensures i in db.jobs && db.jobs[i].status.Dead?
    ensures db.dlq[i].queue == db.jobs[i].spec.queue && db.dlq[i].payload == db.jobs[i].spec.payload
    ensures db.dlq[i].attempts == db.jobs[i].attempts
    ensures Some(db.dlq[i].reason) == db.jobs[i].deathReason && db.dlq[i].finalError == db.jobs[i].lastError
  {
    assert RowOk(View(db, i));
    assert View(db, i).dlq == Some(db.dlq[i]);
  }

  lemma DeadSplit(db: DB, q: Id)
    requires forall i :: i in db.dlq ==>
               i in db.jobs && db.jobs[i].status.Dead? && db.dlq[i].queue == db.jobs[i].spec.queue
    ensures Members(db.jobs, q, Dead) == DlqOf(db, q) + Discarded(db, q)
    ensures Count(db.jobs, q, Dead) == |DlqOf(db, q)| + |Discarded(db, q)|
  {
    assert Members(db.jobs, q, Dead) == DlqOf(db, q) + Discarded(db, q);
    assert DlqOf(db, q) !! Discarded(db, q);
  }

  /** The dead counter is the dead-letter rows plus the dead jobs whose row was discarded. */
  lemma DeadCounterSplits(db: DB, q: Id)
    requires Inv(db) && q in db.queues
    ensures db.queues[q].statDead == |DlqOf(db, q)| + |Discarded(db, q)|
  {
    forall i | i in db.dlq
      ensures i in db.jobs && db.jobs[i].status.Dead? && db.dlq[i].queue == db.jobs[i].spec.queue
    {
      DlqRowAgrees(db, i);
    }
    DeadSplit(db, q);
    assert StatsOk(db, q);
  }

  /** Three counters are exact in every good state; the queued one counts the queued jobs and the cancels that sit
      between their two statements, so it is exact exactly when there are none. */
  lemma CountersExact(db: DB, q: Id)
    requires Inv(db) && q in db.queues
    ensures var c := db.queues[q];
            && c.statRunning == Count(db.jobs, q, Running) && c.statCompleted == Count(db.jobs, q, Completed)
            && c.statDead == Count(db.jobs, q, Dead)
            && c.statQueued == Count(db.jobs, q, Queued) + db.owed[q]
            && (c.statQueued == Count(db.jobs, q, Queued) <==> q !in db.owed)
  {
    assert StatsOk(db, q);
  }

  /** Nor does the second statement of a cancel meet its clamp. */
  lemma SettleNeverClamps(db: DB, q: Id)
    requires Inv(db) && Enabled(db, SettleCancel(q)) && q in db.queues
    ensures db.queues[q].statQueued >= 1
  {
    assert StatsOk(db, q);
  }

  lemma OneJobBatch(db: DB, i: Id, op: Op)
    ensures DoAll(db, [i], op) == Do(db, i, op)
  {
    assert [i][..0] == [];
    assert DoAll(db, [], op) == db;
  }

  /** A manual retry of a retryable job goes through exactly when no other live job took over its key; refused,
      it changes nothing. */
  lemma RetrySucceedsIffKeyFree(db: DB, i: Id)
    requires i in db.jobs && db.jobs[i].status in {Dead, Retrying}
    ensures var e := Transact(db, Work([i], Retry));
            && (KeyTaken(db, i) ==> e == db)
            && (!KeyTaken(db, i) ==>
                  i in e.jobs && e.jobs[i].status.Queued? && e.jobs[i].maxAttempts == db.jobs[i].attempts + 3)
  {
    assert i in [i];
    OneJobBatch(db, i, Retry);
    DoView(db, i, Retry);
    if !KeyTaken(db, i) {
      var e := Do(db, i, Retry);
      assert View(e, i).job == e.jobs[i];
    }
  }

  /** At most one job that is neither completed nor dead holds a given key of a queue. */
  lemma OneHolder(db: DB, q: Id, k: Key, i: Id, j: Id)
    requires Inv(db) && i in db.jobs && j in db.jobs && Holds(db.jobs[i], q, k) && Holds(db.jobs[j], q, k)
    ensures i == j
  {}

  /** The two statements of a cancel together take the job out of the queued counter exactly once; between them
      the decrement is owed. */
  lemma CancelThenSettle(db: DB, i: Id)
    requires TablesOk(db) && CountersOk(db) && i in db.jobs && db.jobs[i].status.Queued?
    ensures var q := db.jobs[i].spec.queue; var e := Do(db, i, Cancel); var f := Settle(e, q);
            && q in db.queues && q in f.queues
            && q in e.owed && f.owed == db.owed
            && f.queues[q] == db.queues[q].(statQueued := db.queues[q].statQueued - 1)
  {
    var q := db.jobs[i].spec.queue;
    JobIsCounted(db, i);
    CancelStatement(db, i, q);
    OweAndPay(db.owed, q);
  }

  lemma CancelStatement(db: DB, i: Id, q: Id)
    requires i in db.jobs && db.jobs[i].status.Queued? && q == db.jobs[i].spec.queue && q in db.queues
    ensures var e := Do(db, i, Cancel); e.owed == db.owed + multiset{q} && e.queues == db.queues
  {
    assert Bump(db.queues[q], UNTOUCHED) == db.queues[q];
  }

  lemma OweAndPay(owed: multiset<Id>, q: Id)
    ensures q in owed + multiset{q} && owed + multiset{q} - multiset{q} == owed
  {}
}
