/** What links the program's statements to the state machine: a row written back statement by statement, and
    one UPDATE over many rows, have the effect of the single-row operations. */
module Updates {
  import opened Common
  import opened Lifecycle
  import opened Model
  import opened Database
  import opened Steps
  import opened Invariant
  import opened Guarantees
  import opened Batches

  // ---- one row

  /** A transaction that no index can refuse is its operation on each of its jobs. */
  lemma BatchStep(db: DB, step: Step, ids: seq<Id>, op: Op)
    requires WorkOf(step) == Some(Work(ids, op)) && !op.Claim? && !op.Retry?
    ensures Apply(db, step) == DoAll(db, ids, op)
  {}

  lemma OneJobStep(db: DB, step: Step, i: Id, op: Op)
    requires WorkOf(step) == Some(Work([i], op)) && !op.Claim? && !op.Retry?
    ensures Apply(db, step) == Do(db, i, op)
  {
    BatchStep(db, step, [i], op);
    OneJobBatch(db, i, op);
  }

  lemma OneJobTransact(db: DB, i: Id, op: Op)
    requires op.Retry?
    ensures Transact(db, Work([i], op)) == if KeyTaken(db, i) then db else Do(db, i, op)
  {
    assert i in [i];
    OneJobBatch(db, i, op);
  }

  lemma DoKeepsValid(db: DB, i: Id, op: Op)
    requires !op.Retry?
    ensures Inv(db) ==> Inv(Do(db, i, op))
  {
    if Inv(db) {
      DoKeepsInv(db, i, op);
    }
  }

  lemma BatchKeepsValid(db: DB, ids: seq<Id>, op: Op)
    requires !op.Retry?
    ensures Inv(db) ==> Inv(DoAll(db, ids, op))
  {
    if Inv(db) {
      DoAllKeepsInv(db, ids, op);
    }
  }

  lemma TransactKeepsValid(db: DB, w: Work)
    requires w.op.Retry? ==> |w.ids| == 1
    ensures Inv(db) ==> Inv(Transact(db, w))
  {
    if Inv(db) {
      TransactKeepsInv(db, w);
    }
  }

  /** An insert that a caller may ask for. */
  predicate Requestable(a: NewJob) {
    a.status in {Queued, Scheduled} && a.recurring.None?
  }

  lemma InsertKeepsValid(db: DB, a: NewJob)
    requires Requestable(a)
    ensures Inv(db) ==> Inv(Insert(db, a))
  {
    if Inv(db) {
      InsertKeepsInv(db, a);
    }
  }

  lemma StepKeepsValid(db: DB, step: Step)
    requires Enabled(db, step)
    ensures Inv(db) ==> Inv(Apply(db, step))
  {
    if Inv(db) {
      StepKeepsInv(db, step);
    }
  }

  /** The first statement of a cancel, as a step; it touches nothing but a job that waits. */
  lemma CancelStep(db: DB, i: Id)
    ensures Apply(db, Step.CancelJob(i)) == Do(db, i, Cancel)
    ensures Inv(db) ==> Inv(Apply(db, Step.CancelJob(i)))
    ensures !(i in db.jobs && db.jobs[i].status in {Queued, Scheduled, Retrying}) ==> Apply(db, Step.CancelJob(i)) == db
  {
    OneJobStep(db, Step.CancelJob(i), i, Cancel);
    DoKeepsValid(db, i, Cancel);
  }

  /** Writing back child rows that did not change changes nothing. */
  lemma Unchanged(db: DB, i: Id)
    requires KeysOk(db.jobs, db.execs, db.dlq) && i in db.jobs
    ensures PutDlq(db.dlq, i, View(db, i).dlq) == db.dlq
    ensures db.execs[i := View(db, i).execs] == db.execs
  {}

  function BumpIn(queues: map<Id, Queue>, q: Id, d: Deltas): map<Id, Queue> {
    if q in queues then queues[q := Bump(queues[q], d)] else queues
  }

  /** A state is a job's row written back when each table is. */
  lemma FieldsAreWrite(db: DB, e: DB, i: Id, s: Row, d: Deltas, owes: bool)
    requires i in db.jobs
    requires e.now == db.now && e.nextId == db.nextId && e.schedules == db.schedules
    requires e.jobs == db.jobs[i := s.job] && e.execs == db.execs[i := s.execs] && e.dlq == PutDlq(db.dlq, i, s.dlq)
    requires e.queues == BumpIn(db.queues, db.jobs[i].spec.queue, d)
    requires e.owed == if owes then db.owed + multiset{db.jobs[i].spec.queue} else db.owed
    ensures e == Write(db, i, s, d, owes)
  {}

  /** A job written back as it is, and a counter update that touches nothing. */
  lemma SameAgain(db: DB, i: Id, j: Job)
    requires i in db.jobs && j == db.jobs[i]
    ensures db.jobs[i := j] == db.jobs
    ensures BumpIn(db.queues, j.spec.queue, UNTOUCHED) == db.queues
  {}

  /** Closing the execution first and writing the closed row then is one write of that row. */
  lemma CloseThenWrite(db: DB, m: DB, i: Id, error: string, s: Row, d: Deltas)
    requires KeysOk(db.jobs, db.execs, db.dlq) && i in db.jobs
    requires m == db.(execs := db.execs[i := CloseExec(db.execs[i], db.jobs[i].attempts,
                                                           Exec(ExecFailed, Some(error)))])
    ensures View(m, i) == CloseFailed(View(db, i), error)
    ensures Write(m, i, s, d, false) == Write(db, i, s, d, false)
    ensures KeysOk(m.jobs, m.execs, m.dlq)
  {}

  lemma WriteKeepsKeyed(db: DB, i: Id, s: Row, d: Deltas, owes: bool)
    requires KeysOk(db.jobs, db.execs, db.dlq) && i in db.jobs
    ensures var e := Write(db, i, s, d, owes); KeysOk(e.jobs, e.execs, e.dlq)
  {
    WriteKeepsKeys(db, i, s, d, owes);
  }

  lemma Snoc(db: DB, ids: seq<Id>, i: Id, op: Op)
    ensures DoAll(db, ids + [i], op) == Do(DoAll(db, ids, op), i, op)
  {
    assert (ids + [i])[..|ids|] == ids;
  }

  lemma NoneDone(db: DB, op: Op)
    ensures DoAll(db, [], op) == db
  {}

  /** One row further: rows done and rows left make up the selection. */
  lemma OneFurther(order: seq<Id>, done: seq<Id>, rest: seq<Id>)
    requires NoDup(order) && order == done + rest && rest != []
    ensures order == done + [rest[0]] + rest[1..] && rest[0] !in done && NoDup(done) && rest[0] in Elems(order)
  {
    assert rest == [rest[0]] + rest[1..];
    forall k | 0 <= k < |done| ensures done[k] != rest[0] {
      assert order[k] == done[k] && order[|done|] == rest[0];
    }
    assert forall a, b :: 0 <= a < b < |done| ==> order[a] == done[a] && order[b] == done[b];
  }

  function WithAttemptsLeft(db: DB, ids: set<Id>): set<Id> {
    set i | i in ids && i in db.jobs && db.jobs[i].attempts < db.jobs[i].maxAttempts
  }

  function Owned(db: DB, w: Id, ids: set<Id>): set<Id> {
    set i | i in ids && Applies(db, i, Requeue(w))
  }

  /** What one reaper pass selects when other transactions have some rows locked. */
  function Reapable(db: DB, locked: set<Id>): set<Id> {
    set i | i in db.jobs && Applies(db, i, Reclaim) && i !in locked
  }

  lemma ReaperStep(db: DB, order: seq<Id>, locked: set<Id>)
    requires NoDup(order) && Elems(order) == Reapable(db, locked)
    ensures Enabled(db, ReclaimStuck(order, locked))
    ensures Apply(db, ReclaimStuck(order, locked)) == DoAll(db, order, Reclaim)
  {
    assert Reapable(db, locked) == StuckJobs(db) - locked;
    BatchStep(db, ReclaimStuck(order, locked), order, Reclaim);
  }

  lemma OneMoreLeft(db: DB, done: seq<Id>, i: Id)
    requires i !in done && i in db.jobs
    ensures |WithAttemptsLeft(db, Elems(done + [i]))| ==
              |WithAttemptsLeft(db, Elems(done))| + if db.jobs[i].attempts < db.jobs[i].maxAttempts then 1 else 0
  {
    var more := if db.jobs[i].attempts < db.jobs[i].maxAttempts then {i} else {};
    assert WithAttemptsLeft(db, Elems(done + [i])) == WithAttemptsLeft(db, Elems(done)) + more;
  }

  function NoteOf(op: Op): Note {
    if op.Reclaim? then Note(RECLAIMED, ReclaimedFinal, RECLAIMED_FINAL)
    else Note(REQUEUED, ShutdownFinal, SHUTDOWN_FINAL)
  }

  function GiveBackRow(r: Row, note: Note, now: int): Row {
    Model.GiveBack(r, note.error, note.reason, note.finalError, now)
  }

  lemma GivenBackIsWrite(m: DB, op: Op, i: Id)
    requires (op.Reclaim? || op.Requeue?) && Applies(m, i, op)
    ensures Do(m, i, op) == Write(m, i, GiveBackRow(View(m, i), NoteOf(op), m.now), GiveBackDeltas(m.jobs[i]), false)
  {}

  /** The next row of a give-back loop still stands as selected, and giving it back extends the batch by one. */
  lemma NextGivenBack(db: DB, done: seq<Id>, op: Op, i: Id)
    requires (op.Reclaim? || op.Requeue?) && NoDup(done) && i !in done && Applies(db, i, op)
    ensures var m := DoAll(db, done, op);
            && i in m.jobs && m.jobs[i] == db.jobs[i] && View(m, i) == View(db, i) && m.now == db.now
            && DoAll(db, done + [i], op) == Write(m, i, GiveBackRow(View(m, i), NoteOf(op), m.now),
                                                  GiveBackDeltas(m.jobs[i]), false)
  {
    StillApplies(db, done, op, i);
    Snoc(db, done, i, op);
    GivenBackIsWrite(DoAll(db, done, op), op, i);
  }

  // ---- many rows

  lemma {:induction false} BatchKeepsKeys(db: DB, ids: seq<Id>, op: Op)
    requires KeysOk(db.jobs, db.execs, db.dlq)
    ensures var e := DoAll(db, ids, op); KeysOk(e.jobs, e.execs, e.dlq)
  {
    if |ids| > 0 {
      var m, last := DoAll(db, ids[..|ids| - 1], op), ids[|ids| - 1];
      BatchKeepsKeys(db, ids[..|ids| - 1], op);
      if Applies(m, last, op) {
        var r := View(m, last);
        WriteKeepsKeys(m, last, After(r, op, m.now), CounterUpdate(r, op), op.Cancel? && r.job.status.Queued?);
      }
    }
  }

  /** A database whose rows are the batch's rows, and whose counters are the batch's, is the batch's result. */
  lemma RowsMakeBatch(db: DB, ids: seq<Id>, op: Op, e: DB)
    requires KeysOk(db.jobs, db.execs, db.dlq) && KeysOk(e.jobs, e.execs, e.dlq) && NoDup(ids) && !op.Cancel?
    requires SameFrame(db, e) && e.owed == db.owed && e.queues == DoAll(db, ids, op).queues
    requires forall i :: i in db.jobs ==> View(e, i) == BatchRow(db, ids, op, i)
    ensures e == DoAll(db, ids, op)
  {
    var f := DoAll(db, ids, op);
    BatchKeepsKeys(db, ids, op);
    BatchKeepsOwed(db, ids, op);
    DoAllView(db, ids, op);
    forall i | i in e.jobs ensures View(e, i) == View(f, i) {
      assert View(f, i) == BatchRow(db, ids, op, i);
    }
    SameViewsSameTables(e, f);
  }

  // ---- counters after a batch

  function InQueue(jobs: map<Id, Job>, ids: set<Id>, q: Id): set<Id> {
    set i | i in ids && i in jobs && jobs[i].spec.queue == q
  }

  lemma InQueueSnoc(db: DB, front: seq<Id>, last: Id, q: Id)
    requires last !in front && last in db.jobs
    ensures |InQueue(db.jobs, Elems(front + [last]), q)| ==
              |InQueue(db.jobs, Elems(front), q)| + if db.jobs[last].spec.queue == q then 1 else 0
  {
    var more := if db.jobs[last].spec.queue == q then {last} else {};
    assert InQueue(db.jobs, Elems(front + [last]), q) == InQueue(db.jobs, Elems(front), q) + more;
  }

  function Promoted(db: DB, ids: set<Id>): map<Id, Queue> {
    map q | q in db.queues :: db.queues[q].(statQueued := db.queues[q].statQueued + |InQueue(db.jobs, ids, q)|)
  }

  /** A promotion's counter write. */
  lemma PromoteBumps(m: DB, i: Id)
    requires Applies(m, i, Promote)
    ensures Do(m, i, Promote).queues == BumpIn(m.queues, m.jobs[i].spec.queue, Deltas(Inc(1), Keep, Keep, Keep))
  {}

  lemma BumpPromoted(db: DB, front: seq<Id>, last: Id, q: Id)
    requires last !in front && last in db.jobs && q in db.queues
    ensures var d := Deltas(Inc(1), Keep, Keep, Keep);
            var queues := BumpIn(Promoted(db, Elems(front)), db.jobs[last].spec.queue, d);
            q in queues && queues[q] == Promoted(db, Elems(front + [last]))[q]
  {
    InQueueSnoc(db, front, last, q);
  }

  lemma PromoteOneMore(db: DB, m: DB, front: seq<Id>, last: Id)
    requires last !in front && last in db.jobs && m.queues == Promoted(db, Elems(front))
    requires Applies(m, last, Promote) && m.jobs[last] == db.jobs[last]
    ensures Do(m, last, Promote).queues == Promoted(db, Elems(front + [last]))
  {
    PromoteBumps(m, last);
    var queues := BumpIn(Promoted(db, Elems(front)), db.jobs[last].spec.queue, Deltas(Inc(1), Keep, Keep, Keep));
    assert queues.Keys == db.queues.Keys;
    forall q | q in db.queues ensures queues[q] == Promoted(db, Elems(front + [last]))[q] {
      BumpPromoted(db, front, last, q);
    }
  }

  /** Row by row, the promotions add to each queue the number of its promoted jobs. */
  lemma {:induction false} PromoteCounts(db: DB, ids: seq<Id>)
    requires NoDup(ids) && forall i :: i in ids ==> Applies(db, i, Promote)
    ensures DoAll(db, ids, Promote).queues == Promoted(db, Elems(ids))
  {
    if |ids| == 0 {
      assert forall q :: InQueue(db.jobs, Elems(ids), q) == {};
    } else {
      var front, last := ids[..|ids| - 1], ids[|ids| - 1];
      assert ids == front + [last];
      PromoteCounts(db, front);
      StillApplies(db, front, Promote, last);
      PromoteOneMore(db, DoAll(db, front, Promote), front, last);
    }
  }

  lemma StillApplies(db: DB, done: seq<Id>, op: Op, i: Id)
    requires NoDup(done) && i !in done && Applies(db, i, op)
    ensures var m := DoAll(db, done, op);
            Applies(m, i, op) && View(m, i) == View(db, i) && m.jobs[i] == db.jobs[i] && m.now == db.now
  {
    DoAllView(db, done, op);
    assert View(DoAll(db, done, op), i).job == DoAll(db, done, op).jobs[i];
  }

  function Claimed(db: DB, q: Id, n: nat): map<Id, Queue> {
    if q in db.queues then db.queues[q := Bump(db.queues[q], Deltas(Dec(n), Inc(n), Keep, Keep))] else db.queues
  }

  /** Row by row, n claims move n from queued to running, clamp included. */
  lemma {:induction false} ClaimCounts(db: DB, ids: seq<Id>, q: Id, w: Id, lease: nat)
    requires NoDup(ids) && forall i :: i in ids ==> Applies(db, i, Claim(w, lease)) && db.jobs[i].spec.queue == q
    requires q in db.queues ==> db.queues[q].statQueued >= 0
    ensures DoAll(db, ids, Claim(w, lease)).queues == Claimed(db, q, |ids|)
  {
    if |ids| > 0 {
      var front, last := ids[..|ids| - 1], ids[|ids| - 1];
      assert ids == front + [last];
      ClaimCounts(db, front, q, w, lease);
      StillApplies(db, front, Claim(w, lease), last);
      assert DoAll(db, ids, Claim(w, lease)) == Do(DoAll(db, front, Claim(w, lease)), last, Claim(w, lease));
    }
  }

  /** Operations whose statements leave the counters alone. */
  lemma {:induction false} SilentCounts(db: DB, ids: seq<Id>, op: Op)
    requires op.Beat? || op.Orphan?
    ensures DoAll(db, ids, op).queues == db.queues
  {
    if |ids| > 0 {
      SilentCounts(db, ids[..|ids| - 1], op);
      var m, last := DoAll(db, ids[..|ids| - 1], op), ids[|ids| - 1];
      if Applies(m, last, op) && m.jobs[last].spec.queue in m.queues {
        assert Bump(m.queues[m.jobs[last].spec.queue], UNTOUCHED) == m.queues[m.jobs[last].spec.queue];
      }
    }
  }

  // ---- the statements

  /** The row that UPDATE jobs ... WHERE leaves of one job. */
  function JobAfter(db: DB, ids: set<Id>, op: Op, i: Id): Job
    requires i in db.jobs
  {
    if i in ids && Applies(db, i, op) then After(View(db, i), op, db.now).job else db.jobs[i]
  }

  function ExecsAfter(db: DB, ids: set<Id>, op: Op, i: Id): map<nat, Exec>
    requires i in db.jobs && i in db.execs
  {
    if i in ids && Applies(db, i, op) then After(View(db, i), op, db.now).execs else db.execs[i]
  }

  lemma RowAfterStatement(db: DB, ids: seq<Id>, op: Op, e: DB, i: Id)
    requires KeysOk(db.jobs, db.execs, db.dlq) && KeysOk(e.jobs, e.execs, e.dlq) && i in db.jobs && i in e.jobs
    requires op.Claim? || op.Promote? || op.Beat? || op.Orphan?
    requires e.dlq == db.dlq && e.jobs[i] == JobAfter(db, Elems(ids), op, i)
    requires e.execs[i] == ExecsAfter(db, Elems(ids), op, i)
    ensures View(e, i) == BatchRow(db, ids, op, i)
  {
    assert i in ids <==> i in Elems(ids);
    assert Legal(View(db, i), op, db.now) ==> After(View(db, i), op, db.now).dlq == View(db, i).dlq;
  }

  ghost predicate Statement(db: DB, ids: seq<Id>, op: Op, e: DB)
    requires KeysOk(db.jobs, db.execs, db.dlq)
  {
    && e.jobs.Keys == db.jobs.Keys && e.execs.Keys == db.execs.Keys
    && (forall i :: i in db.jobs ==> e.jobs[i] == JobAfter(db, Elems(ids), op, i))
    && (forall i :: i in db.jobs ==> e.execs[i] == ExecsAfter(db, Elems(ids), op, i))
  }

  lemma SameConfigs(db: DB, ids: seq<Id>, op: Op, e: DB)
    requires NoDup(ids) && e == db.(jobs := e.jobs, execs := e.execs, queues := DoAll(db, ids, op).queues)
    requires e.jobs.Keys == db.jobs.Keys
    ensures SameFrame(db, e)
  {
    DoAllView(db, ids, op);
  }

  /** One UPDATE of jobs and executions and one of the counters make the batch. */
  lemma StatementIsBatch(db: DB, ids: seq<Id>, op: Op, e: DB)
    requires KeysOk(db.jobs, db.execs, db.dlq) && NoDup(ids)
    requires op.Claim? || op.Promote? || op.Beat? || op.Orphan?
    requires e == db.(jobs := e.jobs, execs := e.execs, queues := DoAll(db, ids, op).queues)
    requires Statement(db, ids, op, e)
    ensures e == DoAll(db, ids, op)
  {
    SameConfigs(db, ids, op, e);
    forall i | i in db.jobs ensures View(e, i) == BatchRow(db, ids, op, i) {
      RowAfterStatement(db, ids, op, e, i);
    }
    RowsMakeBatch(db, ids, op, e);
  }

  lemma PromoteIsStatement(db: DB, e: DB, ids: seq<Id>)
    requires KeysOk(db.jobs, db.execs, db.dlq) && NoDup(ids) && Elems(ids) == Due(db)
    requires e == db.(jobs := e.jobs, queues := Promoted(db, Elems(ids))) && e.jobs.Keys == db.jobs.Keys
    requires forall i :: i in db.jobs ==>
               e.jobs[i] == if i in Due(db) then db.jobs[i].(status := Queued) else db.jobs[i]
    ensures e == DoAll(db, ids, Promote)
  {
    assert forall i :: i in ids ==> i in Elems(ids);
    PromoteCounts(db, ids);
    StatementIsBatch(db, ids, Promote, e);
  }

  function ExtendLease(j: Job, w: Id, lease: nat, now: int): Job {
    if j.lockedBy == Some(w) && j.status.Running? && j.lockedUntil.Some? && j.lockedUntil.value > now
    then j.(lockedUntil := Some(now + lease * 1000))
    else j
  }

  function WithLeases(jobs: map<Id, Job>, ids: seq<Id>, w: Id, lease: nat, now: int): map<Id, Job> {
    map i | i in jobs :: if i in ids then ExtendLease(jobs[i], w, lease, now) else jobs[i]
  }

  lemma BeatRows(db: DB, e: DB, ids: seq<Id>, w: Id, lease: nat)
    requires KeysOk(db.jobs, db.execs, db.dlq) && e.execs == db.execs
    requires e.jobs == WithLeases(db.jobs, ids, w, lease, db.now)
    ensures Statement(db, ids, Beat(w, lease), e)
  {
    forall i | i in db.jobs
      ensures e.jobs[i] == JobAfter(db, Elems(ids), Beat(w, lease), i)
      ensures e.execs[i] == ExecsAfter(db, Elems(ids), Beat(w, lease), i)
    {
      assert i in ids <==> i in Elems(ids);
    }
  }

  lemma BeatIsStatement(db: DB, e: DB, ids: seq<Id>, w: Id, lease: nat)
    requires KeysOk(db.jobs, db.execs, db.dlq) && NoDup(ids)
    requires e == db.(jobs := WithLeases(db.jobs, ids, w, lease, db.now))
    ensures e == DoAll(db, ids, Beat(w, lease))
  {
    SilentCounts(db, ids, Beat(w, lease));
    BeatRows(db, e, ids, w, lease);
    StatementIsBatch(db, ids, Beat(w, lease), e);
  }

  lemma OrphanIsStatement(db: DB, e: DB, ids: seq<Id>, w: Id)
    requires KeysOk(db.jobs, db.execs, db.dlq) && NoDup(ids)
    requires forall i :: i in db.jobs && db.jobs[i].lockedBy == Some(w) ==> i in ids
    requires e == db.(jobs := e.jobs) && e.jobs.Keys == db.jobs.Keys
    requires forall i :: i in db.jobs ==>
               e.jobs[i] == if db.jobs[i].lockedBy == Some(w) then db.jobs[i].(lockedBy := None) else db.jobs[i]
    ensures e == DoAll(db, ids, Orphan(w))
  {
    SilentCounts(db, ids, Orphan(w));
    forall i | i in db.jobs
      ensures e.jobs[i] == JobAfter(db, Elems(ids), Orphan(w), i)
      ensures e.execs[i] == ExecsAfter(db, Elems(ids), Orphan(w), i)
    {
      assert i in ids <==> i in Elems(ids);
    }
    StatementIsBatch(db, ids, Orphan(w), e);
  }

  function WithClaims(jobs: map<Id, Job>, ids: seq<Id>, w: Id, lease: nat, now: int): map<Id, Job> {
    map i | i in jobs :: if i in ids then ClaimJob(jobs[i], w, lease, now) else jobs[i]
  }

  function WithExecutions(jobs: map<Id, Job>, execs: map<Id, map<nat, Exec>>, ids: seq<Id>): map<Id, map<nat, Exec>> {
    map i | i in execs ::
      if i in ids && i in jobs then execs[i][jobs[i].attempts + 1 := Exec(ExecRunning, None)] else execs[i]
  }

  lemma ClaimRows(db: DB, e: DB, ids: seq<Id>, q: Id, w: Id, lease: nat)
    requires KeysOk(db.jobs, db.execs, db.dlq)
    requires forall i :: i in ids ==> i in Eligible(db, q)
    requires e.jobs == WithClaims(db.jobs, ids, w, lease, db.now) && e.execs == WithExecutions(db.jobs, db.execs, ids)
    ensures Statement(db, ids, Claim(w, lease), e)
  {
    forall i | i in db.jobs
      ensures e.jobs[i] == JobAfter(db, Elems(ids), Claim(w, lease), i)
      ensures e.execs[i] == ExecsAfter(db, Elems(ids), Claim(w, lease), i)
    {
      assert i in ids <==> i in Elems(ids);
    }
  }

  lemma ClaimIsStatement(db: DB, e: DB, ids: seq<Id>, q: Id, w: Id, lease: nat)
    requires KeysOk(db.jobs, db.execs, db.dlq) && NoDup(ids) && !Refused(db, Work(ids, Claim(w, lease)))
    requires forall i :: i in ids ==> i in Eligible(db, q)
    requires q in db.queues ==> db.queues[q].statQueued >= 0
    requires e == db.(jobs := WithClaims(db.jobs, ids, w, lease, db.now),
                      execs := WithExecutions(db.jobs, db.execs, ids),
                      queues := Claimed(db, q, |ids|))
    ensures e == Transact(db, Work(ids, Claim(w, lease)))
  {
    ClaimCounts(db, ids, q, w, lease);
    ClaimRows(db, e, ids, q, w, lease);
    StatementIsBatch(db, ids, Claim(w, lease), e);
  }
}
