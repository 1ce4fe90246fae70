/** The whole database as a value, its joint invariant, and one operation applied to one job. */
module Database {
  import opened Common
  import opened Lifecycle
  import opened Model
  import opened Rows

  /** `owed` holds, for each cancel of a queued job that has not run its second statement, the job's queue. */
  datatype DB = DB(now: int, nextId: Id, jobs: map<Id, Job>, execs: map<Id, map<nat, Exec>>, dlq: map<Id, DlqRow>,
                   queues: map<Id, Queue>, schedules: map<Id, Schedule>, owed: multiset<Id>)

  function View(db: DB, i: Id): Row
    requires i in db.jobs
  {
    Row(db.jobs[i], if i in db.execs then db.execs[i] else map[], if i in db.dlq then Some(db.dlq[i]) else None)
  }

  function PutDlq(dlq: map<Id, DlqRow>, i: Id, d: Option<DlqRow>): map<Id, DlqRow> {
    if d.Some? then dlq[i := d.value] else dlq - {i}
  }

  /** Write a job's row back, bump its queue's counters and note a decrement that is still owed. */
  function Write(db: DB, i: Id, s: Row, d: Deltas, owes: bool): DB
    requires i in db.jobs
  {
    var q := db.jobs[i].spec.queue;
    db.(jobs := db.jobs[i := s.job],
        execs := db.execs[i := s.execs],
        dlq := PutDlq(db.dlq, i, s.dlq),
        queues := if q in db.queues then db.queues[q := Bump(db.queues[q], d)] else db.queues,
        owed := if owes then db.owed + multiset{q} else db.owed)
  }

  predicate Applies(db: DB, i: Id, op: Op) {
    i in db.jobs && Legal(View(db, i), op, db.now)
  }

  /** One operation on one job; a WHERE clause that matches no row changes nothing. */
  function Do(db: DB, i: Id, op: Op): DB {
    if Applies(db, i, op) then
      var r := View(db, i);
      Write(db, i, After(r, op, db.now), CounterUpdate(r, op), op.Cancel? && r.job.status.Queued?)
    else
      db
  }

  /** The operation on every listed job, in that order. */
  function DoAll(db: DB, ids: seq<Id>, op: Op): DB {
    if |ids| == 0 then db else Do(DoAll(db, ids[..|ids| - 1], op), ids[|ids| - 1], op)
  }

  // ---- counting jobs

  function Members(jobs: map<Id, Job>, q: Id, s: Status): set<Id> {
    set i | i in jobs && jobs[i].spec.queue == q && jobs[i].status == s
  }

  function Count(jobs: map<Id, Job>, q: Id, s: Status): nat {
    |Members(jobs, q, s)|
  }

  predicate Matches(j: Job, q: Id, s: Status) {
    j.spec.queue == q && j.status == s
  }

  lemma MembersRewrite(jobs: map<Id, Job>, i: Id, j: Job, q: Id, s: Status)
    requires i in jobs
    ensures Members(jobs[i := j], q, s) == Members(jobs, q, s) - {i} + (if Matches(j, q, s) then {i} else {})
    ensures i in Members(jobs, q, s) <==> Matches(jobs[i], q, s)
  {}

  /** Rewriting one job moves it between at most two classes. */
  lemma CountRewrite(jobs: map<Id, Job>, i: Id, j: Job, q: Id, s: Status)
    requires i in jobs
    ensures Count(jobs[i := j], q, s) == Count(jobs, q, s) - Ind(Matches(jobs[i], q, s)) + Ind(Matches(j, q, s))
    ensures Matches(jobs[i], q, s) ==> Count(jobs, q, s) >= 1
  {
    MembersRewrite(jobs, i, j, q, s);
    Resize(Members(jobs, q, s), i, Matches(j, q, s));
  }

  lemma Resize(m: set<Id>, i: Id, add: bool)
    ensures |m - {i} + (if add then {i} else {})| == |m| - Ind(i in m) + Ind(add)
    ensures i in m ==> |m| >= 1
  {
    if i in m { assert m == m - {i} + {i}; } else { assert m - {i} == m; }
    if add { assert |m - {i} + {i}| == |m - {i}| + 1; } else { assert m - {i} + {} == m - {i}; }
  }

  lemma CountInsert(jobs: map<Id, Job>, i: Id, j: Job, q: Id, s: Status)
    requires i !in jobs
    ensures Count(jobs[i := j], q, s) == Count(jobs, q, s) + Ind(Matches(j, q, s))
  {
    assert Members(jobs[i := j], q, s) == Members(jobs, q, s) + if Matches(j, q, s) then {i} else {};
  }

  // ---- the joint invariant

  /** Cached counters are exact; the queued counter runs ahead by the decrements that cancels still owe. */
  predicate StatsOk(db: DB, q: Id)
    requires q in db.queues
  {
    var c := db.queues[q];
    && c.statQueued == Count(db.jobs, q, Queued) + db.owed[q]
    && c.statRunning == Count(db.jobs, q, Running)
    && c.statCompleted == Count(db.jobs, q, Completed)
    && c.statDead == Count(db.jobs, q, Dead)
  }

  predicate KeysOk(jobs: map<Id, Job>, execs: map<Id, map<nat, Exec>>, dlq: map<Id, DlqRow>) {
    execs.Keys == jobs.Keys && dlq.Keys <= jobs.Keys
  }

  ghost predicate JobsRefer(jobs: map<Id, Job>, queues: set<Id>, nextId: Id) {
    forall i :: i in jobs ==> i < nextId && jobs[i].spec.queue in queues
  }

  ghost predicate QueuesOk(queues: map<Id, Queue>, nextId: Id) {
    forall q :: q in queues ==> q < nextId && queues[q].limit >= 1
  }

  ghost predicate SchedulesRefer(schedules: map<Id, Schedule>, queues: set<Id>, nextId: Id) {
    forall s :: s in schedules ==> s < nextId && schedules[s].queue in queues
  }

  ghost predicate OwedOk(owed: multiset<Id>, nextId: Id) {
    forall q :: q in owed ==> q < nextId
  }

  /** Keys and foreign keys. */
  ghost predicate TablesOk(db: DB) {
    && KeysOk(db.jobs, db.execs, db.dlq)
    && JobsRefer(db.jobs, db.queues.Keys, db.nextId)
    && QueuesOk(db.queues, db.nextId)
    && SchedulesRefer(db.schedules, db.queues.Keys, db.nextId)
    && OwedOk(db.owed, db.nextId)
  }

  ghost predicate RowsOk(db: DB) {
    forall i :: i in db.jobs ==> RowOk(View(db, i))
  }

  ghost predicate CountersOk(db: DB) {
    forall q :: q in db.queues ==> StatsOk(db, q)
  }

  predicate Holds(j: Job, q: Id, k: Key) {
    HoldsKey(j.status) && j.spec.queue == q && j.spec.dedupe == Some(k)
  }

  /** The partial unique index: at most one job that is neither completed nor dead per queue and key. */
  ghost predicate DedupeOk(db: DB) {
    forall i, j, q, k :: i in db.jobs && j in db.jobs && Holds(db.jobs[i], q, k) && Holds(db.jobs[j], q, k) ==> i == j
  }

  predicate Spawned(j: Job, s: Id, slot: int) {
    j.spec.recurring == Some(s) && j.spec.dedupe == Some(CronKey(s, slot))
  }

  predicate FiresPastSlot(j: Job, s: Id, watermark: int) {
    j.spec.dedupe.Some? && j.spec.dedupe.value.CronKey? && j.spec.dedupe.value.schedule == s
    && j.spec.dedupe.value.slot < watermark
  }

  /** Every job of a schedule fires one of its past slots, and no slot fired twice. */
  ghost predicate CronOk(db: DB) {
    && (forall i :: i in db.jobs && db.jobs[i].spec.recurring.Some? ==>
          var s := db.jobs[i].spec.recurring.value;
          && s in db.schedules && db.schedules[s].queue == db.jobs[i].spec.queue
          && FiresPastSlot(db.jobs[i], s, db.schedules[s].nextRun))
    && (forall i, j, s, slot ::
          i in db.jobs && j in db.jobs && Spawned(db.jobs[i], s, slot) && Spawned(db.jobs[j], s, slot) ==> i == j)
  }

  ghost predicate Inv(db: DB) {
    TablesOk(db) && RowsOk(db) && CountersOk(db) && DedupeOk(db) && CronOk(db)
  }

  // ---- one operation keeps the invariant

  /** A manual retry of a dead job that would bring back a key another job now holds: the index refuses it. */
  predicate KeyTaken(db: DB, i: Id) {
    i in db.jobs && db.jobs[i].status.Dead? && db.jobs[i].spec.dedupe.Some? &&
    exists j :: j in db.jobs && j != i && Holds(db.jobs[j], db.jobs[i].spec.queue, db.jobs[i].spec.dedupe.value)
  }

  lemma WriteView(db: DB, i: Id, s: Row, d: Deltas, owes: bool)
    requires i in db.jobs
    ensures var e := Write(db, i, s, d, owes);
            && SameFrame(db, e)
            && View(e, i) == s
            && forall j :: j in db.jobs && j != i ==> View(e, j) == View(db, j)
  {}

  /** Whether a counter update is what the change of one job asks for, in every counter that counts the job. */
  ghost predicate Accounts(j: Job, t: Job, d: Deltas, owes: bool) {
    forall c: Queue :: CountsAtLeast(c, j) ==> Bump(c, d) == Moved(c, j, t, owes)
  }

  predicate CountsAtLeast(c: Queue, j: Job) {
    && c.statQueued >= Ind(j.status.Queued?) && c.statRunning >= Ind(j.status.Running?)
    && c.statCompleted >= Ind(j.status.Completed?) && c.statDead >= Ind(j.status.Dead?)
  }

  function Moved(c: Queue, j: Job, t: Job, owes: bool): Queue {
    c.(statQueued := c.statQueued - Ind(j.status.Queued?) + Ind(t.status.Queued?) + Ind(owes),
       statRunning := c.statRunning - Ind(j.status.Running?) + Ind(t.status.Running?),
       statCompleted := c.statCompleted - Ind(j.status.Completed?) + Ind(t.status.Completed?),
       statDead := c.statDead - Ind(j.status.Dead?) + Ind(t.status.Dead?))
  }

  lemma WriteCounts(db: DB, i: Id, s: Row, d: Deltas, owes: bool, q: Id)
    requires q in db.queues && StatsOk(db, q) && i in db.jobs
    requires s.job.spec == db.jobs[i].spec && Accounts(db.jobs[i], s.job, d, owes)
    ensures StatsOk(Write(db, i, s, d, owes), q)
  {
    var j, t := db.jobs[i], s.job;
    CountRewrite(db.jobs, i, t, q, Queued);
    CountRewrite(db.jobs, i, t, q, Running);
    CountRewrite(db.jobs, i, t, q, Completed);
    CountRewrite(db.jobs, i, t, q, Dead);
    if q == j.spec.queue {
      assert CountsAtLeast(db.queues[q], j);
      assert Bump(db.queues[q], d) == Moved(db.queues[q], j, t, owes);
    }
  }

  lemma WriteKeepsCounters(db: DB, i: Id, s: Row, d: Deltas, owes: bool)
    requires TablesOk(db) && CountersOk(db) && i in db.jobs
    requires s.job.spec == db.jobs[i].spec && Accounts(db.jobs[i], s.job, d, owes)
    ensures CountersOk(Write(db, i, s, d, owes))
  {
    forall q | q in db.queues
      ensures StatsOk(Write(db, i, s, d, owes), q)
    {
      WriteCounts(db, i, s, d, owes, q);
    }
  }

  /** No other job holds the key this job would hold. */
  ghost predicate KeyFree(db: DB, i: Id, j: Job) {
    forall a, q, k :: a in db.jobs && a != i && Holds(db.jobs[a], q, k) ==> !Holds(j, q, k)
  }

  lemma HeldKeyIsFree(db: DB, i: Id, j: Job)
    requires DedupeOk(db) && i in db.jobs && HoldsKey(db.jobs[i].status) && j.spec == db.jobs[i].spec
    ensures KeyFree(db, i, j)
  {
    assert forall q, k :: Holds(j, q, k) ==> Holds(db.jobs[i], q, k);
  }

  lemma WriteKeepsDedupe(db: DB, i: Id, s: Row, d: Deltas, owes: bool)
    requires DedupeOk(db) && i in db.jobs && s.job.spec == db.jobs[i].spec
    requires KeyFree(db, i, s.job)
    ensures DedupeOk(Write(db, i, s, d, owes))
  {
    var e := Write(db, i, s, d, owes);
    assert forall a :: a in e.jobs ==> e.jobs[a] == if a == i then s.job else db.jobs[a];
  }

  lemma WriteKeepsCron(db: DB, i: Id, s: Row, d: Deltas, owes: bool)
    requires CronOk(db) && i in db.jobs && s.job.spec == db.jobs[i].spec
    ensures CronOk(Write(db, i, s, d, owes))
  {
    var e := Write(db, i, s, d, owes);
    assert forall a :: a in db.jobs ==> e.jobs[a].spec == db.jobs[a].spec;
    assert forall a, t, slot :: a in db.jobs ==> Spawned(e.jobs[a], t, slot) == Spawned(db.jobs[a], t, slot);
  }

  lemma WriteKeepsRows(db: DB, i: Id, s: Row, d: Deltas, owes: bool)
    requires RowsOk(db) && i in db.jobs && RowOk(s)
    ensures RowsOk(Write(db, i, s, d, owes))
  {
    var e := Write(db, i, s, d, owes);
    WriteView(db, i, s, d, owes);
    forall j | j in e.jobs ensures RowOk(View(e, j)) {
      assert j != i ==> View(e, j) == View(db, j);
    }
  }

  lemma WriteKeepsKeys(db: DB, i: Id, s: Row, d: Deltas, owes: bool)
    requires KeysOk(db.jobs, db.execs, db.dlq) && i in db.jobs
    ensures var e := Write(db, i, s, d, owes); KeysOk(e.jobs, e.execs, e.dlq) && e.queues.Keys == db.queues.Keys
  {}

  lemma RewriteKeepsReferences(jobs: map<Id, Job>, queues: set<Id>, nextId: Id, i: Id, j: Job)
    requires JobsRefer(jobs, queues, nextId) && i in jobs && j.spec == jobs[i].spec
    ensures JobsRefer(jobs[i := j], queues, nextId)
  {}

  lemma BumpKeepsQueues(queues: map<Id, Queue>, nextId: Id, q: Id, d: Deltas)
    requires QueuesOk(queues, nextId) && q in queues
    ensures QueuesOk(queues[q := Bump(queues[q], d)], nextId)
  {}

  lemma WriteKeepsTables(db: DB, i: Id, s: Row, d: Deltas, owes: bool)
    requires TablesOk(db) && i in db.jobs && s.job.spec == db.jobs[i].spec
    ensures TablesOk(Write(db, i, s, d, owes))
  {
    var q := db.jobs[i].spec.queue;
    WriteKeepsKeys(db, i, s, d, owes);
    RewriteKeepsReferences(db.jobs, db.queues.Keys, db.nextId, i, s.job);
    BumpKeepsQueues(db.queues, db.nextId, q, d);
  }

  lemma WriteKeepsInv(db: DB, i: Id, s: Row, d: Deltas, owes: bool)
    requires Inv(db) && i in db.jobs && s.job.spec == db.jobs[i].spec && RowOk(s)
    requires Accounts(db.jobs[i], s.job, d, owes) && KeyFree(db, i, s.job)
    ensures Inv(Write(db, i, s, d, owes))
  {
    WriteKeepsTables(db, i, s, d, owes);
    WriteKeepsRows(db, i, s, d, owes);
    WriteKeepsCounters(db, i, s, d, owes);
    WriteKeepsDedupe(db, i, s, d, owes);
    WriteKeepsCron(db, i, s, d, owes);
  }

  lemma LegalAccounts(r: Row, op: Op, now: int)
    requires RowOk(r) && Legal(r, op, now)
    ensures Accounts(r.job, After(r, op, now).job, CounterUpdate(r, op), op.Cancel? && r.job.status.Queued?)
  {
    forall c: Queue | CountsAtLeast(c, r.job)
      ensures Bump(c, CounterUpdate(r, op)) ==
                Moved(c, r.job, After(r, op, now).job, op.Cancel? && r.job.status.Queued?)
    {
      CountersMatchStatus(r, op, now, c.statQueued, c.statRunning, c.statCompleted, c.statDead);
    }
  }

  /** Only a manual retry of a dead job takes a dedupe key that the job did not hold. */
  lemma OnlyRetryTakesKey(r: Row, op: Op, now: int)
    requires RowOk(r) && Legal(r, op, now)
    ensures HoldsKey(After(r, op, now).job.status) ==> HoldsKey(r.job.status) || (op.Retry? && r.job.status.Dead?)
  {}

  lemma FreeAfter(db: DB, i: Id, op: Op)
    requires RowsOk(db) && DedupeOk(db) && Applies(db, i, op) && (op.Retry? ==> !KeyTaken(db, i))
    ensures KeyFree(db, i, After(View(db, i), op, db.now).job)
  {
    var r := View(db, i);
    StatusFollowsEdges(r, op, db.now);
    OnlyRetryTakesKey(r, op, db.now);
    if HoldsKey(db.jobs[i].status) {
      HeldKeyIsFree(db, i, After(r, op, db.now).job);
    }
  }

  /** One operation on one job keeps tables, rows, counters, dedupe keys and cron slots in agreement. */
  lemma DoKeepsInv(db: DB, i: Id, op: Op)
    requires Inv(db) && (op.Retry? ==> !KeyTaken(db, i))
    ensures Inv(Do(db, i, op))
  {
    if Applies(db, i, op) {
      var r := View(db, i);
      LegalKeepsRow(r, op, db.now);
      StatusFollowsEdges(r, op, db.now);
      LegalAccounts(r, op, db.now);
      OnlyRetryTakesKey(r, op, db.now);
      FreeAfter(db, i, op);
      WriteKeepsInv(db, i, After(r, op, db.now), CounterUpdate(r, op), op.Cancel? && r.job.status.Queued?);
    }
  }

  lemma DoView(db: DB, i: Id, op: Op)
    ensures var e := Do(db, i, op);
            && SameFrame(db, e)
            && forall j :: j in db.jobs ==>
                 View(e, j) == if j == i && Applies(db, i, op) then After(View(db, i), op, db.now) else View(db, j)
  {
    if Applies(db, i, op) {
      var r := View(db, i);
      WriteView(db, i, After(r, op, db.now), CounterUpdate(r, op), op.Cancel? && r.job.status.Queued?);
    }
  }

  lemma {:induction false} DoAllKeepsInv(db: DB, ids: seq<Id>, op: Op)
    requires Inv(db) && !op.Retry?
    ensures Inv(DoAll(db, ids, op))
  {
    if |ids| > 0 {
      DoAllKeepsInv(db, ids[..|ids| - 1], op);
      DoKeepsInv(DoAll(db, ids[..|ids| - 1], op), ids[|ids| - 1], op);
    }
  }

  /** What no row operation touches. */
  predicate SameFrame(db: DB, e: DB) {
    e.now == db.now && e.nextId == db.nextId && e.schedules == db.schedules && e.jobs.Keys == db.jobs.Keys &&
    e.queues.Keys == db.queues.Keys && (forall q :: q in db.queues ==> SameConfig(db.queues[q], e.queues[q]))
  }

  predicate SameConfig(q: Queue, p: Queue) {
    p.limit == q.limit && p.paused == q.paused && p.policy == q.policy
  }

  /** The row a batch leaves behind: every listed job is touched once, from the row it had before the batch. */
  function BatchRow(db: DB, ids: seq<Id>, op: Op, i: Id): Row
    requires i in db.jobs
  {
    var r := View(db, i);
    if i in ids && Legal(r, op, db.now) then After(r, op, db.now) else r
  }

  lemma BatchRowSnoc(db: DB, m: DB, front: seq<Id>, last: Id, op: Op, i: Id)
    requires last !in front && i in db.jobs && SameFrame(db, m)
    requires View(m, i) == BatchRow(db, front, op, i)
    ensures View(Do(m, last, op), i) == BatchRow(db, front + [last], op, i)
  {
    DoView(m, last, op);
    assert i in front + [last] <==> i in front || i == last;
  }

  lemma FrameTransitive(a: DB, b: DB, c: DB)
    requires SameFrame(a, b) && SameFrame(b, c)
    ensures SameFrame(a, c)
  {}

  lemma {:induction false} DoAllView(db: DB, ids: seq<Id>, op: Op)
    requires NoDup(ids)
    ensures SameFrame(db, DoAll(db, ids, op))
    ensures forall i :: i in db.jobs ==> View(DoAll(db, ids, op), i) == BatchRow(db, ids, op, i)
  {
    if |ids| > 0 {
      var front, last := ids[..|ids| - 1], ids[|ids| - 1];
      assert ids == front + [last];
      DoAllView(db, front, op);
      var m := DoAll(db, front, op);
      DoView(m, last, op);
      FrameTransitive(db, m, Do(m, last, op));
      forall i | i in db.jobs
        ensures View(DoAll(db, ids, op), i) == BatchRow(db, ids, op, i)
      {
        BatchRowSnoc(db, m, front, last, op, i);
      }
    }
  }

  /** The counters are a function of the rest of the database: two good states that agree on everything but
      counters agree on those too. */
  lemma CountersDetermined(a: DB, b: DB)
    requires CountersOk(a) && CountersOk(b)
    requires a.jobs == b.jobs && a.owed == b.owed && a.queues.Keys == b.queues.Keys
    requires forall q :: q in a.queues ==> SameConfig(a.queues[q], b.queues[q])
    ensures a.queues == b.queues
  {
    forall q | q in a.queues ensures a.queues[q] == b.queues[q] {
      assert StatsOk(a, q) && StatsOk(b, q);
    }
  }

  predicate Covers(c: Queue, d: Deltas) {
    && (d.queued.Dec? ==> c.statQueued >= d.queued.n)
    && (d.running.Dec? ==> c.statRunning >= d.running.n)
    && (d.completed.Dec? ==> c.statCompleted >= d.completed.n)
    && (d.dead.Dec? ==> c.statDead >= d.dead.n)
  }

  lemma CountedJobCovers(r: Row, op: Op, now: int, c: Queue)
    requires RowOk(r) && Legal(r, op, now) && CountsAtLeast(c, r.job)
    requires c.statQueued >= 0 && c.statRunning >= 0
    ensures Covers(c, CounterUpdate(r, op))
  {}

  lemma JobIsCounted(db: DB, i: Id)
    requires TablesOk(db) && CountersOk(db) && i in db.jobs
    ensures var c := db.queues[db.jobs[i].spec.queue];
              CountsAtLeast(c, db.jobs[i]) && c.statQueued >= 0 && c.statRunning >= 0
  {
    var j := db.jobs[i];
    assert StatsOk(db, j.spec.queue);
    CountRewrite(db.jobs, i, j, j.spec.queue, j.status);
  }

  /** No `GREATEST(..., 0)` ever cuts a counter off: every decrement finds what it takes away. */
  lemma ClampNeverFires(db: DB, i: Id, op: Op)
    requires Inv(db) && Applies(db, i, op)
    ensures Covers(db.queues[db.jobs[i].spec.queue], CounterUpdate(View(db, i), op))
  {
    JobIsCounted(db, i);
    CountedJobCovers(View(db, i), op, db.now, db.queues[db.jobs[i].spec.queue]);
  }
}
