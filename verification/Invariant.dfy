/** Every step keeps the joint invariant. */
module Invariant {
  import opened Common
  import opened Lifecycle
  import opened Backoff
  import opened Model
  import opened Rows
  import opened Database
  import opened Steps

  lemma InitOk(now: int)
    ensures Inv(Init(now))
  {}

  predicate SameRows(db: DB, e: DB) {
    e.jobs == db.jobs && e.execs == db.execs && e.dlq == db.dlq
  }

  /** The row, counter-free part of the invariant depends on the three job tables alone. */
  lemma SameRowsKeep(db: DB, e: DB)
    requires SameRows(db, e)
    ensures RowsOk(db) ==> RowsOk(e)
    ensures DedupeOk(db) ==> DedupeOk(e)
  {
    if RowsOk(db) {
      forall i | i in e.jobs ensures RowOk(View(e, i)) {
        assert View(e, i) == View(db, i);
      }
    }
  }

  lemma KeptSchedulesKeepCron(db: DB, e: DB)
    requires SameRows(db, e) && CronOk(db)
    requires forall s :: s in db.schedules ==> s in e.schedules && e.schedules[s] == db.schedules[s]
    ensures CronOk(e)
  {}

  lemma FreshRowOk(db: DB, a: NewJob)
    requires a.status in {Queued, Scheduled}
    ensures RowOk(Row(FreshJob(db, a), map[], None))
  {}

  lemma InsertKeepsCounters(db: DB, a: NewJob)
    requires TablesOk(db) && CountersOk(db) && a.status in {Queued, Scheduled}
    ensures CountersOk(Insert(db, a))
  {
    var e := Insert(db, a);
    if OutcomeOf(db, a).Created? {
      forall q | q in e.queues
        ensures StatsOk(e, q)
      {
        assert StatsOk(db, q);
        var t := FreshJob(db, a);
        CountInsert(db.jobs, db.nextId, t, q, Queued);
        CountInsert(db.jobs, db.nextId, t, q, Running);
        CountInsert(db.jobs, db.nextId, t, q, Completed);
        CountInsert(db.jobs, db.nextId, t, q, Dead);
      }
    }
  }

  lemma InsertKeepsDedupe(db: DB, a: NewJob)
    requires TablesOk(db) && DedupeOk(db)
    ensures DedupeOk(Insert(db, a))
  {
    var e := Insert(db, a);
    if OutcomeOf(db, a).Created? {
      var t := FreshJob(db, a);
      assert forall i, q, k :: i in db.jobs && Holds(db.jobs[i], q, k) ==> !Holds(t, q, k);
      assert forall i :: i in e.jobs ==> e.jobs[i] == if i == db.nextId then t else db.jobs[i];
    }
  }

  lemma InsertViews(db: DB, a: NewJob)
    requires TablesOk(db)
    ensures forall i :: i in db.jobs ==> i in Insert(db, a).jobs && View(Insert(db, a), i) == View(db, i)
    ensures OutcomeOf(db, a).Created? ==>
              && db.nextId !in db.jobs
              && Insert(db, a).jobs.Keys == db.jobs.Keys + {db.nextId}
              && View(Insert(db, a), db.nextId) == Row(FreshJob(db, a), map[], None)
    ensures !OutcomeOf(db, a).Created? ==> Insert(db, a) == db
  {
    forall i | i in db.jobs ensures i != db.nextId {}
    assert db.nextId !in db.jobs && db.nextId !in db.dlq;
  }

  lemma InsertKeepsRows(db: DB, a: NewJob)
    requires TablesOk(db) && RowsOk(db) && a.status in {Queued, Scheduled}
    ensures RowsOk(Insert(db, a))
  {
    var e := Insert(db, a);
    InsertViews(db, a);
    FreshRowOk(db, a);
    forall i | i in e.jobs ensures RowOk(View(e, i)) {
      assert i in db.jobs ==> View(e, i) == View(db, i);
    }
  }

  lemma InsertKeepsTables(db: DB, a: NewJob)
    requires TablesOk(db)
    ensures TablesOk(Insert(db, a))
  {
    var e := Insert(db, a);
    if OutcomeOf(db, a).Created? {
      assert e.queues.Keys == db.queues.Keys;
      assert KeysOk(e.jobs, e.execs, e.dlq);
      assert QueuesOk(e.queues, e.nextId);
      NewReference(db.jobs, db.queues.Keys, db.nextId, FreshJob(db, a));
    }
  }

  lemma NewReference(jobs: map<Id, Job>, queues: set<Id>, n: Id, j: Job)
    requires JobsRefer(jobs, queues, n) && j.spec.queue in queues
    ensures JobsRefer(jobs[n := j], queues, n + 1)
  {}

  lemma NewcomerKeepsCron(db: DB, e: DB, i: Id, j: Job)
    requires CronOk(db) && e.schedules == db.schedules && e.jobs == db.jobs[i := j]
    requires i !in db.jobs && j.spec.recurring.None?
    ensures CronOk(e)
  {
    assert forall a, s, slot :: a in e.jobs && Spawned(e.jobs[a], s, slot) ==>
           a in db.jobs && Spawned(db.jobs[a], s, slot);
  }

  lemma PlainInsertKeepsCron(db: DB, a: NewJob)
    requires TablesOk(db) && CronOk(db) && a.recurring.None?
    ensures CronOk(Insert(db, a))
  {
    if OutcomeOf(db, a).Created? {
      assert db.nextId !in db.jobs;
      NewcomerKeepsCron(db, Insert(db, a), db.nextId, FreshJob(db, a));
    }
  }

  lemma InsertKeepsInv(db: DB, a: NewJob)
    requires Inv(db) && a.status in {Queued, Scheduled} && a.recurring.None?
    ensures Inv(Insert(db, a))
  {
    InsertKeepsTables(db, a);
    InsertKeepsRows(db, a);
    InsertKeepsCounters(db, a);
    InsertKeepsDedupe(db, a);
    PlainInsertKeepsCron(db, a);
  }

  lemma AdvanceKeepsCron(db: DB, e: DB, s: Id)
    requires CronOk(db) && e.jobs == db.jobs && e.schedules.Keys == db.schedules.Keys
    requires forall t :: t in db.schedules ==> e.schedules[t].queue == db.schedules[t].queue
    requires forall t :: t in db.schedules ==> e.schedules[t].nextRun >= db.schedules[t].nextRun
    ensures CronOk(e)
  {}

  /** The occurrence takes the slot that was the watermark, and the watermark moves past it. */
  lemma OccurrenceKeepsCron(db: DB, e: DB, i: Id, j: Job, s: Id, slot: int)
    requires CronOk(db) && e.jobs == db.jobs[i := j] && i !in db.jobs && e.schedules.Keys == db.schedules.Keys
    requires s in db.schedules && Spawned(j, s, slot) && j.spec.queue == db.schedules[s].queue
    requires db.schedules[s].nextRun == slot < e.schedules[s].nextRun
    requires forall t :: t in db.schedules ==> e.schedules[t].queue == db.schedules[t].queue
    requires forall t :: t in db.schedules ==> e.schedules[t].nextRun >= db.schedules[t].nextRun
    ensures CronOk(e)
  {
    assert forall a :: a in db.jobs ==> !Spawned(db.jobs[a], s, slot);
  }

  lemma FireKeepsCron(db: DB, s: Id, next: Option<int>)
    requires TablesOk(db) && CronOk(db) && s in db.schedules
    requires next.Some? ==> next.value > db.schedules[s].nextRun
    ensures CronOk(Fire(db, s, next))
  {
    var e := Fire(db, s, next);
    var a := Occurrence(db, s);
    if next.Some? && OutcomeOf(db, a).Created? {
      assert db.nextId !in db.jobs;
      OccurrenceKeepsCron(db, e, db.nextId, FreshJob(db, a), s, db.schedules[s].nextRun);
    } else {
      AdvanceKeepsCron(db, e, s);
    }
  }

  lemma OccurrenceKeepsRest(db: DB, s: Id)
    requires Inv(db) && s in db.schedules
    ensures var e := Insert(db, Occurrence(db, s)); TablesOk(e) && RowsOk(e) && CountersOk(e) && DedupeOk(e)
  {
    var a := Occurrence(db, s);
    InsertKeepsTables(db, a);
    InsertKeepsRows(db, a);
    InsertKeepsCounters(db, a);
    InsertKeepsDedupe(db, a);
  }

  lemma DisableKeepsRest(db: DB, s: Id)
    requires Inv(db) && s in db.schedules
    ensures var e := Fire(db, s, None); TablesOk(e) && RowsOk(e) && CountersOk(e) && DedupeOk(e)
  {
    SchedulesOnly(db, Fire(db, s, None));
  }

  lemma FireIsInsert(db: DB, s: Id, next: Option<int>)
    requires s in db.schedules && next.Some?
    ensures var f, e := Insert(db, Occurrence(db, s)), Fire(db, s, next);
            && e == f.(schedules := e.schedules) && e.schedules.Keys == f.schedules.Keys
            && forall t :: t in f.schedules ==> e.schedules[t].queue == f.schedules[t].queue
  {}

  lemma FireKeepsRest(db: DB, s: Id, next: Option<int>)
    requires Inv(db) && s in db.schedules
    ensures var e := Fire(db, s, next); TablesOk(e) && RowsOk(e) && CountersOk(e) && DedupeOk(e)
  {
    if next.Some? {
      OccurrenceKeepsRest(db, s);
      FireIsInsert(db, s, next);
      SchedulesOnly(Insert(db, Occurrence(db, s)), Fire(db, s, next));
    } else {
      DisableKeepsRest(db, s);
    }
  }

  lemma FireKeepsInv(db: DB, s: Id, next: Option<int>)
    requires Inv(db)
    requires s in db.schedules && next.Some? ==> next.value > db.schedules[s].nextRun
    ensures Inv(Fire(db, s, next))
  {
    if s in db.schedules {
      FireKeepsRest(db, s, next);
      FireKeepsCron(db, s, next);
    }
  }

  /** Rewriting schedules in place leaves the job side alone. */
  lemma SchedulesOnly(db: DB, e: DB)
    requires TablesOk(db) && RowsOk(db) && CountersOk(db) && DedupeOk(db)
    requires e == db.(schedules := e.schedules) && e.schedules.Keys == db.schedules.Keys
    requires forall s :: s in db.schedules ==> e.schedules[s].queue == db.schedules[s].queue
    ensures TablesOk(e) && RowsOk(e) && CountersOk(e) && DedupeOk(e)
  {
    SameRowsKeep(db, e);
    SameStats(db, e);
  }

  lemma SameStats(db: DB, e: DB)
    requires CountersOk(db) && e.jobs == db.jobs && e.queues == db.queues && e.owed == db.owed
    ensures CountersOk(e)
  {
    forall q | q in e.queues ensures StatsOk(e, q) {
      assert StatsOk(db, q);
    }
  }

  /** A firing keeps the clock and every other schedule. */
  lemma FireFrame(db: DB, s: Id, next: Option<int>)
    ensures var e := Fire(db, s, next);
            && e.now == db.now && e.schedules.Keys == db.schedules.Keys
            && (forall t :: t in db.schedules && t != s ==> e.schedules[t] == db.schedules[t])
  {}

  lemma {:induction false} FireAllFrame(db: DB, due: seq<Id>, next: NextRuns)
    ensures var e := FireAll(db, due, next);
            && e.now == db.now && e.schedules.Keys == db.schedules.Keys
            && (forall t :: t in db.schedules && t !in due ==> e.schedules[t] == db.schedules[t])
  {
    if |due| > 0 {
      FireAllFrame(db, due[..|due| - 1], next);
      FireFrame(FireAll(db, due[..|due| - 1], next), due[|due| - 1], NextRun(next, due[|due| - 1]));
    }
  }

  lemma {:induction false} FireAllKeepsInv(db: DB, due: seq<Id>, next: NextRuns)
    requires Inv(db) && NoDup(due) && StrictlyLater(next, db.now)
    requires forall s :: s in due ==> s in db.schedules && DueSchedule(db.schedules[s], db.now)
    ensures Inv(FireAll(db, due, next))
  {
    if |due| > 0 {
      var front, last := due[..|due| - 1], due[|due| - 1];
      assert due == front + [last];
      FireAllKeepsInv(db, front, next);
      FireAllFrame(db, front, next);
      assert last !in front;
      FireKeepsInv(FireAll(db, front, next), last, NextRun(next, last));
    }
  }

  lemma DropKeepsCounters(db: DB, q: Id)
    requires CountersOk(db)
    ensures CountersOk(DropQueue(db, q))
  {
    var e := DropQueue(db, q);
    if Deletable(db, q) {
      forall p | p in e.queues
        ensures StatsOk(e, p)
      {
        assert StatsOk(db, p);
        assert forall s :: Members(e.jobs, p, s) == Members(db.jobs, p, s);
        assert Count(e.jobs, p, Queued) == Count(db.jobs, p, Queued);
        assert Count(e.jobs, p, Running) == Count(db.jobs, p, Running);
        assert Count(e.jobs, p, Completed) == Count(db.jobs, p, Completed);
        assert Count(e.jobs, p, Dead) == Count(db.jobs, p, Dead);
      }
    }
  }

  lemma DropViews(db: DB, q: Id)
    requires TablesOk(db) && RowsOk(db)
    ensures forall i :: i in DropQueue(db, q).jobs ==> i in db.jobs && View(DropQueue(db, q), i) == View(db, i)
  {
    var e := DropQueue(db, q);
    forall i | i in e.jobs
      ensures i in db.jobs && View(e, i) == View(db, i)
    {
      assert RowOk(View(db, i));
    }
  }

  lemma DlqFollowsJob(db: DB, i: Id)
    requires TablesOk(db) && RowsOk(db) && i in db.dlq
    ensures i in db.jobs && db.dlq[i].queue == db.jobs[i].spec.queue
  {
    assert RowOk(View(db, i));
  }

  lemma DropKeepsKeys(db: DB, q: Id)
    requires TablesOk(db) && RowsOk(db)
    ensures var e := DropQueue(db, q); KeysOk(e.jobs, e.execs, e.dlq)
  {
    var e := DropQueue(db, q);
    forall i | i in e.dlq ensures i in e.jobs {
      DlqFollowsJob(db, i);
    }
  }

  lemma DropKeepsTables(db: DB, q: Id)
    requires TablesOk(db) && RowsOk(db)
    ensures TablesOk(DropQueue(db, q))
  {
    var e := DropQueue(db, q);
    DropKeepsKeys(db, q);
    assert JobsRefer(e.jobs, e.queues.Keys, e.nextId);
    assert SchedulesRefer(e.schedules, e.queues.Keys, e.nextId);
  }

  lemma DropKeepsRows(db: DB, q: Id)
    requires TablesOk(db) && RowsOk(db) && DedupeOk(db)
    ensures RowsOk(DropQueue(db, q)) && DedupeOk(DropQueue(db, q))
  {
    var e := DropQueue(db, q);
    DropViews(db, q);
    forall i | i in e.jobs ensures RowOk(View(e, i)) && i in db.jobs && e.jobs[i] == db.jobs[i] {
      assert View(e, i) == View(db, i);
      assert RowOk(View(db, i));
    }
  }

  lemma DropKeepsInv(db: DB, q: Id)
    requires Inv(db)
    ensures Inv(DropQueue(db, q))
  {
    DropKeepsCounters(db, q);
    DropKeepsTables(db, q);
    DropKeepsRows(db, q);
    DropKeepsCron(db, q);
  }

  /** The guarded delete takes a queue's finished jobs with it and nothing that is still due to run. */
  lemma DeleteTakesOnlyFinished(db: DB, q: Id, i: Id)
    requires i in db.jobs && i !in DropQueue(db, q).jobs
    ensures IsTerminal(db.jobs[i].status) && db.jobs[i].spec.queue == q
  {
    assert i in db.jobs && !(db.jobs[i].spec.queue == q && Pending(db.jobs[i].status));
    match db.jobs[i].status case Completed => case Dead => case Cancelled => case _ =>
  }

  lemma DropKeepsCron(db: DB, q: Id)
    requires CronOk(db)
    ensures CronOk(DropQueue(db, q))
  {
    var e := DropQueue(db, q);
    assert forall i :: i in e.jobs ==> i in db.jobs && e.jobs[i] == db.jobs[i];
    assert forall s :: s in e.schedules ==> s in db.schedules && e.schedules[s] == db.schedules[s];
  }

  lemma SettleKeepsCounters(db: DB, q: Id)
    requires CountersOk(db) && q in db.owed
    ensures CountersOk(Settle(db, q))
  {
    var e := Settle(db, q);
    forall p | p in e.queues ensures StatsOk(e, p) {
      assert StatsOk(db, p);
    }
  }

  lemma SettleKeepsTables(db: DB, q: Id)
    requires TablesOk(db)
    ensures TablesOk(Settle(db, q))
  {
    assert Settle(db, q).queues.Keys == db.queues.Keys;
  }

  lemma SettleKeepsInv(db: DB, q: Id)
    requires Inv(db) && q in db.owed
    ensures Inv(Settle(db, q))
  {
    var e := Settle(db, q);
    SameRowsKeep(db, e);
    KeptSchedulesKeepCron(db, e);
    SettleKeepsTables(db, q);
    SettleKeepsCounters(db, q);
  }

  predicate SettingsOnly(q: Queue, p: Queue) {
    p.limit >= 1 && p == q.(limit := p.limit, paused := p.paused, policy := p.policy)
  }

  predicate EmptyQueue(p: Queue) {
    p.limit >= 1 && p.statQueued == p.statRunning == p.statCompleted == p.statDead == 0
  }

  ghost predicate SettingsChange(db: DB, e: DB) {
    && e == db.(now := e.now, queues := e.queues, nextId := e.nextId) && e.nextId >= db.nextId
    && (forall q :: q in db.queues ==> q in e.queues && SettingsOnly(db.queues[q], e.queues[q]))
    && (forall q :: q in e.queues && q !in db.queues ==> q == db.nextId < e.nextId && EmptyQueue(e.queues[q]))
  }

  lemma SettingsKeepCounters(db: DB, e: DB)
    requires TablesOk(db) && CountersOk(db) && SettingsChange(db, e)
    ensures CountersOk(e)
  {
    forall q | q in e.queues ensures StatsOk(e, q) {
      if q in db.queues {
        assert StatsOk(db, q);
      } else {
        NoMembers(db, q);
      }
    }
  }

  lemma SettingsKeepTables(db: DB, e: DB)
    requires TablesOk(db) && SettingsChange(db, e)
    ensures TablesOk(e)
  {}

  /** Changing queue settings, adding an empty queue or moving the clock leaves the rest alone. */
  lemma SettingsKeepInv(db: DB, e: DB)
    requires Inv(db) && SettingsChange(db, e)
    ensures Inv(e)
  {
    SameRowsKeep(db, e);
    KeptSchedulesKeepCron(db, e);
    SettingsKeepTables(db, e);
    SettingsKeepCounters(db, e);
  }

  lemma NoMembers(db: DB, q: Id)
    requires TablesOk(db) && q == db.nextId
    ensures forall s :: Members(db.jobs, q, s) == {}
    ensures db.owed[q] == 0
  {
    assert q !in db.queues && q !in db.owed;
  }

  function AddSchedule(db: DB, s: Schedule): DB {
    db.(nextId := db.nextId + 1, schedules := db.schedules[db.nextId := s])
  }

  lemma NewScheduleKeepsTables(db: DB, s: Schedule)
    requires TablesOk(db) && s.queue in db.queues
    ensures TablesOk(AddSchedule(db, s)) && db.nextId !in db.schedules
  {}

  lemma NewScheduleKeepsInv(db: DB, s: Schedule)
    requires Inv(db) && s.queue in db.queues
    ensures Inv(AddSchedule(db, s))
  {
    var e := AddSchedule(db, s);
    NewScheduleKeepsTables(db, s);
    SameRowsKeep(db, e);
    SameStats(db, e);
    KeptSchedulesKeepCron(db, e);
  }

  lemma TransactKeepsInv(db: DB, w: Work)
    requires Inv(db) && (w.op.Retry? ==> |w.ids| == 1)
    ensures Inv(Transact(db, w))
  {
    if !Refused(db, w) {
      if w.op.Retry? {
        assert w.ids == [w.ids[0]] && w.ids[..0] == [];
        assert DoAll(db, [], w.op) == db;
        assert w.ids[0] in w.ids;
        DoKeepsInv(db, w.ids[0], w.op);
      } else {
        DoAllKeepsInv(db, w.ids, w.op);
      }
    }
  }

  lemma QueueSettings(db: DB, q: Id, limit: Option<int>, paused: Option<bool>, policy: Option<Option<RetryPolicy>>)
    requires TablesOk(db) && (limit.Some? ==> limit.value >= 1)
    ensures SettingsChange(db, SetQueue(db, q, limit, paused, policy))
  {}

  lemma NewQueue(db: DB, limit: int, policy: Option<RetryPolicy>)
    requires TablesOk(db) && limit >= 1
    ensures SettingsChange(db, db.(nextId := db.nextId + 1,
                                   queues := db.queues[db.nextId := Queue(limit, false, policy, 0, 0, 0, 0)]))
  {
    assert db.nextId !in db.queues;
  }

  lemma ClockTick(db: DB, to: int)
    requires TablesOk(db)
    ensures SettingsChange(db, db.(now := to))
  {}

  lemma SettingStep(db: DB, step: Step)
    requires TablesOk(db) && Enabled(db, step)
    requires step.Tick? || step.CreateQueue? || step.UpdateQueue? || step.PauseQueue?
    ensures SettingsChange(db, Apply(db, step))
  {
    match step
    case Tick(to) => ClockTick(db, to);
    case CreateQueue(limit, policy) => NewQueue(db, limit, policy);
    case UpdateQueue(q, limit, policy) => QueueSettings(db, q, limit, None, policy);
    case PauseQueue(q, paused) => QueueSettings(db, q, None, Some(paused), None);
  }

  lemma SettingStepKeepsInv(db: DB, step: Step)
    requires Inv(db) && Enabled(db, step)
    requires step.Tick? || step.CreateQueue? || step.UpdateQueue? || step.PauseQueue?
    ensures Inv(Apply(db, step))
  {
    SettingStep(db, step);
    SettingsKeepInv(db, Apply(db, step));
  }

  lemma CronStepKeepsInv(db: DB, due: seq<Id>, skipped: set<Id>, next: NextRuns)
    requires Inv(db) && Enabled(db, PromoteRecurring(due, skipped, next))
    ensures Inv(FireAll(db, due, next))
  {
    forall s | s in due
      ensures s in db.schedules && DueSchedule(db.schedules[s], db.now)
    {
      assert s in Elems(due);
    }
    FireAllKeepsInv(db, due, next);
  }

  lemma ScheduleStepKeepsInv(db: DB, step: Step)
    requires Inv(db) && Enabled(db, step) && (step.CreateRecurring? || step.PromoteRecurring?)
    ensures Inv(Apply(db, step))
  {
    match step
    case CreateRecurring(s) =>
      NewScheduleKeepsInv(db, s);
      assert Apply(db, step) == AddSchedule(db, s);
    case PromoteRecurring(due, skipped, next) => CronStepKeepsInv(db, due, skipped, next);
  }

  lemma JobStepKeepsInv(db: DB, step: Step)
    requires Inv(db) && Enabled(db, step) && (step.DeleteQueue? || step.InsertJob? || step.SettleCancel?)
    ensures Inv(Apply(db, step))
  {
    match step
    case DeleteQueue(q) => DropKeepsInv(db, q);
    case InsertJob(a) => InsertKeepsInv(db, a);
    case SettleCancel(q) => SettleKeepsInv(db, q);
  }

  /** The joint invariant is inductive: every enabled step keeps it. */
  lemma StepKeepsInv(db: DB, step: Step)
    requires Inv(db) && Enabled(db, step)
    ensures Inv(Apply(db, step))
  {
    if WorkOf(step).Some? {
      TransactKeepsInv(db, WorkOf(step).value);
    } else if step.DeleteQueue? || step.InsertJob? || step.SettleCancel? {
      JobStepKeepsInv(db, step);
    } else if step.CreateRecurring? || step.PromoteRecurring? {
      ScheduleStepKeepsInv(db, step);
    } else {
      SettingStepKeepsInv(db, step);
    }
  }
}
