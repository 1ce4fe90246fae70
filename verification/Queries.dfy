/** The transactions of schedules, queues and the dead-letter list, on the tables of the store. */
module Queries {
  import opened Common
  import opened Lifecycle
  import opened Backoff
  import opened Model
  import opened Database
  import opened Steps
  import opened Invariant
  import opened Guarantees
  import opened Updates
  import opened Store
  import opened Selection
  import opened Origins
  import opened Settings

  // ---- schedules

  datatype RecurringResult = RecurringCreated(id: Id) | InvalidCron | RecurringQueueNotFound | InvalidTimezone

  /** A template whose first fire time can be computed; one that cannot is refused, not stored. */
  method CreateRecurringJob(t: Tables, q: Id, handler: string, expr: string, timezone: string, payload: string,
                            validCron: bool, firstRun: Option<int>)
    returns (r: RecurringResult)
    modifies t`nextId, t`schedules
    ensures r == if !validCron then InvalidCron
                 else if q !in t.queues then RecurringQueueNotFound
                 else if firstRun.None? then InvalidTimezone
                 else RecurringCreated(old(t.nextId))
    ensures !r.RecurringCreated? ==> t.State() == old(t.State())
    ensures r.RecurringCreated? ==>
              var s := Schedule(q, handler, expr, timezone, payload, firstRun.value, true, None, None);
              t.State() == Apply(old(t.State()), CreateRecurring(s))
    ensures old(t.Valid()) ==> t.Valid()
  {
    if validCron && q in t.queues && firstRun.Some? {
      ghost var s := Schedule(q, handler, expr, timezone, payload, firstRun.value, true, None, None);
      StepKeepsValid(t.State(), CreateRecurring(s));
    }
    if !validCron {
      return InvalidCron;
    }
    if q !in t.queues {
      return RecurringQueueNotFound;
    }
    if firstRun.None? {
      return InvalidTimezone;
    }
    r := RecurringCreated(t.nextId);
    var row := Schedule(q, handler, expr, timezone, payload, firstRun.value, true, None, None);
    t.schedules := t.schedules[t.nextId := row];
    t.nextId := t.nextId + 1;
  }

  /** One due schedule: off if its next fire time throws, else its occurrence unless the key is held, and on. */
  method FireOne(t: Tables, s: Id, c: Schedule, next: Option<int>)
    requires t.Keyed() && s in t.schedules && c == t.schedules[s]
    modifies t
    ensures t.Keyed() && t.State() == Fire(old(t.State()), s, next) && s in t.schedules
    ensures next.Some? && t.nextId != old(t.nextId) ==>
              && old(t.nextId) in t.jobs && Remembers(t.schedules[s], old(t.nextId), t.now)
              && OccurrenceOf(t.jobs[old(t.nextId)], s, c, Contract(old(t.State()), c.queue), t.now)
    ensures t.nextId == old(t.nextId) ==> t.jobs == old(t.jobs) && SameMemory(c, t.schedules[s])
  {
    if next.None? {
      t.schedules := t.schedules[s := c.(enabled := false)];
    } else {
      var newId := t.nextId;
      var o := t.InsertRow(NewJob(c.queue, Recurring, c.handler, c.payload, Queued, t.now, 5,
                                  Some(CronKey(s, c.nextRun)), Some(s), None));
      var newJob := if o == Created then Some(newId) else None;
      t.schedules := t.schedules[s := c.(nextRun := next.value,
                                         lastEnqueuedAt := if newJob.Some? then Some(t.now) else c.lastEnqueuedAt,
                                         lastJob := if newJob.Some? then newJob else c.lastJob)];
    }
  }

  /** SELECT ... WHERE is_enabled AND next_run_at <= now() FOR UPDATE SKIP LOCKED. */
  method SelectDue(t: Tables, skipped: set<Id>) returns (rows: map<Id, Schedule>)
    ensures rows.Keys == DueSchedules(t.State()) - skipped
    ensures forall s :: s in rows ==> s in t.schedules && rows[s] == t.schedules[s]
  {
    rows := map s | s in t.schedules && DueSchedule(t.schedules[s], t.now) && s !in skipped :: t.schedules[s];
  }

  function Firing(due: set<Id>, next: NextRuns): set<Id> {
    set s | s in due && NextRun(next, s).Some?
  }

  lemma OneMoreFiring(done: seq<Id>, s: Id, next: NextRuns)
    requires s !in done
    ensures |Firing(Elems(done + [s]), next)| == |Firing(Elems(done), next)| + if NextRun(next, s).Some? then 1 else 0
  {
    var more := if NextRun(next, s).Some? then {s} else {};
    assert Firing(Elems(done + [s]), next) == Firing(Elems(done), next) + more;
  }

  /** A schedule that the tick has not come to yet is as it was selected; firing it extends the tick by one. */
  lemma NextFired(db: DB, done: seq<Id>, s: Id, next: NextRuns)
    requires s in db.schedules && s !in done
    ensures var m := FireAll(db, done, next);
            && s in m.schedules && m.schedules[s] == db.schedules[s]
            && FireAll(db, done + [s], next) == Fire(m, s, NextRun(next, s))
  {
    FireAllFrame(db, done, next);
    assert (done + [s])[..|done|] == done;
  }

  lemma TickKeepsValid(db: DB, order: seq<Id>, skipped: set<Id>, next: NextRuns)
    requires NoDup(order) && Elems(order) == DueSchedules(db) - skipped
    ensures Inv(db) && StrictlyLater(next, db.now) ==> Inv(FireAll(db, order, next))
  {
    if Inv(db) && StrictlyLater(next, db.now) {
      CronStepKeepsInv(db, order, skipped, next);
    }
  }

  /** Every job that came is an occurrence of a schedule that was due, and the schedule remembers it. */
  ghost predicate AllAreOccurrences(db: DB, e: DB) {
    forall j :: j in e.jobs && j !in db.jobs ==>
      exists s :: s in DueSchedules(db) && s in e.schedules && Remembers(e.schedules[s], j, db.now)
                  && OccurrenceOf(e.jobs[j], s, db.schedules[s], Contract(db, db.schedules[s].queue), db.now)
  }

  lemma TickAddsOccurrences(db: DB, order: seq<Id>, next: NextRuns)
    requires NoDup(order) && Elems(order) <= DueSchedules(db)
    ensures Inv(db) ==> AllAreOccurrences(db, FireAll(db, order, next))
  {
    if Inv(db) {
      forall j | j in FireAll(db, order, next).jobs && j !in db.jobs
        ensures exists s :: s in DueSchedules(db) && s in FireAll(db, order, next).schedules
                  && Remembers(FireAll(db, order, next).schedules[s], j, db.now)
                  && OccurrenceOf(FireAll(db, order, next).jobs[j], s, db.schedules[s],
                                  Contract(db, db.schedules[s].queue), db.now)
      {
        var s := TickJob(db, order, next, j);
        assert s in Elems(order);
      }
    }
  }

  /** The promoter of recurring jobs: the loop over the due schedules, counting those that could be fired. */
  method PromoteRecurringJobs(t: Tables, skipped: set<Id>, next: NextRuns) returns (promoted: nat, order: seq<Id>)
    requires t.Keyed()
    modifies t
    ensures t.Keyed() && t.State() == FireAll(old(t.State()), order, next)
    ensures NoDup(order) && Elems(order) == DueSchedules(old(t.State())) - skipped
    ensures promoted == |Firing(DueSchedules(old(t.State())) - skipped, next)|
    ensures old(t.Valid()) ==> AllAreOccurrences(old(t.State()), t.State())
    ensures old(t.Valid()) && StrictlyLater(next, old(t.now)) ==> t.Valid()
  {
    ghost var before := t.State();
    var rows := SelectDue(t, skipped);
    order := InSomeOrder(rows.Keys);
    promoted := 0;
    ghost var done := [];
    var rest := order;
    assert Firing(Elems<Id>([]), next) == {};
    while rest != []
      invariant order == done + rest
      invariant t.Keyed() && t.State() == FireAll(before, done, next)
      invariant promoted == |Firing(Elems(done), next)|
    {
      OneFurther(order, done, rest);
      var s := rest[0];
      NextFired(before, done, s, next);
      OneMoreFiring(done, s, next);
      FireOne(t, s, rows[s], NextRun(next, s));
      if NextRun(next, s).Some? {
        promoted := promoted + 1;
      }
      done, rest := done + [s], rest[1..];
    }
    assert done == order;
    TickKeepsValid(before, order, skipped, next);
    TickAddsOccurrences(before, order, next);
  }

  // ---- the dead-letter list

  datatype DlqResult = DlqDone | DlqNotFound | DlqRefused

  method DropLetter(t: Tables, i: Id)
    requires t.Keyed() && i in t.dlq
    modifies t
    ensures t.Keyed() && t.State() == Do(old(t.State()), i, Discard) && t.jobs == old(t.jobs)
    ensures t.dlq == old(t.dlq) - {i} && t.execs == old(t.execs) && t.queues == old(t.queues)
  {
    ghost var before := t.State();
    Unchanged(before, i);
    SameAgain(before, i, t.jobs[i]);
    t.dlq := t.dlq - {i};
    ghost var s := After(View(before, i), Discard, t.now);
    FieldsAreWrite(before, t.State(), i, s, UNTOUCHED, false);
    WriteKeepsKeyed(before, i, s, UNTOUCHED, false);
  }

  /** Forget the entry; the job stays dead. */
  method DiscardDeadLetter(t: Tables, i: Id) returns (r: DlqResult)
    requires t.Keyed()
    modifies t
    ensures t.Keyed() && t.State() == Do(old(t.State()), i, Discard) == Apply(old(t.State()), DiscardDlq(i))
    ensures t.jobs == old(t.jobs) && t.execs == old(t.execs) && t.queues == old(t.queues)
    ensures r == if i in old(t.dlq) then DlqDone else DlqNotFound
    ensures t.dlq == old(t.dlq) - {i}
    ensures old(t.Valid()) ==> t.Valid()
  {
    DoKeepsValid(t.State(), i, Discard);
    OneJobStep(t.State(), DiscardDlq(i), i, Discard);
    if i in t.dlq {
      DropLetter(t, i);
      r := DlqDone;
    } else {
      r := DlqNotFound;
    }
  }

  /** A manual retry of the job behind the entry; between the lookup and the retry other transactions may commit. */
  method RequeueDeadLetter(t: Tables, i: Id, later: DB) returns (r: DlqResult)
    requires KeysOk(later.jobs, later.execs, later.dlq)
    modifies t
    ensures t.State() == if i in old(t.dlq) then Transact(later, Work([i], Retry)) else old(t.State())
    ensures r == if i !in old(t.dlq) || i !in later.jobs || later.jobs[i].status !in {Dead, Retrying} then DlqNotFound
                 else if KeyTaken(later, i) then DlqRefused
                 else DlqDone
    ensures r.DlqDone? ==> i in t.jobs && FreshlyRetried(later.jobs[i], t.jobs[i], later.now)
    ensures old(t.Valid()) && Inv(later) ==> t.Valid()
  {
    if i !in t.dlq {
      return DlqNotFound;
    }
    t.OthersCommit(later);
    var retried := t.RetryJob(i);
    r := match retried case Retried => DlqDone case RetryRefused => DlqRefused case _ => DlqNotFound;
  }

  // ---- queues

  datatype QueueResult = QueueDone | NoSuchQueue | HasPendingWork | BadLimit | PolicyNotFound

  datatype CreateQueueResult = QueueCreated(id: Id) | ProjectNotFound | NoSuchPolicy | LimitRefused

  /** A queue is born open, empty and with its counters at zero, in a project that exists and with a policy of that
      project; the schema refuses a limit below one. */
  method CreateQueueRow(t: Tables, limit: int, policy: Option<RetryPolicy>, projectFound: bool, policyFound: bool)
    returns (r: CreateQueueResult)
    modifies t`nextId, t`queues
    ensures r == if !projectFound then ProjectNotFound
                 else if policy.Some? && !policyFound then NoSuchPolicy
                 else if limit < 1 then LimitRefused
                 else QueueCreated(old(t.nextId))
    ensures t.State() == if r.QueueCreated? then Apply(old(t.State()), CreateQueue(limit, policy)) else old(t.State())
    ensures r.QueueCreated? ==> t.queues == old(t.queues)[r.id := Queue(limit, false, policy, 0, 0, 0, 0)]
    ensures old(t.Valid()) ==> t.Valid()
  {
    if !projectFound {
      return ProjectNotFound;
    }
    if policy.Some? && !policyFound {
      return NoSuchPolicy;
    }
    if limit < 1 {
      return LimitRefused;
    }
    StepKeepsValid(t.State(), CreateQueue(limit, policy));
    r := QueueCreated(t.nextId);
    t.queues := t.queues[t.nextId := Queue(limit, false, policy, 0, 0, 0, 0)];
    t.nextId := t.nextId + 1;
  }

  /** The settings given are set, the others stay; a policy of another project is refused, and the schema refuses a
      limit below one. */
  method UpdateQueueSettings(t: Tables, q: Id, newLimit: Option<int>, newPolicy: Option<Option<RetryPolicy>>,
                             policyFound: bool)
    returns (r: QueueResult)
    modifies t`queues
    ensures r == if q !in old(t.queues) then NoSuchQueue
                 else if newPolicy.Some? && newPolicy.value.Some? && !policyFound then PolicyNotFound
                 else if newLimit.Some? && newLimit.value < 1 then BadLimit
                 else QueueDone
    ensures t.State() == if r.QueueDone? then Apply(old(t.State()), UpdateQueue(q, newLimit, newPolicy))
                         else old(t.State())
    ensures r.QueueDone? ==>
              var c := old(t.queues)[q];
              t.queues == old(t.queues)[q := c.(limit := if newLimit.Some? then newLimit.value else c.limit,
                                                policy := if newPolicy.Some? then newPolicy.value else c.policy)]
    ensures old(t.Valid()) ==> t.Valid()
  {
    if newLimit.Some? ==> newLimit.value >= 1 {
      StepKeepsValid(t.State(), UpdateQueue(q, newLimit, newPolicy));
    }
    if q !in t.queues {
      return NoSuchQueue;
    }
    var c := t.queues[q];
    if newPolicy.Some? {
      if newPolicy.value.Some? && !policyFound {
        return PolicyNotFound;
      }
      c := c.(policy := newPolicy.value);
    }
    if newLimit.Some? {
      if newLimit.value < 1 {
        return BadLimit;
      }
      c := c.(limit := newLimit.value);
    }
    t.queues := t.queues[q := c];
    r := QueueDone;
  }

  method SetQueuePaused(t: Tables, q: Id, paused: bool) returns (r: QueueResult)
    modifies t`queues
    ensures t.State() == Apply(old(t.State()), PauseQueue(q, paused))
    ensures r == if q in old(t.queues) then QueueDone else NoSuchQueue
    ensures r.QueueDone? ==> t.queues == old(t.queues)[q := old(t.queues)[q].(paused := paused)]
    ensures old(t.Valid()) ==> t.Valid()
  {
    StepKeepsValid(t.State(), PauseQueue(q, paused));
    if q !in t.queues {
      return NoSuchQueue;
    }
    t.queues := t.queues[q := t.queues[q].(paused := paused)];
    r := QueueDone;
  }

  /** The two NOT EXISTS of the guarded delete. */
  method HasPending(t: Tables, q: Id) returns (pending: bool)
    requires q in t.queues
    ensures pending <==> !Deletable(t.State(), q)
  {
    pending := (exists i :: i in t.jobs && t.jobs[i].spec.queue == q && Pending(t.jobs[i].status))
               || (exists s :: s in t.schedules && t.schedules[s].queue == q && t.schedules[s].enabled);
  }

  /** The delete and its cascades. */
  method DropTables(t: Tables, q: Id)
    requires Deletable(t.State(), q)
    modifies t
    ensures t.State() == DropQueue(old(t.State()), q)
  {
    t.queues := t.queues - {q};
    t.execs := map i | i in t.execs && i in t.jobs && t.jobs[i].spec.queue != q :: t.execs[i];
    t.jobs := map i | i in t.jobs && t.jobs[i].spec.queue != q :: t.jobs[i];
    t.dlq := map i | i in t.dlq && t.dlq[i].queue != q :: t.dlq[i];
    t.schedules := map s | s in t.schedules && t.schedules[s].queue != q :: t.schedules[s];
  }

  lemma DropKeepsValid(db: DB, q: Id)
    ensures Inv(db) ==> Inv(DropQueue(db, q))
  {
    if Inv(db) {
      DropKeepsInv(db, q);
    }
  }

  /** The guarded delete. */
  method DeleteQueueGuarded(t: Tables, q: Id) returns (r: QueueResult)
    modifies t
    ensures t.State() == DropQueue(old(t.State()), q)
    ensures r == if q !in old(t.queues) then NoSuchQueue
                 else if Idle(old(t.State()), q) then QueueDone
                 else HasPendingWork
    ensures old(t.Valid()) ==> t.Valid()
  {
    DropKeepsValid(t.State(), q);
    IdleIsDeletable(t.State(), q);
    if q !in t.queues {
      return NoSuchQueue;
    }
    var pending := HasPending(t, q);
    if pending {
      return HasPendingWork;
    }
    DropTables(t, q);
    r := QueueDone;
  }

  datatype QueueStats = QueueStats(queued: int, scheduled: nat, running: int, retrying: nat, completed: int, dead: int,
                                   cancelled: nat, dlqSize: nat)

  /** Four cached counters and three live counts: in a good state each is the number of jobs it names, but for the
      cancels that the queued counter still waits for; dead jobs without a letter were discarded. */
  method GetQueueStats(t: Tables, q: Id) returns (r: Option<QueueStats>)
    ensures r.Some? <==> q in t.queues
    ensures r.Some? && t.Valid() ==>
              && r.value.queued == Count(t.jobs, q, Queued) + t.State().owed[q]
              && r.value.running == Count(t.jobs, q, Running)
              && r.value.completed == Count(t.jobs, q, Completed)
              && r.value.dead == Count(t.jobs, q, Dead) == r.value.dlqSize + |Discarded(t.State(), q)|
    ensures r.Some? ==>
              && r.value.scheduled == Count(t.jobs, q, Scheduled) && r.value.retrying == Count(t.jobs, q, Retrying)
              && r.value.cancelled == Count(t.jobs, q, Cancelled) && r.value.dlqSize == |DlqOf(t.State(), q)|
  {
    if q !in t.queues {
      return None;
    }
    var c := t.queues[q];
    var letters := set i | i in t.dlq && t.dlq[i].queue == q;
    assert letters == DlqOf(t.State(), q);
    if t.Valid() {
      CountersExact(t.State(), q);
      DeadCounterSplits(t.State(), q);
    }
    r := Some(QueueStats(c.statQueued, Count(t.jobs, q, Scheduled), c.statRunning, Count(t.jobs, q, Retrying),
                         c.statCompleted, c.statDead, Count(t.jobs, q, Cancelled), |letters|));
  }
}
