/** Every transaction of the scheduler as one step of a state machine. */
module Steps {
  import opened Common
  import opened Lifecycle
  import opened Backoff
  import opened Model
  import opened Database

  // ---- claim selection

  function Eligible(db: DB, q: Id): set<Id> {
    set i | i in db.jobs && db.jobs[i].spec.queue == q && db.jobs[i].status.Queued? && db.jobs[i].runAt <= db.now
  }

  /** ORDER BY priority DESC, run_at ASC, created_at ASC, strictly. */
  predicate Outranks(a: Job, b: Job) {
    || a.spec.priority > b.spec.priority
    || (a.spec.priority == b.spec.priority && a.runAt < b.runAt)
    || (a.spec.priority == b.spec.priority && a.runAt == b.runAt && a.spec.createdAt < b.spec.createdAt)
  }

  /** LEAST(localFree, concurrency_limit - running, batchCap). */
  function Take(limit: int, running: int, localFree: int, cap: int): int {
    Min(localFree, Min(limit - running, cap))
  }

  /** How many of n available rows one claim takes; none when the queue is paused or missing. */
  function Quota(db: DB, q: Id, localFree: int, cap: int, n: nat): nat {
    if q !in db.queues || db.queues[q].paused then 0
    else Max(0, Min(Take(db.queues[q].limit, Count(db.jobs, q, Running), localFree, cap), n))
  }

  /** The picked rows are the quota's worth of best-ranked eligible rows that no other transaction has locked. */
  ghost predicate ValidPick(db: DB, q: Id, localFree: int, cap: int, locked: set<Id>, picked: seq<Id>) {
    var avail := Eligible(db, q) - locked;
    && NoDup(picked)
    && |picked| == Quota(db, q, localFree, cap, |avail|)
    && (forall i :: i in picked ==> i in avail)
    && (forall i, j :: i in picked && j in avail && j !in picked ==> !Outranks(db.jobs[j], db.jobs[i]))
  }

  // ---- inserts

  /** What an INSERT of a job is given. The retry contract is read by a statement of its own before: it is what the
      queue offered at that moment, or, where there is none, what it offers now. */
  datatype NewJob = NewJob(queue: Id, kind: Kind, handler: string, payload: string, status: Status, runAt: int,
                           priority: int, dedupe: Option<Key>, recurring: Option<Id>, contract: Option<RetryPolicy>)

  datatype InsertOutcome = Created | Duplicate | CheckViolation | ForeignKeyViolation

  /** The queue's own retry policy, or the default. */
  function Contract(db: DB, q: Id): RetryPolicy {
    if q in db.queues && db.queues[q].policy.Some? then db.queues[q].policy.value else DEFAULT_RETRY
  }

  function ContractOf(db: DB, a: NewJob): RetryPolicy {
    if a.contract.Some? then a.contract.value else Contract(db, a.queue)
  }

  function FreshJob(db: DB, a: NewJob): Job {
    var c := ContractOf(db, a);
    Job(Spec(a.queue, a.kind, a.handler, a.payload, a.priority, a.dedupe, c.curve, a.recurring, db.now),
        a.status, a.runAt, 0, c.maxAttempts, None, None, None, None, None)
  }

  predicate KeyConflict(db: DB, q: Id, key: Option<Key>) {
    key.Some? && exists i :: i in db.jobs && Holds(db.jobs[i], q, key.value)
  }

  function OutcomeOf(db: DB, a: NewJob): InsertOutcome {
    if !(0 <= a.priority <= 9) then CheckViolation
    else if KeyConflict(db, a.queue, a.dedupe) then Duplicate
    else if a.queue !in db.queues then ForeignKeyViolation
    else Created
  }

  function Insert(db: DB, a: NewJob): DB {
    if OutcomeOf(db, a) != Created then db
    else
      db.(nextId := db.nextId + 1,
          jobs := db.jobs[db.nextId := FreshJob(db, a)],
          execs := db.execs[db.nextId := map[]],
          queues := if a.status.Queued?
                    then db.queues[a.queue := Bump(db.queues[a.queue], Deltas(Inc(1), Keep, Keep, Keep))]
                    else db.queues)
  }

  // ---- cron

  predicate DueSchedule(s: Schedule, now: int) {
    s.enabled && s.nextRun <= now
  }

  function Occurrence(db: DB, s: Id): NewJob
    requires s in db.schedules
  {
    var c := db.schedules[s];
    NewJob(c.queue, Recurring, c.handler, c.payload, Queued, db.now, 5, Some(CronKey(s, c.nextRun)), Some(s),
           None)
  }

  /** One due schedule: disable it if its next fire time cannot be computed, else insert the occurrence of its
      current slot unless the key is held, and advance the watermark either way. */
  function Fire(db: DB, s: Id, next: Option<int>): DB {
    if s !in db.schedules then db
    else if next.None? then db.(schedules := db.schedules[s := db.schedules[s].(enabled := false)])
    else
      var c := db.schedules[s];
      var created := OutcomeOf(db, Occurrence(db, s)).Created?;
      var e := Insert(db, Occurrence(db, s));
      e.(schedules := db.schedules[s := c.(nextRun := next.value,
                                           lastEnqueuedAt := if created then Some(db.now) else c.lastEnqueuedAt,
                                           lastJob := if created then Some(db.nextId) else c.lastJob)])
  }

  type NextRuns = map<Id, Option<int>>

  function NextRun(next: NextRuns, s: Id): Option<int> {
    if s in next then next[s] else None
  }

  function FireAll(db: DB, due: seq<Id>, next: NextRuns): DB {
    if |due| == 0 then db
    else Fire(FireAll(db, due[..|due| - 1], next), due[|due| - 1], NextRun(next, due[|due| - 1]))
  }

  /** nextRunAt(expr, now) is strictly after now whenever it returns at all. */
  ghost predicate StrictlyLater(next: NextRuns, now: int) {
    forall s :: s in next && next[s].Some? ==> next[s].value > now
  }

  // ---- queues

  predicate Pending(s: Status) {
    s in {Running, Queued, Scheduled, Retrying}
  }

  predicate Deletable(db: DB, q: Id) {
    && q in db.queues
    && (forall i :: i in db.jobs ==> !(db.jobs[i].spec.queue == q && Pending(db.jobs[i].status)))
    && (forall s :: s in db.schedules ==> !(db.schedules[s].queue == q && db.schedules[s].enabled))
  }

  /** The guarded delete, with its cascades. */
  function DropQueue(db: DB, q: Id): DB {
    if !Deletable(db, q) then db
    else
      db.(queues := db.queues - {q},
          jobs := map i | i in db.jobs && db.jobs[i].spec.queue != q :: db.jobs[i],
          execs := map i | i in db.execs && i in db.jobs && db.jobs[i].spec.queue != q :: db.execs[i],
          dlq := map i | i in db.dlq && db.dlq[i].queue != q :: db.dlq[i],
          schedules := map s | s in db.schedules && db.schedules[s].queue != q :: db.schedules[s])
  }

  function SetQueue(db: DB, q: Id, limit: Option<int>, paused: Option<bool>, policy: Option<Option<RetryPolicy>>): DB {
    if q !in db.queues then db
    else
      var c := db.queues[q];
      db.(queues := db.queues[q := c.(limit := if limit.Some? then limit.value else c.limit,
                                      paused := if paused.Some? then paused.value else c.paused,
                                      policy := if policy.Some? then policy.value else c.policy)])
  }

  /** The second statement of a cancel. */
  function Settle(db: DB, q: Id): DB {
    db.(owed := db.owed - multiset{q},
        queues := if q in db.queues then db.queues[q := Bump(db.queues[q], Deltas(Dec(1), Keep, Keep, Keep))]
                  else db.queues)
  }

  // ---- steps

  datatype Step =
    | Tick(to: int)
    | CreateQueue(limit: int, policy: Option<RetryPolicy>)
    | UpdateQueue(queue: Id, newLimit: Option<int>, newPolicy: Option<Option<RetryPolicy>>)
    | PauseQueue(queue: Id, paused: bool)
    | DeleteQueue(queue: Id)
    | CreateRecurring(schedule: Schedule)
    | PromoteRecurring(due: seq<Id>, skipped: set<Id>, next: NextRuns)
    | InsertJob(args: NewJob)
    | SettleCancel(queue: Id)
    | ClaimJobs(queue: Id, worker: Id, localFree: int, lease: nat, cap: int, locked: set<Id>, picked: seq<Id>)
    | CompleteJob(id: Id, worker: Id, ms: int)
    | FailJob(id: Id, worker: Id, error: string, rand: real)
    | DeadLetterFenced(id: Id, worker: Id, reason: DeathReason, error: string)
    | PromoteDue(ids: seq<Id>)
    | ReclaimStuck(ids: seq<Id>, locked: set<Id>)
    | Heartbeat(worker: Id, ids: seq<Id>, lease: nat)
    | RequeueInflight(worker: Id, ids: seq<Id>)
    | RetryJob(id: Id)
    | CancelJob(id: Id)
    | DiscardDlq(id: Id)
    | DeleteWorker(worker: Id, ids: seq<Id>)

  /** The jobs a step works through, and what it does to each; steps that touch no existing job have none. */
  datatype Work = Work(ids: seq<Id>, op: Op)

  function WorkOf(step: Step): Option<Work> {
    match step
    case ClaimJobs(_, w, _, lease, _, _, picked) => Some(Work(picked, Claim(w, lease)))
    case CompleteJob(i, w, ms) => Some(Work([i], Complete(w, ms)))
    case FailJob(i, w, error, rand) => Some(Work([i], Fail(w, error, rand)))
    case DeadLetterFenced(i, w, reason, error) => Some(Work([i], DeadLetter(w, reason, error)))
    case PromoteDue(ids) => Some(Work(ids, Promote))
    case ReclaimStuck(ids, _) => Some(Work(ids, Reclaim))
    case Heartbeat(w, ids, lease) => Some(Work(ids, Beat(w, lease)))
    case RequeueInflight(w, ids) => Some(Work(ids, Requeue(w)))
    case RetryJob(i) => Some(Work([i], Retry))
    case CancelJob(i) => Some(Work([i], Cancel))
    case DiscardDlq(i) => Some(Work([i], Discard))
    case DeleteWorker(w, ids) => Some(Work(ids, Orphan(w)))
    case _ => None
  }

  function Due(db: DB): set<Id> {
    set i | i in db.jobs && db.jobs[i].status in {Scheduled, Retrying} && db.jobs[i].runAt <= db.now
  }

  function StuckJobs(db: DB): set<Id> {
    set i | i in db.jobs && Stuck(db.jobs[i], db.now)
  }

  function DueSchedules(db: DB): set<Id> {
    set s | s in db.schedules && DueSchedule(db.schedules[s], db.now)
  }

  /** What may happen next. Rows that a statement selects come in any order; SKIP LOCKED leaves out any set. */
  ghost predicate Enabled(db: DB, step: Step) {
    match step
    case Tick(to) => to >= db.now
    case CreateQueue(limit, _) => limit >= 1
    case UpdateQueue(_, limit, _) => limit.Some? ==> limit.value >= 1
    case InsertJob(a) => a.status in {Queued, Scheduled} && a.recurring.None?
    case CreateRecurring(s) => s.queue in db.queues && s.enabled
    case PromoteRecurring(due, skipped, next) =>
      NoDup(due) && Elems(due) == DueSchedules(db) - skipped && StrictlyLater(next, db.now)
    case SettleCancel(q) => q in db.owed
    case ClaimJobs(q, _, localFree, _, cap, locked, picked) => ValidPick(db, q, localFree, cap, locked, picked)
    case FailJob(_, _, _, rand) => 0.0 <= rand <= 1.0
    case PromoteDue(ids) => NoDup(ids) && Elems(ids) == Due(db)
    case ReclaimStuck(ids, locked) => NoDup(ids) && Elems(ids) == StuckJobs(db) - locked
    case Heartbeat(_, ids, _) => NoDup(ids)
    case RequeueInflight(_, ids) => NoDup(ids)
    case DeleteWorker(w, ids) => NoDup(ids) && forall i :: i in db.jobs && db.jobs[i].lockedBy == Some(w) ==> i in ids
    case _ => true
  }

  /** A unique index refuses the statement, and the transaction rolls back. */
  predicate Refused(db: DB, w: Work) {
    || (w.op.Claim? && exists i :: i in w.ids && i in db.jobs && db.jobs[i].attempts + 1 in View(db, i).execs)
    || (w.op.Retry? && exists i :: i in w.ids && KeyTaken(db, i))
  }

  function Transact(db: DB, w: Work): DB {
    if Refused(db, w) then db else DoAll(db, w.ids, w.op)
  }

  function Apply(db: DB, step: Step): DB {
    if WorkOf(step).Some? then Transact(db, WorkOf(step).value) else
      match step
      case Tick(to) => db.(now := to)
      case CreateQueue(limit, policy) =>
        db.(nextId := db.nextId + 1, queues := db.queues[db.nextId := Queue(limit, false, policy, 0, 0, 0, 0)])
      case UpdateQueue(q, limit, policy) => SetQueue(db, q, limit, None, policy)
      case PauseQueue(q, paused) => SetQueue(db, q, None, Some(paused), None)
      case DeleteQueue(q) => DropQueue(db, q)
      case CreateRecurring(s) => db.(nextId := db.nextId + 1, schedules := db.schedules[db.nextId := s])
      case PromoteRecurring(due, _, next) => FireAll(db, due, next)
      case InsertJob(a) => Insert(db, a)
      case SettleCancel(q) => Settle(db, q)
      case _ => db
  }

  function Init(now: int): DB {
    DB(now, 0, map[], map[], map[], map[], map[], multiset{})
  }
}
