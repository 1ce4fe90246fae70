/** The database as the program changes it: one method per transaction, statement by statement. */
module Store {
  import opened Common
  import opened Lifecycle
  import opened Backoff
  import opened Model
  import opened Database
  import opened Steps
  import opened Invariant
  import opened Runs
  import opened Batches
  import opened Updates
  import opened BatchInsert
  import opened Selection
  import opened Records
  import opened Origins

  /** Rows picked and rows left make up the selection, each row once. */
  ghost predicate Split(rows: set<Id>, picked: seq<Id>, rest: set<Id>) {
    NoDup(picked) && Elems(picked) + rest == rows && Elems(picked) !! rest && |picked| + |rest| == |rows|
  }

  lemma SplitStart(rows: set<Id>)
    ensures Split(rows, [], rows)
  {
    assert Elems<Id>([]) == {};
  }

  lemma SplitStep(rows: set<Id>, picked: seq<Id>, rest: set<Id>, i: Id)
    requires Split(rows, picked, rest) && i in rest
    ensures Split(rows, picked + [i], rest - {i})
  {
    assert i !in picked by { assert i !in Elems(picked); }
    assert Elems(picked + [i]) == Elems(picked) + {i};
  }

  /** None of the rows left outranks a row picked. */
  ghost predicate Ahead(jobs: map<Id, Job>, picked: seq<Id>, rest: set<Id>) {
    forall i, j :: i in picked && j in rest && i in jobs && j in jobs ==> !Outranks(jobs[j], jobs[i])
  }

  lemma AheadOfTheRest(jobs: map<Id, Job>, rows: set<Id>, picked: seq<Id>, rest: set<Id>, i: Id, j: Id)
    requires Split(rows, picked, rest) && Ahead(jobs, picked, rest) && rows <= jobs.Keys
    requires i in picked && j in rows && j !in picked
    ensures i in jobs && j in jobs && !Outranks(jobs[j], jobs[i])
  {
    assert i in Elems(picked) && j !in Elems(picked);
  }

  lemma AheadStep(jobs: map<Id, Job>, picked: seq<Id>, rest: set<Id>, best: Id)
    requires Ahead(jobs, picked, rest) && best in jobs
    requires forall i :: i in rest && i in jobs ==> !Outranks(jobs[i], jobs[best])
    ensures Ahead(jobs, picked + [best], rest - {best})
  {}

  function LockedBy(jobs: map<Id, Job>, w: Id): set<Id> {
    set i | i in jobs && jobs[i].lockedBy == Some(w)
  }

  /** The rows of a SELECT come in an order that nothing determines. */
  method InSomeOrder(s: set<Id>) returns (ids: seq<Id>)
    ensures NoDup(ids) && Elems(ids) == s && |ids| == |s|
  {
    ids := [];
    var rest := s;
    SplitStart(s);
    while rest != {}
      invariant Split(s, ids, rest)
      decreases rest
    {
      var i :| i in rest;
      SplitStep(s, ids, rest, i);
      ids, rest := ids + [i], rest - {i};
    }
  }

  datatype FenceResult = Lost | AsCompleted | AsRetrying(delayMs: int) | AsDead

  datatype RetryResult = Retried | RetryNotFound | NotRetryable | RetryRefused

  datatype CancelResult = CancelledNow(queue: Id, wasQueued: bool) | CancelNotFound | AlreadyRunning

  predicate WellKeyed(m: Moments) {
    KeysOk(m.insert.jobs, m.insert.execs, m.insert.dlq) && KeysOk(m.lookup.jobs, m.lookup.execs, m.lookup.dlq)
  }

  /** The database that an item's transaction leaves. */
  function ItemState(m: Moments, a: NewJob): DB {
    if OutcomeOf(m.insert, a).Duplicate? then m.lookup else Insert(m.insert, a)
  }

  datatype InsertResult = NewRow(id: Id) | Existing(id: Id) | BadRow | NoQueue | Unreachable

  lemma RecordCompletion(db: DB, i: Id, w: Id, ms: int)
    ensures Inv(db) && i in db.jobs && Fenced(db.jobs[i], w, db.now) ==>
              Completion(db, Apply(db, Step.CompleteJob(i, w, ms)), Step.CompleteJob(i, w, ms), i)
  {
    if i in db.jobs && Fenced(db.jobs[i], w, db.now) {
      ReportIsRecorded(db, Step.CompleteJob(i, w, ms), i);
    }
  }

  lemma RecordBurial(db: DB, i: Id, w: Id, reason: DeathReason, error: string)
    ensures Inv(db) && i in db.jobs && Fenced(db.jobs[i], w, db.now) ==>
              Burial(db, Apply(db, Step.DeadLetterFenced(i, w, reason, error)),
                     Step.DeadLetterFenced(i, w, reason, error), i)
  {
    if i in db.jobs && Fenced(db.jobs[i], w, db.now) {
      ReportIsRecorded(db, Step.DeadLetterFenced(i, w, reason, error), i);
    }
  }

  lemma InsertKeepsGood(db: DB, a: NewJob, c: RetryPolicy)
    ensures Inv(db) && Requestable(a) ==> Inv(Insert(db, a.(contract := Some(c))))
  {
    if Requestable(a) {
      InsertKeepsValid(db, a.(contract := Some(c)));
    }
  }

  lemma HeldHasAttempt(db: DB, i: Id, w: Id)
    ensures Inv(db) && i in db.jobs && Fenced(db.jobs[i], w, db.now) ==> db.jobs[i].attempts >= 1
  {
    if Inv(db) && i in db.jobs {
      JobIssued(db, i);
    }
  }

  class Tables {
    var now: int
    var nextId: Id
    var jobs: map<Id, Job>
    var execs: map<Id, map<nat, Exec>>
    var dlq: map<Id, DlqRow>
    var queues: map<Id, Queue>
    var schedules: map<Id, Schedule>
    ghost var owed: multiset<Id>

    ghost function State(): DB
      reads this
    {
      DB(now, nextId, jobs, execs, dlq, queues, schedules, owed)
    }

    ghost predicate Valid()
      reads this
    {
      Inv(State())
    }

    ghost predicate Keyed()
      reads this
    {
      KeysOk(jobs, execs, dlq)
    }

    constructor (start: int)
      ensures Valid() && State() == Init(start)
    {
      now, nextId, jobs, execs, dlq, queues, schedules, owed := start, 0, map[], map[], map[], map[], map[], multiset{};
      new;
      InitOk(start);
    }

    // ---- statements

    /** UPDATE job_executions ... WHERE job_id = i AND attempt = a AND status = 'running'. */
    method CloseExecution(i: Id, a: nat, status: ExecStatus, error: Option<string>)
      requires i in execs
      modifies this`execs
      ensures execs == old(execs)[i := CloseExec(old(execs)[i], a, Exec(status, error))]
    {
      var history := execs[i];
      if a in history && history[a].status.ExecRunning? {
        history := history[a := Exec(status, error)];
      }
      execs := execs[i := history];
    }

    /** UPDATE queues SET stat_... WHERE id = q. */
    method UpdateCounters(q: Id, d: Deltas)
      modifies this`queues
      ensures queues == BumpIn(old(queues), q, d)
    {
      if q in queues {
        var c := queues[q];
        queues := queues[q := c.(statQueued := Shift(c.statQueued, d.queued),
                                 statRunning := Shift(c.statRunning, d.running),
                                 statCompleted := Shift(c.statCompleted, d.completed),
                                 statDead := Shift(c.statDead, d.dead))];
      }
    }

    /** INSERT INTO dead_letter_jobs ... ON CONFLICT (job_id) DO NOTHING. */
    method InsertDeadLetter(i: Id, d: DlqRow)
      modifies this`dlq
      ensures dlq == if i in old(dlq) then old(dlq) else old(dlq)[i := d]
    {
      if i !in dlq {
        dlq := dlq[i := d];
      }
    }

    /** UPDATE jobs SET status = 'dead' ... WHERE status <> 'dead', then the counters by the status before it. */
    method FlipToDead(i: Id, reason: DeathReason, error: string)
      requires i in jobs
      modifies this`jobs, this`queues
      ensures jobs == old(jobs)[i := Model.MoveToDead(Row(old(jobs)[i], map[], None), reason, error, now).job]
      ensures queues == BumpIn(old(queues), old(jobs)[i].spec.queue, DeadDeltas(old(jobs)[i].status))
    {
      var j := jobs[i];
      SameAgain(State(), i, j);
      if !j.status.Dead? {
        jobs := jobs[i := j.(status := Dead, lockedBy := None, lockedUntil := None,
                             deathReason := Some(reason), lastError := Some(error))];
        UpdateCounters(j.spec.queue, Deltas(Dec(if j.status.Queued? then 1 else 0),
                                            Dec(if j.status.Running? then 1 else 0), Keep, Inc(1)));
      }
    }

    /** The terminal-failure path: dead-letter row unless there is one, then the flip to dead. */
    method MoveToDead(i: Id, attempts: nat, reason: DeathReason, error: string)
      requires Keyed() && i in jobs && attempts == jobs[i].attempts
      modifies this`jobs, this`dlq, this`queues
      ensures State() == Write(old(State()), i, Model.MoveToDead(View(old(State()), i), reason, error, now),
                               DeadDeltas(old(jobs)[i].status), false)
    {
      ghost var before := State();
      ghost var s := Model.MoveToDead(View(before, i), reason, error, now);
      Unchanged(before, i);
      var j := jobs[i];
      InsertDeadLetter(i, DlqRow(j.spec.queue, j.spec.payload, attempts, reason, Some(error), now));
      assert dlq == PutDlq(before.dlq, i, s.dlq);
      FlipToDead(i, reason, error);
      FieldsAreWrite(before, State(), i, s, DeadDeltas(j.status), false);
    }

    /** Close the running execution as failed, then the terminal-failure path. */
    method FailForGood(i: Id, error: string, reason: DeathReason, finalError: string)
      requires Keyed() && i in jobs
      modifies this
      ensures State() == Write(old(State()), i,
                               Model.MoveToDead(CloseFailed(View(old(State()), i), error), reason, finalError, now),
                               DeadDeltas(old(jobs)[i].status), false)
      ensures Keyed()
    {
      ghost var before := State();
      var attempts := jobs[i].attempts;
      CloseExecution(i, attempts, ExecFailed, Some(error));
      ghost var s := Model.MoveToDead(CloseFailed(View(before, i), error), reason, finalError, now);
      CloseThenWrite(before, State(), i, error, s, DeadDeltas(before.jobs[i].status));
      WriteKeepsKeyed(before, i, s, DeadDeltas(before.jobs[i].status), false);
      MoveToDead(i, attempts, reason, finalError);
    }

    /** Close the running execution as failed and queue the job again. */
    method QueueAgain(i: Id, note: Note)
      requires Keyed() && i in jobs && jobs[i].attempts < jobs[i].maxAttempts
      modifies this
      ensures State() == Write(old(State()), i, GiveBackRow(View(old(State()), i), note, now),
                               GiveBackDeltas(old(jobs)[i]), false)
      ensures Keyed()
    {
      ghost var before := State();
      Unchanged(before, i);
      var j := jobs[i];
      CloseExecution(i, j.attempts, ExecFailed, Some(note.error));
      jobs := jobs[i := j.(status := Queued, lockedBy := None, lockedUntil := None, runAt := now,
                           lastError := Some(note.error))];
      UpdateCounters(j.spec.queue, Deltas(Inc(1), Dec(1), Keep, Keep));
      ghost var s := GiveBackRow(View(before, i), note, now);
      FieldsAreWrite(before, State(), i, s, GiveBackDeltas(j), false);
      WriteKeepsKeyed(before, i, s, GiveBackDeltas(j), false);
    }

    /** The loop body that reaper and shutdown share: back to queued, or dead on the final attempt. */
    method GiveBack(i: Id, attempts: nat, maxAttempts: nat, note: Note)
      requires Keyed() && i in jobs && attempts == jobs[i].attempts && maxAttempts == jobs[i].maxAttempts
      modifies this
      ensures State() == Write(old(State()), i, GiveBackRow(View(old(State()), i), note, now),
                               GiveBackDeltas(old(jobs)[i]), false)
      ensures Keyed()
    {
      if attempts < maxAttempts {
        QueueAgain(i, note);
      } else {
        FailForGood(i, note.error, note.reason, note.finalError);
      }
    }

    // ---- reports of a worker

    method WriteCompleted(i: Id, ms: int)
      requires Keyed() && i in jobs
      modifies this
      ensures State() == Write(old(State()), i, After(View(old(State()), i), Complete(0, ms), now),
                               CounterUpdate(View(old(State()), i), Complete(0, ms)), false)
      ensures Keyed()
    {
      ghost var before := State();
      Unchanged(before, i);
      var j := jobs[i];
      jobs := jobs[i := j.(status := Completed, durationMs := Some(ms),
                           lockedBy := None, lockedUntil := None, lastError := None)];
      CloseExecution(i, j.attempts, ExecSucceeded, if j.attempts in execs[i] then execs[i][j.attempts].error else None);
      UpdateCounters(j.spec.queue, Deltas(Keep, Dec(1), Inc(1), Keep));
      ghost var s := After(View(before, i), Complete(0, ms), now);
      FieldsAreWrite(before, State(), i, s, Deltas(Keep, Dec(1), Inc(1), Keep), false);
      WriteKeepsKeyed(before, i, s, Deltas(Keep, Dec(1), Inc(1), Keep), false);
    }

    /** Fenced completion. */
    method CompleteJob(i: Id, w: Id, ms: int) returns (r: FenceResult)
      requires Keyed()
      modifies this
      ensures Keyed() && State() == Do(old(State()), i, Complete(w, ms)) ==
                Apply(old(State()), Step.CompleteJob(i, w, ms))
      ensures r == if i in old(jobs) && Fenced(old(jobs)[i], w, now) then AsCompleted else Lost
      ensures r.Lost? ==> State() == old(State())
      ensures old(Valid()) ==> Valid()
      ensures old(Valid()) && r.AsCompleted? ==> Completion(old(State()), State(), Step.CompleteJob(i, w, ms), i)
    {
      RecordCompletion(State(), i, w, ms);
      DoKeepsValid(State(), i, Complete(w, ms));
      OneJobStep(State(), Step.CompleteJob(i, w, ms), i, Complete(w, ms));
      if i in jobs && jobs[i].lockedBy == Some(w) && jobs[i].lockedUntil.Some? && jobs[i].lockedUntil.value > now {
        WriteCompleted(i, ms);
        r := AsCompleted;
      } else {
        r := Lost;
      }
    }

    method WriteRetrying(i: Id, error: string, delayMs: int)
      requires Keyed() && i in jobs
      modifies this
      ensures var r := CloseFailed(View(old(State()), i), error);
              State() == Write(old(State()), i,
                               r.(job := Unlock(r.job).(status := Retrying, lastError := Some(error),
                                                               runAt := now + delayMs)),
                               Deltas(Keep, Dec(1), Keep, Keep), false)
      ensures Keyed()
    {
      ghost var before := State();
      Unchanged(before, i);
      var j := jobs[i];
      CloseExecution(i, j.attempts, ExecFailed, Some(error));
      jobs := jobs[i := j.(status := Retrying, runAt := now + delayMs,
                           lockedBy := None, lockedUntil := None, lastError := Some(error))];
      UpdateCounters(j.spec.queue, Deltas(Keep, Dec(1), Keep, Keep));
      ghost var r := CloseFailed(View(before, i), error);
      ghost var s := r.(job := Unlock(r.job).(status := Retrying, lastError := Some(error), runAt := now + delayMs));
      FieldsAreWrite(before, State(), i, s, Deltas(Keep, Dec(1), Keep, Keep), false);
      WriteKeepsKeyed(before, i, s, Deltas(Keep, Dec(1), Keep, Keep), false);
    }

    /** What a failure does behind the fence: retry after the backoff frozen into the job, or the terminal-failure
        path. */
    method FailHeld(i: Id, ghost w: Id, error: string, rand: real) returns (r: FenceResult)
      requires Keyed() && i in jobs && Fenced(jobs[i], w, now)
      modifies this
      ensures Keyed() && State() == Do(old(State()), i, Fail(w, error, rand))
      ensures if old(jobs)[i].attempts < old(jobs)[i].maxAttempts
              then r.AsRetrying? && i in jobs && jobs[i].runAt == now + r.delayMs else r.AsDead?
      ensures r.AsRetrying? && old(jobs)[i].attempts >= 1 && 0.0 <= rand <= 1.0 ==>
                NearNominal(old(jobs)[i].spec.curve, old(jobs)[i].attempts, rand, r.delayMs)
    {
      var j := jobs[i];
      if ShouldRetry(j.attempts, j.maxAttempts) {
        var delayMs := ComputeBackoffMs(j.spec.curve, j.attempts, rand);
        if j.attempts >= 1 && 0.0 <= rand <= 1.0 {
          DelayIsNearNominal(j.spec.curve, j.attempts, rand);
        }
        WriteRetrying(i, error, delayMs);
        r := AsRetrying(delayMs);
      } else {
        FailForGood(i, error, MaxAttemptsExhausted, error);
        r := AsDead;
      }
    }

    /** Fenced failure. */
    method FailJob(i: Id, w: Id, error: string, rand: real) returns (r: FenceResult)
      requires Keyed()
      modifies this
      ensures Keyed() && State() == Do(old(State()), i, Fail(w, error, rand)) ==
                Apply(old(State()), Step.FailJob(i, w, error, rand))
      ensures r.Lost? <==> !(i in old(jobs) && Fenced(old(jobs)[i], w, now))
      ensures r.Lost? ==> State() == old(State())
      ensures !r.Lost? ==> (r.AsRetrying? <==> old(jobs)[i].attempts < old(jobs)[i].maxAttempts)
      ensures r.AsRetrying? ==> i in jobs && jobs[i].runAt == now + r.delayMs
      ensures old(Valid()) ==> Valid()
      ensures old(Valid()) && r.AsRetrying? && 0.0 <= rand <= 1.0 ==>
                && old(jobs)[i].attempts >= 1
                && NearNominal(old(jobs)[i].spec.curve, old(jobs)[i].attempts, rand, r.delayMs)
    {
      HeldHasAttempt(State(), i, w);
      DoKeepsValid(State(), i, Fail(w, error, rand));
      OneJobStep(State(), Step.FailJob(i, w, error, rand), i, Fail(w, error, rand));
      if i in jobs && jobs[i].lockedBy == Some(w) && jobs[i].lockedUntil.Some? && jobs[i].lockedUntil.value > now {
        r := FailHeld(i, w, error, rand);
      } else {
        r := Lost;
      }
    }

    /** Fenced dead-letter on the first failure, whatever attempts are left. */
    method DeadLetterFenced(i: Id, w: Id, reason: DeathReason, error: string) returns (r: FenceResult)
      requires Keyed()
      modifies this
      ensures Keyed() && State() == Do(old(State()), i, DeadLetter(w, reason, error)) ==
                Apply(old(State()), Step.DeadLetterFenced(i, w, reason, error))
      ensures r == if i in old(jobs) && Fenced(old(jobs)[i], w, now) then AsDead else Lost
      ensures r.Lost? ==> State() == old(State())
      ensures old(Valid()) ==> Valid()
      ensures old(Valid()) && r.AsDead? ==>
                Burial(old(State()), State(), Step.DeadLetterFenced(i, w, reason, error), i)
    {
      RecordBurial(State(), i, w, reason, error);
      DoKeepsValid(State(), i, DeadLetter(w, reason, error));
      OneJobStep(State(), Step.DeadLetterFenced(i, w, reason, error), i, DeadLetter(w, reason, error));
      if i in jobs && jobs[i].lockedBy == Some(w) && jobs[i].lockedUntil.Some? && jobs[i].lockedUntil.value > now {
        FailForGood(i, error, reason, error);
        r := AsDead;
      } else {
        r := Lost;
      }
    }

    // ---- maintenance loops

    /** One turn of a give-back loop. */
    method GiveBackNext(i: Id, j: Job, note: Note, ghost before: DB, ghost done: seq<Id>, ghost op: Op)
      requires Keyed() && State() == DoAll(before, done, op)
      requires NoDup(done) && i !in done && Applies(before, i, op) && j == before.jobs[i]
      requires (op.Reclaim? || op.Requeue?) && note == NoteOf(op)
      modifies this
      ensures Keyed() && State() == DoAll(before, done + [i], op)
    {
      NextGivenBack(before, done, op, i);
      GiveBack(i, j.attempts, j.maxAttempts, note);
    }

    /** SELECT ... WHERE status = 'running' AND (locked_until < now() OR locked_by IS NULL) FOR UPDATE SKIP LOCKED. */
    method SelectStuck(locked: set<Id>) returns (rows: map<Id, Job>)
      ensures rows.Keys == Reapable(State(), locked)
      ensures forall i :: i in rows ==> Applies(State(), i, Reclaim) && rows[i] == State().jobs[i]
    {
      rows := map i | i in jobs && Stuck(jobs[i], now) && i !in locked :: jobs[i];
    }

    /** The reaper: every stuck row that is not locked elsewhere, in whatever order they come. */
    method ReclaimStuck(locked: set<Id>) returns (n: nat, order: seq<Id>)
      requires Keyed()
      modifies this
      ensures Keyed() && State() == DoAll(old(State()), order, Reclaim)
      ensures NoDup(order) && Elems(order) == Reapable(old(State()), locked)
      ensures n == |Reapable(old(State()), locked)|
      ensures old(Valid()) ==> Valid()
    {
      ghost var before := State();
      var rows := SelectStuck(locked);
      order := InSomeOrder(rows.Keys);
      NoneDone(before, Reclaim);
      ghost var done := [];
      var rest := order;
      while rest != []
        invariant order == done + rest
        invariant State() == DoAll(before, done, Reclaim) && Keyed()
      {
        OneFurther(order, done, rest);
        var i := rest[0];
        GiveBackNext(i, rows[i], NoteOf(Reclaim), before, done, Reclaim);
        done, rest := done + [i], rest[1..];
      }
      assert done == order;
      n := |order|;
      BatchKeepsValid(before, order, Reclaim);
    }

    /** SELECT ... WHERE locked_by = w AND status = 'running' AND id = ANY(ids) FOR UPDATE. */
    method SelectOwned(w: Id, ids: set<Id>) returns (rows: map<Id, Job>)
      ensures rows.Keys == Owned(State(), w, ids)
      ensures forall i :: i in rows ==> Applies(State(), i, Requeue(w)) && rows[i] == State().jobs[i]
    {
      rows := map i | i in jobs && jobs[i].lockedBy == Some(w) && jobs[i].status.Running? && i in ids :: jobs[i];
    }

    /** Shutdown: the listed jobs this worker still holds, whether or not the lease has run out. */
    method RequeueInflight(w: Id, ids: set<Id>) returns (requeued: nat, dead: nat, order: seq<Id>)
      requires Keyed()
      modifies this
      ensures Keyed() && State() == DoAll(old(State()), order, Requeue(w))
      ensures NoDup(order) && Elems(order) == Owned(old(State()), w, ids)
      ensures requeued == |WithAttemptsLeft(old(State()), Owned(old(State()), w, ids))|
      ensures requeued + dead == |Owned(old(State()), w, ids)|
      ensures old(Valid()) ==> Valid()
    {
      ghost var before := State();
      var rows := SelectOwned(w, ids);
      order := InSomeOrder(rows.Keys);
      requeued, dead := 0, 0;
      NoneDone(before, Requeue(w));
      ghost var done := [];
      var rest := order;
      while rest != []
        invariant order == done + rest
        invariant State() == DoAll(before, done, Requeue(w)) && Keyed()
        invariant requeued == |WithAttemptsLeft(before, Elems(done))| && requeued + dead == |done|
      {
        OneFurther(order, done, rest);
        var i := rest[0];
        OneMoreLeft(before, done, i);
        GiveBackNext(i, rows[i], NoteOf(Requeue(w)), before, done, Requeue(w));
        if rows[i].attempts < rows[i].maxAttempts {
          requeued := requeued + 1;
        } else {
          dead := dead + 1;
        }
        done, rest := done + [i], rest[1..];
      }
      assert done == order;
      BatchKeepsValid(before, order, Requeue(w));
    }

    // ---- many rows at once

    /** One UPDATE of the jobs, and one of the counters grouped by queue. */
    method WritePromoted(promoted: set<Id>)
      requires promoted == Due(State())
      modifies this`jobs, this`queues
      ensures jobs == map i | i in old(jobs) :: if i in promoted then old(jobs)[i].(status := Queued) else old(jobs)[i]
      ensures queues == Promoted(old(State()), promoted)
    {
      queues := map q | q in queues :: queues[q].(statQueued := queues[q].statQueued + |InQueue(jobs, promoted, q)|);
      jobs := map i | i in jobs :: if i in promoted then jobs[i].(status := Queued) else jobs[i];
    }

    /** The promoter: scheduled and retrying jobs whose time has come. */
    method PromoteDue() returns (n: nat, order: seq<Id>)
      requires Keyed()
      modifies this
      ensures Keyed() && State() == DoAll(old(State()), order, Promote)
      ensures NoDup(order) && Elems(order) == Due(old(State())) && n == |order| == |Due(old(State()))|
      ensures jobs.Keys == old(jobs).Keys && execs == old(execs) && dlq == old(dlq)
      ensures forall i :: i in jobs ==>
                jobs[i] == if old(jobs)[i].status in {Scheduled, Retrying} && old(jobs)[i].runAt <= old(now)
                           then old(jobs)[i].(status := Queued) else old(jobs)[i]
      ensures old(Valid()) ==> Valid()
    {
      ghost var before := State();
      var promoted := set i | i in jobs && jobs[i].status in {Scheduled, Retrying} && jobs[i].runAt <= now;
      assert promoted == Due(before);
      order := InSomeOrder(promoted);
      n := |order|;
      WritePromoted(promoted);
      PromoteIsStatement(before, State(), order);
      BatchKeepsValid(before, order, Promote);
    }

    /** The lease extension of the heartbeat, fenced like every terminal write. */
    method ExtendLeases(w: Id, ids: seq<Id>, lease: nat)
      requires Keyed() && NoDup(ids)
      modifies this
      ensures Keyed() && State() == DoAll(old(State()), ids, Beat(w, lease))
      ensures jobs.Keys == old(jobs).Keys && execs == old(execs) && dlq == old(dlq)
      ensures forall i :: i in jobs ==>
                jobs[i] == if i in ids && old(jobs)[i].status.Running? && Fenced(old(jobs)[i], w, old(now))
                           then old(jobs)[i].(lockedUntil := Some(old(now) + lease * 1000)) else old(jobs)[i]
      ensures old(Valid()) ==> Valid()
    {
      BatchKeepsValid(State(), ids, Beat(w, lease));
      ghost var before := State();
      jobs := WithLeases(jobs, ids, w, lease, now);
      BeatIsStatement(before, State(), ids, w, lease);
    }

    /** ON DELETE SET NULL on jobs.locked_by. */
    method ForgetWorker(w: Id) returns (order: seq<Id>)
      requires Keyed()
      modifies this
      ensures NoDup(order) && Elems(order) == LockedBy(old(jobs), w)
      ensures Keyed() && State() == DoAll(old(State()), order, Orphan(w))
      ensures jobs.Keys == old(jobs).Keys && execs == old(execs) && dlq == old(dlq)
      ensures forall i :: i in jobs ==>
                jobs[i] == if old(jobs)[i].lockedBy == Some(w) then old(jobs)[i].(lockedBy := None) else old(jobs)[i]
      ensures old(Valid()) ==> Valid()
    {
      ghost var before := State();
      order := InSomeOrder(LockedBy(jobs, w));
      jobs := map i | i in jobs :: if jobs[i].lockedBy == Some(w) then jobs[i].(lockedBy := None) else jobs[i];
      assert forall i :: i in LockedBy(before.jobs, w) ==> i in order;
      OrphanIsStatement(before, State(), order, w);
      BatchKeepsValid(before, order, Orphan(w));
    }

    // ---- the claim

    /** A row that no other row outranks. */
    method Best(rows: set<Id>) returns (best: Id)
      requires rows != {} && rows <= jobs.Keys
      ensures best in rows && forall i :: i in rows ==> !Outranks(jobs[i], jobs[best])
    {
      best :| best in rows;
      var rest := rows - {best};
      while rest != {}
        invariant rest <= rows && best in rows
        invariant forall i :: i in rows - rest ==> !Outranks(jobs[i], jobs[best])
        decreases rest
      {
        var i :| i in rest;
        if Outranks(jobs[i], jobs[best]) {
          best := i;
        }
        rest := rest - {i};
      }
    }

    /** ORDER BY priority DESC, run_at ASC, created_at ASC LIMIT n. */
    method PickTop(rows: set<Id>, n: nat) returns (picked: seq<Id>)
      requires rows <= jobs.Keys
      ensures NoDup(picked) && |picked| == Min(n, |rows|) && Elems(picked) <= rows
      ensures forall i, j :: i in picked && j in rows && j !in picked ==> i in jobs && !Outranks(jobs[j], jobs[i])
      ensures forall i, j :: i in picked && j in rows && j !in picked ==> i in jobs && ServedFirst(jobs[i], jobs[j])
    {
      picked := [];
      var rest := rows;
      SplitStart(rows);
      while |picked| < n && rest != {}
        invariant Split(rows, picked, rest) && Ahead(jobs, picked, rest) && |picked| <= n
        decreases rest
      {
        var i := Best(rest);
        SplitStep(rows, picked, rest, i);
        AheadStep(jobs, picked, rest, i);
        picked, rest := picked + [i], rest - {i};
      }
      forall i, j | i in picked && j in rows && j !in picked
        ensures i in jobs && !Outranks(jobs[j], jobs[i]) && ServedFirst(jobs[i], jobs[j])
      {
        AheadOfTheRest(jobs, rows, picked, rest, i, j);
        OutrankedIsServedLater(jobs[i], jobs[j]);
      }
    }

    /** The budget and the selection of the claim statement. */
    method SelectPick(q: Id, localFree: int, cap: int, locked: set<Id>) returns (picked: seq<Id>)
      ensures ValidPick(State(), q, localFree, cap, locked, picked) && ServedInOrder(State(), q, locked, picked)
    {
      picked := [];
      if q in queues && !queues[q].paused {
        var take := Min(localFree, Min(queues[q].limit - Count(jobs, q, Running), cap));
        if take > 0 {
          var avail := set i | i in jobs && jobs[i].spec.queue == q && jobs[i].status.Queued? && jobs[i].runAt <= now
                             && i !in locked;
          assert avail == Eligible(State(), q) - locked;
          picked := PickTop(avail, take);
        }
      }
      PickIsServedInOrder(State(), q, localFree, cap, locked, picked);
    }

    /** The rows the claim writes: jobs flipped to running, one execution each, the counters moved. */
    method WriteClaims(q: Id, w: Id, lease: nat, picked: seq<Id>)
      requires Keyed() && NoDup(picked) && forall i :: i in picked ==> i in Eligible(State(), q)
      requires !Refused(State(), Work(picked, Claim(w, lease)))
      requires q in queues ==> queues[q].statQueued >= 0
      modifies this
      ensures Keyed() && State() == Transact(old(State()), Work(picked, Claim(w, lease)))
    {
      ghost var before := State();
      execs := WithExecutions(jobs, execs, picked);
      jobs := WithClaims(jobs, picked, w, lease, now);
      UpdateCounters(q, Deltas(Dec(|picked|), Inc(|picked|), Keep, Keep));
      ClaimIsStatement(before, State(), picked, q, w, lease);
    }

    /** UNIQUE (job_id, attempt): no execution of the next attempt is there yet. */
    method NoneExecuted(picked: seq<Id>, ghost w: Id, ghost lease: nat) returns (ok: bool)
      requires Keyed()
      ensures ok <==> !Refused(State(), Work(picked, Claim(w, lease)))
    {
      ok := !exists i :: i in picked && i in jobs && jobs[i].attempts + 1 in execs[i];
      assert forall i :: i in jobs ==> View(State(), i).execs == execs[i];
    }

    /** The claim: pick and write. An execution that is already there refuses the whole transaction. The queued
        counter is not negative, as in every valid store; the statement would lift it to zero even with nothing
        picked. */
    method ClaimJobs(q: Id, w: Id, localFree: int, lease: nat, cap: int, locked: set<Id>)
      returns (picked: seq<Id>, ok: bool)
      requires Keyed() && (q in queues ==> queues[q].statQueued >= 0)
      modifies this
      ensures ValidPick(old(State()), q, localFree, cap, locked, picked)
      ensures ServedInOrder(old(State()), q, locked, picked)
      ensures ok <==> !Refused(old(State()), Work(picked, Claim(w, lease)))
      ensures Keyed() && State() == Transact(old(State()), Work(picked, Claim(w, lease)))
      ensures old(Valid()) ==> Valid()
    {
      picked := SelectPick(q, localFree, cap, locked);
      ok := NoneExecuted(picked, w, lease);
      TransactKeepsValid(State(), Work(picked, Claim(w, lease)));
      if ok {
        WriteClaims(q, w, lease, picked);
      }
    }

    // ---- inserts, retry and cancel

    /** The queue's own retry policy, or the default, frozen into the job. */
    method ResolveRetryContract(q: Id) returns (c: RetryPolicy)
      ensures c == Contract(State(), q)
    {
      c := DEFAULT_RETRY;
      if q in queues && queues[q].policy.Some? {
        c := queues[q].policy.value;
      }
    }

    /** INSERT ... ON CONFLICT DO NOTHING RETURNING: the checks, the dedupe index, the foreign key, the row. */
    method TryInsert(a: NewJob, c: RetryPolicy) returns (o: InsertOutcome)
      requires c == ContractOf(State(), a)
      modifies this`nextId, this`jobs, this`execs
      ensures o == OutcomeOf(old(State()), a)
      ensures if o.Created? then
                && nextId == old(nextId) + 1
                && jobs == old(jobs)[old(nextId) := FreshJob(old(State()), a)]
                && execs == old(execs)[old(nextId) := map[]]
              else State() == old(State())
    {
      if !(0 <= a.priority <= 9) {
        o := CheckViolation;
      } else if a.dedupe.Some? && exists i :: i in jobs && Holds(jobs[i], a.queue, a.dedupe.value) {
        o := Duplicate;
      } else if a.queue !in queues {
        o := ForeignKeyViolation;
      } else {
        o := Created;
        jobs := jobs[nextId := Job(Spec(a.queue, a.kind, a.handler, a.payload, a.priority, a.dedupe, c.curve,
                                        a.recurring, now),
                                   a.status, a.runAt, 0, c.maxAttempts, None, None, None, None, None)];
        execs := execs[nextId := map[]];
        nextId := nextId + 1;
      }
    }

    /** The INSERT and the counter that goes with it. */
    method InsertRow(a: NewJob) returns (o: InsertOutcome)
      requires Keyed()
      modifies this
      ensures Keyed() && State() == Insert(old(State()), a)
      ensures o == OutcomeOf(old(State()), a)
      ensures old(Valid()) && Requestable(a) ==> Valid()
    {
      if Requestable(a) {
        InsertKeepsValid(State(), a);
      }
      var c := DEFAULT_RETRY;
      if a.contract.Some? {
        c := a.contract.value;
      } else {
        c := ResolveRetryContract(a.queue);
      }
      o := TryInsert(a, c);
      if o == Created && a.status == Queued {
        UpdateCounters(a.queue, Deltas(Inc(1), Keep, Keep, Keep));
      }
    }

    /** Other transactions commit: the next statement sees the database as they left it. */
    method OthersCommit(to: DB)
      modifies this
      ensures State() == to
    {
      now, nextId, jobs, execs, dlq := to.now, to.nextId, to.jobs, to.execs, to.dlq;
      queues, schedules, owed := to.queues, to.schedules, to.owed;
    }

    /** SELECT ... WHERE queue_id = q AND dedupe_key = key AND status NOT IN ('completed', 'dead'). */
    method FindHolder(q: Id, key: Key) returns (h: Option<Id>)
      ensures h.Some? <==> KeyConflict(State(), q, Some(key))
      ensures h.Some? ==> h.value in jobs && Holds(jobs[h.value], q, key)
    {
      if i :| i in jobs && Holds(jobs[i], q, key) {
        h := Some(i);
      } else {
        h := None;
      }
    }

    /** The INSERT under a contract that was read, and on a conflict the lookup. */
    method InsertOrFind(a: NewJob, c: RetryPolicy, atLookup: DB) returns (r: InsertResult)
      requires Keyed() && KeysOk(atLookup.jobs, atLookup.execs, atLookup.dlq)
      modifies this
      ensures var b := a.(contract := Some(c));
              Keyed() && State() == if OutcomeOf(old(State()), a).Duplicate? then atLookup else Insert(old(State()), b)
      ensures match r
              case NewRow(i) => OutcomeOf(old(State()), a).Created? && i == old(nextId) && i in jobs
                                && AsAsked(jobs[i], a, c, old(now))
              case Existing(i) =>
                OutcomeOf(old(State()), a).Duplicate? && LiveHolder(State(), a.queue, a.dedupe.value, i)
              case BadRow => OutcomeOf(old(State()), a).CheckViolation?
              case NoQueue => OutcomeOf(old(State()), a).ForeignKeyViolation?
              case Unreachable => OutcomeOf(old(State()), a).Duplicate? && !KeyConflict(atLookup, a.queue, a.dedupe)
    {
      var newId := nextId;
      var o := InsertRow(a.(contract := Some(c)));
      match o
      case Created => r := NewRow(newId);
      case Duplicate =>
        OthersCommit(atLookup);
        var h := FindHolder(a.queue, if a.dedupe.Some? then a.dedupe.value else TextKey(""));
        r := if h.Some? then Existing(h.value) else Unreachable;
      case CheckViolation => r := BadRow;
      case ForeignKeyViolation => r := NoQueue;
    }

    /** One job, by three statements with others' commits in between: the contract is read, the row inserted, and on a
        conflict the holder looked up. Created under the contract read; or the live job that holds the key; or neither,
        when the INSERT met a holder and the lookup finds none. */
    method InsertJob(a: NewJob, atInsert: DB, atLookup: DB) returns (r: InsertResult)
      requires WellKeyed(Moments(atInsert, atInsert, atLookup))
      modifies this
      ensures var b := a.(contract := Some(Contract(old(State()), a.queue)));
              Keyed() && State() == if OutcomeOf(atInsert, a).Duplicate? then atLookup else Insert(atInsert, b)
      ensures match r
              case NewRow(i) => OutcomeOf(atInsert, a).Created? && i == atInsert.nextId && i in jobs
                                && AsAsked(jobs[i], a, Contract(old(State()), a.queue), atInsert.now)
              case Existing(i) => OutcomeOf(atInsert, a).Duplicate? && LiveHolder(State(), a.queue, a.dedupe.value, i)
              case BadRow => OutcomeOf(atInsert, a).CheckViolation?
              case NoQueue => OutcomeOf(atInsert, a).ForeignKeyViolation?
              case Unreachable => OutcomeOf(atInsert, a).Duplicate? && !KeyConflict(atLookup, a.queue, a.dedupe)
      ensures atLookup == atInsert ==> !r.Unreachable?
      ensures Inv(atInsert) && Inv(atLookup) && Requestable(a) ==> Valid()
    {
      var c := ResolveRetryContract(a.queue);
      InsertKeepsGood(atInsert, a, c);
      OthersCommit(atInsert);
      r := InsertOrFind(a, c, atLookup);
    }

    /** One item of a batch, on the database as it is at the item's own moments. */
    method BatchTurn(q: Id, handler: string, item: BatchItem, m: Moments, k: nat, created: seq<Id>, skipped: seq<nat>)
      returns (verdict: Verdict, created': seq<Id>, skipped': seq<nat>)
      requires WellKeyed(m)
      modifies this
      ensures verdict == VerdictOf(m, BatchJob(q, handler, item, m.resolve))
      ensures State() == ItemState(m, BatchJob(q, handler, item, m.resolve))
      ensures created' == if verdict.Landed? then created + [m.insert.nextId] else created
      ensures skipped' == if verdict.Skipped? then skipped + [k] else skipped
      ensures verdict.Landed? ==> m.insert.nextId in jobs && OfItem(jobs[m.insert.nextId], q, handler, item, m)
    {
      created', skipped' := created, skipped;
      OthersCommit(m.resolve);
      var priority := if item.priority.Some? then item.priority.value else DEFAULT_PRIORITY;
      var a := NewJob(q, Batch, handler, item.payload, Queued, now, priority, item.dedupe, None, None);
      var one := InsertJob(a, m.insert, m.lookup);
      match one
      case NewRow(i) =>
        verdict, created' := Landed, created + [i];
      case Existing(_) =>
        verdict, skipped' := Skipped, skipped + [k];
      case _ =>
        verdict := Thrown;
    }

    /** The same, with the account of the batch extended by the item unless it throws. */
    method AccountTurn(q: Id, handler: string, items: seq<BatchItem>, world: seq<Moments>, k: nat,
                       created: seq<Id>, skipped: seq<nat>)
      returns (thrown: bool, created': seq<Id>, skipped': seq<nat>)
      requires k < |items| == |world| && WellKeyed(world[k])
      requires AccountOf(world, BatchJobs(q, handler, items, world), k, created, skipped)
      modifies this
      ensures thrown <==> VerdictOf(world[k], BatchJobs(q, handler, items, world)[k]).Thrown?
      ensures AccountOf(world, BatchJobs(q, handler, items, world), if thrown then k else k + 1, created', skipped')
    {
      AccountSnoc(world, BatchJobs(q, handler, items, world), k, created, skipped);
      var verdict;
      verdict, created', skipped' := BatchTurn(q, handler, items[k], world[k], k, created, skipped);
      thrown := verdict == Thrown;
    }

    /** One insert per item, each its own transaction with others' in between; a throw stops the batch where it stands
        and keeps what landed before. */
    method CreateBatch(q: Id, handler: string, items: seq<BatchItem>, world: seq<Moments>) returns (r: BatchResult)
      requires |world| == |items| && forall k :: 0 <= k < |world| ==> WellKeyed(world[k])
      modifies this
      ensures r.QueueNotFound? <==> q !in old(queues)
      ensures r.QueueNotFound? || items == [] ==> State() == old(State())
      ensures r.Accounted? ==> AccountOf(world, BatchJobs(q, handler, items, world), |items|, r.created, r.skipped)
      ensures r.Accounted? ==>
                forall k: nat :: k < |items| ==> ItemDone(world[k], q, handler, items[k], k, r.created, r.skipped)
      ensures r.Failed? ==>
                && r.at < |items| && VerdictOf(world[r.at], BatchJobs(q, handler, items, world)[r.at]).Thrown?
                && exists created, skipped ::
                     AccountOf(world, BatchJobs(q, handler, items, world), r.at, created, skipped)
    {
      if q !in queues {
        return QueueNotFound;
      }
      var created, skipped, thrown := [], [], false;
      for k := 0 to |items|
        invariant AccountOf(world, BatchJobs(q, handler, items, world), k, created, skipped)
        invariant k == 0 ==> State() == old(State())
      {
        thrown, created, skipped := AccountTurn(q, handler, items, world, k, created, skipped);
        if thrown {
          return Failed(k);
        }
      }
      r := Accounted(created, skipped);
      AllItemsDone(q, handler, items, world, created, skipped);
    }

    /** A fresh budget for a dead or retrying job; the dedupe index may refuse to take a dead job's key back. */
    method RetryJob(i: Id) returns (r: RetryResult)
      requires Keyed()
      modifies this
      ensures Keyed() && State() == Transact(old(State()), Work([i], Retry))
      ensures r == if i !in old(jobs) then RetryNotFound
                   else if old(jobs)[i].status !in {Dead, Retrying} then NotRetryable
                   else if KeyTaken(old(State()), i) then RetryRefused
                   else Retried
      ensures r.Retried? ==>
                i in jobs && jobs == old(jobs)[i := jobs[i]] && FreshlyRetried(old(jobs)[i], jobs[i], old(now))
                && execs == old(execs)
      ensures old(Valid()) ==> Valid()
    {
      TransactKeepsValid(State(), Work([i], Retry));
      OneJobTransact(State(), i, Retry);
      if i !in jobs {
        return RetryNotFound;
      }
      var j := jobs[i];
      if j.status !in {Dead, Retrying} {
        return NotRetryable;
      }
      if j.status == Dead && j.spec.dedupe.Some?
         && exists k :: k in jobs && k != i && Holds(jobs[k], j.spec.queue, j.spec.dedupe.value) {
        return RetryRefused;
      }
      WriteRetried(i);
      r := Retried;
    }

    method WriteRetried(i: Id)
      requires Keyed() && i in jobs && jobs[i].status in {Dead, Retrying}
      modifies this
      ensures Keyed() && State() == Do(old(State()), i, Retry)
      ensures i in jobs && jobs == old(jobs)[i := jobs[i]] && FreshlyRetried(old(jobs)[i], jobs[i], old(now))
      ensures execs == old(execs)
    {
      ghost var before := State();
      Unchanged(before, i);
      var j := jobs[i];
      jobs := jobs[i := j.(status := Queued, runAt := now, lockedBy := None, lockedUntil := None,
                           maxAttempts := j.attempts + DEFAULT_RETRY.maxAttempts, deathReason := None,
                           lastError := None)];
      if j.status == Dead {
        dlq := dlq - {i};
        UpdateCounters(j.spec.queue, Deltas(Inc(1), Keep, Keep, Dec(1)));
      } else {
        UpdateCounters(j.spec.queue, Deltas(Inc(1), Keep, Keep, Keep));
      }
      ghost var s, d := After(View(before, i), Retry, now), CounterUpdate(View(before, i), Retry);
      FieldsAreWrite(before, State(), i, s, d, false);
      WriteKeepsKeyed(before, i, s, d, false);
    }

    method WriteCancelled(i: Id)
      requires Keyed() && i in jobs && jobs[i].status in {Queued, Scheduled, Retrying}
      modifies this
      ensures Keyed() && State() == Do(old(State()), i, Cancel)
      ensures jobs == old(jobs)[i := old(jobs)[i].(status := Cancelled, lockedBy := None, lockedUntil := None)]
    {
      ghost var before := State();
      Unchanged(before, i);
      var j := jobs[i];
      SameAgain(before, i, j);
      jobs := jobs[i := j.(status := Cancelled, lockedBy := None, lockedUntil := None)];
      if j.status == Queued {
        owed := owed + multiset{j.spec.queue};
      }
      ghost var s := After(View(before, i), Cancel, now);
      FieldsAreWrite(before, State(), i, s, UNTOUCHED, j.status.Queued?);
      WriteKeepsKeyed(before, i, s, UNTOUCHED, j.status.Queued?);
    }

    /** The first, autocommitted statement of a cancel; when it finds nothing to cancel, a second one tells a job that
        cannot be cancelled from one that does not exist, on the database as others left it by then. */
    method CancelJob(i: Id, atLookup: DB) returns (r: CancelResult)
      requires Keyed() && KeysOk(atLookup.jobs, atLookup.execs, atLookup.dlq)
      modifies this
      ensures Keyed()
      ensures State() == if r.CancelledNow? then Apply(old(State()), Step.CancelJob(i)) else atLookup
      ensures r == if i in old(jobs) && old(jobs)[i].status in {Queued, Scheduled, Retrying}
                   then CancelledNow(old(jobs)[i].spec.queue, old(jobs)[i].status.Queued?)
                   else if i in atLookup.jobs then AlreadyRunning
                   else CancelNotFound
      ensures r.CancelledNow? ==>
                jobs == old(jobs)[i := old(jobs)[i].(status := Cancelled, lockedBy := None, lockedUntil := None)]
      ensures !r.CancelledNow? ==> Apply(old(State()), Step.CancelJob(i)) == old(State())
      ensures old(Valid()) && Inv(atLookup) ==> Valid()
    {
      CancelStep(State(), i);
      if i in jobs && jobs[i].status in {Queued, Scheduled, Retrying} {
        r := CancelledNow(jobs[i].spec.queue, jobs[i].status == Queued);
        WriteCancelled(i);
      } else {
        OthersCommit(atLookup);
        r := if i in jobs then AlreadyRunning else CancelNotFound;
      }
    }

    /** The second statement, run when the first one took the job out of the queue. */
    method SettleCancel(q: Id)
      requires Keyed()
      modifies this`queues, this`owed
      ensures State() == Settle(old(State()), q)
      ensures old(Valid()) && q in old(owed) ==> Valid()
    {
      if Valid() && q in owed {
        SettleKeepsInv(State(), q);
      }
      UpdateCounters(q, Deltas(Dec(1), Keep, Keep, Keep));
      owed := owed - multiset{q};
    }
  }
}
