/** How jobs come about: the row that an insert, an item of a batch or a firing of a schedule leaves, column by column,
    and which of them leave one. */
module Origins {
  import opened Common
  import opened Lifecycle
  import opened Backoff
  import opened Model
  import opened Rows
  import opened Database
  import opened Steps
  import opened Invariant
  import opened Runs
  import opened Contracts
  import opened BatchInsert

  /** Never attempted, and nothing to report. */
  predicate Untouched(j: Job) {
    && j.attempts == 0 && j.lockedBy.None? && j.lockedUntil.None?
    && j.lastError.None? && j.deathReason.None? && j.durationMs.None?
  }

  // ---- the contract, and the outcome of an insert

  /** The contract that a queue offers: its own policy, or three exponential attempts from one second up to a minute. */
  lemma ContractIsPolicyOrDefault(db: DB, q: Id)
    ensures q in db.queues && db.queues[q].policy.Some? ==> Contract(db, q) == db.queues[q].policy.value
    ensures !(q in db.queues && db.queues[q].policy.Some?) ==>
              Contract(db, q) == RetryPolicy(Curve(Exponential, 1000, 2.0, Some(60000)), 3)
  {}

  /** A job of the queue holds the key: it is not completed and not dead. */
  predicate LiveHolder(db: DB, q: Id, key: Key, h: Id) {
    h in db.jobs && db.jobs[h].spec.queue == q && db.jobs[h].spec.dedupe == Some(key)
    && db.jobs[h].status != Completed && db.jobs[h].status != Dead
  }

  lemma ConflictIffLiveHolder(db: DB, q: Id, key: Key)
    ensures KeyConflict(db, q, Some(key)) <==> exists h :: LiveHolder(db, q, key, h)
  {
    forall h | h in db.jobs ensures Holds(db.jobs[h], q, key) <==> LiveHolder(db, q, key, h) {}
  }

  /** An insert leaves a row exactly if its priority is allowed, its queue exists, and no live job of the queue holds
      its key. */
  lemma CreatedIff(db: DB, a: NewJob)
    ensures OutcomeOf(db, a).Created? <==>
              && 0 <= a.priority <= 9 && a.queue in db.queues
              && (a.dedupe.Some? ==> forall h :: !LiveHolder(db, a.queue, a.dedupe.value, h))
    ensures OutcomeOf(db, a).Duplicate? <==>
              0 <= a.priority <= 9 && a.dedupe.Some? && exists h :: LiveHolder(db, a.queue, a.dedupe.value, h)
  {
    if a.dedupe.Some? {
      ConflictIffLiveHolder(db, a.queue, a.dedupe.value);
    }
  }

  // ---- single inserts

  /** The row is what the caller asked for, under the contract, dated now. */
  predicate AsAsked(j: Job, a: NewJob, c: RetryPolicy, now: int) {
    && j.spec.queue == a.queue && j.spec.kind == a.kind && j.spec.handler == a.handler && j.spec.payload == a.payload
    && j.spec.priority == a.priority && j.spec.dedupe == a.dedupe && j.spec.recurring == a.recurring
    && j.spec.createdAt == now && j.status == a.status && j.runAt == a.runAt
    && j.spec.curve == c.curve && j.maxAttempts == c.maxAttempts && Untouched(j)
  }

  /** A row without executions and dead-letter row. */
  predicate Childless(db: DB, i: Id) {
    i in db.execs && db.execs[i] == map[] && i !in db.dlq
  }

  lemma InsertLeaves(db: DB, a: NewJob)
    requires TablesOk(db) && OutcomeOf(db, a).Created?
    ensures var e := Insert(db, a); var i := db.nextId;
            && i !in db.jobs && i in e.jobs && AsAsked(e.jobs[i], a, ContractOf(db, a), db.now) && Childless(e, i)
            && forall j :: j in db.jobs ==> j in e.jobs && e.jobs[j] == db.jobs[j]
  {
    InsertViews(db, a);
    assert View(Insert(db, a), db.nextId).job == Insert(db, a).jobs[db.nextId];
  }

  lemma InsertedIsAsAsked(db: DB, a: NewJob, i: Id)
    requires TablesOk(db) && i in Insert(db, a).jobs && i !in db.jobs
    ensures AsAsked(Insert(db, a).jobs[i], a, ContractOf(db, a), db.now) && Childless(Insert(db, a), i)
  {
    InsertViews(db, a);
    InsertLeaves(db, a);
  }

  // ---- items of a batch

  /** The row is the item's, in the batch's queue and for the batch's handler, to run from the moment its turn came. */
  predicate OfItem(j: Job, q: Id, handler: string, item: BatchItem, m: Moments) {
    && j.spec.queue == q && j.spec.kind == Batch && j.spec.handler == handler && j.spec.payload == item.payload
    && j.spec.priority == (if item.priority.Some? then item.priority.value else 5)
    && j.spec.dedupe == item.dedupe && j.spec.recurring.None? && j.spec.createdAt == m.insert.now
    && j.status == Queued && j.runAt == m.resolve.now && Carries(Contract(m.resolve, q), j) && Untouched(j)
  }

  lemma LandedIsOfItem(m: Moments, q: Id, handler: string, item: BatchItem)
    requires OutcomeOf(m.insert, BatchJob(q, handler, item, m.resolve)).Created?
    ensures var e := Insert(m.insert, BatchJob(q, handler, item, m.resolve)); var i := m.insert.nextId;
            i in e.jobs && OfItem(e.jobs[i], q, handler, item, m) && i in e.execs && e.execs[i] == map[]
  {}

  /** An item can be inserted at all. */
  predicate Insertable(db: DB, q: Id, item: BatchItem) {
    q in db.queues && (item.priority.Some? ==> 0 <= item.priority.value <= 9)
  }

  /** What became of the k-th item of a batch that ran through: it was skipped, for a live job of the queue held its
      key at the INSERT and one still did at the lookup; or an identifier was issued to its row. */
  ghost predicate ItemDone(m: Moments, q: Id, handler: string, item: BatchItem, k: nat, created: seq<Id>,
                           skipped: seq<nat>) {
    if k in skipped then
      item.dedupe.Some? && (exists h :: LiveHolder(m.insert, q, item.dedupe.value, h))
      && (exists h :: LiveHolder(m.lookup, q, item.dedupe.value, h))
    else
      && Insertable(m.insert, q, item) && m.insert.nextId in created
      && (item.dedupe.Some? ==> forall h :: !LiveHolder(m.insert, q, item.dedupe.value, h))
  }

  lemma {:induction false} CreatedIfLanded(world: seq<Moments>, batch: seq<NewJob>, n: nat, k: nat)
    requires k < n <= |batch| == |world| && VerdictOf(world[k], batch[k]).Landed?
    ensures world[k].insert.nextId in CreatedOf(world, batch, n)
  {
    if k < n - 1 {
      CreatedIfLanded(world, batch, n - 1, k);
    }
  }

  lemma {:induction false} SkippedAreFound(world: seq<Moments>, batch: seq<NewJob>, n: nat, k: nat)
    requires n <= |batch| == |world| && k in SkippedOf(world, batch, n)
    ensures k < n && VerdictOf(world[k], batch[k]).Skipped?
  {
    if k in SkippedOf(world, batch, n - 1) {
      SkippedAreFound(world, batch, n - 1, k);
    }
  }

  /** The account of a batch that ran through, in terms of its items. */
  lemma BatchAccount(q: Id, handler: string, items: seq<BatchItem>, world: seq<Moments>, created: seq<Id>,
                     skipped: seq<nat>, k: nat)
    requires k < |items| == |world|
    requires AccountOf(world, BatchJobs(q, handler, items, world), |items|, created, skipped)
    ensures ItemDone(world[k], q, handler, items[k], k, created, skipped)
  {
    var batch := BatchJobs(q, handler, items, world);
    var m, a := world[k], batch[k];
    SkippedIffDuplicate(world, batch, |items|, k);
    CreatedIff(m.insert, a);
    if k in skipped {
      SkippedAreFound(world, batch, |items|, k);
      ConflictIffLiveHolder(m.lookup, q, items[k].dedupe.value);
    } else {
      CreatedIfLanded(world, batch, |items|, k);
    }
  }

  lemma AllItemsDone(q: Id, handler: string, items: seq<BatchItem>, world: seq<Moments>, created: seq<Id>,
                     skipped: seq<nat>)
    requires |items| == |world| && AccountOf(world, BatchJobs(q, handler, items, world), |items|, created, skipped)
    ensures forall k: nat :: k < |items| ==> ItemDone(world[k], q, handler, items[k], k, created, skipped)
  {
    forall k: nat | k < |items| ensures ItemDone(world[k], q, handler, items[k], k, created, skipped) {
      BatchAccount(q, handler, items, world, created, skipped, k);
    }
  }

  // ---- a batch that nobody disturbs

  /** The database before the k-th item, when no other transaction comes in between. */
  function Before(db: DB, q: Id, handler: string, items: seq<BatchItem>, k: nat): DB
    requires k <= |items|
  {
    if k == 0 then db
    else
      var d := Before(db, q, handler, items, k - 1);
      Insert(d, BatchJob(q, handler, items[k - 1], d))
  }

  predicate RepeatsEarlier(items: seq<BatchItem>, k: nat, key: Key)
    requires k <= |items|
  {
    exists y: nat :: y < k && items[y].dedupe == Some(key)
  }

  /** After the k-th item's turn. */
  lemma OneItemOn(d: DB, q: Id, handler: string, item: BatchItem, key: Key)
    requires TablesOk(d) && Insertable(d, q, item)
    ensures var e := Insert(d, BatchJob(q, handler, item, d));
            && TablesOk(e) && e.queues.Keys == d.queues.Keys
            && (KeyConflict(e, q, Some(key)) <==> KeyConflict(d, q, Some(key)) || item.dedupe == Some(key))
  {
    var a := BatchJob(q, handler, item, d);
    InsertKeepsTables(d, a);
    InsertTakesKey(d, a, key);
  }

  lemma {:induction false} KeysBefore(db: DB, q: Id, handler: string, items: seq<BatchItem>, k: nat, key: Key)
    requires TablesOk(db) && k <= |items| && forall y :: 0 <= y < k ==> Insertable(db, q, items[y])
    ensures var d := Before(db, q, handler, items, k);
            && TablesOk(d) && d.queues.Keys == db.queues.Keys
            && (KeyConflict(d, q, Some(key)) <==> KeyConflict(db, q, Some(key)) || RepeatsEarlier(items, k, key))
  {
    if k > 0 {
      KeysBefore(db, q, handler, items, k - 1, key);
      var d := Before(db, q, handler, items, k - 1);
      assert Insertable(db, q, items[k - 1]) && Insertable(d, q, items[k - 1]);
      OneItemOn(d, q, handler, items[k - 1], key);
      assert RepeatsEarlier(items, k, key) <==> RepeatsEarlier(items, k - 1, key) || items[k - 1].dedupe == Some(key);
    }
  }

  /** Undisturbed, an item is skipped exactly if it has a key that a live job of the queue held before the batch or an
      earlier item asked for; else its row is created. */
  lemma UndisturbedItem(db: DB, q: Id, handler: string, items: seq<BatchItem>, k: nat)
    requires TablesOk(db) && k < |items| && forall y :: 0 <= y <= k ==> Insertable(db, q, items[y])
    ensures var d := Before(db, q, handler, items, k);
            var skips := items[k].dedupe.Some? && ((exists h :: LiveHolder(db, q, items[k].dedupe.value, h))
                                                     || RepeatsEarlier(items, k, items[k].dedupe.value));
            VerdictOf(Moments(d, d, d), BatchJob(q, handler, items[k], d)) == if skips then Skipped else Landed
  {
    var key := if items[k].dedupe.Some? then items[k].dedupe.value else TextKey("");
    KeysBefore(db, q, handler, items, k, key);
    ConflictIffLiveHolder(db, q, key);
  }

  /** So the account of an undisturbed batch skips exactly those items. */
  lemma UndisturbedAccount(db: DB, q: Id, handler: string, items: seq<BatchItem>, world: seq<Moments>, created: seq<Id>,
                           skipped: seq<nat>, k: nat)
    requires TablesOk(db) && k < |items| == |world| && forall y :: 0 <= y <= k ==> Insertable(db, q, items[y])
    requires var d := Before(db, q, handler, items, k); world[k] == Moments(d, d, d)
    requires AccountOf(world, BatchJobs(q, handler, items, world), |items|, created, skipped)
    ensures k in skipped <==>
              items[k].dedupe.Some? && ((exists h :: LiveHolder(db, q, items[k].dedupe.value, h))
                                          || RepeatsEarlier(items, k, items[k].dedupe.value))
  {
    UndisturbedItem(db, q, handler, items, k);
    SkippedIffDuplicate(world, BatchJobs(q, handler, items, world), |items|, k);
  }

  // ---- a repeat, whatever comes in between

  /** Of two items of a batch with one key, the first of which got a row: the other is skipped or created according to
      whether the first one's job is still there and not finished, or another job took the key. */
  lemma RepeatedItem(dbs: seq<DB>, steps: seq<Step>, at: seq<nat>, look: seq<nat>, world: seq<Moments>, q: Id,
                     handler: string, items: seq<BatchItem>, y: nat, k: nat)
    requires IsRun(dbs, steps) && |items| == |world|
    requires BatchOfRun(dbs, steps, at, look, world, BatchJobs(q, handler, items, world)) && y < k < |items|
    requires items[y].dedupe.Some? && items[k].dedupe == items[y].dedupe
    requires OutcomeOf(world[y].insert, BatchJob(q, handler, items[y], world[y].resolve)).Created?
    requires Insertable(world[k].insert, q, items[k])
    ensures var first, db := world[y].insert.nextId, world[k].insert; var key := items[k].dedupe.value;
            var o := OutcomeOf(db, BatchJob(q, handler, items[k], world[k].resolve));
            && (LiveHolder(db, q, key, first) ==> o.Duplicate? && forall h :: LiveHolder(db, q, key, h) ==> h == first)
            && (o.Created? <==> forall h :: !LiveHolder(db, q, key, h))
            && (o.Duplicate? <==> exists h :: LiveHolder(db, q, key, h))
            && (first in db.jobs && db.jobs[first].status !in {Completed, Dead} ==> LiveHolder(db, q, key, first))
  {
    var batch := BatchJobs(q, handler, items, world);
    var first, db, key := world[y].insert.nextId, world[k].insert, items[k].dedupe.value;
    RepeatInBatch(dbs, steps, at, look, world, batch, y, k);
    CreatedIff(db, batch[k]);
    FirstStillHolds(dbs, steps, at, look, world, batch, y, k, key);
    assert forall h :: LiveHolder(db, q, key, h) && h != first ==> Holds(db.jobs[h], q, key);
  }

  lemma FirstStillHolds(dbs: seq<DB>, steps: seq<Step>, at: seq<nat>, look: seq<nat>, world: seq<Moments>,
                        batch: seq<NewJob>, y: nat, k: nat, key: Key)
    requires IsRun(dbs, steps) && BatchOfRun(dbs, steps, at, look, world, batch) && y < k < |batch|
    requires batch[y].dedupe == Some(key) && batch[y].status.Queued? && OutcomeOf(world[y].insert, batch[y]).Created?
    ensures var first, db := world[y].insert.nextId, world[k].insert;
            !Released(db, first) <==> LiveHolder(db, batch[y].queue, key, first)
  {
    var h := dbs[at[y]].nextId;
    LandedHolds(dbs[at[y]], batch[y], key);
    assert dbs[at[y] + 1] == Insert(dbs[at[y]], batch[y]);
    StillHolds(dbs, steps, at[y] + 1, at[k], h, batch[y].queue, key);
  }

  // ---- firings of a schedule

  /** The row is an occurrence of the schedule: its handler and payload, in its queue, for the slot its watermark stood
      at, to run at once. */
  predicate OccurrenceOf(j: Job, s: Id, c: Schedule, contract: RetryPolicy, now: int) {
    && j.spec.queue == c.queue && j.spec.kind == Recurring && j.spec.handler == c.handler && j.spec.payload == c.payload
    && j.spec.priority == 5 && j.spec.dedupe == Some(CronKey(s, c.nextRun)) && j.spec.recurring == Some(s)
    && j.spec.createdAt == now && j.status == Queued && j.runAt == now && Carries(contract, j) && Untouched(j)
  }

  /** The schedule remembers the job. */
  predicate Remembers(c: Schedule, j: Id, now: int) {
    c.lastJob == Some(j) && c.lastEnqueuedAt == Some(now)
  }

  lemma FiredJob(db: DB, s: Id, next: Option<int>, j: Id)
    requires TablesOk(db) && j in Fire(db, s, next).jobs && j !in db.jobs
    ensures s in db.schedules && next.Some?
    ensures var e, c := Fire(db, s, next), db.schedules[s];
            && OccurrenceOf(e.jobs[j], s, c, Contract(db, c.queue), db.now) && Childless(e, j)
            && Remembers(e.schedules[s], j, db.now)
  {
    InsertViews(db, Occurrence(db, s));
    InsertLeaves(db, Occurrence(db, s));
  }

  /** Every job that a tick adds is an occurrence of one of the schedules it fired, which remembers it. */
  lemma {:induction false} TickJob(db: DB, due: seq<Id>, next: NextRuns, j: Id) returns (s: Id)
    requires TablesOk(db) && NoDup(due) && j in FireAll(db, due, next).jobs && j !in db.jobs
    ensures s in due && s in db.schedules && NextRun(next, s).Some?
    ensures var e, c := FireAll(db, due, next), db.schedules[s];
            && OccurrenceOf(e.jobs[j], s, c, Contract(db, c.queue), db.now)
            && s in e.schedules && Remembers(e.schedules[s], j, db.now)
  {
    var front, last := due[..|due| - 1], due[|due| - 1];
    assert due == front + [last];
    var m, e := FireAll(db, front, next), FireAll(db, due, next);
    FireAllViews(db, front, next);
    FireAllFrame(db, front, next);
    FireViews(m, last, NextRun(next, last));
    FireFrame(m, last, NextRun(next, last));
    if j in m.jobs {
      s := TickJob(db, front, next, j);
      assert View(e, j).job == View(m, j).job;
    } else {
      s := last;
      FiredJob(m, last, NextRun(next, last), j);
      TickKeepsContracts(db, front, next, db.schedules[last].queue);
    }
  }

  /** A schedule that the tick gave no job remembers what it remembered. */
  predicate SameMemory(c: Schedule, d: Schedule) {
    d.lastJob == c.lastJob && d.lastEnqueuedAt == c.lastEnqueuedAt
  }

  ghost predicate Spawns(db: DB, e: DB, s: Id) {
    exists j :: j in e.jobs && j !in db.jobs && e.jobs[j].spec.recurring == Some(s)
  }

  lemma FireMemory(db: DB, s: Id, next: Option<int>)
    requires TablesOk(db) && s in db.schedules
    ensures var e, c := Fire(db, s, next), db.schedules[s];
            && (Spawns(db, e, s) <==> next.Some? && !KeyConflict(db, c.queue, Some(CronKey(s, c.nextRun))))
            && (!Spawns(db, e, s) ==> SameMemory(c, e.schedules[s]))
  {
    var a, e := Occurrence(db, s), Fire(db, s, next);
    InsertViews(db, a);
    assert SchedulesRefer(db.schedules, db.queues.Keys, db.nextId);
    if next.Some? && OutcomeOf(db, a).Created? {
      InsertLeaves(db, a);
      assert e.jobs[db.nextId].spec.recurring == Some(s);
    }
  }

  /** Firing another schedule leaves the key of this one's slot alone. */
  lemma FireKeepsOtherKeys(db: DB, t: Id, next: Option<int>, s: Id, slot: int, q: Id)
    requires TablesOk(db) && t != s
    ensures KeyConflict(Fire(db, t, next), q, Some(CronKey(s, slot))) <==> KeyConflict(db, q, Some(CronKey(s, slot)))
  {
    if t in db.schedules && next.Some? {
      var a := Occurrence(db, t);
      InsertViews(db, a);
      if OutcomeOf(db, a).Created? {
        InsertLeaves(db, a);
      }
      assert Fire(db, t, next).jobs == Insert(db, a).jobs;
    }
  }

  lemma {:induction false} TickKeepsOtherKeys(db: DB, due: seq<Id>, next: NextRuns, s: Id, slot: int, q: Id)
    requires TablesOk(db) && s !in due
    ensures TablesOk(FireAll(db, due, next))
    ensures KeyConflict(FireAll(db, due, next), q, Some(CronKey(s, slot))) <==>
              KeyConflict(db, q, Some(CronKey(s, slot)))
  {
    FireAllViews(db, due, next);
    if |due| > 0 {
      var front, last := due[..|due| - 1], due[|due| - 1];
      assert due == front + [last];
      TickKeepsOtherKeys(db, front, next, s, slot, q);
      FireKeepsOtherKeys(FireAll(db, front, next), last, NextRun(next, last), s, slot, q);
    }
  }

  lemma SpawnedElsewhere(db: DB, m: DB, last: Id, next: Option<int>, s: Id)
    requires TablesOk(m) && OnlyAdds(db, m) && last != s
    ensures Spawns(db, Fire(m, last, next), s) <==> Spawns(db, m, s)
  {
    var e := Fire(m, last, next);
    FireViews(m, last, next);
    forall j | j in e.jobs && j !in m.jobs ensures e.jobs[j].spec.recurring != Some(s) {
      FiredJob(m, last, next, j);
    }
    forall j | j in m.jobs ensures j in e.jobs && e.jobs[j] == m.jobs[j] {
      assert View(e, j).job == View(m, j).job;
    }
  }

  lemma NothingSpawned(db: DB, due: seq<Id>, next: NextRuns, s: Id)
    requires TablesOk(db) && NoDup(due) && s !in due
    ensures !Spawns(db, FireAll(db, due, next), s)
  {
    var e := FireAll(db, due, next);
    forall j | j in e.jobs && j !in db.jobs ensures e.jobs[j].spec.recurring != Some(s) {
      var t := TickJob(db, due, next, j);
    }
  }

  lemma SpawnedHere(db: DB, m: DB, e: DB, s: Id)
    requires OnlyAdds(db, m) && OnlyAdds(m, e) && !Spawns(db, m, s)
    ensures Spawns(db, e, s) <==> Spawns(m, e, s)
  {
    forall j | j in e.jobs && j in m.jobs ensures e.jobs[j] == m.jobs[j] {
      assert View(e, j).job == View(m, j).job;
    }
  }

  /** The turn of the schedule itself, at the end of a tick. */
  lemma LastSpawns(db: DB, front: seq<Id>, next: NextRuns, s: Id)
    requires TablesOk(db) && NoDup(front) && s !in front && s in db.schedules
    ensures var m, c := FireAll(db, front, next), db.schedules[s]; var e := Fire(m, s, NextRun(next, s));
            && (Spawns(db, e, s) <==>
                  NextRun(next, s).Some? && !exists h :: LiveHolder(db, c.queue, CronKey(s, c.nextRun), h))
            && s in e.schedules && (!Spawns(db, e, s) ==> SameMemory(c, e.schedules[s]))
  {
    var m, c := FireAll(db, front, next), db.schedules[s];
    FireAllViews(db, front, next);
    FireAllFrame(db, front, next);
    NothingSpawned(db, front, next, s);
    FireMemory(m, s, NextRun(next, s));
    FireFrame(m, s, NextRun(next, s));
    FireViews(m, s, NextRun(next, s));
    SpawnedHere(db, m, Fire(m, s, NextRun(next, s)), s);
    TickKeepsOtherKeys(db, front, next, s, c.nextRun, c.queue);
    ConflictIffLiveHolder(db, c.queue, CronKey(s, c.nextRun));
  }

  /** A tick gives a due schedule a job exactly if its next fire time can be computed and no live job holds the key of
      its slot; without a job it remembers what it remembered. */
  lemma {:induction false} TickSpawnsIffSlotFree(db: DB, due: seq<Id>, next: NextRuns, s: Id)
    requires TablesOk(db) && NoDup(due) && s in due && s in db.schedules
    ensures var e, c := FireAll(db, due, next), db.schedules[s];
            && (Spawns(db, e, s) <==>
                  NextRun(next, s).Some? && !exists h :: LiveHolder(db, c.queue, CronKey(s, c.nextRun), h))
            && s in e.schedules && (!Spawns(db, e, s) ==> SameMemory(c, e.schedules[s]))
  {
    var front, last := due[..|due| - 1], due[|due| - 1];
    assert due == front + [last];
    if s == last {
      LastSpawns(db, front, next, s);
    } else {
      var m := FireAll(db, front, next);
      FireAllViews(db, front, next);
      FireAllFrame(db, front, next);
      FireFrame(m, last, NextRun(next, last));
      TickSpawnsIffSlotFree(db, front, next, s);
      SpawnedElsewhere(db, m, last, NextRun(next, last), s);
    }
  }

  // ---- along a run

  /** The step inserts the job: a caller's, as asked, or an occurrence of a schedule. */
  ghost predicate Inserts(db: DB, e: DB, step: Step, i: Id) {
    && i !in db.jobs && i in e.jobs
    && match step
       case InsertJob(a) => AsAsked(e.jobs[i], a, ContractOf(db, a), db.now)
       case PromoteRecurring(due, _, _) =>
         exists s :: s in due && s in db.schedules && s in e.schedules && Remembers(e.schedules[s], i, db.now)
                     && OccurrenceOf(e.jobs[i], s, db.schedules[s], Contract(db, db.schedules[s].queue), db.now)
       case _ => false
  }

  lemma StepInserts(db: DB, step: Step, i: Id)
    requires Inv(db) && Enabled(db, step) && i !in db.jobs && i in Apply(db, step).jobs
    ensures Inserts(db, Apply(db, step), step, i)
  {
    NewcomerStep(db, step, i);
    if step.PromoteRecurring? {
      var s := TickJob(db, step.due, step.next, i);
    } else {
      InsertedIsAsAsked(db, step.args, i);
    }
  }

  lemma {:induction false} FirstSeen(dbs: seq<DB>, i: Id, k: nat, m: nat) returns (n: nat)
    requires k < m < |dbs| && i !in dbs[k].jobs && i in dbs[m].jobs
    ensures k <= n < m && i !in dbs[n].jobs && forall p :: n < p <= m ==> i in dbs[p].jobs
  {
    if i in dbs[m - 1].jobs {
      n := FirstSeen(dbs, i, k, m - 1);
    } else {
      n := m - 1;
    }
  }

  /** Along every run: what a job is to run, where, how urgently and under which key is what one caller asked for or
      what one schedule said when it fired, however long ago. */
  lemma EveryJobWasInserted(dbs: seq<DB>, steps: seq<Step>, k: nat, m: nat, i: Id) returns (n: nat)
    requires IsRun(dbs, steps) && k < m < |dbs| && i !in dbs[k].jobs && i in dbs[m].jobs
    ensures k <= n < m && Inserts(dbs[n], dbs[n + 1], steps[n], i) && dbs[m].jobs[i].spec == dbs[n + 1].jobs[i].spec
  {
    n := FirstSeen(dbs, i, k, m);
    assert i in dbs[n + 1].jobs;
    assert Enabled(dbs[n], steps[n]) && dbs[n + 1] == Apply(dbs[n], steps[n]);
    RunInv(dbs, steps, n);
    StepInserts(dbs[n], steps[n], i);
    RunOfJob(dbs, steps, i);
    SpecStays(dbs, steps, n + 1, m, i);
  }

  // ---- delayed jobs

  /** Not yet issued, gone, cancelled, or scheduled for that time. */
  predicate OnHold(db: DB, i: Id, until: int) {
    && i < db.nextId
    && (i in db.jobs ==> db.jobs[i].status.Cancelled? || (db.jobs[i].status.Scheduled? && db.jobs[i].runAt == until))
  }

  lemma HoldRow(r: Row, op: Op, now: int)
    requires RowOk(r) && Legal(r, op, now)
    requires r.job.status.Cancelled? || (r.job.status.Scheduled? && now < r.job.runAt)
    ensures var s := After(r, op, now).job;
            s.status.Cancelled? || (s.status.Scheduled? && s.runAt == r.job.runAt)
  {}

  lemma OnHoldStep(db: DB, e: DB, step: Step, i: Id, until: int)
    requires JobStep(db, e, step, i) && OnHold(db, i, until) && db.now < until
    ensures OnHold(e, i, until)
  {
    if i in e.jobs {
      assert View(e, i).job == e.jobs[i];
      if Acts(db, step, i) {
        HoldRow(View(db, i), WorkOf(step).value.op, db.now);
      }
    }
  }

  lemma {:induction false} StaysOnHold(dbs: seq<DB>, steps: seq<Step>, k: nat, m: nat, i: Id, until: int)
    requires JobRun(dbs, steps, i) && k <= m < |dbs| && OnHold(dbs[k], i, until) && dbs[m].now < until
    ensures OnHold(dbs[m], i, until)
  {
    if k < m {
      NowGrows(dbs, steps, i, m - 1, m);
      StaysOnHold(dbs, steps, k, m - 1, i, until);
      OnHoldStep(dbs[m - 1], dbs[m], steps[m - 1], i, until);
    }
  }

  /** A job inserted for a later time is not claimed before that time, whatever callers do to it. */
  lemma DelayedJobWaits(dbs: seq<DB>, steps: seq<Step>, k: nat, m: nat, i: Id)
    requires IsRun(dbs, steps) && k < m < |steps| && i !in dbs[k].jobs && i in dbs[k + 1].jobs
    requires steps[k].InsertJob? && steps[k].args.status.Scheduled? && dbs[m].now < steps[k].args.runAt
    ensures !(steps[m].ClaimJobs? && Acts(dbs[m], steps[m], i))
  {
    RunOfJob(dbs, steps, i);
    RunInv(dbs, steps, k);
    StepInserts(dbs[k], steps[k], i);
    assert JobStep(dbs[k], dbs[k + 1], steps[k], i);
    StaysOnHold(dbs, steps, k + 1, m, i, steps[k].args.runAt);
  }
}
