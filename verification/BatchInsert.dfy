/** What a keyed insert and a batch of them meet when other transactions commit between their statements. */
module BatchInsert {
  import opened Common
  import opened Lifecycle
  import opened Model
  import opened Database
  import opened Steps
  import opened Runs
  import opened Contracts

  // ---- a key along a run

  /** The job no longer holds a key: it is gone, completed or dead. */
  predicate Released(db: DB, h: Id) {
    h !in db.jobs || db.jobs[h].status in {Completed, Dead}
  }

  /** Some job but h holds the key. */
  predicate HeldByOther(db: DB, h: Id, q: Id, key: Key) {
    exists j :: j in db.jobs && j != h && Holds(db.jobs[j], q, key)
  }

  lemma StillHolds(dbs: seq<DB>, steps: seq<Step>, p: nat, n: nat, h: Id, q: Id, key: Key)
    requires IsRun(dbs, steps) && p <= n < |dbs| && h in dbs[p].jobs && Holds(dbs[p].jobs[h], q, key)
    ensures h in dbs[n].jobs && Holds(dbs[n].jobs[h], q, key) <==> !Released(dbs[n], h)
  {
    RunOfJob(dbs, steps, h);
    if h in dbs[n].jobs {
      SpecStays(dbs, steps, p, n, h);
    }
  }

  /** A key that job h held is held later exactly if h has not released it or another job has taken it; while h has
      not, nobody else can. */
  lemma KeyLater(dbs: seq<DB>, steps: seq<Step>, p: nat, n: nat, h: Id, q: Id, key: Key)
    requires IsRun(dbs, steps) && p <= n < |dbs| && h in dbs[p].jobs && Holds(dbs[p].jobs[h], q, key)
    ensures KeyConflict(dbs[n], q, Some(key)) <==> !Released(dbs[n], h) || HeldByOther(dbs[n], h, q, key)
    ensures !Released(dbs[n], h) ==> !HeldByOther(dbs[n], h, q, key)
  {
    StillHolds(dbs, steps, p, n, h, q, key);
    RunInv(dbs, steps, n);
    KeyOfOne(dbs[n], h, q, key);
  }

  lemma KeyOfOne(db: DB, h: Id, q: Id, key: Key)
    requires DedupeOk(db) && (h in db.jobs && Holds(db.jobs[h], q, key) <==> !Released(db, h))
    ensures KeyConflict(db, q, Some(key)) <==> !Released(db, h) || HeldByOther(db, h, q, key)
    ensures !Released(db, h) ==> !HeldByOther(db, h, q, key)
  {}

  /** Whether an insert repeats the key of an earlier job is decided at its own moment: it is created exactly if that
      job has meanwhile released the key and no other has taken it. */
  lemma RepeatIsCreatedIffReleased(dbs: seq<DB>, steps: seq<Step>, p: nat, n: nat, h: Id, a: NewJob)
    requires IsRun(dbs, steps) && p <= n < |dbs| && h in dbs[p].jobs
    requires a.dedupe.Some? && Holds(dbs[p].jobs[h], a.queue, a.dedupe.value)
    requires 0 <= a.priority <= 9 && a.queue in dbs[n].queues
    ensures OutcomeOf(dbs[n], a) in {Created, Duplicate}
    ensures OutcomeOf(dbs[n], a).Created? <==>
              Released(dbs[n], h) && !HeldByOther(dbs[n], h, a.queue, a.dedupe.value)
  {
    KeyLater(dbs, steps, p, n, h, a.queue, a.dedupe.value);
  }

  /** A cancelled job keeps its dedupe key for as long as its row exists: every later insert with that key is a
      duplicate. */
  lemma CancelledKeepsKey(dbs: seq<DB>, steps: seq<Step>, k: nat, m: nat, i: Id, a: NewJob)
    requires IsRun(dbs, steps) && k <= m < |dbs| && i in dbs[k].jobs && dbs[k].jobs[i].status.Cancelled?
    requires a.dedupe.Some? && dbs[k].jobs[i].spec.queue == a.queue && dbs[k].jobs[i].spec.dedupe == a.dedupe
    requires i in dbs[m].jobs && 0 <= a.priority <= 9
    ensures OutcomeOf(dbs[m], a).Duplicate? && !HeldByOther(dbs[m], i, a.queue, a.dedupe.value)
  {
    FinishedForGood(dbs, steps, k, m, i);
    KeyLater(dbs, steps, k, m, i, a.queue, a.dedupe.value);
  }

  // ---- one item: an insert, and a lookup when it inserted nothing

  /** The databases that the statements of an item's transaction see: the contract is read, the row inserted, and on a
      conflict the holder looked up. */
  datatype Moments = Moments(resolve: DB, insert: DB, lookup: DB)

  datatype Verdict = Landed | Skipped | Thrown

  function VerdictOf(m: Moments, a: NewJob): Verdict {
    match OutcomeOf(m.insert, a)
    case Created => Landed
    case Duplicate => if KeyConflict(m.lookup, a.queue, a.dedupe) then Skipped else Thrown
    case CheckViolation => Thrown
    case ForeignKeyViolation => Thrown
  }

  /** A duplicate reaches the throw that its comment calls unreachable exactly if the job that held the key at the
      INSERT has released it by the lookup and no other has taken it. */
  lemma LookupThrowsIffReleased(dbs: seq<DB>, steps: seq<Step>, p: nat, n: nat, h: Id, a: NewJob)
    requires IsRun(dbs, steps) && p <= n < |dbs| && h in dbs[p].jobs && OutcomeOf(dbs[p], a).Duplicate?
    requires a.dedupe.Some? && Holds(dbs[p].jobs[h], a.queue, a.dedupe.value)
    ensures VerdictOf(Moments(dbs[p], dbs[p], dbs[n]), a).Thrown? <==>
              Released(dbs[n], h) && !HeldByOther(dbs[n], h, a.queue, a.dedupe.value)
  {
    KeyLater(dbs, steps, p, n, h, a.queue, a.dedupe.value);
  }

  /** With both statements on one state the throw is unreachable. */
  lemma UndisturbedNeverThrows(db: DB, a: NewJob)
    requires OutcomeOf(db, a) in {Created, Duplicate}
    ensures VerdictOf(Moments(db, db, db), a) == if OutcomeOf(db, a).Created? then Landed else Skipped
  {}

  // ---- a batch

  datatype BatchItem = BatchItem(payload: string, priority: Option<int>, dedupe: Option<Key>)

  const DEFAULT_PRIORITY := 5

  function PriorityOf(item: BatchItem): int {
    if item.priority.Some? then item.priority.value else DEFAULT_PRIORITY
  }

  /** `skipped` holds the indexes of the items that were duplicates. */
  datatype BatchResult = QueueNotFound | Accounted(created: seq<Id>, skipped: seq<nat>) | Failed(at: nat)

  /** The insert of an item whose contract and run time were read at the given database. */
  function BatchJob(q: Id, handler: string, item: BatchItem, at: DB): NewJob {
    NewJob(q, Batch, handler, item.payload, Queued, at.now, PriorityOf(item), item.dedupe, None, Some(Contract(at, q)))
  }

  /** The inserts of a batch, each at its own moment. */
  function BatchJobs(q: Id, handler: string, items: seq<BatchItem>, world: seq<Moments>): (batch: seq<NewJob>)
    requires |world| == |items|
    ensures |batch| == |items|
  {
    seq(|items|, k requires 0 <= k < |items| => BatchJob(q, handler, items[k], world[k].resolve))
  }

  /** The indexes that were skipped among the first n. */
  function SkippedOf(world: seq<Moments>, batch: seq<NewJob>, n: nat): seq<nat>
    requires n <= |batch| == |world|
  {
    if n == 0 then []
    else SkippedOf(world, batch, n - 1) + (if VerdictOf(world[n - 1], batch[n - 1]).Skipped? then [n - 1] else [])
  }

  /** The identifiers issued to the first n. */
  function CreatedOf(world: seq<Moments>, batch: seq<NewJob>, n: nat): seq<Id>
    requires n <= |batch| == |world|
  {
    if n == 0 then []
    else
      CreatedOf(world, batch, n - 1) +
      (if VerdictOf(world[n - 1], batch[n - 1]).Landed? then [world[n - 1].insert.nextId] else [])
  }

  /** The first n items went through, and the two lists are their account. */
  ghost predicate AccountOf(world: seq<Moments>, batch: seq<NewJob>, n: nat, created: seq<Id>, skipped: seq<nat>)
    requires n <= |batch| == |world|
  {
    created == CreatedOf(world, batch, n) && skipped == SkippedOf(world, batch, n) && |created| + |skipped| == n
  }

  lemma AccountSnoc(world: seq<Moments>, batch: seq<NewJob>, n: nat, created: seq<Id>, skipped: seq<nat>)
    requires n < |batch| == |world| && AccountOf(world, batch, n, created, skipped)
    ensures var v := VerdictOf(world[n], batch[n]);
            && (v.Landed? ==> AccountOf(world, batch, n + 1, created + [world[n].insert.nextId], skipped))
            && (v.Skipped? ==> AccountOf(world, batch, n + 1, created, skipped + [n]))
  {}

  lemma {:induction false} AccountBounds(world: seq<Moments>, batch: seq<NewJob>, n: nat)
    requires n <= |batch| == |world|
    ensures |CreatedOf(world, batch, n)| + |SkippedOf(world, batch, n)| <= n
    ensures forall k :: k in SkippedOf(world, batch, n) ==> k < n
  {
    if n > 0 {
      AccountBounds(world, batch, n - 1);
    }
  }

  /** When the two lists together are as long as the batch, every index is accounted for exactly once: skipped as a
      duplicate whose holder was found, or created. */
  lemma {:induction false} SkippedIffDuplicate(world: seq<Moments>, batch: seq<NewJob>, n: nat, k: nat)
    requires k < n <= |batch| == |world|
    requires |CreatedOf(world, batch, n)| + |SkippedOf(world, batch, n)| == n
    ensures k in SkippedOf(world, batch, n) <==> OutcomeOf(world[k].insert, batch[k]).Duplicate?
    ensures k !in SkippedOf(world, batch, n) <==> OutcomeOf(world[k].insert, batch[k]).Created?
  {
    AccountBounds(world, batch, n - 1);
    if k < n - 1 {
      SkippedIffDuplicate(world, batch, n - 1, k);
    }
  }

  // ---- a batch along a run

  /** The k-th item is step at[k] of the run and looks up in state look[k]; anything may happen in between. */
  ghost predicate BatchOfRun(dbs: seq<DB>, steps: seq<Step>, at: seq<nat>, look: seq<nat>, world: seq<Moments>,
                             batch: seq<NewJob>)
    requires |dbs| == |steps| + 1
  {
    && |at| == |look| == |world| == |batch|
    && (forall k :: 0 <= k < |at| ==> at[k] < |steps| && steps[at[k]] == InsertJob(batch[k]))
    && (forall k :: 0 <= k < |at| ==> at[k] <= look[k] < |dbs|)
    && (forall k :: 0 <= k < |at| ==> world[k].insert == dbs[at[k]] && world[k].lookup == dbs[look[k]])
    && (forall j, k :: 0 <= j < k < |at| ==> at[j] < at[k] && look[j] <= at[k])
  }

  lemma LandedHolds(db: DB, a: NewJob, key: Key)
    requires OutcomeOf(db, a).Created? && a.dedupe == Some(key) && a.status.Queued?
    ensures db.nextId in Insert(db, a).jobs && Holds(Insert(db, a).jobs[db.nextId], a.queue, key)
    ensures Insert(db, a).nextId == db.nextId + 1
  {}

  /** A repeat within a batch whose first item landed: it is a duplicate exactly if the first item's job still holds
      the key when the repeat's turn comes, or another job has taken it; in the first case nobody else holds it. */
  lemma RepeatInBatch(dbs: seq<DB>, steps: seq<Step>, at: seq<nat>, look: seq<nat>, world: seq<Moments>,
                      batch: seq<NewJob>, y: nat, k: nat)
    requires IsRun(dbs, steps) && BatchOfRun(dbs, steps, at, look, world, batch) && y < k < |batch|
    requires batch[y].dedupe.Some? && batch[k].dedupe == batch[y].dedupe && batch[k].queue == batch[y].queue
    requires batch[y].status.Queued? && VerdictOf(world[y], batch[y]).Landed?
    requires 0 <= batch[k].priority <= 9 && batch[k].queue in world[k].insert.queues
    ensures var h, db := world[y].insert.nextId, world[k].insert;
            var other := HeldByOther(db, h, batch[k].queue, batch[k].dedupe.value);
            && (OutcomeOf(db, batch[k]).Duplicate? <==> !Released(db, h) || other)
            && (OutcomeOf(db, batch[k]).Created? <==> Released(db, h) && !other)
            && (!Released(db, h) ==> !other)
  {
    var h := dbs[at[y]].nextId;
    LandedHolds(dbs[at[y]], batch[y], batch[y].dedupe.value);
    assert dbs[at[y] + 1] == Insert(dbs[at[y]], batch[y]);
    RepeatIsCreatedIffReleased(dbs, steps, at[y] + 1, at[k], h, batch[k]);
    KeyLater(dbs, steps, at[y] + 1, at[k], h, batch[k].queue, batch[k].dedupe.value);
  }

  lemma LandedRaisesIds(dbs: seq<DB>, steps: seq<Step>, p: nat, m: nat, a: NewJob)
    requires IsRun(dbs, steps) && p < m < |dbs| && steps[p] == InsertJob(a) && OutcomeOf(dbs[p], a).Created?
    ensures dbs[p].nextId < dbs[m].nextId
  {
    RunOfJob(dbs, steps, 0);
    NowGrows(dbs, steps, 0, p + 1, m);
    assert dbs[p + 1] == Insert(dbs[p], a);
  }

  /** Every landed item's identifier lies below those of the items after it. */
  ghost predicate IdsRise(world: seq<Moments>, batch: seq<NewJob>)
    requires |world| == |batch|
  {
    forall j, k :: 0 <= j < k < |batch| && VerdictOf(world[j], batch[j]).Landed? ==>
      world[j].insert.nextId < world[k].insert.nextId
  }

  lemma {:induction false} RisingIdsAreDistinct(world: seq<Moments>, batch: seq<NewJob>, n: nat)
    requires n <= |batch| == |world| && IdsRise(world, batch)
    ensures forall i, k :: i in CreatedOf(world, batch, n) && n <= k < |batch| ==> i < world[k].insert.nextId
    ensures NoDup(CreatedOf(world, batch, n))
  {
    if n > 0 {
      RisingIdsAreDistinct(world, batch, n - 1);
      assert world[n - 1].insert.nextId !in CreatedOf(world, batch, n - 1);
    }
  }

  /** No two items of a batch are created under one identifier, whatever happens between them. */
  lemma CreatedAreDistinct(dbs: seq<DB>, steps: seq<Step>, at: seq<nat>, look: seq<nat>, world: seq<Moments>,
                           batch: seq<NewJob>)
    requires IsRun(dbs, steps) && BatchOfRun(dbs, steps, at, look, world, batch)
    ensures NoDup(CreatedOf(world, batch, |batch|))
  {
    forall j, k | 0 <= j < k < |batch| && VerdictOf(world[j], batch[j]).Landed?
      ensures world[j].insert.nextId < world[k].insert.nextId
    {
      LandedRaisesIds(dbs, steps, at[j], at[k], batch[j]);
    }
    RisingIdsAreDistinct(world, batch, |batch|);
  }

  // ---- when nothing else touches the key

  /** Some item before the k-th asks for the key. */
  predicate Repeats(batch: seq<NewJob>, k: nat, key: Option<Key>)
    requires k <= |batch|
  {
    exists y: nat :: y < k && batch[y].dedupe == key
  }

  ghost predicate PlainBatch(batch: seq<NewJob>, q: Id) {
    forall k :: 0 <= k < |batch| ==> batch[k].queue == q && batch[k].status.Queued? && 0 <= batch[k].priority <= 9
  }

  /** From one item to the next, up to the k-th, nobody takes or releases the key. */
  ghost predicate KeyQuiet(dbs: seq<DB>, at: seq<nat>, k: nat, q: Id, key: Key)
    requires k < |at| && forall y :: 0 <= y < |at| ==> at[y] + 1 < |dbs|
  {
    forall y :: 0 <= y < k ==>
      (KeyConflict(dbs[at[y] + 1], q, Some(key)) <==> KeyConflict(dbs[at[y + 1]], q, Some(key)))
  }

  lemma InsertTakesKey(db: DB, a: NewJob, key: Key)
    requires TablesOk(db) && a.queue in db.queues && a.status.Queued? && 0 <= a.priority <= 9
    ensures KeyConflict(Insert(db, a), a.queue, Some(key)) <==>
              KeyConflict(db, a.queue, Some(key)) || a.dedupe == Some(key)
  {
    var e := Insert(db, a);
    if OutcomeOf(db, a).Created? {
      assert db.nextId !in db.jobs && e.jobs == db.jobs[db.nextId := FreshJob(db, a)];
      assert Holds(e.jobs[db.nextId], a.queue, key) <==> a.dedupe == Some(key);
      assert forall i :: i in db.jobs ==> e.jobs[i] == db.jobs[i];
    }
  }

  lemma TablesAt(dbs: seq<DB>, steps: seq<Step>, k: nat)
    requires IsRun(dbs, steps) && k < |dbs|
    ensures TablesOk(dbs[k])
  {
    RunInv(dbs, steps, k);
  }

  lemma InsertedAt(dbs: seq<DB>, steps: seq<Step>, p: nat, a: NewJob)
    requires IsRun(dbs, steps) && p < |steps| && steps[p] == InsertJob(a)
    ensures dbs[p + 1] == Insert(dbs[p], a)
  {
    assert Enabled(dbs[p], steps[p]) && dbs[p + 1] == Apply(dbs[p], steps[p]);
  }

  lemma ItemTakesKey(dbs: seq<DB>, steps: seq<Step>, p: nat, a: NewJob, key: Key)
    requires IsRun(dbs, steps) && p < |steps| && steps[p] == InsertJob(a)
    requires a.queue in dbs[p].queues && a.status.Queued? && 0 <= a.priority <= 9
    ensures KeyConflict(dbs[p + 1], a.queue, Some(key)) <==>
              KeyConflict(dbs[p], a.queue, Some(key)) || a.dedupe == Some(key)
  {
    TablesAt(dbs, steps, p);
    InsertedAt(dbs, steps, p, a);
    InsertTakesKey(dbs[p], a, key);
  }

  /** The first k items take the keys they ask for, and nobody else touches this one. */
  ghost predicate KeyFlow(dbs: seq<DB>, at: seq<nat>, batch: seq<NewJob>, k: nat, q: Id, key: Key)
    requires k < |at| == |batch| && forall y :: 0 <= y < |at| ==> at[y] + 1 < |dbs|
  {
    forall y :: 0 <= y < k ==>
      (KeyConflict(dbs[at[y + 1]], q, Some(key)) <==>
          KeyConflict(dbs[at[y]], q, Some(key)) || batch[y].dedupe == Some(key))
  }

  lemma {:induction false} KeysAfter(dbs: seq<DB>, at: seq<nat>, batch: seq<NewJob>, q: Id, k: nat, key: Key)
    requires k < |at| == |batch| && (forall y :: 0 <= y < |at| ==> at[y] + 1 < |dbs|)
    requires KeyFlow(dbs, at, batch, k, q, key)
    ensures KeyConflict(dbs[at[k]], q, Some(key)) <==>
              KeyConflict(dbs[at[0]], q, Some(key)) || Repeats(batch, k, Some(key))
  {
    if k > 0 {
      KeysAfter(dbs, at, batch, q, k - 1, key);
      assert Repeats(batch, k, Some(key)) <==> Repeats(batch, k - 1, Some(key)) || batch[k - 1].dedupe == Some(key);
    }
  }

  /** While nobody else takes or releases its key, an item is a duplicate exactly if the key was held before the batch
      or an earlier item asked for it. */
  lemma DuplicateIffHeldOrRepeated(dbs: seq<DB>, steps: seq<Step>, at: seq<nat>, look: seq<nat>, world: seq<Moments>,
                                   batch: seq<NewJob>, q: Id, k: nat)
    requires IsRun(dbs, steps) && BatchOfRun(dbs, steps, at, look, world, batch) && k < |batch| && PlainBatch(batch, q)
    requires batch[k].dedupe.Some? ==> KeyQuiet(dbs, at, k, q, batch[k].dedupe.value)
    requires forall y :: 0 <= y <= k ==> q in dbs[at[y]].queues
    ensures OutcomeOf(dbs[at[k]], batch[k]) in {Created, Duplicate}
    ensures OutcomeOf(dbs[at[k]], batch[k]).Duplicate? <==>
              batch[k].dedupe.Some?
              && (KeyConflict(dbs[at[0]], q, batch[k].dedupe) || Repeats(batch, k, batch[k].dedupe))
  {
    if batch[k].dedupe.Some? {
      var key := batch[k].dedupe.value;
      forall y | 0 <= y < k
        ensures KeyConflict(dbs[at[y] + 1], q, Some(key)) <==>
                  KeyConflict(dbs[at[y]], q, Some(key)) || batch[y].dedupe == Some(key)
      {
        ItemTakesKey(dbs, steps, at[y], batch[y], key);
      }
      KeysAfter(dbs, at, batch, q, k, key);
    }
  }
}
