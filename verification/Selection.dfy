/** Which jobs a claim takes, read off their columns. */
module Selection {
  import opened Common
  import opened Lifecycle
  import opened Model
  import opened Rows
  import opened Database
  import opened Steps
  import opened Runs
  import opened Guarantees
  import opened Updates

  /** A row that a claim of the queue may take: queued, its time has come, and no other transaction has it locked. */
  predicate Available(db: DB, q: Id, locked: set<Id>, i: Id) {
    && i in db.jobs && i !in locked
    && db.jobs[i].spec.queue == q && db.jobs[i].status == Queued && db.jobs[i].runAt <= db.now
  }

  /** Job a is served no later than job b: higher priority first, then the earlier run time, then the older row. */
  ghost predicate ServedFirst(a: Job, b: Job) {
    && b.spec.priority <= a.spec.priority
    && (b.spec.priority == a.spec.priority ==> a.runAt <= b.runAt)
    && (b.spec.priority == a.spec.priority && a.runAt == b.runAt ==> a.spec.createdAt <= b.spec.createdAt)
  }

  /** Everything picked is available, and is served no later than anything available that is left. */
  ghost predicate ServedInOrder(db: DB, q: Id, locked: set<Id>, picked: seq<Id>) {
    && (forall i :: i in picked ==> Available(db, q, locked, i))
    && (forall i, j :: i in picked && j !in picked && Available(db, q, locked, j) ==>
          i in db.jobs && ServedFirst(db.jobs[i], db.jobs[j]))
  }

  lemma OutrankedIsServedLater(a: Job, b: Job)
    ensures !Outranks(b, a) <==> ServedFirst(a, b)
  {}

  lemma AvailableIsEligible(db: DB, q: Id, locked: set<Id>, i: Id)
    ensures Available(db, q, locked, i) <==> i in Eligible(db, q) - locked
  {}

  /** A claim serves in order. */
  lemma PickIsServedInOrder(db: DB, q: Id, localFree: int, cap: int, locked: set<Id>, picked: seq<Id>)
    requires ValidPick(db, q, localFree, cap, locked, picked)
    ensures ServedInOrder(db, q, locked, picked)
  {
    forall i | i in picked ensures Available(db, q, locked, i) {
      AvailableIsEligible(db, q, locked, i);
    }
    forall i, j | i in picked && j !in picked && Available(db, q, locked, j)
      ensures i in db.jobs && ServedFirst(db.jobs[i], db.jobs[j])
    {
      AvailableIsEligible(db, q, locked, i);
      AvailableIsEligible(db, q, locked, j);
      OutrankedIsServedLater(db.jobs[i], db.jobs[j]);
    }
  }

  /** An available job whose priority is above that of every other available one is in every pick that is not empty. */
  lemma TopPriorityIsPicked(db: DB, q: Id, localFree: int, cap: int, locked: set<Id>, picked: seq<Id>, top: Id)
    requires ValidPick(db, q, localFree, cap, locked, picked) && picked != []
    requires Available(db, q, locked, top)
    requires forall i :: i != top && Available(db, q, locked, i) ==>
               db.jobs[i].spec.priority < db.jobs[top].spec.priority
    ensures top in picked
  {
    PickIsServedInOrder(db, q, localFree, cap, locked, picked);
    assert picked[0] in picked;
  }

  /** Of two available jobs that differ in rank, a claim never takes only the one that is served later. */
  lemma NoOvertaking(db: DB, q: Id, localFree: int, cap: int, locked: set<Id>, picked: seq<Id>, i: Id, j: Id)
    requires ValidPick(db, q, localFree, cap, locked, picked)
    requires Available(db, q, locked, i) && Available(db, q, locked, j) && !ServedFirst(db.jobs[j], db.jobs[i])
    ensures j in picked ==> i in picked
  {
    PickIsServedInOrder(db, q, localFree, cap, locked, picked);
  }

  // ---- a manual retry

  /** What a manual retry leaves of a job: waiting from this instant on, unlocked, with a clean record. */
  predicate FreshlyRetried(j: Job, k: Job, now: int) {
    && k.status == Queued && k.runAt == now && k.lockedBy.None? && k.lockedUntil.None?
    && k.lastError.None? && k.deathReason.None?
    && k.spec == j.spec && k.attempts == j.attempts && k.maxAttempts == j.attempts + 3 && k.durationMs == j.durationMs
  }

  lemma RetryIsDo(db: DB, i: Id)
    requires !KeyTaken(db, i)
    ensures Apply(db, RetryJob(i)) == Do(db, i, Retry)
  {
    OneJobTransact(db, i, Retry);
  }

  lemma RetriedRow(r: Row, now: int)
    requires RowOk(r) && Legal(r, Retry, now)
    ensures var s := After(r, Retry, now); FreshlyRetried(r.job, s.job, now) && s.execs == r.execs && s.dlq.None?
  {}

  lemma RetriedTables(db: DB, e: DB, i: Id)
    requires i in db.jobs && RowOk(View(db, i)) && Legal(View(db, i), Retry, db.now) && e == Do(db, i, Retry)
    ensures i in e.jobs && e.now == db.now && FreshlyRetried(db.jobs[i], e.jobs[i], db.now)
    ensures View(e, i).execs == View(db, i).execs && i !in e.dlq
  {
    RetriedRow(View(db, i), db.now);
    DoView(db, i, Retry);
    assert View(e, i).job == e.jobs[i] && View(e, i).dlq.None?;
  }

  /** A retry that the dedupe index lets through makes the job available at that very instant, ahead of any backoff,
      with its executions kept and no dead-letter row. */
  lemma RetriedIsAvailable(db: DB, i: Id)
    requires Inv(db) && i in db.jobs && db.jobs[i].status in {Dead, Retrying} && !KeyTaken(db, i)
    ensures var e := Apply(db, RetryJob(i));
            && i in e.jobs && FreshlyRetried(db.jobs[i], e.jobs[i], db.now) && e.now == db.now
            && Available(e, db.jobs[i].spec.queue, {}, i)
            && View(e, i).execs == View(db, i).execs && i !in e.dlq
  {
    JobIssued(db, i);
    RetryIsDo(db, i);
    RetriedTables(db, Do(db, i, Retry), i);
  }

  lemma SameRunning(db: DB, e: DB, i: Id, q: Id)
    requires SameFrame(db, e) && i in db.jobs && !db.jobs[i].status.Running? && !e.jobs[i].status.Running?
    requires forall j :: j in db.jobs && j != i ==> View(e, j) == View(db, j)
    ensures Members(e.jobs, q, Running) == Members(db.jobs, q, Running)
  {
    forall j | j in db.jobs && j != i ensures e.jobs[j] == db.jobs[j] {
      assert View(e, j).job == e.jobs[j];
    }
  }

  /** A claim that finds one job free and has room for one may take exactly that job. */
  lemma CanTake(db: DB, q: Id, w: Id, lease: nat, i: Id)
    requires Available(db, q, {}, i) && q in db.queues && !db.queues[q].paused
    requires Count(db.jobs, q, Running) < db.queues[q].limit
    ensures Enabled(db, ClaimJobs(q, w, 1, lease, 1, Eligible(db, q) - {i}, [i]))
  {
    var locked := Eligible(db, q) - {i};
    assert Eligible(db, q) - locked == {i};
  }

  lemma RetryKeepsRoom(db: DB, e: DB, i: Id, q: Id)
    requires i in db.jobs && db.jobs[i].status in {Dead, Retrying} && e == Do(db, i, Retry) && q in db.queues
    ensures q in e.queues && SameConfig(db.queues[q], e.queues[q])
    ensures Count(e.jobs, q, Running) == Count(db.jobs, q, Running)
  {
    DoView(db, i, Retry);
    assert View(e, i).job == e.jobs[i];
    SameRunning(db, e, i, q);
  }

  /** With its queue open and a slot free, a claim at the instant of the retry takes the job. */
  lemma RetriedCanRunAtOnce(db: DB, i: Id, w: Id, lease: nat)
    requires Inv(db) && i in db.jobs && db.jobs[i].status in {Dead, Retrying} && !KeyTaken(db, i)
    requires var q := db.jobs[i].spec.queue;
             !db.queues[q].paused && Count(db.jobs, q, Running) < db.queues[q].limit
    ensures var q, e := db.jobs[i].spec.queue, Apply(db, RetryJob(i));
            var claim := ClaimJobs(q, w, 1, lease, 1, Eligible(e, q) - {i}, [i]);
            Enabled(e, claim) && Acts(e, claim, i)
  {
    var q := db.jobs[i].spec.queue;
    RetryIsDo(db, i);
    RetriedIsAvailable(db, i);
    RetryKeepsRoom(db, Do(db, i, Retry), i, q);
    DoneKeepsInv(db, i);
    CanTake(Do(db, i, Retry), q, w, lease, i);
    NotRefused(Do(db, i, Retry), q, w, lease, i);
    var e := Do(db, i, Retry);
    ClaimReaches(e, q, w, lease, i, ClaimJobs(q, w, 1, lease, 1, Eligible(e, q) - {i}, [i]));
  }

  lemma DoneKeepsInv(db: DB, i: Id)
    requires Inv(db) && !KeyTaken(db, i)
    ensures Inv(Do(db, i, Retry))
  {
    DoKeepsInv(db, i, Retry);
  }

  lemma NotRefused(e: DB, q: Id, w: Id, lease: nat, i: Id)
    requires Inv(e) && Available(e, q, {}, i)
    ensures !Refused(e, Work([i], Claim(w, lease)))
  {
    ClaimNeverRefused(e, w, lease, [i]);
  }

  lemma ClaimReaches(e: DB, q: Id, w: Id, lease: nat, i: Id, step: Step)
    requires Available(e, q, {}, i) && !Refused(e, Work([i], Claim(w, lease)))
    requires WorkOf(step) == Some(Work([i], Claim(w, lease)))
    ensures Acts(e, step, i)
  {
    assert i in [i];
  }
}
