/** No job can get stuck: from every good state there is a schedule of ordinary steps that finishes every job. */
module Drain {
  import opened Common
  import opened Lifecycle
  import opened Model
  import opened Rows
  import opened Database
  import opened Steps
  import opened Invariant
  import opened Guarantees
  import opened Admission

  // ---- schedules

  function RunSteps(db: DB, steps: seq<Step>): DB
    decreases |steps|
  {
    if |steps| == 0 then db else RunSteps(Apply(db, steps[0]), steps[1..])
  }

  ghost predicate CanRun(db: DB, steps: seq<Step>)
    decreases |steps|
  {
    |steps| == 0 || (Enabled(db, steps[0]) && CanRun(Apply(db, steps[0]), steps[1..]))
  }

  lemma {:induction false} RunThen(db: DB, a: seq<Step>, b: seq<Step>)
    requires CanRun(db, a) && CanRun(RunSteps(db, a), b)
    ensures CanRun(db, a + b) && RunSteps(db, a + b) == RunSteps(RunSteps(db, a), b)
    decreases |a|
  {
    if |a| == 0 {
      assert a + b == b;
    } else {
      assert (a + b)[0] == a[0] && (a + b)[1..] == a[1..] + b;
      RunThen(Apply(db, a[0]), a[1..], b);
    }
  }

  lemma RunOne(db: DB, a: Step)
    requires Enabled(db, a)
    ensures CanRun(db, [a]) && RunSteps(db, [a]) == Apply(db, a)
  {
    assert [a][1..] == [];
    assert RunSteps(Apply(db, a), []) == Apply(db, a);
    assert CanRun(Apply(db, a), []);
  }

  /** The steps that a schedule needs: no manual retry, no insert, nothing but the system at work. */
  predicate Ordinary(s: Step) {
    s.Tick? || s.CompleteJob? || s.ReclaimStuck? || s.PromoteDue? || s.ClaimJobs?
  }

  ghost predicate Schedules(db: DB, steps: seq<Step>, e: DB) {
    CanRun(db, steps) && RunSteps(db, steps) == e && forall s :: s in steps ==> Ordinary(s)
  }

  ghost predicate Reaches(db: DB, e: DB) {
    exists steps :: Schedules(db, steps, e)
  }

  lemma ReachInOne(db: DB, step: Step, e: DB)
    requires Enabled(db, step) && Ordinary(step) && e == Apply(db, step)
    ensures Reaches(db, e)
  {
    RunOne(db, step);
    assert Schedules(db, [step], e);
  }

  lemma ReachOn(a: DB, b: DB, c: DB)
    requires Reaches(a, b) && Reaches(b, c)
    ensures Reaches(a, c)
  {
    var x :| Schedules(a, x, b);
    var y :| Schedules(b, y, c);
    RunThen(a, x, y);
    assert Schedules(a, x + y, c);
  }

  lemma {:induction false} RunStepsInv(db: DB, steps: seq<Step>)
    requires Inv(db) && CanRun(db, steps)
    ensures Inv(RunSteps(db, steps))
    decreases |steps|
  {
    if |steps| > 0 {
      StepKeepsInv(db, steps[0]);
      RunStepsInv(Apply(db, steps[0]), steps[1..]);
    }
  }

  lemma ReachedInv(db: DB, e: DB)
    requires Inv(db) && Reaches(db, e)
    ensures Inv(e)
  {
    var steps :| Schedules(db, steps, e);
    RunStepsInv(db, steps);
  }

  // ---- the steps used, as operations

  lemma ReachTick(db: DB, to: int)
    requires to >= db.now
    ensures Reaches(db, db.(now := to))
  {
    ReachInOne(db, Tick(to), db.(now := to));
  }

  lemma ReachComplete(db: DB, i: Id, w: Id)
    ensures Reaches(db, Do(db, i, Complete(w, 0)))
  {
    OneJobBatch(db, i, Complete(w, 0));
    ReachInOne(db, CompleteJob(i, w, 0), Do(db, i, Complete(w, 0)));
  }

  lemma ReachReclaim(db: DB, ids: seq<Id>)
    requires NoDup(ids) && Elems(ids) == StuckJobs(db)
    ensures Reaches(db, DoAll(db, ids, Reclaim))
  {
    assert StuckJobs(db) - {} == StuckJobs(db);
    ReachInOne(db, ReclaimStuck(ids, {}), DoAll(db, ids, Reclaim));
  }

  lemma ReachPromote(db: DB, ids: seq<Id>)
    requires NoDup(ids) && Elems(ids) == Due(db)
    ensures Reaches(db, DoAll(db, ids, Promote))
  {
    ReachInOne(db, PromoteDue(ids), DoAll(db, ids, Promote));
  }

  lemma ClaimTurn(db: DB, q: Id, p: Id)
    requires !Refused(db, Work([p], Claim(0, 30)))
    ensures Apply(db, ClaimJobs(q, 0, 1, 30, 20, {}, [p])) == Do(db, p, Claim(0, 30))
  {
    OneJobBatch(db, p, Claim(0, 30));
  }

  lemma PickedIsQueued(db: DB, q: Id, p: Id)
    requires Inv(db) && ValidPick(db, q, 1, 20, {}, [p])
    ensures !Refused(db, Work([p], Claim(0, 30)))
  {
    assert p in [p] && p in Eligible(db, q) - {};
    ClaimNeverRefused(db, 0, 30, [p]);
  }

  /** States are reached from a good origin; what holds there is recalled only where it is needed. */
  ghost predicate From(origin: DB, db: DB) {
    Inv(origin) && Reaches(origin, db)
  }

  lemma FromOn(origin: DB, db: DB, e: DB)
    requires From(origin, db) && Reaches(db, e)
    ensures From(origin, e)
  {
    ReachOn(origin, db, e);
  }

  lemma ReachClaim(origin: DB, db: DB, q: Id, p: Id)
    requires From(origin, db) && ValidPick(db, q, 1, 20, {}, [p])
    ensures Reaches(db, Do(db, p, Claim(0, 30)))
  {
    assert !Refused(db, Work([p], Claim(0, 30))) by {
      ReachedInv(origin, db);
      PickedIsQueued(db, q, p);
    }
    ClaimTurn(db, q, p);
    ReachInOne(db, ClaimJobs(q, 0, 1, 30, 20, {}, [p]), Do(db, p, Claim(0, 30)));
  }

  // ---- where a job ends

  predicate LiveLease(j: Job, now: int) {
    j.status.Running? && j.lockedBy.Some? && j.lockedUntil.Some? && j.lockedUntil.value > now
  }

  /** Where a job ends if nothing fails from now on: completed, unless it is finished already or runs its last
      attempt under a lost lease. */
  function Fate(j: Job, now: int): Status {
    if j.status in {Queued, Scheduled, Retrying} then Completed
    else if j.status.Running? then
      if LiveLease(j, now) || j.attempts < j.maxAttempts then Completed else Dead
    else j.status
  }

  function Unfinished(db: DB): set<Id> {
    set i | i in db.jobs && !IsTerminal(db.jobs[i].status)
  }

  function RunningJobs(db: DB): set<Id> {
    set i | i in db.jobs && db.jobs[i].status.Running?
  }

  function WaitingJobs(db: DB): set<Id> {
    set i | i in db.jobs && db.jobs[i].status in {Scheduled, Retrying}
  }

  ghost predicate Open(db: DB) {
    forall q :: q in db.queues ==> !db.queues[q].paused
  }

  ghost predicate NoLiveLease(db: DB) {
    forall i :: i in db.jobs ==> !LiveLease(db.jobs[i], db.now)
  }

  /** Same jobs, each with the same end in store, and queues still open. */
  ghost predicate OnCourse(db: DB, e: DB) {
    && (Open(db) ==> Open(e)) && e.jobs.Keys == db.jobs.Keys
    && (forall i :: i in db.jobs ==> Fate(e.jobs[i], e.now) == Fate(db.jobs[i], db.now))
  }

  lemma OnCourseTransitive(a: DB, b: DB, c: DB)
    requires OnCourse(a, b) && OnCourse(b, c)
    ensures OnCourse(a, c)
  {}

  lemma FrameStaysOpen(db: DB, e: DB)
    requires SameFrame(db, e)
    ensures Open(db) ==> Open(e)
  {
    if Open(db) {
      forall q | q in e.queues ensures !e.queues[q].paused {
        assert SameConfig(db.queues[q], e.queues[q]);
      }
    }
  }

  lemma NothingRunsNoLease(db: DB)
    requires RunningJobs(db) == {}
    ensures NoLiveLease(db)
  {
    forall j | j in db.jobs ensures !LiveLease(db.jobs[j], db.now) {
      assert j !in RunningJobs(db);
    }
  }

  /** Time does not change what is in store for jobs whose lease is lost. */
  lemma TickOnCourse(db: DB, to: int)
    requires to >= db.now && NoLiveLease(db)
    ensures OnCourse(db, db.(now := to)) && NoLiveLease(db.(now := to))
  {
    var e := db.(now := to);
    forall i | i in db.jobs
      ensures Fate(e.jobs[i], e.now) == Fate(db.jobs[i], db.now) && !LiveLease(e.jobs[i], e.now)
    {
      assert !LiveLease(db.jobs[i], db.now);
    }
  }

  lemma {:induction false} Enumerate(s: set<Id>) returns (ids: seq<Id>)
    ensures NoDup(ids) && Elems(ids) == s
  {
    if s == {} {
      ids := [];
    } else {
      var i :| i in s;
      var rest := Enumerate(s - {i});
      assert forall x :: x in rest ==> x in Elems(rest);
      ids := rest + [i];
      assert Elems(ids) == Elems(rest) + {i};
    }
  }

  // ---- a job with a live lease completes

  lemma DoJob(db: DB, i: Id, op: Op, j: Id)
    requires i in db.jobs && Legal(View(db, i), op, db.now) && j in db.jobs
    ensures var e := Do(db, i, op);
            && e.jobs.Keys == db.jobs.Keys && e.now == db.now && (Open(db) ==> Open(e))
            && e.jobs[j] == if j == i then After(View(db, i), op, db.now).job else db.jobs[j]
  {
    DoView(db, i, op);
    FrameStaysOpen(db, Do(db, i, op));
    assert View(Do(db, i, op), j).job == Do(db, i, op).jobs[j];
  }

  lemma CompleteLive(db: DB, i: Id) returns (e: DB)
    requires i in db.jobs && LiveLease(db.jobs[i], db.now)
    ensures Reaches(db, e) && OnCourse(db, e) && Unfinished(e) < Unfinished(db)
  {
    var w := db.jobs[i].lockedBy.value;
    e := Do(db, i, Complete(w, 0));
    ReachComplete(db, i, w);
    DoJob(db, i, Complete(w, 0), i);
    forall j | j in db.jobs
      ensures e.jobs[j] == if j == i then After(View(db, i), Complete(w, 0), db.now).job else db.jobs[j]
    {
      DoJob(db, i, Complete(w, 0), j);
    }
    assert i in Unfinished(db) && i !in Unfinished(e);
  }

  // ---- jobs whose lease is lost are reclaimed

  lemma LostIsStuckNextInstant(r: Row, now: int)
    requires RowOk(r) && !LiveLease(r.job, now)
    ensures Stuck(r.job, now + 1) <==> r.job.status.Running?
  {}

  lemma ReclaimedOnCourse(r: Row, now: int)
    requires RowOk(r) && Stuck(r.job, now) && !LiveLease(r.job, now)
    ensures var s := After(r, Reclaim, now).job; Fate(s, now) == Fate(r.job, now) && !s.status.Running?
  {}

  lemma BatchedJob(db: DB, ids: seq<Id>, op: Op, j: Id)
    requires NoDup(ids) && j in db.jobs
    ensures var e := DoAll(db, ids, op);
            && e.jobs.Keys == db.jobs.Keys && e.now == db.now && (Open(db) ==> Open(e))
            && e.jobs[j] == BatchRow(db, ids, op, j).job
  {
    DoAllView(db, ids, op);
    FrameStaysOpen(db, DoAll(db, ids, op));
    assert View(DoAll(db, ids, op), j).job == DoAll(db, ids, op).jobs[j];
  }

  lemma ReclaimBatchJob(db: DB, ids: seq<Id>, j: Id)
    requires NoDup(ids) && Elems(ids) == StuckJobs(db) && j in db.jobs && RowOk(View(db, j))
    requires !LiveLease(db.jobs[j], db.now) && (db.jobs[j].status.Running? ==> j in StuckJobs(db))
    ensures var t := BatchRow(db, ids, Reclaim, j).job;
            && Fate(t, db.now) == Fate(db.jobs[j], db.now) && !t.status.Running?
            && (IsTerminal(db.jobs[j].status) ==> t == db.jobs[j])
  {
    assert j in ids <==> j in Elems(ids);
    if j in ids {
      ReclaimedOnCourse(View(db, j), db.now);
    }
  }

  lemma ReclaimBatch(db: DB, ids: seq<Id>)
    requires RowsOk(db) && NoDup(ids) && Elems(ids) == StuckJobs(db) == RunningJobs(db) && NoLiveLease(db)
    ensures var e := DoAll(db, ids, Reclaim);
            OnCourse(db, e) && RunningJobs(e) == {} && Unfinished(e) <= Unfinished(db)
  {
    var e := DoAll(db, ids, Reclaim);
    DoAllView(db, ids, Reclaim);
    FrameStaysOpen(db, e);
    forall j | j in db.jobs
      ensures Fate(e.jobs[j], e.now) == Fate(db.jobs[j], db.now) && !e.jobs[j].status.Running?
      ensures IsTerminal(db.jobs[j].status) ==> e.jobs[j] == db.jobs[j]
    {
      BatchedJob(db, ids, Reclaim, j);
      assert db.jobs[j].status.Running? ==> j in RunningJobs(db);
      assert RowOk(View(db, j));
      ReclaimBatchJob(db, ids, j);
    }
  }

  lemma LostAreStuck(db: DB)
    requires RowsOk(db) && NoLiveLease(db)
    ensures StuckJobs(db.(now := db.now + 1)) == RunningJobs(db)
    ensures RowsOk(db.(now := db.now + 1))
  {
    var t := db.(now := db.now + 1);
    forall i | i in db.jobs ensures (i in StuckJobs(t) <==> i in RunningJobs(db)) && RowOk(View(t, i)) {
      assert RowOk(View(db, i)) && View(t, i) == View(db, i);
      LostIsStuckNextInstant(View(db, i), db.now);
    }
  }

  lemma ReclaimLost(origin: DB, db: DB) returns (e: DB)
    requires From(origin, db) && NoLiveLease(db)
    ensures Reaches(db, e) && OnCourse(db, e) && RunningJobs(e) == {} && Unfinished(e) <= Unfinished(db)
  {
    var t := db.(now := db.now + 1);
    ReachTick(db, db.now + 1);
    TickOnCourse(db, db.now + 1);
    assert RowsOk(db) by { ReachedInv(origin, db); }
    LostAreStuck(db);
    var ids := Enumerate(StuckJobs(t));
    e := DoAll(t, ids, Reclaim);
    ReachReclaim(t, ids);
    ReachOn(db, t, e);
    assert RunningJobs(t) == RunningJobs(db) && Unfinished(t) == Unfinished(db);
    ReclaimBatch(t, ids);
    OnCourseTransitive(db, t, e);
  }

  // ---- waiting jobs are promoted

  lemma PromoteBatchJob(db: DB, ids: seq<Id>, j: Id)
    requires NoDup(ids) && Elems(ids) == Due(db) && j in db.jobs
    ensures DoAll(db, ids, Promote).jobs.Keys == db.jobs.Keys
    ensures DoAll(db, ids, Promote).jobs[j] == if j in Due(db) then db.jobs[j].(status := Queued) else db.jobs[j]
  {
    BatchedJob(db, ids, Promote, j);
    assert j in ids <==> j in Elems(ids);
  }

  /** Every due job queued and the rest as they were. */
  ghost predicate DuePromoted(db: DB, e: DB) {
    && e.now == db.now && e.jobs.Keys == db.jobs.Keys && (Open(db) ==> Open(e))
    && (forall j :: j in db.jobs ==> e.jobs[j] == if j in Due(db) then db.jobs[j].(status := Queued) else db.jobs[j])
  }

  lemma DuePromotedOnCourse(db: DB, e: DB, i: Id)
    requires DuePromoted(db, e) && i in Due(db)
    ensures OnCourse(db, e) && RunningJobs(e) == RunningJobs(db)
    ensures Unfinished(e) == Unfinished(db) && WaitingJobs(e) < WaitingJobs(db)
  {
    forall j | j in db.jobs ensures Fate(e.jobs[j], e.now) == Fate(db.jobs[j], db.now) {}
    assert i in WaitingJobs(db) && i !in WaitingJobs(e);
  }

  lemma PromoteBatch(db: DB, ids: seq<Id>, i: Id)
    requires NoDup(ids) && Elems(ids) == Due(db) && i in Due(db)
    ensures var e := DoAll(db, ids, Promote);
            && OnCourse(db, e) && RunningJobs(e) == RunningJobs(db)
            && Unfinished(e) == Unfinished(db) && WaitingJobs(e) < WaitingJobs(db)
  {
    var e := DoAll(db, ids, Promote);
    BatchedJob(db, ids, Promote, i);
    forall j | j in db.jobs
      ensures e.jobs[j] == if j in Due(db) then db.jobs[j].(status := Queued) else db.jobs[j]
    {
      PromoteBatchJob(db, ids, j);
    }
    DuePromotedOnCourse(db, e, i);
  }

  lemma PromoteWaiting(db: DB, i: Id) returns (e: DB)
    requires RunningJobs(db) == {} && i in WaitingJobs(db)
    ensures Reaches(db, e) && OnCourse(db, e)
    ensures RunningJobs(e) == RunningJobs(db) && Unfinished(e) == Unfinished(db) && WaitingJobs(e) < WaitingJobs(db)
  {
    var to := Max(db.now, db.jobs[i].runAt);
    var t := db.(now := to);
    ReachTick(db, to);
    NothingRunsNoLease(db);
    TickOnCourse(db, to);
    var ids := Enumerate(Due(t));
    e := DoAll(t, ids, Promote);
    ReachPromote(t, ids);
    ReachOn(db, t, e);
    assert i in Due(t);
    PromoteBatch(t, ids, i);
    OnCourseTransitive(db, t, e);
    assert WaitingJobs(t) == WaitingJobs(db) && Unfinished(t) == Unfinished(db) && RunningJobs(t) == RunningJobs(db);
  }

  // ---- queued jobs are claimed and complete

  lemma RankTransitive(a: Job, b: Job, c: Job)
    requires !Outranks(a, b) && !Outranks(b, c)
    ensures !Outranks(a, c)
  {}

  ghost predicate BestIn(jobs: map<Id, Job>, s: set<Id>, p: Id) {
    p in s && p in jobs && forall i :: i in s && i in jobs ==> !Outranks(jobs[i], jobs[p])
  }

  lemma {:induction false} BestOf(jobs: map<Id, Job>, s: set<Id>) returns (p: Id)
    requires s != {} && s <= jobs.Keys
    ensures BestIn(jobs, s, p)
  {
    var i :| i in s;
    if s - {i} == {} {
      p := i;
      assert s == {i};
    } else {
      var b := BestOf(jobs, s - {i});
      p := if Outranks(jobs[i], jobs[b]) then i else b;
      forall j | j in s && j in jobs ensures !Outranks(jobs[j], jobs[p]) {
        if j != i && p == i { RankTransitive(jobs[j], jobs[b], jobs[i]); }
      }
    }
  }

  lemma NoneRunning(db: DB, q: Id)
    requires RunningJobs(db) == {}
    ensures Count(db.jobs, q, Running) == 0
  {
    forall i | i in db.jobs ensures i !in Members(db.jobs, q, Running) {
      assert i !in RunningJobs(db);
    }
    assert Members(db.jobs, q, Running) == {};
  }

  lemma OpenQueue(origin: DB, db: DB, p: Id, q: Id)
    requires From(origin, db) && Open(db) && p in Eligible(db, q)
    ensures q in db.queues && db.queues[q].limit >= 1 && !db.queues[q].paused
  {
    assert TablesOk(db) by { ReachedInv(origin, db); }
  }

  lemma ClaimBest(origin: DB, db: DB, q: Id, p: Id)
    requires From(origin, db) && Open(db) && RunningJobs(db) == {} && BestIn(db.jobs, Eligible(db, q), p)
    ensures ValidPick(db, q, 1, 20, {}, [p])
  {
    var avail := Eligible(db, q) - {};
    assert avail == Eligible(db, q);
    SubsetSize({p}, avail);
    NoneRunning(db, q);
    OpenQueue(origin, db, p, q);
    assert Quota(db, q, 1, 20, |avail|) == 1;
  }

  lemma ClaimedIsLive(j: Job, now: int)
    ensures LiveLease(ClaimJob(j, 0, 30, now), now)
  {}

  lemma ClaimOnCourse(db: DB, p: Id, q: Id)
    requires p in Eligible(db, q)
    ensures var m := Do(db, p, Claim(0, 30));
            && OnCourse(db, m) && Unfinished(m) == Unfinished(db)
            && p in m.jobs && LiveLease(m.jobs[p], m.now)
  {
    var m := Do(db, p, Claim(0, 30));
    forall j | j in db.jobs
      ensures m.jobs.Keys == db.jobs.Keys && m.now == db.now
      ensures m.jobs[j] == if j == p then ClaimJob(db.jobs[p], 0, 30, db.now) else db.jobs[j]
    {
      DoJob(db, p, Claim(0, 30), j);
    }
    ClaimedIsLive(db.jobs[p], db.now);
    DoJob(db, p, Claim(0, 30), p);
  }

  lemma ClaimAndComplete(origin: DB, db: DB, p: Id, q: Id) returns (e: DB)
    requires From(origin, db) && p in Eligible(db, q) && ValidPick(db, q, 1, 20, {}, [p])
    ensures Reaches(db, e) && OnCourse(db, e) && Unfinished(e) < Unfinished(db)
  {
    var m := Do(db, p, Claim(0, 30));
    ReachClaim(origin, db, q, p);
    ClaimOnCourse(db, p, q);
    e := CompleteLive(m, p);
    ReachOn(db, m, e);
    OnCourseTransitive(db, m, e);
  }

  lemma FinishOne(origin: DB, db: DB, i: Id) returns (e: DB)
    requires From(origin, db) && Open(db) && RunningJobs(db) == {} && i in db.jobs && db.jobs[i].status.Queued?
    ensures Reaches(db, e) && OnCourse(db, e) && Unfinished(e) < Unfinished(db)
  {
    var to, q := Max(db.now, db.jobs[i].runAt), db.jobs[i].spec.queue;
    var t := db.(now := to);
    ReachTick(db, to);
    FromOn(origin, db, t);
    NothingRunsNoLease(db);
    TickOnCourse(db, to);
    assert RunningJobs(t) == RunningJobs(db) && Unfinished(t) == Unfinished(db) && i in Eligible(t, q);
    var p := BestOf(t.jobs, Eligible(t, q));
    ClaimBest(origin, t, q, p);
    e := ClaimAndComplete(origin, t, p, q);
    ReachOn(db, t, e);
    OnCourseTransitive(db, t, e);
  }

  // ---- all of it

  ghost predicate Nearer(db: DB, e: DB) {
    && Unfinished(e) <= Unfinished(db)
    && (Unfinished(e) == Unfinished(db) ==> RunningJobs(e) <= RunningJobs(db))
    && (Unfinished(e) == Unfinished(db) && RunningJobs(e) == RunningJobs(db) ==> WaitingJobs(e) < WaitingJobs(db))
  }

  lemma NextMove(origin: DB, db: DB) returns (e: DB)
    requires From(origin, db) && Open(db) && Unfinished(db) != {}
    ensures Reaches(db, e) && OnCourse(db, e) && Nearer(db, e)
  {
    if i :| i in db.jobs && LiveLease(db.jobs[i], db.now) {
      e := CompleteLive(db, i);
    } else if RunningJobs(db) != {} {
      e := ReclaimLost(origin, db);
    } else if WaitingJobs(db) != {} {
      var i :| i in WaitingJobs(db);
      e := PromoteWaiting(db, i);
    } else {
      var i :| i in Unfinished(db);
      assert i !in RunningJobs(db) && i !in WaitingJobs(db);
      e := FinishOne(origin, db, i);
    }
  }

  lemma ReachHere(db: DB)
    ensures Reaches(db, db)
  {
    assert Schedules(db, [], db);
  }

  ghost predicate AllMet(db: DB, e: DB) {
    && e.jobs.Keys == db.jobs.Keys
    && forall i :: i in db.jobs ==> IsTerminal(e.jobs[i].status) && e.jobs[i].status == Fate(db.jobs[i], db.now)
  }

  lemma FinishedMet(db: DB)
    requires Unfinished(db) == {}
    ensures AllMet(db, db)
  {
    forall i | i in db.jobs ensures IsTerminal(db.jobs[i].status) {
      assert i !in Unfinished(db);
    }
  }

  lemma MetOnCourse(a: DB, b: DB, c: DB)
    requires OnCourse(a, b) && AllMet(b, c)
    ensures AllMet(a, c)
  {}

  lemma {:induction false} FinishAll(origin: DB, db: DB) returns (e: DB)
    requires From(origin, db) && Open(db)
    ensures Reaches(db, e) && AllMet(db, e)
    decreases Unfinished(db), RunningJobs(db), WaitingJobs(db)
  {
    if Unfinished(db) == {} {
      ReachHere(db);
      FinishedMet(db);
      e := db;
    } else {
      var m := NextMove(origin, db);
      FromOn(origin, db, m);
      e := FinishAll(origin, m);
      ReachOn(db, m, e);
      MetOnCourse(db, m, e);
    }
  }

  /** From every good state whose queues are open, and so from every such reachable state, ordinary steps lead to
      one where every job has met its fate: completed, unless it was finished before or ran its last attempt
      under a lost lease. */
  lemma EveryJobCanFinish(db: DB) returns (steps: seq<Step>)
    requires Inv(db) && Open(db)
    ensures CanRun(db, steps) && forall s :: s in steps ==> Ordinary(s)
    ensures AllMet(db, RunSteps(db, steps))
  {
    ReachHere(db);
    var e := FinishAll(db, db);
    steps :| Schedules(db, steps, e);
  }
}
