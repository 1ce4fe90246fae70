/** One tick of the maintenance loop: reclaim, promote, promote recurring, each its own transaction. */
module Maintenance {
  import opened Common
  import opened Lifecycle
  import opened Model
  import opened Database
  import opened Steps
  import opened Invariant
  import opened Runs
  import opened Batches
  import opened Cron
  import opened Updates
  import opened Store
  import opened Queries

  /** Nothing is stuck, waiting past its time, or due to fire. */
  ghost predicate CaughtUp(db: DB) {
    StuckJobs(db) == {} && Due(db) == {} && DueSchedules(db) == {}
  }

  lemma ReapedState(db: DB, order: seq<Id>)
    requires Inv(db) && NoDup(order) && Elems(order) == Reapable(db, {})
    ensures var e := DoAll(db, order, Reclaim);
            Inv(e) && StuckJobs(e) == {} && e.now == db.now && Due(e) == Due(db) && e.schedules == db.schedules
  {
    ReaperStep(db, order, {});
    StepKeepsInv(db, ReclaimStuck(order, {}));
    assert Reapable(db, {}) == StuckJobs(db);
    SecondReclaimIsIdle(db, order);
    ReapKeepsDue(db, order);
  }

  /** What is given back is queued or dead: nothing waits more or less. */
  lemma ReapKeepsDue(db: DB, order: seq<Id>)
    requires Inv(db) && NoDup(order) && Elems(order) == StuckJobs(db)
    ensures var e := DoAll(db, order, Reclaim); SameFrame(db, e) && Due(e) == Due(db)
  {
    var e := DoAll(db, order, Reclaim);
    assert StuckJobs(db) - {} == StuckJobs(db);
    DoAllView(db, order, Reclaim);
    forall i | i in db.jobs ensures i in Due(e) <==> i in Due(db) {
      ReclaimRows(db, order, {}, i);
      assert i in order <==> i in Elems(order);
      ReapedJobDue(db, e, i, i in order);
    }
  }

  lemma ReapedJobDue(db: DB, e: DB, i: Id, reaped: bool)
    requires i in db.jobs && i in e.jobs && e.now == db.now
    requires if reaped then i in StuckJobs(db) && GivenBack(View(db, i), View(e, i), db.now, LAPSED)
             else View(e, i) == View(db, i)
    ensures i in Due(e) <==> i in Due(db)
  {
    assert View(e, i).job == e.jobs[i];
  }

  lemma PromotedJob(db: DB, order: seq<Id>, i: Id)
    requires NoDup(order) && Elems(order) == Due(db) && i in db.jobs
    ensures var e := DoAll(db, order, Promote);
            && e.now == db.now && e.jobs.Keys == db.jobs.Keys
            && e.jobs[i] == if i in Due(db) then db.jobs[i].(status := Queued) else db.jobs[i]
  {
    DoAllView(db, order, Promote);
    assert View(DoAll(db, order, Promote), i).job == DoAll(db, order, Promote).jobs[i];
    assert i in order <==> i in Elems(order);
  }

  lemma PromotedIsQuiet(db: DB, e: DB)
    requires StuckJobs(db) == {} && e.now == db.now && e.jobs.Keys == db.jobs.Keys
    requires forall i :: i in db.jobs ==>
               e.jobs[i] == if i in Due(db) then db.jobs[i].(status := Queued) else db.jobs[i]
    ensures StuckJobs(e) == {} && Due(e) == {}
  {
    forall i | i in e.jobs ensures i !in StuckJobs(e) && i !in Due(e) {
      assert i !in StuckJobs(db);
    }
  }

  /** Promotion leaves nothing waiting past its time and makes nothing stuck. */
  lemma PromotedState(db: DB, order: seq<Id>)
    requires Inv(db) && StuckJobs(db) == {} && NoDup(order) && Elems(order) == Due(db)
    ensures var e := DoAll(db, order, Promote); Inv(e) && StuckJobs(e) == {} && Due(e) == {} && e.now == db.now
  {
    var e := DoAll(db, order, Promote);
    DoAllKeepsInv(db, order, Promote);
    PromotedFrame(db, order);
    forall i | i in db.jobs ensures e.jobs[i] == if i in Due(db) then db.jobs[i].(status := Queued) else db.jobs[i] {
      PromotedJob(db, order, i);
    }
    PromotedIsQuiet(db, e);
  }

  lemma PromotedFrame(db: DB, order: seq<Id>)
    requires NoDup(order)
    ensures var e := DoAll(db, order, Promote);
            e.now == db.now && e.jobs.Keys == db.jobs.Keys && e.schedules == db.schedules
  {
    DoAllView(db, order, Promote);
  }

  /** New queued jobs are neither stuck nor waiting for promotion. */
  lemma AddedIsQuiet(db: DB, e: DB)
    requires StuckJobs(db) == {} && Due(db) == {} && OnlyAdds(db, e) && e.now == db.now
    ensures StuckJobs(e) == {} && Due(e) == {}
  {
    forall i | i in e.jobs ensures i !in StuckJobs(e) && i !in Due(e) {
      if i in db.jobs {
        assert View(e, i).job == View(db, i).job;
        assert i !in StuckJobs(db) && i !in Due(db);
      }
    }
  }

  lemma FiredInv(db: DB, order: seq<Id>, next: NextRuns)
    requires Inv(db) && StrictlyLater(next, db.now) && NoDup(order) && Elems(order) == DueSchedules(db)
    ensures Inv(FireAll(db, order, next)) && DueSchedules(FireAll(db, order, next)) == {}
  {
    forall s | s in order ensures s in db.schedules && DueSchedule(db.schedules[s], db.now) {
      assert s in Elems(order);
    }
    FireAllKeepsInv(db, order, next);
    assert DueSchedules(db) - {} == DueSchedules(db);
    SecondTickIsIdle(db, order, next);
  }

  lemma FiredState(db: DB, order: seq<Id>, next: NextRuns)
    requires Inv(db) && StuckJobs(db) == {} && Due(db) == {} && StrictlyLater(next, db.now)
    requires NoDup(order) && Elems(order) == DueSchedules(db) - {}
    ensures Inv(FireAll(db, order, next)) && CaughtUp(FireAll(db, order, next))
  {
    FiredInv(db, order, next);
    FireAllFrame(db, order, next);
    FireAllViews(db, order, next);
    AddedIsQuiet(db, FireAll(db, order, next));
  }

  /** One tick with no other transaction in between, each part under its own try of the leader lock: whichever locks are
      got the store stays valid, and with all of them the tick catches up with everything. */
  method Tick(t: Tables, next: NextRuns, gotReclaim: bool, gotPromote: bool, gotRecurring: bool)
    returns (reclaimed: nat, promoted: nat, fired: nat)
    requires t.Valid() && StrictlyLater(next, t.now)
    modifies t
    ensures t.Valid()
    ensures gotReclaim && gotPromote && gotRecurring ==> CaughtUp(t.State())
    ensures reclaimed == if gotReclaim then |Reapable(old(t.State()), {})| else 0
    ensures promoted == if gotPromote then |Due(old(t.State()))| else 0
    ensures fired == if gotRecurring then |Firing(DueSchedules(old(t.State())), next)| else 0
  {
    reclaimed, promoted, fired := 0, 0, 0;
    ghost var waiting, schedules := Due(t.State()), t.schedules;
    if gotReclaim {
      ghost var a := t.State();
      var reaped: seq<Id>;
      reclaimed, reaped := t.ReclaimStuck({});
      ReapedState(a, reaped);
    }
    assert t.now == old(t.now) && Due(t.State()) == waiting && t.schedules == schedules;
    if gotPromote {
      ghost var b := t.State();
      var due: seq<Id>;
      promoted, due := t.PromoteDue();
      PromotedFrame(b, due);
      if gotReclaim {
        PromotedState(b, due);
      }
    }
    assert t.now == old(t.now) && t.schedules == schedules;
    if gotRecurring {
      fired := FirePart(t, next, gotReclaim && gotPromote);
    }
  }

  /** The last part; when nothing is stuck or waiting before it, all is caught up with after it. */
  method FirePart(t: Tables, next: NextRuns, ghost quiet: bool) returns (fired: nat)
    requires t.Valid() && StrictlyLater(next, t.now)
    requires quiet ==> StuckJobs(t.State()) == {} && Due(t.State()) == {}
    modifies t
    ensures t.Valid() && (quiet ==> CaughtUp(t.State()))
    ensures fired == |Firing(DueSchedules(old(t.State())), next)|
  {
    ghost var c := t.State();
    var order: seq<Id>;
    assert DueSchedules(c) - {} == DueSchedules(c);
    fired, order := PromoteRecurringJobs(t, {}, next);
    if quiet {
      FiredState(c, order, next);
    }
  }
}
