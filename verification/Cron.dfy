/** The recurring-job promoter. */
module Cron {
  import opened Common
  import opened Model
  import opened Database
  import opened Steps
  import opened Invariant
  import opened Runs

  // ---- one tick

  function SpawnedBy(db: DB, s: Id): set<Id> {
    set i | i in db.jobs && db.jobs[i].spec.recurring == Some(s)
  }

  /** What one firing does to a schedule's row. */
  predicate Advanced(c: Schedule, d: Schedule, next: Option<int>) {
    if next.None? then d == c.(enabled := false)
    else d == c.(nextRun := next.value, lastEnqueuedAt := d.lastEnqueuedAt, lastJob := d.lastJob)
  }

  lemma FireSchedule(db: DB, s: Id, next: Option<int>)
    requires s in db.schedules
    ensures Advanced(db.schedules[s], Fire(db, s, next).schedules[s], next)
  {}

  lemma {:induction false} FireAllSchedules(db: DB, due: seq<Id>, next: NextRuns, s: Id)
    requires NoDup(due) && s in db.schedules && s in due
    ensures s in FireAll(db, due, next).schedules
    ensures Advanced(db.schedules[s], FireAll(db, due, next).schedules[s], NextRun(next, s))
  {
    var front, last := due[..|due| - 1], due[|due| - 1];
    assert due == front + [last];
    var m := FireAll(db, front, next);
    FireAllFrame(db, front, next);
    FireFrame(m, last, NextRun(next, last));
    if s == last {
      assert s !in front;
      FireSchedule(m, s, NextRun(next, s));
    } else {
      FireAllSchedules(db, front, next, s);
    }
  }

  /** After a tick every promoted schedule waits for a later time and every poison one is off, so only skipped
      schedules are still due; each promoted watermark has strictly increased, whatever the backlog. */
  lemma TickLeavesNothingDue(db: DB, due: seq<Id>, skipped: set<Id>, next: NextRuns)
    requires Enabled(db, PromoteRecurring(due, skipped, next))
    ensures var e := FireAll(db, due, next);
            && DueSchedules(e) == DueSchedules(db) * skipped
            && (forall s :: s in due && NextRun(next, s).Some? ==>
                  s in db.schedules && s in e.schedules && e.schedules[s].enabled
                  && e.schedules[s].nextRun > db.now >= db.schedules[s].nextRun)
            && (forall s :: s in due && NextRun(next, s).None? ==> s in e.schedules && !e.schedules[s].enabled)
  {
    var e := FireAll(db, due, next);
    FireAllFrame(db, due, next);
    forall s | s in db.schedules
      ensures s in DueSchedules(e) <==> s in DueSchedules(db) && s in skipped
      ensures s in due ==> Advanced(db.schedules[s], e.schedules[s], NextRun(next, s))
      ensures s in due ==> DueSchedule(db.schedules[s], db.now)
    {
      assert s in due <==> s in Elems(due);
      if s in due {
        FireAllSchedules(db, due, next, s);
      }
    }
    forall s | s in due ensures s in db.schedules {
      assert s in Elems(due);
    }
  }

  /** A tick fires exactly the schedules that are on, whose watermark has come, and that no other transaction has
      locked; no other such schedule remains. */
  lemma TickFiresWhatHasCome(db: DB, due: seq<Id>, skipped: set<Id>, next: NextRuns, s: Id)
    requires Enabled(db, PromoteRecurring(due, skipped, next)) && s in db.schedules
    ensures s in due <==> db.schedules[s].enabled && db.schedules[s].nextRun <= db.now && s !in skipped
    ensures var e := FireAll(db, due, next);
            && s in e.schedules && (s !in due ==> e.schedules[s] == db.schedules[s])
            && (e.schedules[s].enabled && e.schedules[s].nextRun <= db.now ==> s in skipped)
  {
    assert s in due <==> s in Elems(due);
    FireAllFrame(db, due, next);
    if s in due {
      FireAllSchedules(db, due, next, s);
    }
  }

  /** A second tick at the same time finds nothing to promote, if no row was skipped. */
  lemma SecondTickIsIdle(db: DB, due: seq<Id>, next: NextRuns)
    requires Enabled(db, PromoteRecurring(due, {}, next))
    ensures DueSchedules(FireAll(db, due, next)) == {}
  {
    TickLeavesNothingDue(db, due, {}, next);
  }

  lemma FireSpawns(db: DB, s: Id, next: Option<int>, t: Id)
    requires TablesOk(db)
    ensures SpawnedBy(Fire(db, s, next), t) ==
            if s == t && s in db.schedules && next.Some? && OutcomeOf(db, Occurrence(db, s)).Created?
            then SpawnedBy(db, t) + {db.nextId} else SpawnedBy(db, t)
  {
    if s in db.schedules {
      InsertViews(db, Occurrence(db, s));
      assert db.nextId !in db.jobs;
    }
  }

  /** One tick spawns at most one job per schedule however many slots were missed, and none for a schedule
      that was not due. */
  lemma {:induction false} TickSpawnsAtMostOne(db: DB, due: seq<Id>, next: NextRuns, s: Id)
    requires TablesOk(db) && NoDup(due)
    ensures TablesOk(FireAll(db, due, next))
    ensures SpawnedBy(db, s) <= SpawnedBy(FireAll(db, due, next), s)
    ensures |SpawnedBy(FireAll(db, due, next), s)| <= |SpawnedBy(db, s)| + (if s in due then 1 else 0)
  {
    if |due| > 0 {
      var front, last := due[..|due| - 1], due[|due| - 1];
      assert due == front + [last];
      TickSpawnsAtMostOne(db, front, next, s);
      var m := FireAll(db, front, next);
      FireSpawns(m, last, NextRun(next, last), s);
      FireKeepsTables(m, last, NextRun(next, last));
      assert last !in front;
    }
  }

  // ---- schedules along a run

  lemma FireSpawnsAtWatermark(db: DB, s: Id, next: Option<int>, j: Id, t: Id, slot: int)
    requires TablesOk(db)
    requires var e := Fire(db, s, next); j in e.jobs && j !in db.jobs && Spawned(e.jobs[j], t, slot)
    ensures t == s && s in db.schedules && slot == db.schedules[s].nextRun && next.Some?
  {
    InsertViews(db, Occurrence(db, s));
    assert j == db.nextId && Fire(db, s, next).jobs[j] == FreshJob(db, Occurrence(db, s));
  }

  /** A job that a tick adds fires the slot that its schedule's watermark stood at. */
  lemma {:induction false} TickSpawnsAtWatermark(db: DB, due: seq<Id>, next: NextRuns, j: Id, s: Id, slot: int)
    requires TablesOk(db) && NoDup(due)
    requires var e := FireAll(db, due, next); j in e.jobs && j !in db.jobs && Spawned(e.jobs[j], s, slot)
    ensures s in db.schedules && slot == db.schedules[s].nextRun
  {
    var front, last := due[..|due| - 1], due[|due| - 1];
    assert due == front + [last];
    var m := FireAll(db, front, next);
    FireAllViews(db, front, next);
    FireAllFrame(db, front, next);
    FireViews(m, last, NextRun(next, last));
    if j in m.jobs {
      assert View(FireAll(db, due, next), j).job == View(m, j).job;
      TickSpawnsAtWatermark(db, front, next, j, s, slot);
    } else {
      FireSpawnsAtWatermark(m, last, NextRun(next, last), j, s, slot);
      assert last !in front;
    }
  }

  /** A schedule that was there before is there with a watermark no lower. */
  ghost predicate Forward(db: DB, e: DB, s: Id) {
    s in e.schedules && s < db.nextId ==> s in db.schedules && e.schedules[s].nextRun >= db.schedules[s].nextRun
  }

  lemma TickForward(db: DB, due: seq<Id>, skipped: set<Id>, next: NextRuns, s: Id)
    requires Enabled(db, PromoteRecurring(due, skipped, next))
    ensures Forward(db, FireAll(db, due, next), s)
  {
    FireAllFrame(db, due, next);
    if s in db.schedules && s in due {
      TickLeavesNothingDue(db, due, skipped, next);
      FireAllSchedules(db, due, next, s);
    }
  }

  /** No step moves a watermark back. */
  lemma StepForward(db: DB, step: Step, s: Id)
    requires Inv(db) && Enabled(db, step)
    ensures Forward(db, Apply(db, step), s)
  {
    if WorkOf(step).Some? {
      WorkHasNoDup(db, step);
      BatchFrame(db, WorkOf(step).value, s);
    } else if step.PromoteRecurring? {
      TickForward(db, step.due, step.skipped, step.next, s);
    }
  }

  /** Where the jobs of one slot may come from: they were there, or the slot is the watermark. */
  ghost predicate Sourced(db: DB, e: DB, s: Id, slot: int) {
    forall j :: j in e.jobs && Spawned(e.jobs[j], s, slot) ==>
      (j in db.jobs && Spawned(db.jobs[j], s, slot)) || (s in db.schedules && slot == db.schedules[s].nextRun)
  }

  lemma PlainInsertSpawnsNothing(db: DB, a: NewJob, j: Id, s: Id, slot: int)
    requires TablesOk(db) && a.recurring.None? && j in Insert(db, a).jobs && j !in db.jobs
    ensures !Spawned(Insert(db, a).jobs[j], s, slot)
  {
    InsertViews(db, a);
  }

  lemma NewcomerSourced(db: DB, step: Step, j: Id, s: Id, slot: int)
    requires Inv(db) && Enabled(db, step) && j in Apply(db, step).jobs && j !in db.jobs
    requires Spawned(Apply(db, step).jobs[j], s, slot)
    ensures s in db.schedules && slot == db.schedules[s].nextRun
  {
    if WorkOf(step).Some? {
      WorkHasNoDup(db, step);
      BatchFrame(db, WorkOf(step).value, j);
      assert false;
    } else if step.PromoteRecurring? {
      TickSpawnsAtWatermark(db, step.due, step.next, j, s, slot);
    } else if step.InsertJob? {
      PlainInsertSpawnsNothing(db, step.args, j, s, slot);
      assert false;
    }
  }

  lemma StepSourced(db: DB, step: Step, s: Id, slot: int)
    requires Inv(db) && Enabled(db, step)
    ensures Sourced(db, Apply(db, step), s, slot)
  {
    var e := Apply(db, step);
    forall j | j in e.jobs && Spawned(e.jobs[j], s, slot)
      ensures (j in db.jobs && Spawned(db.jobs[j], s, slot)) || (s in db.schedules && slot == db.schedules[s].nextRun)
    {
      if j in db.jobs {
        StepOnJob(db, step, j);
        StepFollowsEdges(db, e, step, j);
      } else {
        NewcomerSourced(db, step, j, s, slot);
      }
    }
  }

  /** A run seen from one slot of one schedule. */
  ghost predicate SlotRun(dbs: seq<DB>, s: Id, slot: int) {
    forall k :: 0 <= k < |dbs| - 1 ==>
      Forward(dbs[k], dbs[k + 1], s) && Sourced(dbs[k], dbs[k + 1], s, slot) && dbs[k + 1].nextId >= dbs[k].nextId
  }

  lemma RunOfSlot(dbs: seq<DB>, steps: seq<Step>, s: Id, slot: int)
    requires IsRun(dbs, steps)
    ensures SlotRun(dbs, s, slot)
  {
    forall k | 0 <= k < |steps|
      ensures Forward(dbs[k], dbs[k + 1], s) && Sourced(dbs[k], dbs[k + 1], s, slot)
      ensures dbs[k + 1].nextId >= dbs[k].nextId
    {
      RunInv(dbs, steps, k);
      StepForward(dbs[k], steps[k], s);
      StepSourced(dbs[k], steps[k], s, slot);
      StepOnJob(dbs[k], steps[k], 0);
    }
  }

  lemma {:induction false} ForwardAlong(dbs: seq<DB>, s: Id, slot: int, k: nat, m: nat)
    requires SlotRun(dbs, s, slot) && k <= m < |dbs| && s < dbs[k].nextId
    ensures Forward(dbs[k], dbs[m], s) && dbs[k].nextId <= dbs[m].nextId
  {
    if k < m {
      ForwardAlong(dbs, s, slot, k, m - 1);
      assert Forward(dbs[m - 1], dbs[m], s);
    }
  }

  /** Along every run the watermark of a schedule only moves forward, and a schedule that is gone never returns. */
  lemma WatermarkOnlyForward(dbs: seq<DB>, steps: seq<Step>, s: Id, k: nat, m: nat)
    requires IsRun(dbs, steps) && k <= m < |dbs| && s < dbs[k].nextId && s in dbs[m].schedules
    ensures s in dbs[k].schedules && dbs[m].schedules[s].nextRun >= dbs[k].schedules[s].nextRun
  {
    RunOfSlot(dbs, steps, s, 0);
    ForwardAlong(dbs, s, 0, k, m);
  }

  /** Every firing moves its schedule's watermark strictly forward, past the instant of the firing, for good. */
  lemma FiringMovesWatermark(dbs: seq<DB>, steps: seq<Step>, s: Id, k: nat, m: nat)
    requires IsRun(dbs, steps) && k < m < |dbs|
    requires steps[k].PromoteRecurring? && s in steps[k].due && NextRun(steps[k].next, s).Some?
    ensures s in dbs[k].schedules && dbs[k].schedules[s].nextRun <= dbs[k].now
    ensures s in dbs[m].schedules ==> dbs[m].schedules[s].nextRun > dbs[k].now
  {
    var db, e := dbs[k], dbs[k + 1];
    TickLeavesNothingDue(db, steps[k].due, steps[k].skipped, steps[k].next);
    assert e == FireAll(db, steps[k].due, steps[k].next);
    if s in dbs[m].schedules {
      RunInv(dbs, steps, k + 1);
      assert SchedulesRefer(e.schedules, e.queues.Keys, e.nextId);
      WatermarkOnlyForward(dbs, steps, s, k + 1, m);
    }
  }

  /** Once a slot lies behind the watermark no job is spawned for it any more. */
  lemma {:induction false} PastSlotStaysPast(dbs: seq<DB>, s: Id, slot: int, k: nat, m: nat, j: Id)
    requires SlotRun(dbs, s, slot) && k <= m < |dbs| && s < dbs[k].nextId
    requires s in dbs[k].schedules && slot < dbs[k].schedules[s].nextRun
    requires j in dbs[m].jobs && Spawned(dbs[m].jobs[j], s, slot)
    ensures j in dbs[k].jobs && Spawned(dbs[k].jobs[j], s, slot)
  {
    if k < m {
      ForwardAlong(dbs, s, slot, k, m - 1);
      assert Sourced(dbs[m - 1], dbs[m], s, slot);
      PastSlotStaysPast(dbs, s, slot, k, m - 1, j);
    }
  }

  /** Along every run each slot of a schedule spawns at most one job: a job that fired the slot in one state and one
      that fired it in the same or any later state are the same job. */
  lemma SlotFiresOnce(dbs: seq<DB>, steps: seq<Step>, s: Id, slot: int, k: nat, m: nat, i: Id, j: Id)
    requires IsRun(dbs, steps) && k <= m < |dbs|
    requires i in dbs[k].jobs && Spawned(dbs[k].jobs[i], s, slot)
    requires j in dbs[m].jobs && Spawned(dbs[m].jobs[j], s, slot)
    ensures i == j
  {
    RunInv(dbs, steps, k);
    RunOfSlot(dbs, steps, s, slot);
    assert SchedulesRefer(dbs[k].schedules, dbs[k].queues.Keys, dbs[k].nextId);
    PastSlotStaysPast(dbs, s, slot, k, m, j);
  }

  // ---- poison isolation

  function Healthy(due: seq<Id>, next: NextRuns): seq<Id> {
    if |due| == 0 then []
    else
      var front, last := due[..|due| - 1], due[|due| - 1];
      if NextRun(next, last).Some? then Healthy(front, next) + [last] else Healthy(front, next)
  }

  /** Turn off the due schedules whose next fire time cannot be computed. */
  function DisablePoison(db: DB, due: seq<Id>, next: NextRuns): DB {
    db.(schedules := map s | s in db.schedules ::
                       if s in due && NextRun(next, s).None? then db.schedules[s].(enabled := false)
                       else db.schedules[s])
  }

  /** Nothing that a firing reads or writes outside its own schedule is a schedule. */
  lemma FireIgnoresOthers(a: DB, b: DB, s: Id, next: Option<int>)
    requires b == a.(schedules := b.schedules) && b.schedules.Keys == a.schedules.Keys
    requires s in a.schedules ==> b.schedules[s] == a.schedules[s]
    ensures var x, y := Fire(a, s, next), Fire(b, s, next);
            && y == x.(schedules := y.schedules) && y.schedules.Keys == x.schedules.Keys
            && (s in a.schedules ==> y.schedules[s] == x.schedules[s])
            && (forall t :: t in a.schedules && t != s ==>
                  x.schedules[t] == a.schedules[t] && y.schedules[t] == b.schedules[t])
  {
    if s in a.schedules && next.Some? {
      assert Occurrence(a, s) == Occurrence(b, s);
      assert OutcomeOf(a, Occurrence(a, s)) == OutcomeOf(b, Occurrence(b, s));
    }
  }

  lemma DisableOne(a: DB, b: DB, front: seq<Id>, last: Id, next: NextRuns)
    requires b == DisablePoison(a, front, next) && last !in front && NextRun(next, last).None?
    ensures Fire(b, last, None) == DisablePoison(a, front + [last], next)
  {
    assert Fire(b, last, None).schedules == DisablePoison(a, front + [last], next).schedules;
  }

  lemma FireThroughPoison(a: DB, b: DB, front: seq<Id>, last: Id, next: NextRuns)
    requires b == DisablePoison(a, front, next) && last !in front && NextRun(next, last).Some?
    ensures Fire(b, last, NextRun(next, last)) ==
              DisablePoison(Fire(a, last, NextRun(next, last)), front + [last], next)
  {
    var n := NextRun(next, last);
    FireIgnoresOthers(a, b, last, n);
    FireFrame(a, last, n);
    assert Fire(b, last, n).schedules == DisablePoison(Fire(a, last, n), front + [last], next).schedules;
  }

  /** Unschedulable rows never stop the others: the loop over all due rows does what the loop over the healthy
      ones does, plus turning the poison ones off. */
  lemma {:induction false} PoisonIsIsolated(db: DB, due: seq<Id>, next: NextRuns)
    requires NoDup(due)
    ensures FireAll(db, due, next) == DisablePoison(FireAll(db, Healthy(due, next), next), due, next)
  {
    if |due| > 0 {
      var front, last := due[..|due| - 1], due[|due| - 1];
      assert due == front + [last];
      var h := Healthy(front, next);
      PoisonIsIsolated(db, front, next);
      var a, b := FireAll(db, h, next), FireAll(db, front, next);
      assert last !in front;
      if NextRun(next, last).Some? {
        var hs := Healthy(due, next);
        assert hs == h + [last] && hs[..|hs| - 1] == h;
        FireThroughPoison(a, b, front, last, next);
      } else {
        DisableOne(a, b, front, last, next);
      }
    } else {
      assert DisablePoison(db, due, next).schedules == db.schedules;
    }
  }
}
