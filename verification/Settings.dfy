/** The settings of a queue along a run: each is what the last statement that set it said. */
module Settings {
  import opened Common
  import opened Backoff
  import opened Model
  import opened Database
  import opened Steps
  import opened Invariant
  import opened Runs

  datatype Setting = LimitOf | PausedOf | PolicyOf

  datatype Value = LimitValue(limit: int) | PausedValue(paused: bool) | PolicyValue(policy: Option<RetryPolicy>)

  function Reading(c: Queue, k: Setting): Value {
    match k
    case LimitOf => LimitValue(c.limit)
    case PausedOf => PausedValue(c.paused)
    case PolicyOf => PolicyValue(c.policy)
  }

  /** The value that the step gives to the setting of a queue that exists, if it gives one. */
  function Given(step: Step, q: Id, k: Setting): Option<Value> {
    match step
    case UpdateQueue(p, limit, policy) =>
      if p == q && k.LimitOf? && limit.Some? then Some(LimitValue(limit.value))
      else if p == q && k.PolicyOf? && policy.Some? then Some(PolicyValue(policy.value))
      else None
    case PauseQueue(p, paused) => if p == q && k.PausedOf? then Some(PausedValue(paused)) else None
    case _ => None
  }

  /** A new queue is open, with the limit and the policy it was created with, and no job is counted in it. */
  predicate BornAs(c: Queue, step: Step) {
    step.CreateQueue? && c == Queue(step.limit, false, step.policy, 0, 0, 0, 0)
  }

  /** What a step makes of the settings of the queues. */
  ghost predicate SetsAsGiven(db: DB, e: DB, step: Step) {
    && e.nextId >= db.nextId
    && (forall q :: q in e.queues && q !in db.queues ==> q == db.nextId && BornAs(e.queues[q], step))
    && (forall q, k :: q in e.queues && q in db.queues ==>
          Reading(e.queues[q], k) == if Given(step, q, k).Some? then Given(step, q, k).value
                                     else Reading(db.queues[q], k))
  }

  /** No queue comes or changes its settings. */
  ghost predicate SameSettings(db: DB, e: DB) {
    && e.nextId >= db.nextId && e.queues.Keys == db.queues.Keys
    && forall q :: q in db.queues ==> SameConfig(db.queues[q], e.queues[q])
  }

  lemma FireKeepsSettings(db: DB, s: Id, next: Option<int>)
    ensures SameSettings(db, Fire(db, s, next))
  {}

  lemma {:induction false} TickKeepsSettings(db: DB, due: seq<Id>, next: NextRuns)
    ensures SameSettings(db, FireAll(db, due, next))
  {
    if |due| > 0 {
      var front, last := due[..|due| - 1], due[|due| - 1];
      TickKeepsSettings(db, front, next);
      FireKeepsSettings(FireAll(db, front, next), last, NextRun(next, last));
    }
  }

  predicate OnQueues(step: Step) {
    step.CreateQueue? || step.UpdateQueue? || step.PauseQueue? || step.DeleteQueue?
  }

  lemma SameIsAsGiven(db: DB, e: DB, step: Step)
    requires SameSettings(db, e) && !OnQueues(step)
    ensures SetsAsGiven(db, e, step)
  {
    forall q, k | q in e.queues ensures Reading(e.queues[q], k) == Reading(db.queues[q], k) {
      assert SameConfig(db.queues[q], e.queues[q]);
    }
  }

  lemma ElsewhereSame(db: DB, step: Step)
    requires Enabled(db, step) && !OnQueues(step)
    ensures SameSettings(db, Apply(db, step))
  {
    if WorkOf(step).Some? {
      WorkHasNoDup(db, step);
      BatchFrame(db, WorkOf(step).value, 0);
    } else if step.PromoteRecurring? {
      TickKeepsSettings(db, step.due, step.next);
    }
  }

  lemma SetQueueSets(db: DB, q: Id, limit: Option<int>, paused: Option<bool>, policy: Option<Option<RetryPolicy>>,
                     p: Id)
    ensures var e := SetQueue(db, q, limit, paused, policy);
            && e.queues.Keys == db.queues.Keys && e.nextId == db.nextId
            && (p in db.queues && p != q ==> e.queues[p] == db.queues[p])
            && (q in db.queues ==>
                  && e.queues[q].limit == (if limit.Some? then limit.value else db.queues[q].limit)
                  && e.queues[q].paused == (if paused.Some? then paused.value else db.queues[q].paused)
                  && e.queues[q].policy == (if policy.Some? then policy.value else db.queues[q].policy))
  {}

  lemma QueueStepSets(db: DB, step: Step, q: Id, k: Setting)
    requires OnQueues(step) && q in db.queues && q in Apply(db, step).queues && QueuesOk(db.queues, db.nextId)
    ensures Reading(Apply(db, step).queues[q], k) ==
              if Given(step, q, k).Some? then Given(step, q, k).value else Reading(db.queues[q], k)
  {
    match step
    case UpdateQueue(p, limit, policy) => SetQueueSets(db, p, limit, None, policy, q);
    case PauseQueue(p, paused) => SetQueueSets(db, p, None, Some(paused), None, q);
    case _ =>
  }

  lemma QueueStepBears(db: DB, step: Step)
    requires OnQueues(step)
    ensures var e := Apply(db, step);
            && e.nextId >= db.nextId
            && forall q :: q in e.queues && q !in db.queues ==> q == db.nextId && BornAs(e.queues[q], step)
  {}

  /** Every step sets what it says it sets, and nothing else; counters and rows apart, no other statement touches a
      queue. */
  lemma StepSetsAsGiven(db: DB, step: Step)
    requires Enabled(db, step) && QueuesOk(db.queues, db.nextId)
    ensures SetsAsGiven(db, Apply(db, step), step)
  {
    var e := Apply(db, step);
    if OnQueues(step) {
      QueueStepBears(db, step);
      forall q, k | q in e.queues && q in db.queues
        ensures Reading(e.queues[q], k) == if Given(step, q, k).Some? then Given(step, q, k).value
                                           else Reading(db.queues[q], k)
      {
        QueueStepSets(db, step, q, k);
      }
    } else {
      ElsewhereSame(db, step);
      SameIsAsGiven(db, e, step);
    }
  }

  ghost predicate SettingsRun(dbs: seq<DB>, steps: seq<Step>) {
    && |dbs| == |steps| + 1
    && forall k :: 0 <= k < |steps| ==> SetsAsGiven(dbs[k], dbs[k + 1], steps[k])
  }

  lemma RunOfSettings(dbs: seq<DB>, steps: seq<Step>)
    requires IsRun(dbs, steps)
    ensures SettingsRun(dbs, steps)
  {
    forall k | 0 <= k < |steps| ensures SetsAsGiven(dbs[k], dbs[k + 1], steps[k]) {
      RunInv(dbs, steps, k);
      StepSetsAsGiven(dbs[k], steps[k]);
    }
  }

  lemma {:induction false} SettingStays(dbs: seq<DB>, steps: seq<Step>, n: nat, m: nat, q: Id, k: Setting)
    requires SettingsRun(dbs, steps) && n <= m < |dbs| && q < dbs[n].nextId && q in dbs[m].queues
    requires forall p :: n <= p < m ==> Given(steps[p], q, k).None?
    ensures dbs[n].nextId <= dbs[m].nextId
    ensures q in dbs[n].queues && Reading(dbs[m].queues[q], k) == Reading(dbs[n].queues[q], k)
  {
    if n < m {
      assert SetsAsGiven(dbs[m - 1], dbs[m], steps[m - 1]);
      IdsOfSettings(dbs, steps, n, m - 1);
      SettingStays(dbs, steps, n, m - 1, q, k);
    }
  }

  lemma {:induction false} IdsOfSettings(dbs: seq<DB>, steps: seq<Step>, n: nat, m: nat)
    requires SettingsRun(dbs, steps) && n <= m < |dbs|
    ensures dbs[n].nextId <= dbs[m].nextId
  {
    if n < m {
      IdsOfSettings(dbs, steps, n, m - 1);
      assert SetsAsGiven(dbs[m - 1], dbs[m], steps[m - 1]);
    }
  }

  /** Along every run, a setting of a queue is the last value given to it, whatever else happened since. */
  lemma LastGivenStands(dbs: seq<DB>, steps: seq<Step>, n: nat, m: nat, q: Id, k: Setting)
    requires IsRun(dbs, steps) && n < m < |dbs| && q in dbs[n].queues && Given(steps[n], q, k).Some?
    requires forall p :: n < p < m ==> Given(steps[p], q, k).None?
    requires q in dbs[m].queues
    ensures Reading(dbs[m].queues[q], k) == Given(steps[n], q, k).value
  {
    RunInv(dbs, steps, n);
    RunOfSettings(dbs, steps);
    assert SetsAsGiven(dbs[n], dbs[n + 1], steps[n]);
    assert QueuesOk(dbs[n].queues, dbs[n].nextId);
    SettingStays(dbs, steps, n + 1, m, q, k);
  }

  /** Until a setting is given anew it is what the queue was created with: open, with its limit and its policy. */
  lemma FirstSettingsStand(dbs: seq<DB>, steps: seq<Step>, n: nat, m: nat, q: Id, k: Setting)
    requires IsRun(dbs, steps) && n < m < |dbs| && q !in dbs[n].queues && q in dbs[n + 1].queues && q in dbs[m].queues
    requires forall p :: n < p < m ==> Given(steps[p], q, k).None?
    ensures BornAs(dbs[n + 1].queues[q], steps[n])
    ensures Reading(dbs[m].queues[q], k) == Reading(dbs[n + 1].queues[q], k)
  {
    RunInv(dbs, steps, n + 1);
    RunOfSettings(dbs, steps);
    assert SetsAsGiven(dbs[n], dbs[n + 1], steps[n]);
    assert QueuesOk(dbs[n + 1].queues, dbs[n + 1].nextId);
    SettingStays(dbs, steps, n + 1, m, q, k);
  }

  lemma PausedPicksNothing(db: DB, q: Id, localFree: int, cap: int, locked: set<Id>, picked: seq<Id>)
    requires ValidPick(db, q, localFree, cap, locked, picked) && q in db.queues && db.queues[q].paused
    ensures picked == []
  {
    assert |picked| == Quota(db, q, localFree, cap, |Eligible(db, q) - locked|);
  }

  /** From its pause until it is resumed, no claim takes a job of the queue. */
  lemma PausedAdmitsNothing(dbs: seq<DB>, steps: seq<Step>, n: nat, m: nat, q: Id)
    requires IsRun(dbs, steps) && n < m < |steps| && q in dbs[n].queues && q in dbs[m].queues
    requires steps[n] == PauseQueue(q, true) && steps[m].ClaimJobs? && steps[m].queue == q
    requires forall p :: n < p < m ==> !(steps[p].PauseQueue? && steps[p].queue == q)
    ensures steps[m].picked == []
  {
    LastGivenStands(dbs, steps, n, m, q, PausedOf);
    var s := steps[m];
    assert Enabled(dbs[m], s);
    PausedPicksNothing(dbs[m], q, s.localFree, s.cap, s.locked, s.picked);
  }

  // ---- the guarded delete

  /** The queue may go: it has no job that is still to run or running, and no schedule that is on. */
  ghost predicate Idle(db: DB, q: Id) {
    && (forall i :: i in db.jobs && db.jobs[i].spec.queue == q ==>
          db.jobs[i].status.Completed? || db.jobs[i].status.Dead? || db.jobs[i].status.Cancelled?)
    && (forall s :: s in db.schedules && db.schedules[s].queue == q ==> !db.schedules[s].enabled)
  }

  /** A queue is deleted exactly if it is there and idle, and with it exactly the rows that refer to it; everything else
      stays as it is. */
  lemma DeleteTakesWhatRefers(db: DB, q: Id)
    requires Inv(db)
    ensures var e := Apply(db, DeleteQueue(q));
            && (q in db.queues && Idle(db, q) ==>
                  && e.queues == db.queues - {q} && e.nextId == db.nextId && e.now == db.now && e.owed == db.owed
                  && (forall i :: i in e.jobs <==> i in db.jobs && db.jobs[i].spec.queue != q)
                  && (forall i :: i in e.jobs ==> View(e, i) == View(db, i))
                  && (forall s :: s in e.schedules <==> s in db.schedules && db.schedules[s].queue != q)
                  && (forall s :: s in e.schedules ==> e.schedules[s] == db.schedules[s]))
            && (!(q in db.queues && Idle(db, q)) ==> e == db)
  {
    IdleIsDeletable(db, q);
    if Deletable(db, q) {
      DropViews(db, q);
    }
  }

  lemma IdleIsDeletable(db: DB, q: Id)
    ensures Deletable(db, q) <==> q in db.queues && Idle(db, q)
  {}
}
