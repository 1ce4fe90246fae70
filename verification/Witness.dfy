/** Concrete runs from the empty database: that every lifecycle edge is taken by a step, and that the cases in which a
    documented promise fails do come about. */
module Witness {
  import opened Common
  import opened Lifecycle
  import opened Backoff
  import opened Model
  import opened Rows
  import opened Database
  import opened Steps
  import opened Invariant
  import opened Runs
  import opened Guarantees
  import opened BatchInsert

  // ---- reachability

  ghost predicate RunFrom(now: int, dbs: seq<DB>, steps: seq<Step>) {
    && |dbs| == |steps| + 1 && dbs[0] == Init(now)
    && (forall k :: 0 <= k < |steps| ==> Enabled(dbs[k], steps[k]) && dbs[k + 1] == Apply(dbs[k], steps[k]))
  }

  ghost predicate Reachable(db: DB) {
    exists now, dbs, steps :: RunFrom(now, dbs, steps) && dbs[|steps|] == db
  }

  lemma ReachStep(db: DB, step: Step)
    requires Reachable(db) && Enabled(db, step)
    ensures Reachable(Apply(db, step))
  {
    var now, dbs, steps :| RunFrom(now, dbs, steps) && dbs[|steps|] == db;
    RunExtends(now, dbs, steps, step);
  }

  lemma RunExtends(now: int, dbs: seq<DB>, steps: seq<Step>, step: Step)
    requires RunFrom(now, dbs, steps) && Enabled(dbs[|steps|], step)
    ensures RunFrom(now, dbs + [Apply(dbs[|steps|], step)], steps + [step])
    ensures Reachable(Apply(dbs[|steps|], step))
  {
    var e := Apply(dbs[|steps|], step);
    var longer, more := dbs + [e], steps + [step];
    forall k | 0 <= k < |more| ensures Enabled(longer[k], more[k]) && longer[k + 1] == Apply(longer[k], more[k]) {
      assert k < |steps| ==> longer[k] == dbs[k] && longer[k + 1] == dbs[k + 1] && more[k] == steps[k];
    }
    assert RunFrom(now, longer, more) && longer[|more|] == e;
  }

  // ---- databases of one queue and one job

  function LoneQueue(policy: RetryPolicy, s: Status): Queue {
    Queue(1, false, Some(policy), Ind(s.Queued?), Ind(s.Running?), Ind(s.Completed?), Ind(s.Dead?))
  }

  /** Queue 0 with job 1 and nothing else. */
  function Lone(now: int, policy: RetryPolicy, r: Row): DB {
    DB(now, 2, map[1 := r.job], map[1 := r.execs], if r.dlq.Some? then map[1 := r.dlq.value] else map[],
       map[0 := LoneQueue(policy, r.job.status)], map[], multiset{})
  }

  lemma LoneView(now: int, policy: RetryPolicy, r: Row)
    ensures View(Lone(now, policy, r), 1) == r
  {}

  lemma LoneBump(now: int, policy: RetryPolicy, r: Row, op: Op)
    requires RowOk(r) && Legal(r, op, now) && !(op.Cancel? && r.job.status.Queued?)
    ensures Bump(LoneQueue(policy, r.job.status), CounterUpdate(r, op)) ==
              LoneQueue(policy, After(r, op, now).job.status)
  {
    var c := LoneQueue(policy, r.job.status);
    CountersMatchStatus(r, op, now, c.statQueued, c.statRunning, c.statCompleted, c.statDead);
  }

  /** On such a database an operation is its effect on the one row. */
  lemma LoneDo(now: int, policy: RetryPolicy, r: Row, op: Op)
    requires RowOk(r) && r.job.spec.queue == 0 && Legal(r, op, now) && !(op.Cancel? && r.job.status.Queued?)
    ensures Do(Lone(now, policy, r), 1, op) == Lone(now, policy, After(r, op, now))
  {
    LoneBump(now, policy, r, op);
    LoneWrite(now, policy, r, After(r, op, now), CounterUpdate(r, op));
    DoIsWrite(Lone(now, policy, r), 1, op, r);
  }

  lemma DoIsWrite(db: DB, i: Id, op: Op, r: Row)
    requires i in db.jobs && View(db, i) == r && Legal(r, op, db.now)
    ensures Do(db, i, op) == Write(db, i, After(r, op, db.now), CounterUpdate(r, op),
                                    op.Cancel? && r.job.status.Queued?)
  {}

  lemma LoneWrite(now: int, policy: RetryPolicy, r: Row, s: Row, d: Deltas)
    requires r.job.spec.queue == 0 && Bump(LoneQueue(policy, r.job.status), d) == LoneQueue(policy, s.job.status)
    ensures Write(Lone(now, policy, r), 1, s, d, false) == Lone(now, policy, s)
  {}

  lemma LoneNotRefused(now: int, policy: RetryPolicy, r: Row, op: Op)
    requires RowOk(r) && Legal(r, op, now)
    ensures !Refused(Lone(now, policy, r), Work([1], op))
  {
    LoneView(now, policy, r);
    if op.Claim? {
      ClaimFindsFreshAttempt(r, op, now);
    }
  }

  lemma LoneApply(now: int, policy: RetryPolicy, r: Row, step: Step, op: Op)
    requires RowOk(r) && Legal(r, op, now) && WorkOf(step) == Some(Work([1], op))
    ensures Apply(Lone(now, policy, r), step) == Do(Lone(now, policy, r), 1, op)
  {
    LoneNotRefused(now, policy, r, op);
    OneJobBatch(Lone(now, policy, r), 1, op);
  }

  lemma LoneNext(now: int, policy: RetryPolicy, r: Row, step: Step, op: Op)
    requires Reachable(Lone(now, policy, r)) && Enabled(Lone(now, policy, r), step)
    requires RowOk(r) && r.job.spec.queue == 0 && Legal(r, op, now) && !(op.Cancel? && r.job.status.Queued?)
    requires WorkOf(step) == Some(Work([1], op))
    ensures Reachable(Lone(now, policy, After(r, op, now))) && RowOk(After(r, op, now))
    ensures After(r, op, now).job.spec == r.job.spec
  {
    LoneApply(now, policy, r, step, op);
    LoneDo(now, policy, r, op);
    ReachStep(Lone(now, policy, r), step);
    LegalKeepsRow(r, op, now);
    StatusFollowsEdges(r, op, now);
  }

  // ---- how such a database comes about, and the steps that need a selection

  const TRY := NewJob(0, Immediate, "", "", Queued, 0, 5, Some(TextKey("key")), None, None)

  function FirstRow(policy: RetryPolicy, a: NewJob): Row {
    Row(Job(Spec(a.queue, a.kind, a.handler, a.payload, a.priority, a.dedupe, policy.curve, a.recurring, 0),
            a.status, a.runAt, 0, policy.maxAttempts, None, None, None, None, None), map[], None)
  }

  function Begun(policy: RetryPolicy): DB {
    DB(0, 1, map[], map[], map[], map[0 := Queue(1, false, Some(policy), 0, 0, 0, 0)], map[], multiset{})
  }

  predicate Startable(a: NewJob) {
    a.queue == 0 && 0 <= a.priority <= 9 && a.recurring.None? && a.contract.None? && a.status in {Queued, Scheduled}
  }

  lemma FirstSteps(policy: RetryPolicy, a: NewJob)
    requires Startable(a)
    ensures Enabled(Init(0), CreateQueue(1, Some(policy)))
    ensures Apply(Init(0), CreateQueue(1, Some(policy))) == Begun(policy)
    ensures Enabled(Begun(policy), InsertJob(a)) && OutcomeOf(Begun(policy), a).Created?
    ensures Apply(Begun(policy), InsertJob(a)) == Lone(0, policy, FirstRow(policy, a))
    ensures RowOk(FirstRow(policy, a))
  {}

  lemma LoneStart(policy: RetryPolicy, a: NewJob)
    requires Startable(a)
    ensures Reachable(Lone(0, policy, FirstRow(policy, a))) && RowOk(FirstRow(policy, a))
  {
    FirstSteps(policy, a);
    assert RunFrom(0, [Init(0)], []);
    RunExtends(0, [Init(0)], [], CreateQueue(1, Some(policy)));
    ReachStep(Begun(policy), InsertJob(a));
  }

  /** Worker 0 with some free slots claims the job for a second. */
  function Claiming(free: nat): Step {
    ClaimJobs(0, 0, free, 1, 1, {}, [1])
  }

  const CLAIM := Claiming(1)

  lemma CanClaim(now: int, policy: RetryPolicy, r: Row, free: nat)
    requires r.job.spec.queue == 0 && r.job.status.Queued? && r.job.runAt <= now && free > 0
    ensures Enabled(Lone(now, policy, r), Claiming(free)) && WorkOf(Claiming(free)) == Some(Work([1], Claim(0, 1)))
  {
    var db := Lone(now, policy, r);
    assert Eligible(db, 0) - {} == {1};
    assert Members(db.jobs, 0, Running) == {};
  }

  lemma CanPromote(policy: RetryPolicy, r: Row)
    requires r.job.status in {Scheduled, Retrying} && r.job.runAt <= 0
    ensures Enabled(Lone(0, policy, r), PromoteDue([1]))
  {
    assert Due(Lone(0, policy, r)) == {1} == Elems([1]);
  }

  // ---- rows along the way

  /** The default policy with the given number of attempts. */
  function PolicyOf(max: Positive): RetryPolicy {
    RetryPolicy(DEFAULT_RETRY.curve, max)
  }

  /** The job of TRY in some status: not attempted yet while it waits for its first claim, else attempted once. */
  ghost predicate Stage(r: Row, max: Positive, s: Status) {
    && RowOk(r) && r.job.status == s && r.job.maxAttempts == max && (s.Queued? || s.Scheduled? ==> r.job.runAt == 0)
    && (s.Queued? ==> r.job.attempts == 0) && (s.Running? || s.Retrying? ==> r.job.attempts == 1)
    && r.job.spec.queue == 0 && r.job.spec.dedupe == TRY.dedupe
    && (s.Running? ==> Fenced(r.job, 0, 0))
  }

  ghost predicate Met(r: Row, max: Positive, s: Status) {
    Stage(r, max, s) && Reachable(Lone(0, PolicyOf(max), r))
  }

  lemma MeetFirst(max: Positive, a: NewJob) returns (r: Row)
    requires Startable(a) && a.dedupe == TRY.dedupe && a.runAt == 0
    ensures r == FirstRow(PolicyOf(max), a) && Met(r, max, a.status)
  {
    r := FirstRow(PolicyOf(max), a);
    LoneStart(PolicyOf(max), a);
  }

  const FAIL := FailJob(1, 0, "", 0.0)
  const KILL := DeadLetterFenced(1, 0, UnknownHandler, "")
  const DONE := CompleteJob(1, 0, 1)

  lemma MeetRunning(max: Positive, first: Row) returns (r: Row)
    requires Met(first, max, Queued)
    ensures r == After(first, Claim(0, 1), 0) && Met(r, max, Running)
    ensures Enabled(Lone(0, PolicyOf(max), first), CLAIM)
    ensures Lone(0, PolicyOf(max), r) == Apply(Lone(0, PolicyOf(max), first), CLAIM)
  {
    r := After(first, Claim(0, 1), 0);
    CanClaim(0, PolicyOf(max), first, 1);
    LoneNext(0, PolicyOf(max), first, CLAIM, Claim(0, 1));
    LoneApply(0, PolicyOf(max), first, CLAIM, Claim(0, 1));
    LoneDo(0, PolicyOf(max), first, Claim(0, 1));
  }

  lemma FailedStage(r: Row, max: Positive)
    requires Stage(r, max, Running) && max > 1
    ensures Legal(r, Fail(0, "", 0.0), 0) && Stage(After(r, Fail(0, "", 0.0), 0), max, Retrying)
  {
    LegalKeepsRow(r, Fail(0, "", 0.0), 0);
  }

  lemma MeetRetrying(max: Positive, running: Row) returns (r: Row)
    requires Met(running, max, Running) && max > 1
    ensures Met(r, max, Retrying)
  {
    r := After(running, Fail(0, "", 0.0), 0);
    FailedStage(running, max);
    LoneNext(0, PolicyOf(max), running, FAIL, Fail(0, "", 0.0));
  }

  lemma MeetDead(max: Positive, running: Row) returns (r: Row)
    requires Met(running, max, Running)
    ensures Met(r, max, Dead)
  {
    r := After(running, DeadLetter(0, UnknownHandler, ""), 0);
    LoneNext(0, PolicyOf(max), running, KILL, DeadLetter(0, UnknownHandler, ""));
  }

  lemma MeetCompleted(max: Positive, running: Row) returns (r: Row)
    requires Met(running, max, Running)
    ensures Met(r, max, Completed)
    ensures Lone(0, PolicyOf(max), r) == Apply(Lone(0, PolicyOf(max), running), DONE)
  {
    r := After(running, Complete(0, 1), 0);
    LoneNext(0, PolicyOf(max), running, DONE, Complete(0, 1));
    LoneApply(0, PolicyOf(max), running, DONE, Complete(0, 1));
    LoneDo(0, PolicyOf(max), running, Complete(0, 1));
  }

  // ---- every edge is taken

  /** A step from a reachable state takes a job along the edge. */
  ghost predicate Taken(from: Status, to: Status) {
    exists db, step, i :: Takes(db, step, i, from, to)
  }

  ghost predicate Takes(db: DB, step: Step, i: Id, from: Status, to: Status) {
    && Reachable(db) && Enabled(db, step) && i in db.jobs && i in Apply(db, step).jobs
    && db.jobs[i].status == from && Apply(db, step).jobs[i].status == to
  }

  lemma LoneTakes(policy: RetryPolicy, r: Row, step: Step, op: Op)
    requires Reachable(Lone(0, policy, r)) && Enabled(Lone(0, policy, r), step)
    requires RowOk(r) && Legal(r, op, 0) && WorkOf(step) == Some(Work([1], op))
    ensures Taken(r.job.status, After(r, op, 0).job.status)
  {
    var db := Lone(0, policy, r);
    LoneView(0, policy, r);
    LoneApply(0, policy, r, step, op);
    DoView(db, 1, op);
    assert View(Apply(db, step), 1).job == Apply(db, step).jobs[1];
    assert Takes(db, step, 1, r.job.status, After(r, op, 0).job.status);
  }

  lemma ARunning(max: Positive) returns (r: Row)
    ensures Met(r, max, Running)
  {
    var first := MeetFirst(max, TRY);
    r := MeetRunning(max, first);
  }

  lemma ARetrying(max: Positive) returns (r: Row)
    requires max > 1
    ensures Met(r, max, Retrying)
  {
    var running := ARunning(max);
    r := MeetRetrying(max, running);
  }

  lemma ADead(max: Positive) returns (r: Row)
    ensures Met(r, max, Dead)
  {
    var running := ARunning(max);
    r := MeetDead(max, running);
  }

  lemma ScheduledEdges(r: Row, to: Status)
    requires Met(r, 2, Scheduled) && to in {Queued, Cancelled}
    ensures Taken(Scheduled, to)
  {
    if to.Queued? {
      CanPromote(PolicyOf(2), r);
      LoneTakes(PolicyOf(2), r, PromoteDue([1]), Promote);
    } else {
      LoneTakes(PolicyOf(2), r, CancelJob(1), Cancel);
    }
  }

  lemma RetryingEdges(r: Row, to: Status)
    requires Met(r, 2, Retrying) && to in {Queued, Cancelled}
    ensures Taken(Retrying, to)
  {
    if to.Queued? {
      LoneTakes(PolicyOf(2), r, RetryJob(1), Retry);
    } else {
      LoneTakes(PolicyOf(2), r, CancelJob(1), Cancel);
    }
  }

  lemma QueuedEdges(r: Row, to: Status)
    requires Met(r, 2, Queued) && to in {Running, Cancelled}
    ensures Taken(Queued, to)
  {
    if to.Running? {
      CanClaim(0, PolicyOf(2), r, 1);
      LoneTakes(PolicyOf(2), r, CLAIM, Claim(0, 1));
    } else {
      LoneTakes(PolicyOf(2), r, CancelJob(1), Cancel);
    }
  }

  lemma RunningEdges(r: Row, to: Status)
    requires Met(r, 2, Running) && to in {Completed, Retrying, Queued, Dead}
    ensures Taken(Running, to)
  {
    match to
    case Completed => LoneTakes(PolicyOf(2), r, DONE, Complete(0, 1));
    case Retrying => LoneTakes(PolicyOf(2), r, FAIL, Fail(0, "", 0.0));
    case Queued => LoneTakes(PolicyOf(2), r, RequeueInflight(0, [1]), Requeue(0));
    case Dead => LoneTakes(PolicyOf(2), r, KILL, DeadLetter(0, UnknownHandler, ""));
  }

  lemma DeadEdge(r: Row)
    requires Met(r, 2, Dead)
    ensures Taken(Dead, Queued)
  {
    LoneTakes(PolicyOf(2), r, RetryJob(1), Retry);
  }

  /** Every edge of the lifecycle table is taken by an enabled step from a state reached from the empty database. */
  lemma EveryEdgeIsTaken(from: Status, to: Status)
    requires CanTransition(from, to)
    ensures Taken(from, to)
  {
    match from
    case Queued =>
      var first := MeetFirst(2, TRY);
      QueuedEdges(first, to);
    case Scheduled =>
      var scheduled := MeetFirst(2, TRY.(status := Scheduled));
      ScheduledEdges(scheduled, to);
    case Running =>
      var running := ARunning(2);
      RunningEdges(running, to);
    case Retrying =>
      var retrying := ARetrying(2);
      RetryingEdges(retrying, to);
    case Dead =>
      var dead := ADead(2);
      DeadEdge(dead);
    case Completed =>
    case Cancelled =>
  }

  // ---- promises that fail, on inputs that come about

  predicate LowersCeiling(db: DB, i: Id) {
    && i in db.jobs && i in Apply(db, RetryJob(i)).jobs
    && Apply(db, RetryJob(i)).jobs[i].maxAttempts < db.jobs[i].maxAttempts
  }

  lemma RetryLowers(r: Row)
    requires Met(r, 10, Retrying)
    ensures LowersCeiling(Lone(0, PolicyOf(10), r), 1)
  {
    LoneApply(0, PolicyOf(10), r, RetryJob(1), Retry);
    LoneDo(0, PolicyOf(10), r, Retry);
  }

  /** A reachable manual retry that lowers the ceiling: one failure under a policy of ten attempts, and the retry leaves
      a ceiling of four. */
  lemma RetryCanLowerCeiling()
    ensures exists db, i :: Reachable(db) && LowersCeiling(db, i)
  {
    var r := ARetrying(10);
    RetryLowers(r);
  }

  /** After a job that holds no key any more, the same insert is created anew. */
  lemma InsertedAnew(r: Row, s: Status)
    requires Stage(r, 2, s) && s in {Completed, Dead}
    ensures var db := Lone(0, PolicyOf(2), r); var e := Insert(db, TRY);
            && OutcomeOf(db, TRY).Created? && Apply(db, InsertJob(TRY)) == e
            && 1 in e.jobs && 2 in e.jobs && e.jobs[1] == r.job && Holds(e.jobs[2], 0, TextKey("key"))
  {
    var db := Lone(0, PolicyOf(2), r);
    assert !KeyConflict(db, 0, TRY.dedupe);
  }

  lemma TakenOver(r: Row)
    requires Stage(r, 2, Dead)
    ensures var e := Insert(Lone(0, PolicyOf(2), r), TRY); KeyTaken(e, 1) && Apply(e, RetryJob(1)) == e
  {
    InsertedAnew(r, Dead);
    var e := Insert(Lone(0, PolicyOf(2), r), TRY);
    assert KeyTaken(e, 1);
    assert Refused(e, Work([1], Retry)) by { assert 1 in [1]; }
  }

  lemma ReachTakenOver(r: Row)
    requires Met(r, 2, Dead)
    ensures Reachable(Insert(Lone(0, PolicyOf(2), r), TRY))
  {
    ReachStep(Lone(0, PolicyOf(2), r), InsertJob(TRY));
  }

  /** A reachable manual retry that the dedupe index refuses: the job died and its key was taken by another. */
  lemma RetryCanBeRefused()
    ensures exists db, i :: Reachable(db) && KeyTaken(db, i) && Apply(db, RetryJob(i)) == db
  {
    var r := ADead(2);
    TakenOver(r);
    ReachTakenOver(r);
  }

  /** One step of a run, named. */
  ghost predicate Leads(db: DB, step: Step, e: DB) {
    Enabled(db, step) && e == Apply(db, step)
  }

  ghost predicate Leading(dbs: seq<DB>, steps: seq<Step>) {
    |dbs| == |steps| + 1 && forall k :: 0 <= k < |steps| ==> Leads(dbs[k], steps[k], dbs[k + 1])
  }

  lemma LeadingIsRun(dbs: seq<DB>, steps: seq<Step>)
    requires Leading(dbs, steps) && Inv(dbs[0])
    ensures IsRun(dbs, steps)
  {
    forall k | 0 <= k < |steps| ensures Enabled(dbs[k], steps[k]) && dbs[k + 1] == Apply(dbs[k], steps[k]) {
      assert Leads(dbs[k], steps[k], dbs[k + 1]);
    }
  }

  lemma FiveLinks(linked: (DB, Step, DB) -> bool, d0: DB, d1: DB, d2: DB, d3: DB, d4: DB, d5: DB,
                  s0: Step, s1: Step, s2: Step, s3: Step, s4: Step)
    requires linked(d0, s0, d1) && linked(d1, s1, d2) && linked(d2, s2, d3) && linked(d3, s3, d4) && linked(d4, s4, d5)
    ensures var dbs, steps := [d0, d1, d2, d3, d4, d5], [s0, s1, s2, s3, s4];
            forall k :: 0 <= k < 5 ==> linked(dbs[k], steps[k], dbs[k + 1])
  {}

  lemma FiveLeads(d0: DB, d1: DB, d2: DB, d3: DB, d4: DB, d5: DB, s0: Step, s1: Step, s2: Step, s3: Step, s4: Step)
    requires Leads(d0, s0, d1) && Leads(d1, s1, d2) && Leads(d2, s2, d3) && Leads(d3, s3, d4) && Leads(d4, s4, d5)
    ensures Leading([d0, d1, d2, d3, d4, d5], [s0, s1, s2, s3, s4])
  {
    var linked: (DB, Step, DB) -> bool := (d, s, e) => Leads(d, s, e);
    FiveLinks(linked, d0, d1, d2, d3, d4, d5, s0, s1, s2, s3, s4);
    var dbs, steps := [d0, d1, d2, d3, d4, d5], [s0, s1, s2, s3, s4];
    forall k | 0 <= k < |steps| ensures Leads(dbs[k], steps[k], dbs[k + 1]) {
      assert linked(dbs[k], steps[k], dbs[k + 1]);
    }
  }

  const OPEN := CreateQueue(1, Some(PolicyOf(2)))
  const REPEAT := [OPEN, InsertJob(TRY), CLAIM, DONE, InsertJob(TRY)]

  lemma LeadsToFirst() returns (first: Row)
    ensures Leads(Init(0), OPEN, Begun(PolicyOf(2)))
    ensures Leads(Begun(PolicyOf(2)), InsertJob(TRY), Lone(0, PolicyOf(2), first))
    ensures OutcomeOf(Begun(PolicyOf(2)), TRY).Created? && Met(first, 2, Queued)
  {
    first := MeetFirst(2, TRY);
    FirstSteps(PolicyOf(2), TRY);
  }

  lemma LeadsToRunning(first: Row) returns (running: Row)
    requires Met(first, 2, Queued)
    ensures Leads(Lone(0, PolicyOf(2), first), CLAIM, Lone(0, PolicyOf(2), running)) && Met(running, 2, Running)
  {
    running := MeetRunning(2, first);
  }

  lemma LeadsToDone(running: Row) returns (done: Row)
    requires Met(running, 2, Running)
    ensures Leads(Lone(0, PolicyOf(2), running), DONE, Lone(0, PolicyOf(2), done)) && Met(done, 2, Completed)
  {
    done := MeetCompleted(2, running);
  }

  lemma LeadsToRepeat(done: Row)
    requires Stage(done, 2, Completed)
    ensures Leads(Lone(0, PolicyOf(2), done), InsertJob(TRY), Insert(Lone(0, PolicyOf(2), done), TRY))
  {
    InsertedAnew(done, Completed);
  }

  /** The run in which a keyed job is inserted, claimed and completed, and the same insert comes again. */
  lemma RepeatRun() returns (dbs: seq<DB>, running: Row, done: Row)
    ensures IsRun(dbs, REPEAT) && |dbs| == 6 && dbs[0] == Init(0) && OutcomeOf(dbs[1], TRY).Created?
    ensures dbs[3] == Lone(0, PolicyOf(2), running) && Stage(running, 2, Running)
    ensures dbs[4] == Lone(0, PolicyOf(2), done) && Stage(done, 2, Completed)
  {
    InitOk(0);
    var first := LeadsToFirst();
    running := LeadsToRunning(first);
    done := LeadsToDone(running);
    LeadsToRepeat(done);
    dbs := [Init(0), Begun(PolicyOf(2)), Lone(0, PolicyOf(2), first), Lone(0, PolicyOf(2), running),
            Lone(0, PolicyOf(2), done), Insert(Lone(0, PolicyOf(2), done), TRY)];
    FiveLeads(dbs[0], dbs[1], dbs[2], dbs[3], dbs[4], dbs[5], OPEN, InsertJob(TRY), CLAIM, DONE, InsertJob(TRY));
    LeadingIsRun(dbs, REPEAT);
  }

  lemma MetByRepeat(running: Row, done: Row)
    requires Stage(running, 2, Running) && Stage(done, 2, Completed)
    ensures OutcomeOf(Lone(0, PolicyOf(2), running), TRY).Duplicate?
    ensures !KeyConflict(Lone(0, PolicyOf(2), done), 0, TRY.dedupe)
    ensures OutcomeOf(Lone(0, PolicyOf(2), done), TRY).Created?
  {
    assert Holds(Lone(0, PolicyOf(2), running).jobs[1], 0, TextKey("key"));
    InsertedAnew(done, Completed);
  }

  lemma TwoItems(dbs: seq<DB>) returns (world: seq<Moments>)
    requires |dbs| == 6
    ensures world == [Moments(dbs[1], dbs[1], dbs[1]), Moments(dbs[4], dbs[4], dbs[4])]
    ensures BatchOfRun(dbs, REPEAT, [1, 4], [1, 4], world, [TRY, TRY])
  {
    world := [Moments(dbs[1], dbs[1], dbs[1]), Moments(dbs[4], dbs[4], dbs[4])];
  }

  /** Two items of one batch with one key are both created when the first item's job is completed before the second
      item's turn. And an INSERT that meets the running job throws when the job is completed before the lookup. */
  lemma RepeatCanBeCreatedOrThrow() returns (dbs: seq<DB>, world: seq<Moments>)
    ensures IsRun(dbs, REPEAT) && dbs[0] == Init(0) && TRY.dedupe.Some?
    ensures BatchOfRun(dbs, REPEAT, [1, 4], [1, 4], world, [TRY, TRY])
    ensures VerdictOf(world[0], TRY).Landed? && VerdictOf(world[1], TRY).Landed?
    ensures OutcomeOf(dbs[3], TRY).Duplicate? && VerdictOf(Moments(dbs[3], dbs[3], dbs[4]), TRY).Thrown?
  {
    var running, done;
    dbs, running, done := RepeatRun();
    MetByRepeat(running, done);
    world := TwoItems(dbs);
  }
}
