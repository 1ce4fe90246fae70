/** Runs from the empty database to what goes wrong without a further guard: a job that comes back to the worker that
    lost it, slots overrun by it, and a limit exceeded by two claims without the lock. */
module Incidents {
  import opened Common
  import opened Lifecycle
  import opened Backoff
  import opened Model
  import opened Rows
  import opened Database
  import opened Steps
  import opened Invariant
  import opened Runs
  import opened Handlers
  import opened Worker
  import opened Admission
  import opened Witness

  // ---- runs, one step after another

  lemma RunOneMore(dbs: seq<DB>, steps: seq<Step>, step: Step, e: DB) returns (longer: seq<DB>, more: seq<Step>)
    requires IsRun(dbs, steps) && Leads(dbs[|steps|], step, e)
    ensures longer == dbs + [e] && more == steps + [step]
    ensures IsRun(longer, more) && |longer| == |dbs| + 1 && longer[|more|] == e
  {
    longer, more := dbs + [e], steps + [step];
    forall k | 0 <= k < |more| ensures Enabled(longer[k], more[k]) && longer[k + 1] == Apply(longer[k], more[k]) {
      assert k < |steps| ==> longer[k] == dbs[k] && longer[k + 1] == dbs[k + 1] && more[k] == steps[k];
    }
  }

  lemma LoneLeads(now: int, policy: RetryPolicy, r: Row, step: Step, op: Op)
    requires Enabled(Lone(now, policy, r), step) && WorkOf(step) == Some(Work([1], op))
    requires RowOk(r) && r.job.spec.queue == 0 && Legal(r, op, now) && !op.Cancel?
    ensures Leads(Lone(now, policy, r), step, Lone(now, policy, After(r, op, now)))
    ensures Acts(Lone(now, policy, r), step, 1)
    ensures RowOk(After(r, op, now)) && After(r, op, now).job.spec == r.job.spec
  {
    LoneApply(now, policy, r, step, op);
    LoneDo(now, policy, r, op);
    LoneNotRefused(now, policy, r, op);
    LoneView(now, policy, r);
    LegalKeepsRow(r, op, now);
    StatusFollowsEdges(r, op, now);
  }

  lemma TimePasses(now: int, policy: RetryPolicy, r: Row, to: int)
    requires now <= to
    ensures Leads(Lone(now, policy, r), Tick(to), Lone(to, policy, r))
  {}

  // ---- a job that comes back

  const REAP := ReclaimStuck([1], {})
  const BACK := [OPEN, InsertJob(TRY), Claiming(2), Tick(1001), REAP, Claiming(1)]

  /** Claimed by worker 0 at time 0 for a second, and waiting. */
  lemma FirstClaim(first: Row) returns (held: Row)
    requires Met(first, 2, Queued)
    ensures Leads(Lone(0, PolicyOf(2), first), Claiming(2), Lone(0, PolicyOf(2), held))
    ensures ClaimActs(Lone(0, PolicyOf(2), first), Claiming(2), 0, 1)
    ensures Stage(held, 2, Running) && held.job.lockedUntil == Some(1000)
  {
    held := After(first, Claim(0, 1), 0);
    CanClaim(0, PolicyOf(2), first, 2);
    LoneLeads(0, PolicyOf(2), first, Claiming(2), Claim(0, 1));
  }

  ghost predicate Waiting(r: Row) {
    && RowOk(r) && r.job.status.Queued? && r.job.runAt == 1001 && r.job.attempts == 1 && r.job.maxAttempts == 2
    && r.job.spec.queue == 0 && r.execs.Keys == {1} && r.execs[1].status.ExecFailed?
  }

  lemma Lapsed(held: Row) returns (waiting: Row)
    requires Stage(held, 2, Running) && held.job.lockedUntil == Some(1000)
    ensures Leads(Lone(1001, PolicyOf(2), held), REAP, Lone(1001, PolicyOf(2), waiting)) && Waiting(waiting)
  {
    waiting := After(held, Reclaim, 1001);
    assert StuckJobs(Lone(1001, PolicyOf(2), held)) - {} == {1} == Elems([1]);
    LoneLeads(1001, PolicyOf(2), held, REAP, Reclaim);
  }

  ghost predicate HeldAgain(r: Row) {
    && RowOk(r) && r.job.status.Running? && r.job.attempts == 2 && r.job.spec.queue == 0
    && Fenced(r.job, 0, 1001) && r.execs.Keys == {1, 2}
    && r.execs[1].status.ExecFailed? && r.execs[2].status.ExecRunning?
  }

  lemma ClaimedAgain(r: Row)
    requires Waiting(r)
    ensures HeldAgain(After(r, Claim(0, 1), 1001))
  {
    LegalKeepsRow(r, Claim(0, 1), 1001);
  }

  lemma SecondClaim(waiting: Row) returns (again: Row)
    requires Waiting(waiting)
    ensures Leads(Lone(1001, PolicyOf(2), waiting), Claiming(1), Lone(1001, PolicyOf(2), again)) && HeldAgain(again)
    ensures ClaimActs(Lone(1001, PolicyOf(2), waiting), Claiming(1), 0, 1)
  {
    again := After(waiting, Claim(0, 1), 1001);
    ClaimedAgain(waiting);
    CanClaim(1001, PolicyOf(2), waiting, 1);
    LoneLeads(1001, PolicyOf(2), waiting, Claiming(1), Claim(0, 1));
  }

  lemma SixLeads(d0: DB, d1: DB, d2: DB, d3: DB, d4: DB, d5: DB, d6: DB,
                 s0: Step, s1: Step, s2: Step, s3: Step, s4: Step, s5: Step)
    requires Inv(d0) && Leads(d0, s0, d1) && Leads(d1, s1, d2) && Leads(d2, s2, d3)
    requires Leads(d3, s3, d4) && Leads(d4, s4, d5) && Leads(d5, s5, d6)
    ensures IsRun([d0, d1, d2, d3, d4, d5, d6], [s0, s1, s2, s3, s4, s5])
  {
    var linked: (DB, Step, DB) -> bool := (d, s, e) => Leads(d, s, e);
    SixLinks(linked, d0, d1, d2, d3, d4, d5, d6, s0, s1, s2, s3, s4, s5);
    var dbs, steps := [d0, d1, d2, d3, d4, d5, d6], [s0, s1, s2, s3, s4, s5];
    forall k | 0 <= k < |steps| ensures Leads(dbs[k], steps[k], dbs[k + 1]) {
      assert linked(dbs[k], steps[k], dbs[k + 1]);
    }
    LeadingIsRun(dbs, steps);
  }

  /** Worker 0 claims job 1 twice, with no report of its own in between. */
  predicate ClaimedTwice(dbs: seq<DB>) {
    |dbs| > 6 && ClaimActs(dbs[2], Claiming(2), 0, 1) && ClaimActs(dbs[5], Claiming(1), 0, 1)
  }

  lemma ClaimedTwiceStays(dbs: seq<DB>, longer: seq<DB>)
    requires ClaimedTwice(dbs) && |dbs| <= |longer| && longer[..|dbs|] == dbs
    ensures ClaimedTwice(longer) && longer[0] == dbs[0]
  {
    assert longer[0] == dbs[0] && longer[2] == dbs[2] && longer[5] == dbs[5];
  }

  lemma RunOfRows(first: Row, held: Row, waiting: Row, again: Row) returns (dbs: seq<DB>)
    requires Leads(Init(0), OPEN, Begun(PolicyOf(2)))
    requires Leads(Begun(PolicyOf(2)), InsertJob(TRY), Lone(0, PolicyOf(2), first))
    requires Leads(Lone(0, PolicyOf(2), first), Claiming(2), Lone(0, PolicyOf(2), held))
    requires Leads(Lone(1001, PolicyOf(2), held), REAP, Lone(1001, PolicyOf(2), waiting))
    requires Leads(Lone(1001, PolicyOf(2), waiting), Claiming(1), Lone(1001, PolicyOf(2), again))
    ensures IsRun(dbs, BACK) && |dbs| == 7 && dbs[0] == Init(0) && dbs[2] == Lone(0, PolicyOf(2), first)
    ensures dbs[5] == Lone(1001, PolicyOf(2), waiting) && dbs[6] == Lone(1001, PolicyOf(2), again)
  {
    InitOk(0);
    TimePasses(0, PolicyOf(2), held, 1001);
    dbs := [Init(0), Begun(PolicyOf(2)), Lone(0, PolicyOf(2), first), Lone(0, PolicyOf(2), held),
            Lone(1001, PolicyOf(2), held), Lone(1001, PolicyOf(2), waiting), Lone(1001, PolicyOf(2), again)];
    SixLeads(dbs[0], dbs[1], dbs[2], dbs[3], dbs[4], dbs[5], dbs[6],
             OPEN, InsertJob(TRY), Claiming(2), Tick(1001), REAP, Claiming(1));
  }

  lemma RunBack() returns (dbs: seq<DB>, again: Row)
    ensures IsRun(dbs, BACK) && |dbs| == 7 && dbs[0] == Init(0) && ClaimedTwice(dbs)
    ensures dbs[6] == Lone(1001, PolicyOf(2), again) && HeldAgain(again)
  {
    var first := LeadsToFirst();
    var held := FirstClaim(first);
    var waiting := Lapsed(held);
    again := SecondClaim(waiting);
    dbs := RunOfRows(first, held, waiting, again);
  }

  /** Attempt 1 of job 1 failed, attempt 2 succeeded. */
  predicate SettledBySecond(db: DB) {
    && 1 in db.jobs && db.jobs[1].status.Completed? && 1 in db.execs && db.execs[1].Keys == {1, 2}
    && db.execs[1][1].status.ExecFailed? && db.execs[1][2].status.ExecSucceeded?
  }

  lemma ReportPasses(again: Row) returns (done: Row)
    requires HeldAgain(again)
    ensures Leads(Lone(1001, PolicyOf(2), again), DONE, Lone(1001, PolicyOf(2), done))
    ensures Acts(Lone(1001, PolicyOf(2), again), DONE, 1) && SettledBySecond(Lone(1001, PolicyOf(2), done))
  {
    done := After(again, Complete(0, 1), 1001);
    LoneLeads(1001, PolicyOf(2), again, DONE, Complete(0, 1));
  }

  /** A worker's lease lapses, the reaper gives the job back, and the same worker claims it again; a completion by that
      worker then settles the second attempt, and nothing in it tells which of its two handlers sent it. */
  lemma StaleReportPasses() returns (dbs: seq<DB>)
    ensures IsRun(dbs, BACK + [DONE]) && |dbs| == 8 && dbs[0] == Init(0)
    ensures ClaimedTwice(dbs) && Acts(dbs[6], DONE, 1) && SettledBySecond(dbs[7])
  {
    var back, again := RunBack();
    var done := ReportPasses(again);
    dbs := Reported(back, again, done);
    ClaimedTwiceStays(back, dbs);
  }

  lemma Reported(back: seq<DB>, again: Row, done: Row) returns (dbs: seq<DB>)
    requires IsRun(back, BACK) && |back| == 7 && back[6] == Lone(1001, PolicyOf(2), again)
    requires Leads(back[6], DONE, Lone(1001, PolicyOf(2), done))
    ensures IsRun(dbs, BACK + [DONE]) && |dbs| == 8 && dbs[..7] == back && dbs[6] == back[6]
    ensures dbs[7] == Lone(1001, PolicyOf(2), done)
  {
    var longer, more := RunOneMore(back, BACK, DONE, Lone(1001, PolicyOf(2), done));
    dbs := longer;
  }

  // ---- the slots

  const ELSEWHERE := TRY.(queue := 2, dedupe := None)
  const THIRD := ClaimJobs(2, 0, 1, 1, 1, {}, [3])
  const OTHERS := [CreateQueue(1, None), InsertJob(ELSEWHERE), THIRD]

  /** Queue 2 is open, empty, and the last thing created. */
  predicate SecondQueue(db: DB) {
    && db.nextId == 3 && db.now == 1001 && 2 in db.queues && db.queues[2].limit == 1 && !db.queues[2].paused
    && forall i :: i in db.jobs ==> db.jobs[i].spec.queue != 2
  }

  lemma OpenSecond(again: Row) returns (e: DB)
    requires HeldAgain(again)
    ensures Leads(Lone(1001, PolicyOf(2), again), CreateQueue(1, None), e) && SecondQueue(e)
  {
    e := Apply(Lone(1001, PolicyOf(2), again), CreateQueue(1, None));
  }

  lemma AnyKeylessInsert(db: DB) returns (e: DB)
    requires SecondQueue(db)
    ensures Leads(db, InsertJob(ELSEWHERE), e)
    ensures Eligible(e, 2) == {3} && Members(e.jobs, 2, Running) == {}
    ensures 2 in e.queues && e.queues[2].limit == 1 && !e.queues[2].paused
  {
    e := Insert(db, ELSEWHERE);
    assert OutcomeOf(db, ELSEWHERE).Created?;
    assert Apply(db, InsertJob(ELSEWHERE)) == e;
  }

  lemma ThirdClaim(db: DB)
    requires Eligible(db, 2) == {3} && Members(db.jobs, 2, Running) == {}
    requires 2 in db.queues && db.queues[2].limit == 1 && !db.queues[2].paused
    ensures Enabled(db, THIRD) && 3 in db.jobs
  {
    assert Eligible(db, 2) - {} == {3} && 3 in Eligible(db, 2);
  }

  lemma RunIsLeading(dbs: seq<DB>, steps: seq<Step>)
    requires IsRun(dbs, steps)
    ensures Leading(dbs, steps)
  {}

  lemma ThreeMore(dbs: seq<DB>, steps: seq<Step>, s0: Step, s1: Step, s2: Step, d0: DB, d1: DB, d2: DB)
    requires IsRun(dbs, steps) && Leads(dbs[|steps|], s0, d0) && Leads(d0, s1, d1) && Leads(d1, s2, d2)
    ensures IsRun(dbs + [d0, d1, d2], steps + [s0, s1, s2])
  {
    var linked: (DB, Step, DB) -> bool := (d, s, e) => Leads(d, s, e);
    RunIsLeading(dbs, steps);
    ThreeMoreLinks(linked, dbs, steps, d0, d1, d2, s0, s1, s2);
    LeadingIsRun(dbs + [d0, d1, d2], steps + [s0, s1, s2]);
  }

  lemma OthersFollow(back: seq<DB>, again: Row) returns (dbs: seq<DB>)
    requires IsRun(back, BACK) && |back| == 7 && back[6] == Lone(1001, PolicyOf(2), again) && HeldAgain(again)
    ensures IsRun(dbs, BACK + OTHERS) && |dbs| == 10 && dbs[..7] == back
  {
    var d7 := OpenSecond(again);
    var d8 := AnyKeylessInsert(d7);
    ThirdClaim(d8);
    var d9 := Apply(d8, THIRD);
    ThreeMore(back, BACK, CreateQueue(1, None), InsertJob(ELSEWHERE), THIRD, d7, d8, d9);
    dbs := back + [d7, d8, d9];
  }

  lemma RunOfThree() returns (dbs: seq<DB>)
    ensures IsRun(dbs, BACK + OTHERS) && |dbs| == 10 && dbs[0] == Init(0) && ClaimedTwice(dbs)
  {
    var back, again := RunBack();
    dbs := OthersFollow(back, again);
    ClaimedTwiceStays(back, dbs);
  }

  /** A worker of two slots meets that run with its first handler for job 1 still in flight: each claim is told of the
      slots that the map leaves free, and the tick of the last two claims ends with three handlers in flight. */
  lemma SlotsOverrun() returns (dbs: seq<DB>)
    ensures IsRun(dbs, BACK + OTHERS) && |dbs| == 10 && dbs[0] == Init(0) && ClaimedTwice(dbs)
    ensures Overruns(1, 3, [Claiming(2).localFree, Claiming(1).localFree, THIRD.localFree], 3)
  {
    dbs := RunOfThree();
    TickOverruns(1, 3);
  }

  // ---- the limit

  const KEYLESS := TRY.(dedupe := None)
  const TWICE := [OPEN, InsertJob(KEYLESS), InsertJob(KEYLESS)]

  lemma TwoWaiting(db: DB)
    requires db == Insert(Lone(0, PolicyOf(2), FirstRow(PolicyOf(2), KEYLESS)), KEYLESS)
    ensures 0 in db.queues && !db.queues[0].paused && db.queues[0].limit == 1 && RunningIn(db, 0) == 0
    ensures 1 in Eligible(db, 0) && 2 in Eligible(db, 0)
  {
    assert Members(db.jobs, 0, Running) == {};
  }

  lemma KeylessLeads() returns (one: DB)
    ensures Leads(Init(0), OPEN, Begun(PolicyOf(2))) && Leads(Begun(PolicyOf(2)), InsertJob(KEYLESS), one)
    ensures one == Lone(0, PolicyOf(2), FirstRow(PolicyOf(2), KEYLESS))
  {
    FirstSteps(PolicyOf(2), KEYLESS);
    one := Lone(0, PolicyOf(2), FirstRow(PolicyOf(2), KEYLESS));
  }

  lemma SecondKeyless(one: DB)
    ensures Leads(one, InsertJob(KEYLESS), Insert(one, KEYLESS))
  {}

  lemma OpenTwoWaiting() returns (dbs: seq<DB>)
    ensures IsRun(dbs, TWICE) && |dbs| == 4 && dbs[0] == Init(0)
    ensures dbs[3] == Insert(Lone(0, PolicyOf(2), FirstRow(PolicyOf(2), KEYLESS)), KEYLESS)
  {
    InitOk(0);
    var one := KeylessLeads();
    SecondKeyless(one);
    dbs := ThreeFrom(Init(0), OPEN, InsertJob(KEYLESS), InsertJob(KEYLESS),
                     Begun(PolicyOf(2)), one, Insert(one, KEYLESS));
  }

  lemma RunStarts(db: DB) returns (dbs: seq<DB>, steps: seq<Step>)
    requires Inv(db)
    ensures IsRun(dbs, steps) && dbs == [db] && |steps| == 0
  {
    dbs, steps := [db], [];
  }

  lemma ThreeFrom(db: DB, s0: Step, s1: Step, s2: Step, d0: DB, d1: DB, d2: DB) returns (dbs: seq<DB>)
    requires Inv(db) && Leads(db, s0, d0) && Leads(d0, s1, d1) && Leads(d1, s2, d2)
    ensures IsRun(dbs, [s0, s1, s2]) && dbs == [db, d0, d1, d2]
  {
    var start, none := RunStarts(db);
    ThreeMore(start, none, s0, s1, s2, d0, d1, d2);
    dbs := start + [d0, d1, d2];
    assert none + [s0, s1, s2] == [s0, s1, s2];
  }

  lemma ReadyToRace(db: DB)
    requires 0 in db.queues && !db.queues[0].paused && db.queues[0].limit == 1 && RunningIn(db, 0) == 0
    requires 1 in Eligible(db, 0) && 2 in Eligible(db, 0)
    ensures RaceReady(db, 0, [1], [2])
  {}

  lemma RunToTwoWaiting() returns (dbs: seq<DB>, steps: seq<Step>)
    ensures steps == TWICE && IsRun(dbs, steps) && |steps| == 3 && dbs[0] == Init(0)
    ensures Inv(dbs[3]) && RaceReady(dbs[3], 0, [1], [2])
    ensures forall k :: 0 <= k < 3 ==> !steps[k].ClaimJobs?
  {
    dbs := OpenTwoWaiting();
    steps := TWICE;
    RunInv(dbs, steps, 3);
    TwoWaiting(dbs[3]);
    ReadyToRace(dbs[3]);
  }

  /** From the empty database, without the lock: a queue of limit one, two waiting jobs, two interleaved claims, and two
      running jobs. */
  lemma LimitExceeded() returns (ss: seq<Sys>, acts: seq<Act>)
    ensures acts == Others(TWICE) + Race(0, 1, [1], [2]) && SysRun(false, ss, acts)
    ensures ss[0] == Sys(Init(0), map[]) && OverLimit(ss[|acts|].db, 0)
  {
    var dbs, steps := RunToTwoWaiting();
    var before := RunWithoutClaims(false, dbs, steps);
    var race := WithoutLockOverAdmits(dbs[3], 0, [1], [2]);
    ss := SysRunThen(false, before, Others(steps), race, Race(0, 1, [1], [2]));
    acts := Others(steps) + Race(0, 1, [1], [2]);
  }
}
