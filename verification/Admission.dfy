/** The claim in three parts - lock, statement snapshot, commit - interleaved with everything else, and what the
    per-queue lock is for. */
module Admission {
  import opened Common
  import opened Lifecycle
  import opened Model
  import opened Rows
  import opened Database
  import opened Steps
  import opened Invariant
  import opened Runs
  import opened Guarantees

  /** An open claim transaction: past the lock statement, and then past the snapshot of its one big statement. */
  datatype Tx =
    | Locked(queue: Id)
    | Snapped(queue: Id, limit: int, running: nat, take: int)

  datatype Sys = Sys(db: DB, txs: map<Id, Tx>)

  datatype Act =
    | Other(step: Step)
    | Acquire(tx: Id, queue: Id)
    | Snapshot(tx: Id, localFree: int, cap: int)
    | Commit(tx: Id, worker: Id, lease: nat, picked: seq<Id>)

  /** The snapshot reads the limit, the pause flag and the running count. */
  function ReadBudget(db: DB, q: Id, localFree: int, cap: int): Tx {
    var running := Count(db.jobs, q, Running);
    if q !in db.queues then Snapped(q, 0, running, 0)
    else
      var c := db.queues[q];
      Snapped(q, c.limit, running, if c.paused then 0 else Take(c.limit, running, localFree, cap))
  }

  /** With the lock in use, a queue's lock has one holder, from the lock statement to the commit. */
  ghost predicate CanAct(useLock: bool, s: Sys, a: Act) {
    match a
    case Other(step) => Enabled(s.db, step) && !step.ClaimJobs?
    case Acquire(tx, q) => tx !in s.txs && (useLock ==> forall t :: t in s.txs ==> s.txs[t].queue != q)
    case Snapshot(tx, _, _) => tx in s.txs && s.txs[tx].Locked?
    case Commit(tx, _, _, picked) =>
      && tx in s.txs && s.txs[tx].Snapped?
      && NoDup(picked) && |picked| <= Max(s.txs[tx].take, 0)
      && forall i :: i in picked ==> i in Eligible(s.db, s.txs[tx].queue)
  }

  function Perform(s: Sys, a: Act): Sys {
    match a
    case Other(step) => s.(db := Apply(s.db, step))
    case Acquire(tx, q) => s.(txs := s.txs[tx := Locked(q)])
    case Snapshot(tx, localFree, cap) =>
      if tx in s.txs then s.(txs := s.txs[tx := ReadBudget(s.db, s.txs[tx].queue, localFree, cap)]) else s
    case Commit(tx, w, lease, picked) => Sys(Transact(s.db, Work(picked, Claim(w, lease))), s.txs - {tx})
  }

  function RunningIn(db: DB, q: Id): nat {
    Count(db.jobs, q, Running)
  }

  // ---- who may raise the number of running jobs

  lemma StaysRunning(r: Row, op: Op, now: int)
    requires RowOk(r) && Legal(r, op, now) && !op.Claim? && After(r, op, now).job.status.Running?
    ensures r.job.status.Running?
  {}

  lemma NotNewlyRunning(db: DB, e: DB, step: Step, i: Id, q: Id)
    requires JobStep(db, e, step, i) && !step.ClaimJobs? && i in Members(e.jobs, q, Running)
    ensures i in Members(db.jobs, q, Running)
  {
    if i in db.jobs {
      assert View(e, i).job == e.jobs[i];
      if Acts(db, step, i) {
        StatusFollowsEdges(View(db, i), WorkOf(step).value.op, db.now);
        StaysRunning(View(db, i), WorkOf(step).value.op, db.now);
      }
    }
  }

  /** Only a claim raises the number of running jobs of a queue. */
  lemma OnlyClaimsRaise(db: DB, step: Step, q: Id)
    requires Inv(db) && Enabled(db, step) && !step.ClaimJobs?
    ensures RunningIn(Apply(db, step), q) <= RunningIn(db, q)
  {
    var e := Apply(db, step);
    forall i | i in Members(e.jobs, q, Running)
      ensures i in Members(db.jobs, q, Running)
    {
      StepOnJob(db, step, i);
      NotNewlyRunning(db, e, step, i, q);
    }
    SubsetSize(Members(e.jobs, q, Running), Members(db.jobs, q, Running));
  }

  lemma SubsetSize(a: set<Id>, b: set<Id>)
    requires a <= b
    ensures |a| <= |b|
  {
    assert b == a + (b - a);
  }

  lemma {:induction false} SeqSize(s: seq<Id>)
    requires NoDup(s)
    ensures |Elems(s)| == |s|
  {
    if |s| > 0 {
      var front := s[..|s| - 1];
      SeqSize(front);
      assert s == front + [s[|s| - 1]];
      assert Elems(s) == Elems(front) + {s[|s| - 1]};
      assert s[|s| - 1] !in front;
    }
  }

  lemma ClaimedRow(db: DB, picked: seq<Id>, w: Id, lease: nat, i: Id)
    requires NoDup(picked) && i in db.jobs
    requires forall j :: j in picked ==> j in db.jobs && db.jobs[j].status.Queued? && db.jobs[j].runAt <= db.now
    ensures var e := DoAll(db, picked, Claim(w, lease));
            && e.jobs.Keys == db.jobs.Keys && e.jobs[i].spec == db.jobs[i].spec
            && (e.jobs[i].status.Running? <==> i in picked || db.jobs[i].status.Running?)
  {
    DoAllView(db, picked, Claim(w, lease));
    assert View(DoAll(db, picked, Claim(w, lease)), i).job == DoAll(db, picked, Claim(w, lease)).jobs[i];
  }

  lemma ClaimMembers(db: DB, q: Id, picked: seq<Id>, w: Id, lease: nat, p: Id)
    requires NoDup(picked) && forall i :: i in picked ==> i in Eligible(db, q)
    ensures Members(DoAll(db, picked, Claim(w, lease)).jobs, p, Running) ==
            Members(db.jobs, p, Running) + if p == q then Elems(picked) else {}
    ensures p == q ==> Members(db.jobs, p, Running) !! Elems(picked)
  {
    var e := DoAll(db, picked, Claim(w, lease));
    DoAllView(db, picked, Claim(w, lease));
    forall i | i in db.jobs
      ensures i in Members(e.jobs, p, Running) <==> i in Members(db.jobs, p, Running) || (p == q && i in picked)
    {
      ClaimedRow(db, picked, w, lease, i);
    }
  }

  /** A claim raises the number of running jobs of its queue by exactly the rows it took, and no other queue's. */
  lemma ClaimRaises(db: DB, q: Id, picked: seq<Id>, w: Id, lease: nat, p: Id)
    requires NoDup(picked) && forall i :: i in picked ==> i in Eligible(db, q)
    ensures RunningIn(DoAll(db, picked, Claim(w, lease)), p) == RunningIn(db, p) + if p == q then |picked| else 0
  {
    ClaimMembers(db, q, picked, w, lease, p);
    SeqSize(picked);
  }

  /** The claim's one decrement by the number of its rows never meets its clamp. */
  lemma ClaimNeverClamps(db: DB, q: Id, picked: seq<Id>)
    requires Inv(db) && q in db.queues && NoDup(picked) && forall i :: i in picked ==> i in Eligible(db, q)
    ensures db.queues[q].statQueued >= |picked|
  {
    assert StatsOk(db, q);
    assert Elems(picked) <= Members(db.jobs, q, Queued);
    SubsetSize(Elems(picked), Members(db.jobs, q, Queued));
    SeqSize(picked);
  }

  lemma CommitIsClaim(db: DB, q: Id, picked: seq<Id>, w: Id, lease: nat)
    requires Inv(db) && forall i :: i in picked ==> i in Eligible(db, q)
    ensures Transact(db, Work(picked, Claim(w, lease))) == DoAll(db, picked, Claim(w, lease))
  {
    ClaimNeverRefused(db, w, lease, picked);
  }

  /** What a commit does to the numbers that admission looks at. */
  ghost predicate Admits(db: DB, e: DB, q: Id, n: nat) {
    && Inv(e) && e.nextId == db.nextId && e.queues.Keys == db.queues.Keys
    && (forall p :: p in db.queues ==> e.queues[p].limit == db.queues[p].limit)
    && (forall p :: RunningIn(e, p) == RunningIn(db, p) + if p == q then n else 0)
  }

  lemma CommitAdmits(db: DB, q: Id, picked: seq<Id>, w: Id, lease: nat)
    requires Inv(db) && NoDup(picked) && forall i :: i in picked ==> i in Eligible(db, q)
    ensures Admits(db, Transact(db, Work(picked, Claim(w, lease))), q, |picked|)
  {
    CommitIsClaim(db, q, picked, w, lease);
    DoAllKeepsInv(db, picked, Claim(w, lease));
    DoAllView(db, picked, Claim(w, lease));
    var e := DoAll(db, picked, Claim(w, lease));
    forall p | p in db.queues ensures e.queues[p].limit == db.queues[p].limit {
      assert SameConfig(db.queues[p], e.queues[p]);
    }
    forall p ensures RunningIn(e, p) == RunningIn(db, p) + if p == q then |picked| else 0 {
      ClaimRaises(db, q, picked, w, lease, p);
    }
  }

  // ---- the invariant that the lock buys

  ghost predicate OneClaimPerQueue(txs: map<Id, Tx>) {
    forall t, u :: t in txs && u in txs && txs[t].queue == txs[u].queue ==> t == u
  }

  /** No running count has grown since its holder's snapshot. */
  ghost predicate SnapsOk(db: DB, txs: map<Id, Tx>) {
    forall t :: t in txs && txs[t].Snapped? ==>
      && RunningIn(db, txs[t].queue) <= txs[t].running
      && txs[t].take <= Max(txs[t].limit - txs[t].running, 0)
  }

  ghost predicate LockInv(s: Sys) {
    Inv(s.db) && OneClaimPerQueue(s.txs) && SnapsOk(s.db, s.txs)
  }

  lemma OtherKeepsSnaps(db: DB, txs: map<Id, Tx>, step: Step)
    requires Inv(db) && SnapsOk(db, txs) && Enabled(db, step) && !step.ClaimJobs?
    ensures SnapsOk(Apply(db, step), txs)
  {
    forall t | t in txs && txs[t].Snapped?
      ensures RunningIn(Apply(db, step), txs[t].queue) <= txs[t].running
    {
      OnlyClaimsRaise(db, step, txs[t].queue);
    }
  }

  lemma CommitKeepsSnaps(db: DB, e: DB, txs: map<Id, Tx>, tx: Id, n: nat)
    requires tx in txs && OneClaimPerQueue(txs) && SnapsOk(db, txs) && Admits(db, e, txs[tx].queue, n)
    ensures SnapsOk(e, txs - {tx}) && OneClaimPerQueue(txs - {tx})
  {}

  lemma LockInvOther(s: Sys, step: Step)
    requires LockInv(s) && CanAct(true, s, Other(step))
    ensures LockInv(Perform(s, Other(step)))
  {
    StepKeepsInv(s.db, step);
    OtherKeepsSnaps(s.db, s.txs, step);
  }

  lemma LockInvCommit(s: Sys, tx: Id, w: Id, lease: nat, picked: seq<Id>)
    requires LockInv(s) && CanAct(true, s, Commit(tx, w, lease, picked))
    ensures LockInv(Perform(s, Commit(tx, w, lease, picked)))
  {
    CommitAdmits(s.db, s.txs[tx].queue, picked, w, lease);
    CommitKeepsSnaps(s.db, Transact(s.db, Work(picked, Claim(w, lease))), s.txs, tx, |picked|);
  }

  /** Opening a claim, or taking its snapshot, touches only its own transaction. */
  lemma LockInvBegin(s: Sys, a: Act)
    requires OneClaimPerQueue(s.txs) && SnapsOk(s.db, s.txs) && CanAct(true, s, a) && (a.Acquire? || a.Snapshot?)
    ensures Perform(s, a).db == s.db && OneClaimPerQueue(Perform(s, a).txs) && SnapsOk(s.db, Perform(s, a).txs)
  {
    var txs := Perform(s, a).txs;
    if a.Snapshot? {
      var t := ReadBudget(s.db, s.txs[a.tx].queue, a.localFree, a.cap);
      assert txs == s.txs[a.tx := t];
      assert t.Snapped? && t.queue == s.txs[a.tx].queue && t.running == RunningIn(s.db, t.queue);
      assert t.take <= Max(t.limit - t.running, 0);
    }
  }

  lemma LockInvStep(s: Sys, a: Act)
    requires LockInv(s) && CanAct(true, s, a)
    ensures LockInv(Perform(s, a))
  {
    match a
    case Other(step) => LockInvOther(s, step);
    case Commit(tx, w, lease, picked) => LockInvCommit(s, tx, w, lease, picked);
    case Acquire(_, _) => LockInvBegin(s, a);
    case Snapshot(_, _, _) => LockInvBegin(s, a);
  }

  ghost predicate Stepped(useLock: bool, s: Sys, a: Act, t: Sys) {
    CanAct(useLock, s, a) && t == Perform(s, a)
  }

  ghost predicate SysRun(useLock: bool, ss: seq<Sys>, acts: seq<Act>) {
    && |ss| == |acts| + 1
    && (forall k :: 0 <= k < |acts| ==> Stepped(useLock, ss[k], acts[k], ss[k + 1]))
  }

  function Others(steps: seq<Step>): (acts: seq<Act>)
    ensures |acts| == |steps|
  {
    seq(|steps|, k requires 0 <= k < |steps| => Other(steps[k]))
  }

  /** A run of one-step transactions other than claims is a run in which no claim is open. */
  lemma RunWithoutClaims(useLock: bool, dbs: seq<DB>, steps: seq<Step>) returns (ss: seq<Sys>)
    requires IsRun(dbs, steps) && forall k :: 0 <= k < |steps| ==> !steps[k].ClaimJobs?
    ensures SysRun(useLock, ss, Others(steps)) && |ss| == |dbs|
    ensures forall k :: 0 <= k < |ss| ==> ss[k] == Sys(dbs[k], map[])
  {
    ss := seq(|dbs|, k requires 0 <= k < |dbs| => Sys(dbs[k], map[]));
    forall k | 0 <= k < |steps| ensures Stepped(useLock, ss[k], Other(steps[k]), ss[k + 1]) {
      assert Enabled(dbs[k], steps[k]) && dbs[k + 1] == Apply(dbs[k], steps[k]);
    }
  }

  /** One run after another. */
  lemma SysRunThen(useLock: bool, ss: seq<Sys>, acts: seq<Act>, tt: seq<Sys>, more: seq<Act>) returns (uu: seq<Sys>)
    requires SysRun(useLock, ss, acts) && SysRun(useLock, tt, more) && tt[0] == ss[|acts|]
    ensures SysRun(useLock, uu, acts + more) && uu[0] == ss[0] && uu[|acts| + |more|] == tt[|more|]
  {
    uu := ss + tt[1..];
    var both := acts + more;
    forall k | 0 <= k < |both| ensures Stepped(useLock, uu[k], both[k], uu[k + 1]) {
      if k < |acts| {
        assert Stepped(useLock, ss[k], acts[k], ss[k + 1]);
      } else {
        var j := k - |acts|;
        assert uu[k] == tt[j] && uu[k + 1] == tt[j + 1] && both[k] == more[j];
        assert Stepped(useLock, tt[j], more[j], tt[j + 1]);
      }
    }
  }

  /** The lock's invariant holds in every run with the lock, limits lowered or not. */
  lemma {:induction false} LockInvRun(ss: seq<Sys>, acts: seq<Act>, now: int, k: nat)
    requires SysRun(true, ss, acts) && ss[0] == Sys(Init(now), map[]) && k < |ss|
    ensures LockInv(ss[k])
  {
    if k == 0 {
      InitOk(now);
    } else {
      LockInvRun(ss, acts, now, k - 1);
      assert Stepped(true, ss[k - 1], acts[k - 1], ss[k]);
      LockInvStep(ss[k - 1], acts[k - 1]);
    }
  }

  lemma CommitBelowLimitRead(s: Sys, tx: Id, w: Id, lease: nat, picked: seq<Id>)
    requires LockInv(s) && CanAct(true, s, Commit(tx, w, lease, picked))
    ensures var q := s.txs[tx].queue;
            RunningIn(Perform(s, Commit(tx, w, lease, picked)).db, q) <= Max(RunningIn(s.db, q), s.txs[tx].limit)
  {
    CommitAdmits(s.db, s.txs[tx].queue, picked, w, lease);
  }

  /** What an open claim carries is what its own snapshot read, at some earlier state of the run. */
  ghost predicate SnappedAt(ss: seq<Sys>, acts: seq<Act>, n: nat, tx: Id, t: Tx)
    requires n < |acts| && n < |ss|
  {
    acts[n].Snapshot? && acts[n].tx == tx && t == ReadBudget(ss[n].db, t.queue, acts[n].localFree, acts[n].cap)
  }

  lemma {:induction false} SnapshotWasTaken(ss: seq<Sys>, acts: seq<Act>, k: nat, tx: Id) returns (n: nat)
    requires SysRun(true, ss, acts) && ss[0].txs == map[] && k < |ss|
    requires tx in ss[k].txs && ss[k].txs[tx].Snapped?
    ensures n < k && SnappedAt(ss, acts, n, tx, ss[k].txs[tx])
  {
    assert k > 0;
    var p := k - 1;
    assert Stepped(true, ss[p], acts[p], ss[k]);
    if acts[p].Snapshot? && acts[p].tx == tx {
      n := p;
    } else {
      assert tx in ss[p].txs && ss[p].txs[tx] == ss[k].txs[tx];
      n := SnapshotWasTaken(ss, acts, p, tx);
    }
  }

  /** In every run with the lock, whatever else interleaves and however limits are changed meanwhile, no claim raises
      the running count of its queue above the limit its own snapshot read, unless the count was above that already. */
  lemma CommitRespectsLimitRead(ss: seq<Sys>, acts: seq<Act>, now: int, k: nat) returns (n: nat)
    requires SysRun(true, ss, acts) && ss[0] == Sys(Init(now), map[]) && k < |acts| && acts[k].Commit?
    ensures acts[k].tx in ss[k].txs && ss[k].txs[acts[k].tx].Snapped?
    ensures var t := ss[k].txs[acts[k].tx];
            && n < k && SnappedAt(ss, acts, n, acts[k].tx, t)
            && RunningIn(ss[k + 1].db, t.queue) <= Max(RunningIn(ss[k].db, t.queue), t.limit)
  {
    LockInvRun(ss, acts, now, k);
    assert Stepped(true, ss[k], acts[k], ss[k + 1]);
    CommitBelowLimitRead(ss[k], acts[k].tx, acts[k].worker, acts[k].lease, acts[k].picked);
    n := SnapshotWasTaken(ss, acts, k, acts[k].tx);
  }

  // ---- runs that never lower a limit

  predicate LowersLimit(db: DB, a: Act) {
    a.Other? && a.step.UpdateQueue? && a.step.queue in db.queues && a.step.newLimit.Some?
    && a.step.newLimit.value < db.queues[a.step.queue].limit
  }

  ghost predicate LimitsOk(db: DB) {
    forall q :: q in db.queues ==> RunningIn(db, q) <= db.queues[q].limit
  }

  /** A limit that an open claim has read is not above the limit now. */
  ghost predicate ReadLimitsOk(db: DB, txs: map<Id, Tx>) {
    forall t :: t in txs && txs[t].Snapped? && (txs[t].queue in db.queues || txs[t].queue >= db.nextId) ==>
      txs[t].limit <= if txs[t].queue in db.queues then db.queues[txs[t].queue].limit else 0
  }

  ghost predicate WithinLimits(s: Sys) {
    LockInv(s) && LimitsOk(s.db) && ReadLimitsOk(s.db, s.txs)
  }

  /** Queues keep or raise their limit; a queue that is new has a new identifier. */
  ghost predicate LimitsKept(db: DB, e: DB) {
    && e.nextId >= db.nextId
    && (forall q :: q in db.queues && q in e.queues ==> e.queues[q].limit >= db.queues[q].limit)
    && (forall q :: q in e.queues && q !in db.queues ==> q >= db.nextId && e.queues[q].limit >= 1)
  }

  lemma BatchKeepsLimits(db: DB, w: Work)
    requires NoDup(w.ids)
    ensures LimitsKept(db, Transact(db, w))
  {
    DoAllView(db, w.ids, w.op);
    var e := Transact(db, w);
    forall q | q in db.queues ensures q in e.queues && e.queues[q].limit == db.queues[q].limit {
      assert SameConfig(db.queues[q], e.queues[q]);
    }
  }

  lemma FireKeepsLimits(db: DB, s: Id, next: Option<int>)
    ensures LimitsKept(db, Fire(db, s, next)) && Fire(db, s, next).queues.Keys == db.queues.Keys
  {}

  lemma {:induction false} FireAllKeepsLimits(db: DB, due: seq<Id>, next: NextRuns)
    ensures LimitsKept(db, FireAll(db, due, next)) && FireAll(db, due, next).queues.Keys == db.queues.Keys
  {
    if |due| > 0 {
      FireAllKeepsLimits(db, due[..|due| - 1], next);
      FireKeepsLimits(FireAll(db, due[..|due| - 1], next), due[|due| - 1], NextRun(next, due[|due| - 1]));
    }
  }

  lemma StepKeepsLimits(db: DB, step: Step)
    requires TablesOk(db) && Enabled(db, step) && !LowersLimit(db, Other(step))
    ensures LimitsKept(db, Apply(db, step))
  {
    if WorkOf(step).Some? {
      WorkHasNoDup(db, step);
      BatchKeepsLimits(db, WorkOf(step).value);
    } else {
      match step
      case PromoteRecurring(due, _, next) => FireAllKeepsLimits(db, due, next);
      case _ =>
    }
  }

  lemma NoJobsNoRunning(db: DB, q: Id)
    requires TablesOk(db) && q !in db.queues
    ensures RunningIn(db, q) == 0
  {
    assert Members(db.jobs, q, Running) == {};
  }

  lemma FewerRunningKeepsLimits(db: DB, e: DB, txs: map<Id, Tx>)
    requires TablesOk(db) && LimitsOk(db) && ReadLimitsOk(db, txs) && LimitsKept(db, e)
    requires forall q :: RunningIn(e, q) <= RunningIn(db, q)
    ensures LimitsOk(e) && ReadLimitsOk(e, txs)
  {
    forall q | q in e.queues
      ensures RunningIn(e, q) <= e.queues[q].limit
    {
      if q !in db.queues { NoJobsNoRunning(db, q); }
    }
  }

  lemma WithinLimitsOther(s: Sys, step: Step)
    requires WithinLimits(s) && CanAct(true, s, Other(step)) && !LowersLimit(s.db, Other(step))
    ensures WithinLimits(Perform(s, Other(step)))
  {
    LockInvOther(s, step);
    StepKeepsLimits(s.db, step);
    forall q ensures RunningIn(Apply(s.db, step), q) <= RunningIn(s.db, q) {
      OnlyClaimsRaise(s.db, step, q);
    }
    FewerRunningKeepsLimits(s.db, Apply(s.db, step), s.txs);
  }

  lemma AdmitKeepsLimits(db: DB, e: DB, txs: map<Id, Tx>, tx: Id, n: nat)
    requires tx in txs && txs[tx].Snapped? && SnapsOk(db, txs) && LimitsOk(db) && ReadLimitsOk(db, txs)
    requires Admits(db, e, txs[tx].queue, n) && n <= Max(txs[tx].take, 0)
    ensures LimitsOk(e) && ReadLimitsOk(e, txs - {tx})
  {}

  lemma WithinLimitsCommit(s: Sys, tx: Id, w: Id, lease: nat, picked: seq<Id>)
    requires WithinLimits(s) && CanAct(true, s, Commit(tx, w, lease, picked))
    ensures WithinLimits(Perform(s, Commit(tx, w, lease, picked)))
  {
    LockInvCommit(s, tx, w, lease, picked);
    CommitAdmits(s.db, s.txs[tx].queue, picked, w, lease);
    AdmitKeepsLimits(s.db, Transact(s.db, Work(picked, Claim(w, lease))), s.txs, tx, |picked|);
  }

  lemma WithinLimitsBegin(s: Sys, a: Act)
    requires WithinLimits(s) && CanAct(true, s, a) && (a.Acquire? || a.Snapshot?)
    ensures WithinLimits(Perform(s, a))
  {
    LockInvBegin(s, a);
    assert ReadLimitsOk(s.db, Perform(s, a).txs);
  }

  lemma WithinLimitsStep(s: Sys, a: Act)
    requires WithinLimits(s) && CanAct(true, s, a) && !LowersLimit(s.db, a)
    ensures WithinLimits(Perform(s, a))
  {
    match a
    case Other(step) => WithinLimitsOther(s, step);
    case Acquire(_, _) => WithinLimitsBegin(s, a);
    case Snapshot(_, _, _) => WithinLimitsBegin(s, a);
    case Commit(tx, w, lease, picked) => WithinLimitsCommit(s, tx, w, lease, picked);
  }

  /** With the lock, in every run that never lowers a limit and however claims interleave with each other and with
      everything else, the running jobs of a queue never exceed its concurrency limit. */
  lemma {:induction false} LimitHolds(ss: seq<Sys>, acts: seq<Act>, now: int, k: nat)
    requires SysRun(true, ss, acts) && ss[0] == Sys(Init(now), map[]) && k < |ss|
    requires forall n :: 0 <= n < |acts| ==> !LowersLimit(ss[n].db, acts[n])
    ensures WithinLimits(ss[k])
    ensures forall q :: q in ss[k].db.queues ==> RunningIn(ss[k].db, q) <= ss[k].db.queues[q].limit
  {
    if k == 0 {
      InitOk(now);
    } else {
      LimitHolds(ss, acts, now, k - 1);
      assert Stepped(true, ss[k - 1], acts[k - 1], ss[k]);
      WithinLimitsStep(ss[k - 1], acts[k - 1]);
    }
  }

  // ---- without the lock

  lemma SecondPickSurvives(db: DB, q: Id, a: seq<Id>, b: seq<Id>)
    requires NoDup(a) && (forall i :: i in b ==> i in Eligible(db, q) && i !in a)
    ensures forall i :: i in b ==> i in Eligible(DoAll(db, a, Claim(0, 30)), q)
  {
    var e := DoAll(db, a, Claim(0, 30));
    DoAllView(db, a, Claim(0, 30));
    forall i | i in b
      ensures i in Eligible(e, q)
    {
      assert View(e, i) == BatchRow(db, a, Claim(0, 30), i) == View(db, i);
      assert View(e, i).job == e.jobs[i];
    }
  }

  /** Two claims may both be past their snapshot, with the same budget. */
  lemma RaceOpens(db: DB, q: Id, t: Tx, n: nat)
    requires t == ReadBudget(db, q, n, n)
    ensures Stepped(false, Sys(db, map[]), Acquire(0, q), Sys(db, map[0 := Locked(q)]))
    ensures Stepped(false, Sys(db, map[0 := Locked(q)]), Acquire(1, q), Sys(db, map[0 := Locked(q), 1 := Locked(q)]))
    ensures Stepped(false, Sys(db, map[0 := Locked(q), 1 := Locked(q)]), Snapshot(0, n, n),
              Sys(db, map[0 := t, 1 := Locked(q)]))
    ensures Stepped(false, Sys(db, map[0 := t, 1 := Locked(q)]), Snapshot(1, n, n), Sys(db, map[0 := t, 1 := t]))
  {}

  lemma SixSteps(s0: Sys, s1: Sys, s2: Sys, s3: Sys, s4: Sys, s5: Sys, s6: Sys,
                 a0: Act, a1: Act, a2: Act, a3: Act, a4: Act, a5: Act)
    requires Stepped(false, s0, a0, s1) && Stepped(false, s1, a1, s2) && Stepped(false, s2, a2, s3)
    requires Stepped(false, s3, a3, s4) && Stepped(false, s4, a4, s5) && Stepped(false, s5, a5, s6)
    ensures SysRun(false, [s0, s1, s2, s3, s4, s5, s6], [a0, a1, a2, a3, a4, a5])
  {
    var linked: (Sys, Act, Sys) -> bool := (s, a, t) => Stepped(false, s, a, t);
    SixLinks(linked, s0, s1, s2, s3, s4, s5, s6, a0, a1, a2, a3, a4, a5);
    var ss, acts := [s0, s1, s2, s3, s4, s5, s6], [a0, a1, a2, a3, a4, a5];
    forall k | 0 <= k < |acts| ensures Stepped(false, ss[k], acts[k], ss[k + 1]) {
      assert linked(ss[k], acts[k], ss[k + 1]);
    }
  }

  /** A commit after a snapshot is allowed as far as the snapshot's budget goes. */
  lemma CommitFires(s: Sys, tx: Id, w: Id, picked: seq<Id>, rest: map<Id, Tx>)
    requires tx in s.txs && s.txs[tx].Snapped? && |picked| <= s.txs[tx].take && NoDup(picked)
    requires forall i :: i in picked ==> i in Eligible(s.db, s.txs[tx].queue)
    requires rest == s.txs - {tx}
    ensures Stepped(false, s, Commit(tx, w, 30, picked), Sys(Transact(s.db, Work(picked, Claim(w, 30))), rest))
  {}

  function RaceStates(db: DB, q: Id, t: Tx, e: DB, f: DB): seq<Sys> {
    [Sys(db, map[]), Sys(db, map[0 := Locked(q)]), Sys(db, map[0 := Locked(q), 1 := Locked(q)]),
     Sys(db, map[0 := t, 1 := Locked(q)]), Sys(db, map[0 := t, 1 := t]), Sys(e, map[1 := t]), Sys(f, map[])]
  }

  lemma RaceIsRun(db: DB, q: Id, t: Tx, a: seq<Id>, b: seq<Id>, e: DB, f: DB)
    requires t == ReadBudget(db, q, |a|, |a|) && t.take == |a| == |b| && NoDup(a) && NoDup(b)
    requires forall i :: i in a ==> i in Eligible(db, q)
    requires forall i :: i in b ==> i in Eligible(e, q)
    requires e == Transact(db, Work(a, Claim(0, 30))) && f == Transact(e, Work(b, Claim(1, 30)))
    ensures SysRun(false, RaceStates(db, q, t, e, f), Race(q, |a|, a, b))
  {
    RaceOpens(db, q, t, |a|);
    CommitFires(Sys(db, map[0 := t, 1 := t]), 0, 0, a, (map[0 := t, 1 := t]) - {0});
    CommitFires(Sys(e, map[1 := t]), 1, 1, b, (map[1 := t]) - {1});
    assert (map[0 := t, 1 := t]) - {0} == map[1 := t];
    assert (map[1 := t]) - {1} == map[];
    SixSteps(Sys(db, map[]), Sys(db, map[0 := Locked(q)]), Sys(db, map[0 := Locked(q), 1 := Locked(q)]),
             Sys(db, map[0 := t, 1 := Locked(q)]), Sys(db, map[0 := t, 1 := t]), Sys(e, map[1 := t]), Sys(f, map[]),
             Acquire(0, q), Acquire(1, q), Snapshot(0, |a|, |a|), Snapshot(1, |a|, |a|),
             Commit(0, 0, 30, a), Commit(1, 1, 30, b));
  }

  function Race(q: Id, free: nat, a: seq<Id>, b: seq<Id>): seq<Act> {
    [Acquire(0, q), Acquire(1, q), Snapshot(0, free, free), Snapshot(1, free, free),
     Commit(0, 0, 30, a), Commit(1, 1, 30, b)]
  }

  /** Room for some more, and two disjoint picks of waiting jobs that would each fill it. */
  ghost predicate RaceReady(db: DB, q: Id, a: seq<Id>, b: seq<Id>) {
    && q in db.queues && !db.queues[q].paused
    && |a| == |b| == db.queues[q].limit - RunningIn(db, q) > 0
    && NoDup(a) && NoDup(b)
    && (forall i :: i in a ==> i in Eligible(db, q))
    && (forall i :: i in b ==> i in Eligible(db, q) && i !in a)
  }

  predicate OverLimit(db: DB, q: Id) {
    q in db.queues && RunningIn(db, q) > db.queues[q].limit
  }

  /** The lock does real work: without it, from any good state with room for more and two disjoint full picks of
      waiting jobs, two interleaved claims run the queue past its limit. */
  lemma WithoutLockOverAdmits(db: DB, q: Id, a: seq<Id>, b: seq<Id>) returns (ss: seq<Sys>)
    requires Inv(db) && RaceReady(db, q, a, b)
    ensures SysRun(false, ss, Race(q, |a|, a, b)) && ss[0] == Sys(db, map[]) && |ss| == 7 && OverLimit(ss[6].db, q)
  {
    var t := ReadBudget(db, q, |a|, |a|);
    var e := Transact(db, Work(a, Claim(0, 30)));
    var f := Transact(e, Work(b, Claim(1, 30)));
    CommitAdmits(db, q, a, 0, 30);
    CommitIsClaim(db, q, a, 0, 30);
    SecondPickSurvives(db, q, a, b);
    CommitAdmits(e, q, b, 1, 30);
    RaceIsRun(db, q, t, a, b, e, f);
    ss := RaceStates(db, q, t, e, f);
  }

  /** Lock, snapshot and commit performed in sequence on a free lock are each allowed, and together do what the
      one-step claim does, leaving no transaction open. */
  lemma UndisturbedClaimIsAtomic(s: Sys, tx: Id, q: Id, w: Id, localFree: int, lease: nat, cap: int, locked: set<Id>,
                                 picked: seq<Id>)
    requires CanAct(true, s, Acquire(tx, q)) && ValidPick(s.db, q, localFree, cap, locked, picked)
    ensures var s1 := Perform(s, Acquire(tx, q));
            var s2 := Perform(s1, Snapshot(tx, localFree, cap));
            && CanAct(true, s1, Snapshot(tx, localFree, cap))
            && CanAct(true, s2, Commit(tx, w, lease, picked))
            && Perform(s2, Commit(tx, w, lease, picked)) ==
                 s.(db := Apply(s.db, ClaimJobs(q, w, localFree, lease, cap, locked, picked)))
  {
    forall i | i in picked ensures i in Eligible(s.db, q) {
      assert i in Eligible(s.db, q) - locked;
    }
    var t := ReadBudget(s.db, q, localFree, cap);
    assert s.txs[tx := Locked(q)][tx := t] - {tx} == s.txs;
  }
}
