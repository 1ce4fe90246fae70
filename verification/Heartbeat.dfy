/** The timing side of the lease: the self-rescheduling heartbeat, and when it is fast enough. */
module Heartbeat {
  import opened Common
  import opened Backoff
  import opened Model
  import opened Database
  import opened Steps
  import opened Runs

  /** One beat: when it read the running jobs, when its transaction took place unless it failed, when the call
      settled. */
  datatype Pulse = Pulse(start: int, commit: Option<int>, end: int)

  /** The beat's times are in order. */
  predicate InOrder(b: Pulse) {
    b.start <= b.end && (b.commit.Some? ==> b.start <= b.commit.value <= b.end)
  }

  /** When the n-th beat is due: one interval after the loop started or the beat before it settled. */
  function DueAt(started: int, interval: int, beats: seq<Pulse>, n: nat): int
    requires n <= |beats|
  {
    (if n == 0 then started else beats[n - 1].end) + interval
  }

  /** The n-th beat starts when due or later and has settled within `latency` of that. */
  predicate OnPace(started: int, interval: int, latency: int, beats: seq<Pulse>, n: nat)
    requires n < |beats|
  {
    var due := DueAt(started, interval, beats, n);
    InOrder(beats[n]) && due <= beats[n].start && beats[n].end <= due + latency
  }

  ghost predicate Paced(started: int, interval: int, latency: int, beats: seq<Pulse>) {
    forall n: nat :: n < |beats| ==> OnPace(started, interval, latency, beats, n)
  }

  lemma PacedSnoc(started: int, interval: int, latency: int, beats: seq<Pulse>, b: Pulse)
    requires Paced(started, interval, latency, beats)
    requires var due := DueAt(started, interval, beats, |beats|);
             InOrder(b) && due <= b.start && b.end <= due + latency
    ensures Paced(started, interval, latency, beats + [b])
  {
    var all := beats + [b];
    forall n: nat | n < |all| ensures OnPace(started, interval, latency, all, n) {
      assert n > 0 ==> all[n - 1] == beats[n - 1];
      if n < |beats| {
        assert all[n] == beats[n] && OnPace(started, interval, latency, beats, n);
      } else {
        assert all[n] == b;
      }
    }
  }

  class HeartbeatLoop {
    const intervalMs: int
    ghost const latency: int
    ghost const started: int
    var stopping: bool
    var timer: Option<int>
    var beating: Option<int>
    ghost var log: seq<Pulse>

    /** Until it is stopped the loop always has its next beat ahead or in flight, and it keeps its pace. */
    ghost predicate Valid()
      reads this
    {
      && Paced(started, intervalMs, latency, log)
      && (timer.Some? ==> timer.value == DueAt(started, intervalMs, log, |log|) && beating.None?)
      && (beating.Some? ==> beating.value >= DueAt(started, intervalMs, log, |log|))
      && (if stopping then timer.None? else timer.Some? || beating.Some?)
    }

    constructor (intervalMs: int, now: int, ghost latency: int)
      ensures Valid() && !stopping && timer == Some(now + intervalMs) && log == []
      ensures this.intervalMs == intervalMs && this.latency == latency && started == now
    {
      this.intervalMs, this.latency, started := intervalMs, latency, now;
      stopping, timer, beating, log := false, Some(now + intervalMs), None, [];
    }

    method Stop()
      requires Valid()
      modifies this`stopping, this`timer
      ensures Valid() && stopping && timer.None?
    {
      stopping, timer := true, None;
    }

    method Schedule(now: int)
      modifies this`timer
      ensures timer == if stopping then old(timer) else Some(now + intervalMs)
    {
      if !stopping {
        timer := Some(now + intervalMs);
      }
    }

    /** The timer fires: a beat is sent, unless the loop was stopped. */
    method Fire(now: int)
      requires Valid() && timer.Some? && timer.value <= now
      modifies this`timer, this`beating
      ensures Valid() && timer.None? && log == old(log)
      ensures beating == Some(now)
    {
      timer := None;
      if !stopping {
        beating := Some(now);
      }
    }

    /** The call settles, by success or by a caught failure; either way the next beat is scheduled. */
    method Settled(commit: Option<int>, now: int)
      requires Valid() && beating.Some? && InOrder(Pulse(beating.value, commit, now))
      requires now <= DueAt(started, intervalMs, log, |log|) + latency
      modifies this
      ensures Valid() && beating.None? && stopping == old(stopping)
      ensures log == old(log) + [Pulse(old(beating).value, commit, now)]
      ensures !stopping ==> timer == Some(now + intervalMs)
      ensures old(timer).None? && stopping ==> timer.None?
    {
      PacedSnoc(started, intervalMs, latency, log, Pulse(beating.value, commit, now));
      log := log + [Pulse(beating.value, commit, now)];
      beating := None;
      Schedule(now);
    }
  }

  // ---- the pace keeps the lease

  lemma Product(a: nat, b: nat, x: nat)
    requires a <= b
    ensures a * x <= b * x
  {}

  /** From the start of one beat to the end of a later one, whatever failed in between. */
  lemma {:induction false} BeatGap(started: int, interval: nat, latency: nat, beats: seq<Pulse>, k: nat, n: nat)
    requires Paced(started, interval, latency, beats) && k <= n < |beats|
    ensures beats[n].end - beats[k].start <= (n - k) * (interval + latency) + latency
  {
    assert OnPace(started, interval, latency, beats, n);
    if k < n {
      BeatGap(started, interval, latency, beats, k, n - 1);
    }
  }

  /** A job registered in the worker's map before the beat `first` reads the map, possibly just too late for the beat
      before it. */
  predicate SeenFrom(started: int, beats: seq<Pulse>, first: nat, registeredAt: int)
    requires first < |beats|
  {
    if first == 0 then started <= registeredAt else beats[first - 1].start <= registeredAt
  }

  lemma FirstGap(started: int, interval: nat, latency: nat, beats: seq<Pulse>, first: nat, n: nat, registeredAt: int)
    requires Paced(started, interval, latency, beats) && first <= n < |beats|
    requires SeenFrom(started, beats, first, registeredAt)
    ensures beats[n].end - registeredAt <= (n - first + 1) * (interval + latency) + latency
  {
    if first > 0 {
      BeatGap(started, interval, latency, beats, first - 1, n);
    } else {
      assert OnPace(started, interval, latency, beats, 0);
      BeatGap(started, interval, latency, beats, 0, n);
    }
  }

  /** How a worker comes to beat for a job: the claim commits, its answer arrives and the job is registered at most
      `answer` later, and the loop keeps its pace. */
  datatype Timing = Timing(started: int, interval: nat, latency: nat, answer: nat, registeredAt: int)

  ghost predicate Beating(t: Timing, beats: seq<Pulse>, first: nat, claimedAt: int)
    requires first < |beats|
  {
    && Paced(t.started, t.interval, t.latency, beats)
    && claimedAt <= t.registeredAt <= claimedAt + t.answer && SeenFrom(t.started, beats, first, t.registeredAt)
  }

  /** From beat `first` on, at most `misses` beats in a row fail. */
  ghost predicate FewFail(beats: seq<Pulse>, first: nat, misses: nat) {
    forall n: nat :: first <= n && n + misses < |beats| ==> SomeCommits(beats, n, misses)
  }

  predicate SomeCommits(beats: seq<Pulse>, n: nat, misses: nat)
    requires n + misses < |beats|
  {
    exists k: nat :: n <= k <= n + misses && beats[k].commit.Some?
  }

  /** The longest time that a claimed job can go without a renewal. */
  function LongestGap(t: Timing, misses: nat): int {
    (misses + 1) * (t.interval + t.latency) + t.latency + t.answer
  }

  /** The beats of a loop that commit, from the first that sees a job on, as steps of a run. */
  ghost predicate BeatsOfLoop(dbs: seq<DB>, steps: seq<Step>, c: nat, at: seq<nat>, beats: seq<Pulse>, first: nat,
                              w: Id, i: Id)
    requires |dbs| == |steps| + 1 && |at| == |beats|
  {
    && forall n: nat :: first <= n < |at| && beats[n].commit.Some? ==>
         c < at[n] < |steps| && BeatsFor(steps[at[n]], w, i) && dbs[at[n]].now == beats[n].commit.value
  }

  ghost predicate ClockGrows(dbs: seq<DB>) {
    forall a: nat, b: nat :: a <= b < |dbs| ==> dbs[a].now <= dbs[b].now
  }

  lemma RunClockGrows(dbs: seq<DB>, steps: seq<Step>, i: Id)
    requires JobRun(dbs, steps, i)
    ensures ClockGrows(dbs)
  {
    forall a: nat, b: nat | a <= b < |dbs| ensures dbs[a].now <= dbs[b].now {
      NowGrows(dbs, steps, i, a, b);
    }
  }

  lemma YoungEnough(dbs: seq<DB>, steps: seq<Step>, c: nat, r: nat, n: nat, w: Id, i: Id, leaseMs: int)
    requires |dbs| == |steps| + 1 && c <= r < n < |dbs| && r < |steps| && (r == c || BeatsFor(steps[r], w, i))
    requires dbs[n].now - dbs[r].now < leaseMs
    ensures BeatenInTime(dbs, steps, c, n, w, i, leaseMs)
  {
    assert Renews(steps, c, r, w, i);
  }

  /** The last beat before beat `last` that commits, if one does from `first` on. */
  lemma {:induction false} CommitBefore(beats: seq<Pulse>, first: nat, last: nat) returns (p: Option<nat>)
    requires first <= last < |beats|
    ensures p.Some? ==> first <= p.value < last && beats[p.value].commit.Some?
    ensures forall k :: (if p.Some? then p.value + 1 else first) <= k < last ==> beats[k].commit.None?
  {
    if first == last {
      p := None;
    } else if beats[last - 1].commit.Some? {
      p := Some(last - 1);
    } else {
      p := CommitBefore(beats, first, last - 1);
    }
  }

  lemma FewMissed(beats: seq<Pulse>, first: nat, a: nat, last: nat, misses: nat)
    requires FewFail(beats, first, misses) && first <= a <= last < |beats|
    requires forall k :: a <= k < last ==> beats[k].commit.None?
    ensures last - a <= misses
  {
    assert last - a > misses ==> SomeCommits(beats, a, misses);
  }

  /** The renewal before beat `last` is younger than the longest gap when that beat commits. */
  lemma RenewedBefore(beats: seq<Pulse>, first: nat, last: nat, p: Option<nat>, t: Timing, claimedAt: int, misses: nat)
    requires first <= last < |beats| && Beating(t, beats, first, claimedAt) && FewFail(beats, first, misses)
    requires beats[last].commit.Some? && (p.Some? ==> first <= p.value < last && beats[p.value].commit.Some?)
    requires forall k :: (if p.Some? then p.value + 1 else first) <= k < last ==> beats[k].commit.None?
    ensures beats[last].commit.value - (if p.Some? then beats[p.value].commit.value else claimedAt) <=
              LongestGap(t, misses)
  {
    var x := t.interval + t.latency;
    assert OnPace(t.started, t.interval, t.latency, beats, last);
    if p.Some? {
      FewMissed(beats, first, p.value + 1, last, misses);
      Product(last - p.value, misses + 1, x);
      BeatGap(t.started, t.interval, t.latency, beats, p.value, last);
      assert OnPace(t.started, t.interval, t.latency, beats, p.value);
    } else {
      FewMissed(beats, first, first, last, misses);
      Product(last - first + 1, misses + 1, x);
      FirstGap(t.started, t.interval, t.latency, beats, first, last, t.registeredAt);
    }
  }

  /** Whatever else happens in between, no instant up to a beat that commits finds the last renewal as old as the
      lease. */
  lemma {:induction false} LoopBeatsInTime(dbs: seq<DB>, steps: seq<Step>, c: nat, at: seq<nat>, beats: seq<Pulse>,
                                           first: nat, last: nat, w: Id, i: Id, t: Timing, misses: nat, leaseMs: int,
                                           n: nat)
    requires |dbs| == |steps| + 1 && ClockGrows(dbs) && |at| == |beats| && first <= last < |beats| && c < |steps|
    requires BeatsOfLoop(dbs, steps, c, at, beats, first, w, i) && Beating(t, beats, first, dbs[c].now)
    requires FewFail(beats, first, misses) && LongestGap(t, misses) < leaseMs
    requires beats[last].commit.Some? && c < n <= at[last]
    ensures BeatenInTime(dbs, steps, c, n, w, i, leaseMs)
    decreases last
  {
    var p := CommitBefore(beats, first, last);
    if p.Some? && n <= at[p.value] {
      LoopBeatsInTime(dbs, steps, c, at, beats, first, p.value, w, i, t, misses, leaseMs, n);
    } else {
      var r := if p.Some? then at[p.value] else c;
      assert dbs[n].now <= dbs[at[last]].now == beats[last].commit.value;
      RenewedBefore(beats, first, last, p, t, dbs[c].now, misses);
      YoungEnough(dbs, steps, c, r, n, w, i, leaseMs);
    }
  }

  lemma LoopAlwaysBeats(dbs: seq<DB>, steps: seq<Step>, c: nat, m: nat, at: seq<nat>, beats: seq<Pulse>, first: nat,
                        last: nat, w: Id, i: Id, t: Timing, misses: nat, leaseMs: int)
    requires JobRun(dbs, steps, i) && |at| == |beats| && first <= last < |beats| && beats[last].commit.Some?
    requires c < m < |steps| && m <= at[last]
    requires BeatsOfLoop(dbs, steps, c, at, beats, first, w, i) && Beating(t, beats, first, dbs[c].now)
    requires FewFail(beats, first, misses) && LongestGap(t, misses) < leaseMs
    ensures forall n :: c < n <= m ==> BeatenInTime(dbs, steps, c, n, w, i, leaseMs)
  {
    RunClockGrows(dbs, steps, i);
    forall n | c < n <= m ensures BeatenInTime(dbs, steps, c, n, w, i, leaseMs) {
      LoopBeatsInTime(dbs, steps, c, at, beats, first, last, w, i, t, misses, leaseMs, n);
    }
  }

  /** A worker whose heartbeat loop keeps its pace, and of whose beats never more than `misses` in a row fail, holds a
      claimed job through every beat that commits: the reaper never selects it, however the run interleaves and however
      many beats come before the job is registered, if `misses + 1` rounds of interval and latency, another latency and
      the time to register a claim are together below the lease. */
  lemma PacedLoopIsNeverReaped(dbs: seq<DB>, steps: seq<Step>, c: nat, m: nat, at: seq<nat>, beats: seq<Pulse>,
                               first: nat, last: nat, w: Id, i: Id, t: Timing, misses: nat, lease: nat)
    requires IsRun(dbs, steps) && |at| == |beats| && first <= last < |beats| && beats[last].commit.Some?
    requires c < m < |steps| && m <= at[last]
    requires ClaimsJob(steps[c], w, i) && steps[c].lease == lease && Acts(dbs[c], steps[c], i)
    requires forall n :: c < n < m && BeatsFor(steps[n], w, i) ==> steps[n].lease == lease
    requires forall n :: c < n < m ==> !LetsGo(dbs[n], steps[n], w, i)
    requires BeatsOfLoop(dbs, steps, c, at, beats, first, w, i) && Beating(t, beats, first, dbs[c].now)
    requires FewFail(beats, first, misses) && LongestGap(t, misses) < lease * 1000
    ensures i in dbs[m].jobs && Fenced(dbs[m].jobs[i], w, dbs[m].now) && i !in StuckJobs(dbs[m])
  {
    RunOfJob(dbs, steps, i);
    LoopAlwaysBeats(dbs, steps, c, m, at, beats, first, last, w, i, t, misses, lease * 1000);
    LiveWorkerNotReaped(dbs, steps, c, m, w, i, lease);
  }

  // ---- what the settings check guarantees

  /** leaseSeconds as the worker's configuration derives it from LEASE_MS. */
  function LeaseSeconds(leaseMs: nat): int {
    Round(leaseMs as real / 1000.0)
  }

  /** The cross-field check on the environment. */
  predicate EnvAccepts(heartbeatMs: nat, leaseMs: nat) {
    1 <= heartbeatMs && 1 <= leaseMs && heartbeatMs < leaseMs
  }

  lemma LeaseRounding(leaseMs: nat)
    ensures LeaseSeconds(leaseMs) == leaseMs / 1000 + if leaseMs % 1000 >= 500 then 1 else 0
  {
    var q, r := leaseMs / 1000, leaseMs % 1000;
    assert leaseMs as real / 1000.0 + 0.5 == q as real + (r as real / 1000.0 + 0.5);
  }

  /** The check compares the unrounded LEASE_MS: it keeps every accepted interval below the real lease exactly when
      LEASE_MS does not round down. */
  lemma EnvCheckSufficesIff(leaseMs: nat)
    requires leaseMs > 1
    ensures (forall h: nat :: EnvAccepts(h, leaseMs) ==> h < LeaseSeconds(leaseMs) * 1000) <==>
              leaseMs % 1000 == 0 || leaseMs % 1000 >= 500
  {
    LeaseRounding(leaseMs);
    if !(leaseMs % 1000 == 0 || leaseMs % 1000 >= 500) {
      assert EnvAccepts(leaseMs - 1, leaseMs) && !(leaseMs - 1 < LeaseSeconds(leaseMs) * 1000);
    }
  }

  lemma EnvCheckAcceptsTooSlowABeat()
    ensures EnvAccepts(1200, 1400) && 1200 >= LeaseSeconds(1400) * 1000
  {
    LeaseRounding(1400);
  }

  /** A beat that comes an interval of a whole lease after the claim finds the lease gone and extends nothing. */
  lemma SlowBeatExtendsNothing(db: DB, j: Job, w: Id, i: Id, lease: nat, claimedAt: int, interval: int)
    requires i in db.jobs && db.jobs[i] == ClaimJob(j, w, lease, claimedAt) && db.now == claimedAt + interval
    ensures interval >= lease * 1000 <==> Do(db, i, Beat(w, lease)) == db && !Fenced(db.jobs[i], w, db.now)
  {
  }
}
