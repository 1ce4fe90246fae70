/** The worker's local capacity: the map of running jobs, the handlers behind it, and one tick of the poll loop. */
module Worker {
  import opened Common
  import opened Lifecycle
  import opened Model
  import opened Rows
  import opened Database
  import opened Steps

  /** Names one call of a handler. */
  type Ticket = nat

  /** `running` is the worker's map from job to handler; `handlers` are the handlers that have not settled. */
  datatype Slots = Slots(running: map<Id, Ticket>, handlers: map<Ticket, Id>, next: Ticket)

  /** A handler starts, and its entry goes into the map under the job's id, over whatever was there. */
  function Dispatched(s: Slots, i: Id): Slots {
    Slots(s.running[i := s.next], s.handlers[s.next := i], s.next + 1)
  }

  /** A handler settles; its `finally` deletes the entry under its job's id, whoever's entry that is. */
  function Finished(s: Slots, t: Ticket): Slots {
    if t in s.handlers then s.(running := s.running - {s.handlers[t]}, handlers := s.handlers - {t}) else s
  }

  ghost predicate Issued(s: Slots) {
    forall t :: t in s.handlers ==> t < s.next
  }

  /** Map and handlers are each other's inverse. */
  ghost predicate Matched(s: Slots) {
    && (forall t :: t in s.handlers ==> s.handlers[t] in s.running && s.running[s.handlers[t]] == t)
    && (forall i :: i in s.running ==> s.running[i] in s.handlers && s.handlers[s.running[i]] == i)
  }

  lemma PutSize<V>(m: map<nat, V>, k: nat, v: V)
    ensures |m[k := v]| == |m| + Ind(k !in m)
  {
    if k in m {
      assert m[k := v].Keys == m.Keys;
    } else {
      assert m[k := v].Keys == m.Keys + {k};
    }
  }

  lemma DropSize<V>(m: map<nat, V>, k: nat)
    ensures |m - {k}| == |m| - Ind(k in m)
  {
    if k in m {
      assert m == (m - {k})[k := m[k]];
    } else {
      assert m - {k} == m;
    }
  }

  lemma DispatchGrows(s: Slots, i: Id)
    ensures |Dispatched(s, i).running| <= |s.running| + 1
    ensures Issued(s) ==> Issued(Dispatched(s, i))
  {
    PutSize(s.running, i, s.next);
  }

  lemma {:induction false} MatchedSize(s: Slots)
    requires Matched(s)
    ensures |s.handlers| == |s.running|
    decreases s.handlers.Keys
  {
    if s.handlers == map[] {
      assert s.running == map[];
    } else {
      var t :| t in s.handlers;
      var r := Finished(s, t);
      FinishKeepsMatched(s, t);
      assert s.handlers == r.handlers[t := s.handlers[t]] && s.running == r.running[s.handlers[t] := t];
      MatchedSize(r);
    }
  }

  lemma FinishKeepsMatched(s: Slots, t: Ticket)
    requires Matched(s)
    ensures Matched(Finished(s, t))
  {}

  /** A dispatch keeps the map and the handlers matched exactly when the job is not in the map yet. */
  lemma DispatchKeepsMatchedIff(s: Slots, i: Id)
    requires Matched(s) && Issued(s)
    ensures Matched(Dispatched(s, i)) <==> i !in s.running
    ensures Issued(Dispatched(s, i))
  {
    var e := Dispatched(s, i);
    if i in s.running {
      var t := s.running[i];
      assert t in e.handlers && e.running[e.handlers[t]] != t;
    }
  }

  /** A worker of two slots loses job i and claims it again: the entry is overwritten, and three handlers run where
      the map shows two; when the first one settles it frees the slot of the second. */
  lemma OverwriteOverruns(i: Id, j: Id)
    requires i != j
    ensures var s := Dispatched(Dispatched(Dispatched(Slots(map[], map[], 0), i), i), j);
            && |s.running| == 2 && |s.handlers| == 3
            && i !in Finished(s, 0).running && 1 in Finished(s, 0).handlers && Finished(s, 0).handlers[1] == i
  {
    var s := Dispatched(Dispatched(Dispatched(Slots(map[], map[], 0), i), i), j);
    assert s.running.Keys == {i, j};
    assert s.handlers.Keys == {0, 1, 2};
  }

  lemma HeldIsNotEligible(db: DB, q: Id, w: Id, i: Id)
    requires i in db.jobs && RowOk(View(db, i)) && db.jobs[i].lockedBy == Some(w)
    ensures i !in Eligible(db, q)
  {}

  /** As long as the worker still holds every job in its map, no claim of its own returns one of them. */
  lemma HeldJobsAreNotClaimed(db: DB, q: Id, w: Id, localFree: int, cap: int, locked: set<Id>, picked: seq<Id>,
                              running: set<Id>)
    requires RowsOk(db) && ValidPick(db, q, localFree, cap, locked, picked)
    requires forall i :: i in running ==> i in db.jobs && db.jobs[i].lockedBy == Some(w)
    ensures forall i :: i in picked ==> i !in running
  {
    forall i | i in picked && i in running ensures false {
      assert i in Eligible(db, q) - locked;
      HeldIsNotEligible(db, q, w, i);
    }
  }

  /** A claim is answered with at most as many rows as the slots it was told of and as its batch cap; and it leaves
      an available row behind only when one of its bounds is reached. */
  lemma ClaimFitsTheSlots(db: DB, q: Id, localFree: int, cap: int, locked: set<Id>, picked: seq<Id>)
    requires ValidPick(db, q, localFree, cap, locked, picked)
    ensures |picked| <= Max(0, Min(localFree, cap))
    ensures q in db.queues && !db.queues[q].paused && |picked| < |Eligible(db, q) - locked| ==>
              |picked| == Max(0, Min(Min(localFree, cap), db.queues[q].limit - Count(db.jobs, q, Running)))
  {
    var n := |Eligible(db, q) - locked|;
    assert |picked| == Quota(db, q, localFree, cap, n);
  }

  lemma FinishShrinks(s: Slots, t: Ticket)
    ensures |Finished(s, t).running| <= |s.running| && |Finished(s, t).handlers| <= |s.handlers|
  {
    if t in s.handlers {
      DropSize(s.running, s.handlers[t]);
      DropSize(s.handlers, t);
    }
  }

  // ---- the life of a worker, event by event

  datatype Event = Start(job: Id) | Settle(handler: Ticket)

  function Next(s: Slots, e: Event): Slots {
    match e
    case Start(i) => Dispatched(s, i)
    case Settle(t) => Finished(s, t)
  }

  function Play(s: Slots, events: seq<Event>): Slots
    decreases |events|
  {
    if |events| == 0 then s else Play(Next(s, events[0]), events[1..])
  }

  /** Never more handlers than slots. */
  predicate Fits(s: Slots, concurrency: nat, events: seq<Event>)
    decreases |events|
  {
    |s.handlers| <= concurrency && (|events| == 0 || Fits(Next(s, events[0]), concurrency, events[1..]))
  }

  /** The event starts a handler for a job that is in the map. */
  predicate Overwrites(s: Slots, e: Event) {
    e.Start? && e.job in s.running
  }

  /** The event settles a handler that has no entry left to delete. */
  predicate Orphaned(s: Slots, e: Event) {
    e.Settle? && e.handler in s.handlers && s.handlers[e.handler] !in s.running
  }

  /** Each overwritten entry incurs a debt, each handler that settles without an entry pays one back; the debt never
      exceeds the slots that the map leaves free. */
  predicate Covered(s: Slots, concurrency: nat, events: seq<Event>, debt: int)
    decreases |events|
  {
    && debt <= concurrency - |s.running|
    && (|events| == 0 ||
        Covered(Next(s, events[0]), concurrency, events[1..],
                debt + Ind(Overwrites(s, events[0])) - Ind(Orphaned(s, events[0]))))
  }

  lemma StartSurplus(s: Slots, i: Id)
    requires Issued(s)
    ensures |Dispatched(s, i).handlers| == |s.handlers| + 1
    ensures |Dispatched(s, i).running| == |s.running| + Ind(i !in s.running)
  {
    PutSize(s.running, i, s.next);
    PutSize(s.handlers, s.next, i);
  }

  lemma SettleSurplus(s: Slots, t: Ticket)
    requires t in s.handlers
    ensures |Finished(s, t).handlers| == |s.handlers| - 1
    ensures |Finished(s, t).running| == |s.running| - Ind(s.handlers[t] in s.running)
  {
    DropSize(s.running, s.handlers[t]);
    DropSize(s.handlers, t);
  }

  lemma NextIssued(s: Slots, e: Event)
    requires Issued(s)
    ensures Issued(Next(s, e))
  {}

  lemma NextSurplus(s: Slots, e: Event)
    requires Issued(s)
    ensures |Next(s, e).handlers| - |Next(s, e).running| ==
              |s.handlers| - |s.running| + Ind(Overwrites(s, e)) - Ind(Orphaned(s, e))
  {
    if e.Start? {
      StartSurplus(s, e.job);
    } else if e.handler in s.handlers {
      SettleSurplus(s, e.handler);
    }
  }

  /** Along every life of a worker the handlers in flight stay within its slots exactly if the debt from overwritten
      entries stays within the slots that the map leaves free. */
  lemma {:induction false} FitsIffCovered(s: Slots, concurrency: nat, events: seq<Event>, debt: int)
    requires Issued(s) && |s.handlers| == |s.running| + debt
    ensures Fits(s, concurrency, events) <==> Covered(s, concurrency, events, debt)
    decreases |events|
  {
    if |events| > 0 {
      var e := events[0];
      var next, owed := Next(s, e), debt + Ind(Overwrites(s, e)) - Ind(Orphaned(s, e));
      assert Issued(next) by { NextIssued(s, e); }
      assert |next.handlers| == |next.running| + owed by { NextSurplus(s, e); }
      FitsIffCovered(next, concurrency, events[1..], owed);
    }
  }

  lemma {:induction false} PlayThen(s: Slots, concurrency: nat, a: seq<Event>, b: seq<Event>)
    ensures Play(s, a + b) == Play(Play(s, a), b)
    ensures Fits(s, concurrency, a + b) <==> Fits(s, concurrency, a) && Fits(Play(s, a), concurrency, b)
    decreases |a|
  {
    if |a| == 0 {
      assert a + b == b;
    } else {
      assert (a + b)[0] == a[0] && (a + b)[1..] == a[1..] + b;
      PlayThen(Next(s, a[0]), concurrency, a[1..], b);
    }
  }

  // ---- one tick of the poll loop, as a function of what it meets

  /** Handlers settle in the given order. */
  function SettledAll(s: Slots, settling: seq<Ticket>): Slots {
    if |settling| == 0 then s else Finished(SettledAll(s, settling[..|settling| - 1]), settling[|settling| - 1])
  }

  function DispatchedAll(s: Slots, rows: seq<Id>): Slots {
    if |rows| == 0 then s else Dispatched(DispatchedAll(s, rows[..|rows| - 1]), rows[|rows| - 1])
  }

  /** Some row's job is in the map when its turn to be dispatched comes. */
  predicate Clashes(s: Slots, rows: seq<Id>) {
    exists k :: 0 <= k < |rows| && rows[k] in DispatchedAll(s, rows[..k]).running
  }

  /** The rows that one claim returns, given what the database would offer without a bound. */
  function Answered(s: Slots, concurrency: nat, offer: seq<Id>): seq<Id> {
    offer[..Max(0, Min(concurrency - |s.running|, |offer|))]
  }

  /** The k-th claim of a tick is offered offers[k], and settling[k] settle while it is awaited; the first claim that
      finds no free slot ends the tick. */
  function Polled(s: Slots, concurrency: nat, offers: seq<seq<Id>>, settling: seq<seq<Ticket>>): Slots
    requires |offers| == |settling|
    decreases |offers|
  {
    if |offers| == 0 || |s.running| >= concurrency then s
    else
      var rows := Answered(s, concurrency, offers[0]);
      Polled(DispatchedAll(SettledAll(s, settling[0]), rows), concurrency, offers[1..], settling[1..])
  }

  /** Some job is dispatched during the tick while it is in the map. */
  predicate TickClashes(s: Slots, concurrency: nat, offers: seq<seq<Id>>, settling: seq<seq<Ticket>>)
    requires |offers| == |settling|
    decreases |offers|
  {
    if |offers| == 0 || |s.running| >= concurrency then false
    else
      var rows := Answered(s, concurrency, offers[0]);
      var settled := SettledAll(s, settling[0]);
      Clashes(settled, rows) || TickClashes(DispatchedAll(settled, rows), concurrency, offers[1..], settling[1..])
  }

  function Starts(rows: seq<Id>): (events: seq<Event>)
    ensures |events| == |rows|
  {
    seq(|rows|, k requires 0 <= k < |rows| => Start(rows[k]))
  }

  function Settles(settling: seq<Ticket>): (events: seq<Event>)
    ensures |events| == |settling|
  {
    seq(|settling|, k requires 0 <= k < |settling| => Settle(settling[k]))
  }

  /** What happens during the tick, in order. */
  function TickEvents(s: Slots, concurrency: nat, offers: seq<seq<Id>>, settling: seq<seq<Ticket>>): seq<Event>
    requires |offers| == |settling|
    decreases |offers|
  {
    if |offers| == 0 || |s.running| >= concurrency then []
    else
      var rows := Answered(s, concurrency, offers[0]);
      var after := DispatchedAll(SettledAll(s, settling[0]), rows);
      Settles(settling[0]) + (Starts(rows) + TickEvents(after, concurrency, offers[1..], settling[1..]))
  }

  /** The most handlers in flight after any of the dispatches. */
  function PeakOfDispatches(s: Slots, rows: seq<Id>): nat {
    if |rows| == 0 then 0
    else Max(PeakOfDispatches(s, rows[..|rows| - 1]), |DispatchedAll(s, rows).handlers|)
  }

  function PeakOfTick(s: Slots, concurrency: nat, offers: seq<seq<Id>>, settling: seq<seq<Ticket>>): nat
    requires |offers| == |settling|
    decreases |offers|
  {
    if |offers| == 0 || |s.running| >= concurrency then 0
    else
      var rows := Answered(s, concurrency, offers[0]);
      var settled := SettledAll(s, settling[0]);
      Max(PeakOfDispatches(settled, rows),
          PeakOfTick(DispatchedAll(settled, rows), concurrency, offers[1..], settling[1..]))
  }

  lemma OneRow(s: Slots, concurrency: nat, i: Id)
    requires |s.running| < concurrency
    ensures Answered(s, concurrency, [i]) == [i] && SettledAll(s, []) == s
    ensures DispatchedAll(s, [i]) == Dispatched(s, i) && PeakOfDispatches(s, [i]) == |Dispatched(s, i).handlers|
  {
    assert [i][..0] == [];
  }

  lemma LastClaim(s: Slots, concurrency: nat, i: Id)
    requires |s.running| < concurrency
    ensures Polled(s, concurrency, [[i]], [[]]) == Dispatched(s, i)
    ensures PeakOfTick(s, concurrency, [[i]], [[]]) == |Dispatched(s, i).handlers|
  {
    OneRow(s, concurrency, i);
  }

  /** A tick of two claims, each answered with one row, in which nothing settles. */
  lemma TwoClaims(s: Slots, concurrency: nat, i: Id, j: Id)
    requires |s.running| < concurrency && |Dispatched(s, i).running| < concurrency
    ensures Polled(s, concurrency, [[i], [j]], [[], []]) == Dispatched(Dispatched(s, i), j)
    ensures PeakOfTick(s, concurrency, [[i], [j]], [[], []]) ==
              Max(|Dispatched(s, i).handlers|, |Dispatched(Dispatched(s, i), j).handlers|)
  {
    var offers: seq<seq<Id>>, settling: seq<seq<Ticket>> := [[i], [j]], [[], []];
    assert offers[1..] == [[j]] && settling[1..] == [[]];
    OneRow(s, concurrency, i);
    LastClaim(Dispatched(s, i), concurrency, j);
  }

  /** A worker of two slots is given job i, job i again and job j, and no handler settles: what its map leaves free at
      each claim, and the handlers after the tick of the last two. */
  predicate Overruns(i: Id, j: Id, free: seq<int>, handlers: nat) {
    var none := Slots(map[], map[], 0);
    var one := Dispatched(none, i);
    var two := Dispatched(one, i);
    && free == [2 - |none.running|, 2 - |one.running|, 2 - |two.running|]
    && handlers == |Polled(one, 2, [[i], [j]], [[], []]).handlers| == PeakOfTick(one, 2, [[i], [j]], [[], []])
  }

  lemma TickOverruns(i: Id, j: Id)
    requires i != j
    ensures Overruns(i, j, [2, 1, 1], 3)
  {
    var one := Dispatched(Slots(map[], map[], 0), i);
    var two := Dispatched(one, i);
    assert one.running.Keys == two.running.Keys == {i} && two.handlers.Keys == {0, 1};
    OverwriteOverruns(i, j);
    assert |one.running| == |two.running| == 1 && |two.handlers| == 2;
    TwoClaims(one, 2, i, j);
  }

  lemma {:induction false} SettlingIsPlay(s: Slots, concurrency: nat, settling: seq<Ticket>)
    ensures SettledAll(s, settling) == Play(s, Settles(settling))
    ensures |s.handlers| <= concurrency ==> Fits(s, concurrency, Settles(settling))
    ensures |SettledAll(s, settling).handlers| <= |s.handlers|
  {
    if |settling| > 0 {
      var front, last := settling[..|settling| - 1], settling[|settling| - 1];
      SettlingIsPlay(s, concurrency, front);
      assert Settles(settling) == Settles(front) + [Settle(last)];
      PlayThen(s, concurrency, Settles(front), [Settle(last)]);
      FinishShrinks(SettledAll(s, front), last);
    }
  }

  lemma {:induction false} DispatchingIsPlay(s: Slots, concurrency: nat, rows: seq<Id>)
    ensures DispatchedAll(s, rows) == Play(s, Starts(rows))
    ensures |s.handlers| <= concurrency ==>
              (Fits(s, concurrency, Starts(rows)) <==> PeakOfDispatches(s, rows) <= concurrency)
    ensures Fits(s, concurrency, Starts(rows)) ==> |DispatchedAll(s, rows).handlers| <= concurrency
  {
    if |rows| > 0 {
      var front, last := rows[..|rows| - 1], rows[|rows| - 1];
      DispatchingIsPlay(s, concurrency, front);
      assert Starts(rows) == Starts(front) + [Start(last)];
      PlayThen(s, concurrency, Starts(front), [Start(last)]);
    }
  }

  /** One claim of a tick: the settling handlers, then the rows it returned, then what follows. */
  lemma TurnIsPlay(s: Slots, concurrency: nat, settling: seq<Ticket>, rows: seq<Id>, rest: seq<Event>)
    ensures var settled := SettledAll(s, settling); var after := DispatchedAll(settled, rows);
            && Play(s, Settles(settling) + (Starts(rows) + rest)) == Play(after, rest)
            && (|s.handlers| <= concurrency ==>
                  (Fits(s, concurrency, Settles(settling) + (Starts(rows) + rest)) <==>
                     PeakOfDispatches(settled, rows) <= concurrency && Fits(after, concurrency, rest)))
            && (|s.handlers| <= concurrency && PeakOfDispatches(settled, rows) <= concurrency ==>
                  |after.handlers| <= concurrency)
  {
    var settled := SettledAll(s, settling);
    SettlingIsPlay(s, concurrency, settling);
    DispatchingIsPlay(settled, concurrency, rows);
    PlayThen(s, concurrency, Settles(settling), Starts(rows) + rest);
    PlayThen(settled, concurrency, Starts(rows), rest);
  }

  /** The tick is the play of its events, and its peak stays within the slots exactly if the events fit. */
  lemma {:induction false} TickIsPlay(s: Slots, concurrency: nat, offers: seq<seq<Id>>, settling: seq<seq<Ticket>>)
    requires |offers| == |settling|
    ensures Polled(s, concurrency, offers, settling) == Play(s, TickEvents(s, concurrency, offers, settling))
    ensures |s.handlers| <= concurrency ==>
              (Fits(s, concurrency, TickEvents(s, concurrency, offers, settling)) <==>
                 PeakOfTick(s, concurrency, offers, settling) <= concurrency)
    decreases |offers|
  {
    if |offers| > 0 && |s.running| < concurrency {
      var rows := Answered(s, concurrency, offers[0]);
      var after := DispatchedAll(SettledAll(s, settling[0]), rows);
      TurnIsPlay(s, concurrency, settling[0], rows, TickEvents(after, concurrency, offers[1..], settling[1..]));
      TickIsPlay(after, concurrency, offers[1..], settling[1..]);
    }
  }

  /** One turn of a tick, from the k-th claim on. */
  lemma TickTurn(s: Slots, concurrency: nat, offers: seq<seq<Id>>, settling: seq<seq<Ticket>>, k: nat)
    requires k < |offers| == |settling| && |s.running| < concurrency
    ensures var rows, settled := Answered(s, concurrency, offers[k]), SettledAll(s, settling[k]);
            var after := DispatchedAll(settled, rows);
            && Polled(s, concurrency, offers[k..], settling[k..]) ==
                 Polled(after, concurrency, offers[k + 1..], settling[k + 1..])
            && PeakOfTick(s, concurrency, offers[k..], settling[k..]) ==
                 Max(PeakOfDispatches(settled, rows),
                     PeakOfTick(after, concurrency, offers[k + 1..], settling[k + 1..]))
            && (TickClashes(s, concurrency, offers[k..], settling[k..]) <==>
                  Clashes(settled, rows) || TickClashes(after, concurrency, offers[k + 1..], settling[k + 1..]))
            && after.next == s.next + |rows|
  {
    assert offers[k..][1..] == offers[k + 1..] && settling[k..][1..] == settling[k + 1..];
    DispatchedNext(SettledAll(s, settling[k]), Answered(s, concurrency, offers[k]));
    SettledNext(s, settling[k]);
  }

  /** During a tick the handlers in flight stay within the slots exactly if at every point the debt from overwritten
      entries, with what was owed at the start, is covered by free slots. */
  lemma TickFitsIffCovered(s: Slots, concurrency: nat, offers: seq<seq<Id>>, settling: seq<seq<Ticket>>)
    requires |offers| == |settling| && Issued(s) && |s.handlers| <= concurrency
    ensures PeakOfTick(s, concurrency, offers, settling) <= concurrency <==>
              Covered(s, concurrency, TickEvents(s, concurrency, offers, settling), |s.handlers| - |s.running|)
  {
    TickIsPlay(s, concurrency, offers, settling);
    FitsIffCovered(s, concurrency, TickEvents(s, concurrency, offers, settling), |s.handlers| - |s.running|);
  }

  /** No job is offered twice in the tick, and none that is in the map. */
  ghost predicate FreshOffers(offers: seq<seq<Id>>, taken: set<Id>) {
    && (forall k :: 0 <= k < |offers| ==> NoDup(offers[k]) && Elems(offers[k]) !! taken)
    && (forall j, k :: 0 <= j < k < |offers| ==> Elems(offers[j]) !! Elems(offers[k]))
  }

  lemma {:induction false} SettledNext(s: Slots, settling: seq<Ticket>)
    ensures SettledAll(s, settling).next == s.next
  {
    if |settling| > 0 {
      SettledNext(s, settling[..|settling| - 1]);
    }
  }

  lemma {:induction false} DispatchedNext(s: Slots, rows: seq<Id>)
    ensures DispatchedAll(s, rows).next == s.next + |rows|
  {
    if |rows| > 0 {
      DispatchedNext(s, rows[..|rows| - 1]);
    }
  }

  lemma {:induction false} SettlingFreesKeys(s: Slots, settling: seq<Ticket>)
    ensures SettledAll(s, settling).running.Keys <= s.running.Keys
  {
    if |settling| > 0 {
      SettlingFreesKeys(s, settling[..|settling| - 1]);
    }
  }

  lemma {:induction false} DispatchedKeys(s: Slots, rows: seq<Id>)
    ensures DispatchedAll(s, rows).running.Keys == s.running.Keys + Elems(rows)
  {
    if |rows| > 0 {
      var front, last := rows[..|rows| - 1], rows[|rows| - 1];
      DispatchedKeys(s, front);
      assert rows == front + [last];
      assert Elems(rows) == Elems(front) + {last};
    } else {
      assert Elems(rows) == {};
    }
  }

  /** The rows of one claim do not clash exactly if they are distinct and outside the map. */
  lemma ClashIffRepeated(s: Slots, rows: seq<Id>)
    ensures !Clashes(s, rows) <==> NoDup(rows) && Elems(rows) !! s.running.Keys
  {
    forall k | 0 <= k < |rows|
      ensures rows[k] in DispatchedAll(s, rows[..k]).running <==> rows[k] in s.running || rows[k] in rows[..k]
    {
      DispatchedKeys(s, rows[..k]);
      assert rows[k] in rows[..k] <==> rows[k] in Elems(rows[..k]);
    }
    if !Clashes(s, rows) {
      forall j, k | 0 <= j < k < |rows| ensures rows[j] != rows[k] {
        assert rows[..k][j] == rows[j];
      }
    }
  }

  lemma PrefixIsFresh(rows: seq<Id>, n: nat)
    requires NoDup(rows) && n <= |rows|
    ensures NoDup(rows[..n]) && Elems(rows[..n]) <= Elems(rows)
  {}

  lemma FreshTail(offers: seq<seq<Id>>, taken: set<Id>, more: set<Id>)
    requires |offers| > 0 && FreshOffers(offers, taken) && more <= taken + Elems(offers[0])
    ensures FreshOffers(offers[1..], more)
  {
    forall k | 0 <= k < |offers[1..]| ensures NoDup(offers[1..][k]) && Elems(offers[1..][k]) !! more {
      assert offers[1..][k] == offers[k + 1];
    }
    forall j, k | 0 <= j < k < |offers[1..]| ensures Elems(offers[1..][j]) !! Elems(offers[1..][k]) {
      assert offers[1..][j] == offers[j + 1] && offers[1..][k] == offers[k + 1];
    }
  }

  /** A tick that is offered only new jobs, each once, never clashes, whatever settles meanwhile. */
  lemma {:induction false} FreshOffersNeverClash(s: Slots, concurrency: nat, offers: seq<seq<Id>>,
                                                 settling: seq<seq<Ticket>>)
    requires |offers| == |settling| && FreshOffers(offers, s.running.Keys)
    ensures !TickClashes(s, concurrency, offers, settling)
    decreases |offers|
  {
    if |offers| > 0 && |s.running| < concurrency {
      var rows := Answered(s, concurrency, offers[0]);
      var settled := SettledAll(s, settling[0]);
      SettlingFreesKeys(s, settling[0]);
      PrefixIsFresh(offers[0], |rows|);
      ClashIffRepeated(settled, rows);
      DispatchedKeys(settled, rows);
      FreshTail(offers, s.running.Keys, DispatchedAll(settled, rows).running.Keys);
      FreshOffersNeverClash(DispatchedAll(settled, rows), concurrency, offers[1..], settling[1..]);
    }
  }

  lemma FreshTick(s: Slots, concurrency: nat, offers: seq<seq<Id>>, settling: seq<seq<Ticket>>)
    requires |offers| == |settling|
    ensures FreshOffers(offers, s.running.Keys) ==> !TickClashes(s, concurrency, offers, settling)
  {
    if FreshOffers(offers, s.running.Keys) {
      FreshOffersNeverClash(s, concurrency, offers, settling);
    }
  }

  /** The debt of a tick that starts with so many handlers is covered. */
  predicate TickCovered(s: Slots, concurrency: nat, offers: seq<seq<Id>>, settling: seq<seq<Ticket>>)
    requires |offers| == |settling|
  {
    Covered(s, concurrency, TickEvents(s, concurrency, offers, settling), |s.handlers| - |s.running|)
  }

  lemma CoveredTick(s: Slots, concurrency: nat, offers: seq<seq<Id>>, settling: seq<seq<Ticket>>)
    requires |offers| == |settling| && Issued(s)
    ensures |s.handlers| <= concurrency ==>
              (PeakOfTick(s, concurrency, offers, settling) <= concurrency <==>
                 TickCovered(s, concurrency, offers, settling))
  {
    if |s.handlers| <= concurrency {
      TickFitsIffCovered(s, concurrency, offers, settling);
    }
  }

  class LocalWorker {
    const concurrency: nat
    var running: map<Id, Ticket>
    var handlers: map<Ticket, Id>
    var next: Ticket
    ghost var peakRunning: nat
    ghost var peakHandlers: nat

    ghost function State(): Slots
      reads this
    {
      Slots(running, handlers, next)
    }

    ghost predicate Valid()
      reads this
    {
      Issued(State()) && |running| <= concurrency && peakRunning <= concurrency
    }

    /** Nothing was overwritten so far, and never did more handlers run than there are slots. */
    ghost predicate WithinSlots()
      reads this
    {
      Matched(State()) && |handlers| <= concurrency && peakHandlers <= concurrency
    }

    constructor (concurrency: nat)
      ensures Valid() && WithinSlots() && this.concurrency == concurrency && running == map[]
    {
      this.concurrency := concurrency;
      running, next, handlers, peakRunning, peakHandlers := map[], 0, map[], 0, 0;
    }

    function FreeSlots(): int
      reads this
    {
      concurrency - |running|
    }

    method Dispatch(i: Id)
      modifies this
      ensures State() == Dispatched(old(State()), i)
      ensures peakRunning == Max(old(peakRunning), |running|) && peakHandlers == Max(old(peakHandlers), |handlers|)
    {
      handlers := handlers[next := i];
      running := running[i := next];
      next := next + 1;
      peakRunning, peakHandlers := Max(peakRunning, |running|), Max(peakHandlers, |handlers|);
    }

    /** Handler t settles. */
    method Finish(t: Ticket)
      modifies this`running, this`handlers
      ensures State() == Finished(old(State()), t)
    {
      if t in handlers {
        var i := handlers[t];
        running := running - {i};
        handlers := handlers - {t};
      }
    }

    /** While a claim is awaited, any handlers settle in any order. */
    method Await(settling: seq<Ticket>)
      requires Valid()
      modifies this`running, this`handlers
      ensures Valid() && |running| <= old(|running|) && State() == SettledAll(old(State()), settling)
      ensures old(WithinSlots()) ==> WithinSlots()
    {
      for k := 0 to |settling|
        invariant Valid() && |running| <= old(|running|) && State() == SettledAll(old(State()), settling[..k])
        invariant old(WithinSlots()) ==> WithinSlots()
      {
        assert settling[..k + 1][..k] == settling[..k];
        FinishOne(settling[k]);
      }
      assert settling[..|settling|] == settling;
    }

    method FinishOne(t: Ticket)
      requires Valid()
      modifies this`running, this`handlers
      ensures Valid() && |running| <= old(|running|) && State() == Finished(old(State()), t)
      ensures old(WithinSlots()) ==> WithinSlots()
    {
      FinishShrinks(State(), t);
      if WithinSlots() {
        FinishKeepsMatched(State(), t);
      }
      Finish(t);
    }

    method DispatchOne(i: Id)
      requires Valid() && |running| < concurrency
      modifies this
      ensures Valid() && |running| <= old(|running|) + 1 && State() == Dispatched(old(State()), i)
      ensures peakHandlers == Max(old(peakHandlers), |handlers|)
      ensures old(WithinSlots()) && i !in old(running) ==> WithinSlots()
    {
      ghost var before := State();
      DispatchGrows(before, i);
      if Matched(before) {
        DispatchKeepsMatchedIff(before, i);
        if i !in before.running {
          MatchedSize(Dispatched(before, i));
        }
      }
      Dispatch(i);
    }

    /** Registers the rows of one claim. */
    method DispatchAll(rows: seq<Id>)
      requires Valid() && |running| + |rows| <= concurrency
      modifies this
      ensures Valid() && State() == DispatchedAll(old(State()), rows)
      ensures peakHandlers == Max(old(peakHandlers), PeakOfDispatches(old(State()), rows))
      ensures old(WithinSlots()) && !Clashes(old(State()), rows) ==> WithinSlots()
    {
      for k := 0 to |rows|
        invariant Valid() && |running| + |rows| - k <= concurrency && State() == DispatchedAll(old(State()), rows[..k])
        invariant peakHandlers == Max(old(peakHandlers), PeakOfDispatches(old(State()), rows[..k]))
        invariant old(WithinSlots()) && !Clashes(old(State()), rows) ==> WithinSlots()
      {
        assert rows[..k + 1][..k] == rows[..k];
        DispatchOne(rows[k]);
      }
      assert rows[..|rows|] == rows;
    }

    /** One turn of a tick: a claim with handlers settling meanwhile, and the dispatch of its rows. */
    method PollQueue(offer: seq<Id>, settling: seq<Ticket>) returns (n: nat)
      requires Valid() && |running| < concurrency
      modifies this
      ensures Valid() && n == |Answered(old(State()), concurrency, offer)| <= old(FreeSlots())
      ensures State() == DispatchedAll(SettledAll(old(State()), settling), Answered(old(State()), concurrency, offer))
      ensures var rows := Answered(old(State()), concurrency, offer);
              peakHandlers == Max(old(peakHandlers), PeakOfDispatches(SettledAll(old(State()), settling), rows))
      ensures var rows := Answered(old(State()), concurrency, offer);
              old(WithinSlots()) && !Clashes(SettledAll(old(State()), settling), rows) ==> WithinSlots()
    {
      var rows := offer[..Min(FreeSlots(), |offer|)];
      Await(settling);
      DispatchAll(rows);
      n := |rows|;
    }

    /** The loop of a tick. */
    method PollLoop(offers: seq<seq<Id>>, settling: seq<seq<Ticket>>) returns (claimed: nat)
      requires Valid() && |settling| == |offers|
      modifies this
      ensures Valid() && State() == Polled(old(State()), concurrency, offers, settling)
      ensures peakHandlers == Max(old(peakHandlers), PeakOfTick(old(State()), concurrency, offers, settling))
      ensures old(WithinSlots()) && !TickClashes(old(State()), concurrency, offers, settling) ==> WithinSlots()
      ensures next == old(next) + claimed
    {
      claimed := 0;
      ghost var before := State();
      for k := 0 to |offers|
        invariant Valid() && next == old(next) + claimed
        invariant Polled(State(), concurrency, offers[k..], settling[k..]) ==
                    Polled(before, concurrency, offers, settling)
        invariant Max(peakHandlers, PeakOfTick(State(), concurrency, offers[k..], settling[k..])) ==
                    Max(old(peakHandlers), PeakOfTick(before, concurrency, offers, settling))
        invariant TickClashes(State(), concurrency, offers[k..], settling[k..]) ==>
                    TickClashes(before, concurrency, offers, settling)
        invariant old(WithinSlots()) && !TickClashes(before, concurrency, offers, settling) ==> WithinSlots()
      {
        if FreeSlots() <= 0 {
          break;
        }
        TickTurn(State(), concurrency, offers, settling, k);
        var n := PollQueue(offers[k], settling[k]);
        claimed := claimed + n;
      }
    }

    /** One tick of the poll loop, against whatever the database offers and whichever handlers settle meanwhile. The map
        never exceeds the slots. Neither do the handlers in flight, exactly as long as the debt from overwritten entries
        is covered by free slots; there is no such debt if no job is dispatched while it is in the map, in particular if
        no job is offered twice and none that is in the map. */
    method PollOnce(offers: seq<seq<Id>>, settling: seq<seq<Ticket>>) returns (claimed: nat)
      requires Valid() && |settling| == |offers|
      modifies this
      ensures Valid() && State() == Polled(old(State()), concurrency, offers, settling)
      ensures peakHandlers == Max(old(peakHandlers), PeakOfTick(old(State()), concurrency, offers, settling))
      ensures old(peakHandlers) <= concurrency && old(|handlers|) <= concurrency ==>
                (peakHandlers <= concurrency <==> TickCovered(old(State()), concurrency, offers, settling))
      ensures old(WithinSlots()) && !TickClashes(old(State()), concurrency, offers, settling) ==> WithinSlots()
      ensures old(WithinSlots()) && FreshOffers(offers, old(running.Keys)) ==> WithinSlots()
      ensures next == old(next) + claimed
    {
      FreshTick(State(), concurrency, offers, settling);
      CoveredTick(State(), concurrency, offers, settling);
      claimed := PollLoop(offers, settling);
    }
  }
}
