/**
 The T+1 fill rule of the intraday replay: every order the strategy queues is attempted at the
 open of the earliest replayed bar of its symbol starting at or after the decision, unless the
 session-end flatten replaces it or the run ends first.
 */
module IntradayFills {
  import opened OrderedDict
  import opened KernelSpec
  import opened KernelLaws
  import opened BarTables
  import opened SortedTimes
  import opened DailySpec
  import opened IntradaySpec
  import opened IntradayNoLookAhead

  // --------------------------------------------------------------- no order lost or invented

  function OrdersOf(attempts: seq<Attempt>): seq<Order> {
    seq(|attempts|, i requires 0 <= i < |attempts| => attempts[i].order)
  }

  /** Every queued order is in exactly one place: attempted, still pending, or dropped. */
  ghost predicate Accounted(r: Intraday) {
    multiset(r.history.queued)
    == multiset(OrdersOf(r.history.attempts)) + multiset(r.pending) + multiset(r.history.dropped)
  }

  lemma OrdersOfGrows(attempts: seq<Attempt>, orders: seq<Order>, ts: int)
    ensures OrdersOf(attempts + Attempts(orders, ts)) == OrdersOf(attempts) + orders
  {
  }

  lemma DecideAccounts(su: Setup, p: Tempo, t: Table, r: Intraday, ts: int)
    requires su.universe != [] && Accounted(r)
    ensures Accounted(Decide(su, p, t, r, ts))
  {
  }

  lemma FillAccounts(su: Setup, p: Tempo, t: Table, day: int, r: Intraday, ts: int)
    requires Accounted(r)
    ensures Accounted(FillAt(su, p, t, day, r, ts))
  {
    var opens := OpensAt(t, ts);
    DrainSplitsQueue(r.pending, opens, RetainMissing);
    OrdersOfGrows(r.history.attempts, Drained(r.pending, opens, RetainMissing), ts);
  }

  lemma {:induction false} EventsAccount(su: Setup, p: Tempo, t: Table, day: int, r: Intraday, times: set<int>)
    requires su.universe != [] && Accounted(r)
    ensures Accounted(RunEvents(su, p, t, day, r, times))
    decreases |times|
  {
    if !NonEmpty(times) {
    } else {
      var last := Max(times);
      EventsAccount(su, p, t, day, r, times - {last});
      var before := RunEvents(su, p, t, day, r, times - {last});
      DecideAccounts(su, p, t, before, last);
      FillAccounts(su, p, t, day, Decide(su, p, t, before, last), last);
    }
  }

  lemma EndDayAccounts(su: Setup, p: Tempo, t: Table, day: int, r: Intraday)
    requires Accounted(r)
    ensures Accounted(EndDay(su, p, t, day, r))
  {
    if p.sameSession {
      var st := Liquidate(su.costs, su.gate, r.st, ClosesOnDay(p, t, day, Keys(r.st.positions)), day, Quotes(t, day),
                          ExitReasons(r.pending), FLATTEN_REASON);
      var flattened := r.st.entries.Keys - st.entries.Keys;
      var keep, drop := (o: Order) => !Redundant(o, flattened), (o: Order) => Redundant(o, flattened);
      SelectSplits(r.pending, keep, drop);
      var flat := Flatten(su, p, t, day, r);
      assert flat.pending == Select(r.pending, keep);
      assert flat.history.dropped == r.history.dropped + Select(r.pending, drop);
    }
  }

  /** After every day, each queued order was attempted once, dropped by a flatten, or is pending. */
  lemma {:induction false} EveryOrderAccountedFor(su: Setup, p: Tempo, t: Table, days: seq<int>, k: nat)
    requires su.universe != [] && k <= |days|
    ensures Accounted(IntradayDays(su, p, t, days, k))
  {
    if k == 0 {
    } else {
      EveryOrderAccountedFor(su, p, t, days, k - 1);
      var day := days[k - 1];
      var start := StartDay(IntradayDays(su, p, t, days, k - 1), days, day);
      EventsAccount(su, p, t, day, start, Times(p, t, day));
      EndDayAccounts(su, p, t, day, RunEvents(su, p, t, day, start, Times(p, t, day)));
    }
  }

  // ------------------------------------------------------------------ events follow time

  /** Within the grid, every event of a day comes no later than any event of a later day. */
  lemma EventsInOrder(p: Tempo, t: Table, day1: int, day2: int, x: int, y: int)
    requires OnGrid(p, t) && day1 < day2 && x in Times(p, t, day1) && y in Times(p, t, day2)
    ensures x <= y
  {
    EarlierDaysDone(p, t, day2, y, y);
    assert p.barSize > 0;
  }

  // ------------------------------------------------------------------- cursors are counts

  lemma AdvanceKeepsWithin(p: Tempo, t: Table, cursors: map<Symbol, nat>, ts: int, limit: int)
    requires AllAscending(t) && ts <= limit && CursorsWithin(p, t, cursors, limit)
    ensures CursorsWithin(p, t, Advance(p, t, cursors, ts), limit)
  {
    forall s | s in t ensures NumDone(t[s], p.barSize, ts) <= NumDone(t[s], p.barSize, limit) {
      StartedMonotone(t[s], ts - p.barSize, limit - p.barSize);
    }
  }

  lemma EventCursors(su: Setup, p: Tempo, t: Table, day: int, r: Intraday, ts: int)
    requires su.universe != []
    ensures EventStep(su, p, t, day, r, ts).cursors == Advance(p, t, r.cursors, ts)
  {
  }

  /** Events up to `limit` leave no cursor past the bars completed by `limit`. */
  lemma {:induction false} EventsKeepWithin(su: Setup, p: Tempo, t: Table, day: int, r: Intraday, times: set<int>,
                                            limit: int)
    requires su.universe != [] && AllAscending(t) && CursorsWithin(p, t, r.cursors, limit)
    requires forall e :: e in times ==> e <= limit
    ensures CursorsWithin(p, t, RunEvents(su, p, t, day, r, times).cursors, limit)
    decreases |times|
  {
    hide EventStep;
    if !NonEmpty(times) {
    } else {
      var last := Max(times);
      EventsKeepWithin(su, p, t, day, r, times - {last}, limit);
      var before := RunEvents(su, p, t, day, r, times - {last});
      EventCursors(su, p, t, day, before, last);
      AdvanceKeepsWithin(p, t, before.cursors, last, limit);
    }
  }

  lemma DayKeepsWithin(su: Setup, p: Tempo, t: Table, days: seq<int>, day: int, r: Intraday, limit: int)
    requires su.universe != [] && AllAscending(t) && CursorsWithin(p, t, r.cursors, limit)
    requires forall e :: e in Times(p, t, day) ==> e <= limit
    ensures CursorsWithin(p, t, IntradayDay(su, p, t, days, day, r).cursors, limit)
  {
    EventsKeepWithin(su, p, t, day, StartDay(r, days, day), Times(p, t, day), limit);
  }

  lemma {:induction false} DaysKeepWithin(su: Setup, p: Tempo, t: Table, days: seq<int>, k: nat, limit: int)
    requires su.universe != [] && k <= |days| && AllAscending(t)
    requires forall j, e :: 0 <= j < k && e in Times(p, t, days[j]) ==> e <= limit
    ensures CursorsWithin(p, t, IntradayDays(su, p, t, days, k).cursors, limit)
  {
    hide IntradayDay, Times;
    if k == 0 {
    } else {
      DaysKeepWithin(su, p, t, days, k - 1, limit);
      DayKeepsWithin(su, p, t, days, days[k - 1], IntradayDays(su, p, t, days, k - 1), limit);
    }
  }

  /** The event at `ts` puts every cursor at the number of bars completed by `ts`. */
  lemma LastEventCounts(su: Setup, p: Tempo, t: Table, day: int, r: Intraday, ts: int, s: Symbol)
    requires su.universe != [] && AllAscending(t) && ts in Times(p, t, day) && s in t
    requires CursorsWithin(p, t, r.cursors, ts)
    ensures var c := RunEvents(su, p, t, day, r, TimesUpTo(p, t, day, ts)).cursors;
      s in c && c[s] == NumDone(t[s], p.barSize, ts)
  {
    hide EventStep, Times, NumDone;
    var times := TimesUpTo(p, t, day, ts);
    assert ts in times && Max(times) == ts;
    EventsKeepWithin(su, p, t, day, r, times - {ts}, ts);
    var before := RunEvents(su, p, t, day, r, times - {ts});
    EventCursors(su, p, t, day, before, ts);
  }

  /**
   At every event of every run each cursor equals the plain count of completed bars, so what the
   strategy sees is exactly the bars with start + size <= ts.
   */
  lemma CursorsCountCompleted(su: Setup, p: Tempo, t: Table, days: seq<int>, k: nat, ts: int, s: Symbol)
    requires su.universe != [] && OnGrid(p, t) && StrictlyAscending(days) && k < |days|
    requires ts in Times(p, t, days[k]) && s in t
    ensures var c := IntradayAt(su, p, t, days, k, ts).cursors; s in c && c[s] == NumDone(t[s], p.barSize, ts)
  {
    hide Times, RunEvents, IntradayDays;
    forall j, e | 0 <= j < k && e in Times(p, t, days[j]) ensures e <= ts {
      EventsInOrder(p, t, days[j], days[k], e, ts);
    }
    DaysKeepWithin(su, p, t, days, k, ts);
    LastEventCounts(su, p, t, days[k], StartDay(IntradayDays(su, p, t, days, k), days, days[k]), ts, s);
  }

  // -------------------------------------------------------------------------- the fill rule

  /** The bar start `x` has been replayed: on one of the first `k` days, or among `done` today. */
  ghost predicate Passed(p: Tempo, days: seq<int>, k: nat, done: set<int>, x: int)
    requires k <= |days|
  {
    p.dayOf(x) in days[..k] || (k < |days| && p.dayOf(x) == days[k] && x in done)
  }

  /** No replayed bar of the order's symbol starts at or after its decision. */
  ghost predicate NotMissed(p: Tempo, t: Table, days: seq<int>, k: nat, done: set<int>, o: Order)
    requires k <= |days|
  {
    o.symbol in t ==>
      forall i :: 0 <= i < |t[o.symbol]| && Passed(p, days, k, done, t[o.symbol][i].start)
        ==> t[o.symbol][i].start < o.decidedAt
  }

  /** The order was decided at an event already processed. */
  ghost predicate DecidedSoFar(p: Tempo, t: Table, days: seq<int>, k: nat, done: set<int>, o: Order)
    requires k <= |days|
  {
    o.decidedAt in done || exists j :: 0 <= j < k && o.decidedAt in Times(p, t, days[j])
  }

  ghost predicate Waiting(p: Tempo, t: Table, days: seq<int>, k: nat, done: set<int>, o: Order)
    requires k <= |days|
  {
    NotMissed(p, t, days, k, done, o) && DecidedSoFar(p, t, days, k, done, o)
  }

  /** Attempted at the earliest replayed bar of its symbol that starts at or after the decision. */
  ghost predicate FilledNext(p: Tempo, t: Table, days: seq<int>, a: Attempt) {
    var o := a.order;
    && o.symbol in t
    && o.decidedAt <= a.ts
    && p.dayOf(a.ts) in days
    && (exists i :: 0 <= i < |t[o.symbol]| && t[o.symbol][i].start == a.ts)
    && (forall i :: 0 <= i < |t[o.symbol]| && p.dayOf(t[o.symbol][i].start) in days && o.decidedAt <= t[o.symbol][i].start
          ==> a.ts <= t[o.symbol][i].start)
  }

  ghost predicate OnTime(p: Tempo, t: Table, days: seq<int>, k: nat, done: set<int>, r: Intraday)
    requires k <= |days|
  {
    && (forall o :: o in r.pending ==> Waiting(p, t, days, k, done, o))
    && (forall a :: a in r.history.attempts ==> FilledNext(p, t, days, a))
  }

  /** `done` holds exactly the day's events before `ts`. */
  ghost predicate UpNext(p: Tempo, t: Table, day: int, done: set<int>, ts: int) {
    && ts in Times(p, t, day)
    && (forall e :: e in done ==> e < ts)
    && (forall e :: e in Times(p, t, day) && e < ts ==> e in done)
  }

  lemma OpenMeansBar(bars: seq<Bar>, ts: int)
    requires Ascending(bars)
    ensures OpenAt(bars, ts).Some? <==> exists i :: 0 <= i < |bars| && bars[i].start == ts
  {
    StartedIsPrefix(bars, ts);
    var n := NumStarted(bars, ts);
    if i :| 0 <= i < |bars| && bars[i].start == ts {
      assert i < n && bars[i].start <= bars[n - 1].start;
    }
  }

  /** A passed bar started before the next event. */
  lemma PassedIsEarlier(p: Tempo, t: Table, days: seq<int>, k: nat, done: set<int>, ts: int, s: Symbol, i: nat)
    requires OnGrid(p, t) && StrictlyAscending(days) && k < |days| && UpNext(p, t, days[k], done, ts)
    requires s in t && i < |t[s]| && Passed(p, days, k, done, t[s][i].start)
    ensures t[s][i].start < ts
  {
    var x := t[s][i].start;
    if x !in done {
      assert p.dayOf(x) < days[k];
      EarlierDaysDone(p, t, days[k], ts, ts);
    }
  }

  lemma NewOrderWaits(p: Tempo, t: Table, days: seq<int>, k: nat, done: set<int>, ts: int, o: Order)
    requires OnGrid(p, t) && StrictlyAscending(days) && k < |days| && UpNext(p, t, days[k], done, ts)
    requires o.decidedAt == ts
    ensures NotMissed(p, t, days, k, done, o)
  {
    if o.symbol in t {
      forall i | 0 <= i < |t[o.symbol]| && Passed(p, days, k, done, t[o.symbol][i].start)
        ensures t[o.symbol][i].start < ts
      {
        PassedIsEarlier(p, t, days, k, done, ts, o.symbol, i);
      }
    }
  }

  lemma DecidedByNow(p: Tempo, t: Table, days: seq<int>, k: nat, done: set<int>, ts: int, o: Order)
    requires OnGrid(p, t) && StrictlyAscending(days) && k < |days| && UpNext(p, t, days[k], done, ts)
    requires DecidedSoFar(p, t, days, k, done, o)
    ensures o.decidedAt <= ts
  {
    if o.decidedAt !in done {
      var j :| 0 <= j < k && o.decidedAt in Times(p, t, days[j]);
      EventsInOrder(p, t, days[j], days[k], o.decidedAt, ts);
    }
  }

  /** A replayed bar that starts before the current fill has been passed. */
  lemma EarlierIsPassed(p: Tempo, t: Table, days: seq<int>, k: nat, done: set<int>, ts: int, s: Symbol, i: nat)
    requires OnGrid(p, t) && StrictlyAscending(days) && k < |days| && UpNext(p, t, days[k], done, ts)
    requires p.dayOf(ts) == days[k]
    requires s in t && i < |t[s]| && p.dayOf(t[s][i].start) in days && t[s][i].start < ts
    ensures Passed(p, days, k, done, t[s][i].start)
  {
    var x := t[s][i].start;
    var j :| 0 <= j < |days| && days[j] == p.dayOf(x);
    assert p.dayOf(x) <= p.dayOf(ts);
    if j >= k {
      assert days[j] >= days[k];
      assert x in StartsOn(p, t, days[k]);
    } else {
      assert days[..k][j] == p.dayOf(x);
    }
  }

  /** An order whose symbol has a bar starting right now is attempted on time. */
  lemma AttemptIsNext(p: Tempo, t: Table, days: seq<int>, k: nat, done: set<int>, ts: int, o: Order)
    requires OnGrid(p, t) && StrictlyAscending(days) && k < |days| && UpNext(p, t, days[k], done, ts)
    requires NotMissed(p, t, days, k, done, o) && o.decidedAt <= ts
    requires ts in StartsOn(p, t, days[k]) && o.symbol in t && OpenAt(t[o.symbol], ts).Some?
    ensures FilledNext(p, t, days, Attempt(o, ts))
  {
    OpenMeansBar(t[o.symbol], ts);
    var bars := t[o.symbol];
    forall i | 0 <= i < |bars| && p.dayOf(bars[i].start) in days && o.decidedAt <= bars[i].start
      ensures ts <= bars[i].start
    {
      if bars[i].start < ts {
        EarlierIsPassed(p, t, days, k, done, ts, o.symbol, i);
      }
    }
  }

  /** An order that the event leaves queued has still not missed a bar. */
  lemma CarriedNotMissed(p: Tempo, t: Table, days: seq<int>, k: nat, done: set<int>, ts: int, o: Order)
    requires AllAscending(t) && k < |days| && NotMissed(p, t, days, k, done, o)
    requires ts in StartsOn(p, t, days[k]) && o.symbol in t ==> OpenAt(t[o.symbol], ts).None?
    ensures NotMissed(p, t, days, k, done + {ts}, o)
  {
    if o.symbol in t {
      OpenMeansBar(t[o.symbol], ts);
      var bars := t[o.symbol];
      forall i | 0 <= i < |bars| && Passed(p, days, k, done + {ts}, bars[i].start)
        ensures bars[i].start < o.decidedAt
      {
        assert p.dayOf(bars[i].start) == days[k] ==> bars[i].start in StartsOn(p, t, days[k]);
        assert Passed(p, days, k, done, bars[i].start);
      }
    }
  }

  /** Every order queued at `ts` was decided then, and joins the queue behind the old ones. */
  lemma DecideQueues(su: Setup, p: Tempo, t: Table, r: Intraday, ts: int)
    requires su.universe != []
    ensures var d := Decide(su, p, t, r, ts);
      && d.history.attempts == r.history.attempts
      && (forall o :: o in d.pending ==> o in r.pending || o.decidedAt == ts)
  {
  }

  lemma AttemptsHold(orders: seq<Order>, ts: int, a: Attempt)
    requires a in Attempts(orders, ts)
    ensures a.ts == ts && a.order in orders
  {
  }

  /** What a fill event attempts and what it leaves queued. */
  lemma FillSplits(su: Setup, p: Tempo, t: Table, day: int, r: Intraday, ts: int)
    ensures var f := FillAt(su, p, t, day, r, ts);
      && (forall a :: a in f.history.attempts && a !in r.history.attempts
            ==> a.ts == ts && a.order in r.pending && ts in StartsOn(p, t, day) && a.order.symbol in OpensAt(t, ts))
      && (forall o :: o in f.pending ==> o in r.pending && (ts in StartsOn(p, t, day) ==> o.symbol !in OpensAt(t, ts)))
  {
    if ts in StartsOn(p, t, day) && r.pending != [] {
      var opens := OpensAt(t, ts);
      var carry := (o: Order) => RetainMissing.RetainMissing? && o.symbol !in opens;
      var now := (o: Order) => !(RetainMissing.RetainMissing? && o.symbol !in opens);
      SelectKeeps(r.pending, carry);
      SelectKeeps(r.pending, now);
      assert Carried(r.pending, opens, RetainMissing) == Select(r.pending, carry);
      assert Drained(r.pending, opens, RetainMissing) == Select(r.pending, now);
      forall a | a in Attempts(Select(r.pending, now), ts) ensures a.ts == ts && a.order in r.pending && now(a.order) {
        AttemptsHold(Select(r.pending, now), ts, a);
      }
    }
  }

  lemma EventOnTime(su: Setup, p: Tempo, t: Table, days: seq<int>, k: nat, done: set<int>, r: Intraday, ts: int)
    requires su.universe != [] && OnGrid(p, t) && StrictlyAscending(days) && k < |days|
    requires UpNext(p, t, days[k], done, ts) && OnTime(p, t, days, k, done, r)
    ensures OnTime(p, t, days, k, done + {ts}, EventStep(su, p, t, days[k], r, ts))
  {
    var d := Decide(su, p, t, r, ts);
    var f := FillAt(su, p, t, days[k], d, ts);
    DecideQueues(su, p, t, r, ts);
    FillSplits(su, p, t, days[k], d, ts);
    forall o | o in d.pending
      ensures NotMissed(p, t, days, k, done, o) && DecidedSoFar(p, t, days, k, done + {ts}, o) && o.decidedAt <= ts
    {
      if o in r.pending {
        DecidedByNow(p, t, days, k, done, ts, o);
      } else {
        NewOrderWaits(p, t, days, k, done, ts, o);
      }
    }
    forall o | o in f.pending ensures Waiting(p, t, days, k, done + {ts}, o) {
      CarriedNotMissed(p, t, days, k, done, ts, o);
    }
    forall a | a in f.history.attempts ensures FilledNext(p, t, days, a) {
      if a !in r.history.attempts {
        assert a == Attempt(a.order, ts);
        AttemptIsNext(p, t, days, k, done, ts, a.order);
      }
    }
  }

  /** `times` holds every event of the day up to the latest one in it. */
  ghost predicate Initially(p: Tempo, t: Table, day: int, times: set<int>) {
    && times <= Times(p, t, day)
    && forall e, x :: e in Times(p, t, day) && x in times && e <= x ==> e in times
  }

  lemma {:induction false} EventsOnTime(su: Setup, p: Tempo, t: Table, days: seq<int>, k: nat, r: Intraday,
                                        times: set<int>)
    requires su.universe != [] && OnGrid(p, t) && StrictlyAscending(days) && k < |days|
    requires Initially(p, t, days[k], times) && OnTime(p, t, days, k, {}, r)
    ensures OnTime(p, t, days, k, times, RunEvents(su, p, t, days[k], r, times))
    decreases |times|
  {
    hide EventStep, OnTime, OnGrid;
    if NonEmpty(times) {
      var last := Max(times);
      var done := times - {last};
      EventsOnTime(su, p, t, days, k, r, done);
      assert UpNext(p, t, days[k], done, last);
      EventOnTime(su, p, t, days, k, done, RunEvents(su, p, t, days[k], r, done), last);
      assert done + {last} == times;
    } else {
      assert times == {};
    }
  }

  lemma NextDayWaits(p: Tempo, t: Table, days: seq<int>, k: nat, o: Order)
    requires k < |days| && Waiting(p, t, days, k, Times(p, t, days[k]), o)
    ensures Waiting(p, t, days, k + 1, {}, o)
  {
    assert days[..k + 1] == days[..k] + [days[k]];
    if o.symbol in t {
      var bars := t[o.symbol];
      forall i | 0 <= i < |bars| && Passed(p, days, k + 1, {}, bars[i].start) ensures bars[i].start < o.decidedAt {
        if p.dayOf(bars[i].start) == days[k] {
          assert bars[i].start in StartsOn(p, t, days[k]);
        }
        assert Passed(p, days, k, Times(p, t, days[k]), bars[i].start);
      }
    }
  }

  lemma EndDayOnTime(su: Setup, p: Tempo, t: Table, days: seq<int>, k: nat, r: Intraday)
    requires k < |days| && OnTime(p, t, days, k, Times(p, t, days[k]), r)
    ensures OnTime(p, t, days, k + 1, {}, EndDay(su, p, t, days[k], r))
  {
    var e := EndDay(su, p, t, days[k], r);
    forall o | o in e.pending ensures o in r.pending {
      if p.sameSession {
        var st := Liquidate(su.costs, su.gate, r.st, ClosesOnDay(p, t, days[k], Keys(r.st.positions)), days[k],
                            Quotes(t, days[k]), ExitReasons(r.pending), FLATTEN_REASON);
        var flattened := r.st.entries.Keys - st.entries.Keys;
        var keep := (o: Order) => !Redundant(o, flattened);
        SelectKeeps(r.pending, keep);
        assert e.pending == Select(r.pending, keep);
      }
    }
    forall o | o in e.pending ensures Waiting(p, t, days, k + 1, {}, o) {
      NextDayWaits(p, t, days, k, o);
    }
  }

  lemma NothingQueuedYet(p: Tempo, t: Table, days: seq<int>, r: Intraday)
    requires r.pending == [] && r.history.attempts == []
    ensures OnTime(p, t, days, 0, {}, r)
  {
  }

  lemma DayOnTime(su: Setup, p: Tempo, t: Table, days: seq<int>, k: nat, r: Intraday, next: Intraday)
    requires su.universe != [] && OnGrid(p, t) && StrictlyAscending(days) && k < |days|
    requires OnTime(p, t, days, k, {}, r) && next == IntradayDay(su, p, t, days, days[k], r)
    ensures OnTime(p, t, days, k + 1, {}, next)
  {
    var start := StartDay(r, days, days[k]);
    EventsOnTime(su, p, t, days, k, start, Times(p, t, days[k]));
    EndDayOnTime(su, p, t, days, k, RunEvents(su, p, t, days[k], start, Times(p, t, days[k])));
  }

  /**
   The fill rule, over every run and after every day: each attempt was made at the open of the
   earliest replayed bar of its symbol starting at or after the decision, and an order still
   pending has had no such bar.
   */
  lemma {:induction false} FillsAtNextBar(su: Setup, p: Tempo, t: Table, days: seq<int>, k: nat)
    requires su.universe != [] && OnGrid(p, t) && StrictlyAscending(days) && k <= |days|
    ensures OnTime(p, t, days, k, {}, IntradayDays(su, p, t, days, k))
  {
    NothingQueuedYet(p, t, days, IntradayDays(su, p, t, days, 0));
    for j := 0 to k
      invariant OnTime(p, t, days, j, {}, IntradayDays(su, p, t, days, j))
    {
      DayOnTime(su, p, t, days, j, IntradayDays(su, p, t, days, j), IntradayDays(su, p, t, days, j + 1));
    }
  }

  /**
   Never at a bar already seen: whatever bar was complete when an order was decided started
   strictly before the bar it was attempted at.
   */
  lemma NeverAtSeenBar(p: Tempo, t: Table, days: seq<int>, a: Attempt, i: nat)
    requires OnGrid(p, t) && FilledNext(p, t, days, a)
    requires i < NumDone(t[a.order.symbol], p.barSize, a.order.decidedAt)
    ensures t[a.order.symbol][i].start < a.ts
  {
    StartedIsPrefix(t[a.order.symbol], a.order.decidedAt - p.barSize);
  }
}
