/**
 What the intraday run leaks through the data provider: its latest bar is chosen by UTC date,
 so a gate that prices on it can see a bar still in progress.
 */
module ProviderQuotes {
  import opened OrderedDict
  import opened KernelSpec
  import opened KernelLaws
  import opened BarTables
  import opened SortedTimes
  import opened DailySpec
  import opened IntradaySpec
  import opened IntradayNoLookAhead

  /** The last second of a UTC day. */
  function DayEnd(day: int): int {
    (day + 1) * SECONDS_PER_DAY - 1
  }

  /** The bars dated up to `day` are the first NumStarted(bars, DayEnd(day)) of them. */
  lemma UpToIsStarted(bars: seq<Bar>, day: int)
    requires Ascending(bars)
    ensures forall i :: 0 <= i < |bars| ==> (UtcDate(bars[i].start) <= day <==> i < NumStarted(bars, DayEnd(day)))
    ensures UpTo(bars, day) == bars[..NumStarted(bars, DayEnd(day))]
  {
    StartedIsPrefix(bars, DayEnd(day));
    UpToIsPrefix(bars, day, NumStarted(bars, DayEnd(day)));
  }

  ghost predicate AllDatedDone(bars: seq<Bar>, size: int, ts: int) {
    forall i :: 0 <= i < |bars| && UtcDate(bars[i].start) <= UtcDate(ts) ==> bars[i].start + size <= ts
  }

  /**
   The provider offers exactly the completed bars at `ts` if and only if every bar dated up to
   that day has completed.
   */
  lemma QuotesAreCompletedBars(bars: seq<Bar>, size: int, ts: int)
    requires Ascending(bars) && size > 0
    ensures UpTo(bars, UtcDate(ts)) == bars[..NumDone(bars, size, ts)] <==> AllDatedDone(bars, size, ts)
  {
    var day := UtcDate(ts);
    var done, dated := NumDone(bars, size, ts), NumStarted(bars, DayEnd(day));
    UpToIsStarted(bars, day);
    StartedIsPrefix(bars, ts - size);
    StartedMonotone(bars, ts - size, DayEnd(day));
    if done < dated {
      assert UtcDate(bars[done].start) <= day && !(bars[done].start + size <= ts);
      assert |bars[..done]| != |bars[..dated]|;
    } else {
      assert done == dated;
    }
  }

  // ------------------------------------------------------------------- when no gate can tell

  /** Every bar dated up to the UTC date of `ts` has completed by then. */
  ghost predicate DateIsDone(p: Tempo, t: Table, ts: int) {
    forall s :: s in t ==> AllDatedDone(t[s], p.barSize, ts)
  }

  lemma DatedBarsAgree(b1: seq<Bar>, b2: seq<Bar>, size: int, ts: int, day: int)
    requires Ascending(b1) && Ascending(b2) && size > 0 && AgreeBars(b1, b2, size, ts) && day <= UtcDate(ts)
    requires AllDatedDone(b1, size, ts) && AllDatedDone(b2, size, ts)
    ensures UpTo(b1, day) == UpTo(b2, day)
  {
    QuotesAreCompletedBars(b1, size, ts);
    QuotesAreCompletedBars(b2, size, ts);
    UpToTwice(b1, day, UtcDate(ts));
    UpToTwice(b2, day, UtcDate(ts));
  }

  lemma QuotesOfDoneDates(p: Tempo, t1: Table, t2: Table, ts: int, day: int)
    requires AllAscending(t1) && AllAscending(t2) && p.barSize > 0 && AgreeAt(p, t1, t2, ts) && day <= UtcDate(ts)
    requires DateIsDone(p, t1, ts) && DateIsDone(p, t2, ts)
    ensures Quotes(t1, day) == Quotes(t2, day)
  {
    hide AgreeBars, AllDatedDone, UpTo;
    forall s | s in t1 ensures UpTo(t1[s], day) == UpTo(t2[s], day) {
      DatedBarsAgree(t1[s], t2[s], p.barSize, ts, day);
    }
  }

  /**
   No look-ahead for any gate, at every event by which all bars of its date have completed: then
   the provider has nothing to show that is not known yet.
   */
  lemma NoLookAheadOnceDateIsDone(su: Setup, p: Tempo, t1: Table, t2: Table, days1: seq<int>, days2: seq<int>, k: nat,
                                  ts: int)
    requires su.universe != [] && OnGrid(p, t1) && OnGrid(p, t2) && SameTables(p, t1, t2, ts)
    requires DatesAgree(p, t1) && DateIsDone(p, t1, ts) && DateIsDone(p, t2, ts)
    requires k < |days1| && k < |days2| && days1[..k + 1] == days2[..k + 1]
    requires StrictlyAscending(days1) && StrictlyAscending(days2) && ts in Times(p, t1, days1[k])
    ensures IntradayAt(su, p, t1, days1, k, ts) == IntradayAt(su, p, t2, days2, k, ts)
  {
    hide IntradayAt, Quotes, SameSoFar, AgreeBars, DateIsDone;
    forall s | s in t1 ensures AgreeBars(t1[s], t2[s], p.barSize, ts) {
      SameSoFarMeansAgree(t1[s], t2[s], p.barSize, ts);
    }
    forall day | day <= UtcDate(ts) ensures Quotes(t1, day) == Quotes(t2, day) {
      QuotesOfDoneDates(p, t1, t2, ts, day);
    }
    NoLookAheadWithinDay(su, p, t1, t2, days1, days2, k, ts, UtcDate(ts));
  }

  // ------------------------------------------------------------------- when some gate can tell

  /** The order gets past every skip check, so the gate decides on it. */
  predicate ReachesGate(c: Costs, st: State, o: Order, opens: map<Symbol, real>) {
    SkipReason(c, st, o, opens).None?
  }

  predicate AnyReachesGate(c: Costs, st: State, orders: seq<Order>, opens: map<Symbol, real>) {
    exists o :: o in orders && ReachesGate(c, st, o, opens)
  }

  lemma SameBookSameReason(c: Costs, st: State, later: State, o: Order, opens: map<Symbol, real>)
    requires later == st.(log := later.log)
    ensures SkipReason(c, later, o, opens) == SkipReason(c, st, o, opens)
  {
  }

  /** When every order is skipped the gate and the quotes are never consulted. */
  lemma {:induction false} AllSkipped(c: Costs, gate: Gate, s1: Snapshot, s2: Snapshot, st: State, orders: seq<Order>)
    requires s1.day == s2.day && s1.marks == s2.marks && !AnyReachesGate(c, st, orders, s1.marks)
    ensures var r := RunOrders(c, gate, s1, st, orders);
      && r == RunOrders(c, gate, s2, st, orders)
      && r == st.(log := r.log)
  {
    if orders == [] {
    } else {
      var front, last := orders[..|orders| - 1], orders[|orders| - 1];
      assert forall o :: o in front ==> o in orders;
      AllSkipped(c, gate, s1, s2, st, front);
      assert last in orders && !ReachesGate(c, st, last, s1.marks);
      SameBookSameReason(c, st, RunOrders(c, gate, s1, st, front), last, s1.marks);
    }
  }

  function AllFills(log: seq<Record>): nat {
    NumFills(log, Buy) + NumFills(log, Sell)
  }

  lemma FillsGrow(log: seq<Record>, r: Record)
    ensures AllFills(log + [r]) == AllFills(log) + if r.Filled? then 1 else 0
  {
    Appended(log, r);
  }

  /** What one order adds to the fills of the log, when the gate's answer on it is `ok`. */
  lemma StepFills(c: Costs, gate: Gate, snap: Snapshot, st: State, o: Order, ok: bool)
    requires forall log, x :: gate(log, x, snap) == ok
    ensures AllFills(OrderStep(c, gate, snap, st, o).log)
         == AllFills(st.log) + if ok && ReachesGate(c, st, o, snap.marks) then 1 else 0
  {
    hide AllFills;
    var after := OrderStep(c, gate, snap, st, o).log;
    if after != st.log {
      FillsGrow(st.log, after[|st.log|]);
      assert after == st.log + [after[|st.log|]];
    }
  }

  lemma ReachesAlike(c: Costs, st: State, later: State, o: Order, opens: map<Symbol, real>)
    requires later == st.(log := later.log)
    ensures ReachesGate(c, later, o, opens) <==> ReachesGate(c, st, o, opens)
  {
    SameBookSameReason(c, st, later, o, opens);
  }

  lemma {:induction false} RunFills(c: Costs, gate: Gate, snap: Snapshot, st: State, orders: seq<Order>, ok: bool)
    requires forall log, x :: gate(log, x, snap) == ok
    ensures var fills := AllFills(RunOrders(c, gate, snap, st, orders).log);
      && fills >= AllFills(st.log)
      && (!ok ==> fills == AllFills(st.log))
      && (ok && AnyReachesGate(c, st, orders, snap.marks) ==> fills > AllFills(st.log))
  {
    hide AllFills, OrderStep, ReachesGate;
    if orders == [] {
    } else {
      var front, last := orders[..|orders| - 1], orders[|orders| - 1];
      RunFills(c, gate, snap, st, front, ok);
      StepFills(c, gate, snap, RunOrders(c, gate, snap, st, front), last, ok);
      if AnyReachesGate(c, st, orders, snap.marks) && !AnyReachesGate(c, st, front, snap.marks) {
        AllSkipped(c, gate, snap, snap, st, front);
        ReachesAlike(c, st, RunOrders(c, gate, snap, st, front), last, snap.marks);
      }
    }
  }

  /** Approve exactly while the provider shows these quotes. */
  function Recognises(q: map<Symbol, Bar>): Gate {
    (log: seq<Record>, o: Order, snap: Snapshot) => snap.quotes == q
  }

  lemma OfSideMembers(orders: seq<Order>, side: Side, o: Order)
    ensures o in OfSide(orders, side) <==> o in orders && o.side == side
  {
    SelectKeeps(orders, (x: Order) => x.side == side);
  }

  lemma ReachesBySide(c: Costs, st: State, orders: seq<Order>, opens: map<Symbol, real>)
    ensures AnyReachesGate(c, st, orders, opens)
       <==> AnyReachesGate(c, st, OfSide(orders, Sell), opens) || AnyReachesGate(c, st, OfSide(orders, Buy), opens)
  {
    forall o ensures o in orders <==> o in OfSide(orders, Sell) || o in OfSide(orders, Buy) {
      OfSideMembers(orders, Sell, o);
      OfSideMembers(orders, Buy, o);
    }
  }

  /** A drain of orders none of which reaches the gate is the same whatever the quotes. */
  lemma DrainWithoutDecision(c: Costs, gate: Gate, st: State, pending: seq<Order>, opens: map<Symbol, real>, day: int,
                             q1: map<Symbol, Bar>, q2: map<Symbol, Bar>, policy: MissingOpenPolicy)
    requires !AnyReachesGate(c, st, Drained(pending, opens, policy), opens)
    ensures Drain(c, gate, st, pending, opens, day, q1, policy) == Drain(c, gate, st, pending, opens, day, q2, policy)
  {
    hide RunOrders, OfSide, Drained, ReachesGate;
    var orders := Drained(pending, opens, policy);
    ReachesBySide(c, st, orders, opens);
    AllSkipped(c, gate, Snap(st, day, opens, q1), Snap(st, day, opens, q2), st, OfSide(orders, Sell));
    var sold := RunOrders(c, gate, Snap(st, day, opens, q1), st, OfSide(orders, Sell));
    forall o | o in OfSide(orders, Buy) ensures !ReachesGate(c, sold, o, opens) {
      assert !ReachesGate(c, st, o, opens);
      ReachesAlike(c, st, sold, o, opens);
    }
    AllSkipped(c, gate, Snap(sold, day, opens, q1), Snap(sold, day, opens, q2), sold, OfSide(orders, Buy));
  }

  /** How many fills a drain adds under a gate that gives one answer throughout. */
  lemma DrainFills(c: Costs, gate: Gate, st: State, pending: seq<Order>, opens: map<Symbol, real>, day: int,
                   q: map<Symbol, Bar>, policy: MissingOpenPolicy, ok: bool)
    requires forall log, x, snap: Snapshot :: snap.quotes == q ==> gate(log, x, snap) == ok
    ensures var fills := AllFills(Drain(c, gate, st, pending, opens, day, q, policy).log);
      && (!ok ==> fills == AllFills(st.log))
      && (ok && AnyReachesGate(c, st, Drained(pending, opens, policy), opens) ==> fills > AllFills(st.log))
  {
    hide RunOrders, OfSide, Drained, ReachesGate, AllFills;
    var orders := Drained(pending, opens, policy);
    if orders != [] {
      ReachesBySide(c, st, orders, opens);
      var snap := Snap(st, day, opens, q);
      RunFills(c, gate, snap, st, OfSide(orders, Sell), ok);
      var sold := RunOrders(c, gate, snap, st, OfSide(orders, Sell));
      RunFills(c, gate, Snap(sold, day, opens, q), sold, OfSide(orders, Buy), ok);
      if !AnyReachesGate(c, st, OfSide(orders, Sell), opens) && AnyReachesGate(c, st, OfSide(orders, Buy), opens) {
        AllSkipped(c, gate, snap, snap, st, OfSide(orders, Sell));
        var o :| o in OfSide(orders, Buy) && ReachesGate(c, st, o, opens);
        ReachesAlike(c, st, sold, o, opens);
      }
    }
  }

  lemma NothingPendingNothingReaches(c: Costs, r: Intraday, opens: map<Symbol, real>)
    ensures r.pending == [] ==> !AnyReachesGate(c, r.st, Drained(r.pending, opens, RetainMissing), opens)
  {
  }

  /**
   The leak at a fill, exactly: from the same state and opens, no gate can tell two tables apart if
   and only if their quotes for the UTC date are the same or no order gets as far as the gate.
   */
  lemma FillLeaksIff(su: Setup, p: Tempo, t1: Table, t2: Table, day: int, r: Intraday, ts: int)
    requires OpensAt(t1, ts) == OpensAt(t2, ts) && ts in StartsOn(p, t1, day) && ts in StartsOn(p, t2, day)
    ensures (forall gate: Gate :: FillAt(su.(gate := gate), p, t1, day, r, ts) == FillAt(su.(gate := gate), p, t2, day, r, ts))
       <==> Quotes(t1, UtcDate(ts)) == Quotes(t2, UtcDate(ts))
            || !AnyReachesGate(su.costs, r.st, Drained(r.pending, OpensAt(t1, ts), RetainMissing), OpensAt(t1, ts))
  {
    hide Drain, Drained, Quotes, OpensAt, StartsOn, AnyReachesGate;
    var q1, q2, opens := Quotes(t1, UtcDate(ts)), Quotes(t2, UtcDate(ts)), OpensAt(t1, ts);
    if !AnyReachesGate(su.costs, r.st, Drained(r.pending, opens, RetainMissing), opens) {
      forall gate: Gate ensures FillAt(su.(gate := gate), p, t1, day, r, ts) == FillAt(su.(gate := gate), p, t2, day, r, ts) {
        DrainWithoutDecision(su.costs, gate, r.st, r.pending, opens, UtcDate(ts), q1, q2, RetainMissing);
      }
    } else if q1 != q2 {
      var gate := Recognises(q1);
      DrainFills(su.costs, gate, r.st, r.pending, opens, UtcDate(ts), q1, RetainMissing, true);
      DrainFills(su.costs, gate, r.st, r.pending, opens, UtcDate(ts), q2, RetainMissing, false);
      NothingPendingNothingReaches(su.costs, r, opens);
      assert FillAt(su.(gate := gate), p, t1, day, r, ts).st != FillAt(su.(gate := gate), p, t2, day, r, ts).st;
    }
  }

  // ------------------------------------------------------------------- a run that looks ahead

  const X := Ticker(0)
  const MINUTE := Tempo(60, false, x => true, UtcDate)

  /** Two one-minute bars; only the second one's close varies. */
  function TwoBars(close: real): Table {
    map[X := [Bar(0, 1.0, 1.0, 1.0, 1.0, 1), Bar(60, 1.0, 1.0, 1.0, close, 1)]]
  }

  function BuyOne(shown: seq<Context>): Decision {
    Decision([Intent(X, Buy, 1.0)], "entry")
  }

  /** An order-value cap priced on the provider's latest close. */
  function OrderValueCap(cap: real): Gate {
    (log: seq<Record>, o: Order, snap: Snapshot) => o.symbol in snap.quotes && o.quantity * snap.quotes[o.symbol].close <= cap
  }

  function Capped(cap: real): Setup {
    Setup(Costs(0.0, 0.0), OrderValueCap(cap), BuyOne, [X], 1.0)
  }

  lemma OnMinuteGrid(close: real)
    ensures OnGrid(MINUTE, TwoBars(close))
  {
    assert forall x, y :: x <= y ==> MINUTE.dayOf(x) <= MINUTE.dayOf(y);
  }

  lemma Counts(close: real)
    ensures var bars := TwoBars(close)[X];
      && NumStarted(bars, -60) == 0 && NumStarted(bars, 0) == 1 && NumStarted(bars, 59) == 1 && NumStarted(bars, 60) == 2
  {
    var bars := TwoBars(close)[X];
    assert bars[..1] == [Bar(0, 1.0, 1.0, 1.0, 1.0, 1)];
    assert bars[..1][..0] == [];
  }

  lemma TablesAgree(c1: real, c2: real)
    ensures AgreeAt(MINUTE, TwoBars(c1), TwoBars(c2), 60)
  {
    Counts(c1);
    Counts(c2);
  }

  lemma MorningTimes(close: real)
    ensures StartsOn(MINUTE, TwoBars(close), 0) == {0, 60}
    ensures TimesUpTo(MINUTE, TwoBars(close), 0, 60) == {0, 60}
  {
    var t := TwoBars(close);
    var bars: seq<Bar> := t[X];
    assert bars[0].start == 0 && bars[1].start == 60;
    assert StartsOn(MINUTE, t, 0) == {0, 60};
  }

  lemma TwoEvents(su: Setup, t: Table, r: Intraday)
    requires su.universe != []
    ensures RunEvents(su, MINUTE, t, 0, r, {0, 60})
         == EventStep(su, MINUTE, t, 0, EventStep(su, MINUTE, t, 0, r, 0), 60)
  {
    assert 60 in {0, 60} && Max({0, 60}) == 60;
    assert {0, 60} - {60} == {0};
    assert 0 in {0} && Max({0}) == 0;
    var none: set<int> := {0} - {0};
    assert !NonEmpty(none);
  }

  lemma FirstEventIdle(su: Setup, close: real, r: Intraday)
    requires su.universe != [] && r.pending == [] && r.cursors == map[X := 0]
    ensures EventStep(su, MINUTE, TwoBars(close), 0, r, 0) == r
  {
    Counts(close);
    var t := TwoBars(close);
    assert Advance(MINUTE, t, r.cursors, 0) == map[X := 0];
  }

  const ENTRY := Order(X, Buy, 1.0, "entry", 60)

  /** At the second event the first bar completes and the strategy queues its buy. */
  lemma SecondEventDecides(cap: real, close: real, r: Intraday)
    requires r == Begin(Capped(cap), TwoBars(close))
    ensures var d := Decide(Capped(cap), MINUTE, TwoBars(close), r, 60); d.pending == [ENTRY] && d.st == Initial(1.0)
  {
    Counts(close);
    var su, t := Capped(cap), TwoBars(close);
    assert r.cursors == map[X := 0];
    var cursors := Advance(MINUTE, t, r.cursors, 60);
    assert cursors == map[X := 1] && cursors[X] > r.cursors[X];
    assert X in VisibleBars(su.universe, t, cursors);
  }

  lemma OneBuyDrained(c: Costs, gate: Gate, st: State, o: Order, opens: map<Symbol, real>, q: map<Symbol, Bar>)
    requires o.side.Buy? && o.symbol in opens
    ensures Drain(c, gate, st, [o], opens, 0, q, RetainMissing) == OrderStep(c, gate, Snap(st, 0, opens, q), st, o)
  {
    var now := (x: Order) => !(RetainMissing.RetainMissing? && x.symbol !in opens);
    assert [o][..0] == [];
    assert Select([o], now) == [o] && Drained([o], opens, RetainMissing) == Select([o], now);
    SingleSplit(o, opens);
    SingleRun(c, gate, Snap(st, 0, opens, q), st, o);
  }

  lemma LastQuote(close: real)
    ensures var q := Quotes(TwoBars(close), 0); X in q && q[X].close == close
    ensures OpensAt(TwoBars(close), 60) == map[X := 1.0]
  {
    Counts(close);
    var bars := TwoBars(close)[X];
    UpToIsStarted(bars, 0);
    StartedMonotone(bars, 60, DayEnd(0));
    assert UpTo(bars, 0) == bars;
  }

  /** The order is submitted at the second bar's open; the gate decides on that bar's close. */
  lemma SecondEventFills(cap: real, close: real, r: Intraday)
    requires r.pending == [ENTRY] && r.st == Initial(1.0)
    ensures Has(FillAt(Capped(cap), MINUTE, TwoBars(close), 0, r, 60).st.positions, X) <==> close <= cap
  {
    var su, t := Capped(cap), TwoBars(close);
    MorningTimes(close);
    LastQuote(close);
    OneBuyDrained(su.costs, su.gate, r.st, ENTRY, OpensAt(t, 60), Quotes(t, 0));
    var snap := Snap(r.st, 0, OpensAt(t, 60), Quotes(t, 0));
    assert SkipReason(su.costs, r.st, ENTRY, snap.marks) == None;
    assert su.gate(r.st.log, ENTRY, snap) <==> close <= cap;
  }

  lemma MorningRun(cap: real, close: real)
    ensures Has(IntradayAt(Capped(cap), MINUTE, TwoBars(close), [0], 0, 60).st.positions, X) <==> close <= cap
  {
    var su, t := Capped(cap), TwoBars(close);
    var r := Begin(su, t);
    assert r.cursors == map[X := 0];
    assert RefreshHeld(r.st, [0], 0) == r.st;
    MorningTimes(close);
    TwoEvents(su, t, r);
    FirstEventIdle(su, close, r);
    SecondEventDecides(cap, close, r);
    SecondEventFills(cap, close, Decide(su, MINUTE, t, r, 60));
  }

  /**
   Under a gate that prices on the provider's latest bar the intraday run does look ahead: the
   two tables agree on everything completed or started by 60, yet whether the order of time 60
   fills follows the close that is only known at 120.
   */
  lemma GateSeesUnfinishedBar(cap: real, c1: real, c2: real)
    requires c1 <= cap < c2
    ensures AgreeAt(MINUTE, TwoBars(c1), TwoBars(c2), 60) && OnGrid(MINUTE, TwoBars(c1)) && OnGrid(MINUTE, TwoBars(c2))
    ensures Has(IntradayAt(Capped(cap), MINUTE, TwoBars(c1), [0], 0, 60).st.positions, X)
    ensures !Has(IntradayAt(Capped(cap), MINUTE, TwoBars(c2), [0], 0, 60).st.positions, X)
  {
    TablesAgree(c1, c2);
    OnMinuteGrid(c1);
    OnMinuteGrid(c2);
    MorningRun(cap, c1);
    MorningRun(cap, c2);
  }
}
