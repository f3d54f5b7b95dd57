/**
 The daily replay.  Each trading day: refresh held days, fill yesterday's queue at today's
 opens, value the book at today's closes, let the strategy decide, queue its intents.

 The specification (`DayStep`, `ReplayDays`) reads bars through plain date filters; the loop
 in `DailyEngine` uses the bisection shortcuts and is proved to compute the same run.
 */
module DailySpec {
  import opened OrderedDict
  import opened KernelSpec
  import opened KernelLaws
  import opened BarTables
  import opened SortedTimes

  datatype Setup = Setup(costs: Costs, gate: Gate, strategy: Strategy, universe: seq<Symbol>, initial: real)

  /** Everything a day's step reads from the bar table. */
  datatype Frame = Frame(day: int, bars: Table, opens: map<Symbol, real>, closes: map<Symbol, real>,
                         quotes: map<Symbol, Bar>)

  datatype Replay = Replay(st: State, shown: seq<Context>, pending: seq<Order>, curve: seq<(int, real)>)

  datatype Output = Output(curve: seq<(int, real)>, trades: nat, buys: nat, sells: nat, finalEquity: real,
                           roundTrips: nat, skips: nat)

  /** Bars dated exactly on `day`. */
  function On(bars: seq<Bar>, day: int): seq<Bar> {
    if bars == [] then []
    else
      var last := bars[|bars| - 1];
      On(bars[..|bars| - 1], day) + (if UtcDate(last.start) == day then [last] else [])
  }

  function Visible(t: Table, day: int): Table {
    map s | s in t && UpTo(t[s], day) != [] :: UpTo(t[s], day)
  }

  /** Each symbol's open on `day`, only where it has a bar on that day. */
  function Opens(t: Table, day: int): map<Symbol, real> {
    map s | s in t && On(t[s], day) != [] :: On(t[s], day)[|On(t[s], day)| - 1].open
  }

  function Closes(bars: Table): map<Symbol, real> {
    map s | s in bars && bars[s] != [] :: bars[s][|bars[s]| - 1].close
  }

  function FrameOn(t: Table, day: int): Frame {
    Frame(day, Visible(t, day), Opens(t, day), Closes(Visible(t, day)), Quotes(t, day))
  }

  predicate AnyActive(universe: seq<Symbol>, bars: Table) {
    exists s :: s in universe && s in bars && bars[s] != []
  }

  function Start(su: Setup): Replay {
    Replay(Initial(su.initial), [], [], [])
  }

  /** Yesterday's queue, filled at today's opens; an order without an open today is skipped. */
  function FillQueue(su: Setup, st: State, pending: seq<Order>, f: Frame): State {
    if pending == [] then st else Drain(su.costs, su.gate, st, pending, f.opens, f.day, f.quotes, SkipMissing)
  }

  /** Value the book at the closes and queue what the strategy decides; nothing on a day without bars. */
  function DecideDay(su: Setup, st: State, shown: seq<Context>, curve: seq<(int, real)>, f: Frame): Replay
    requires su.universe != []
  {
    if !AnyActive(su.universe, f.bars) then Replay(st, shown, [], curve)
    else
      var equity := Equity(st.cash, st.positions, f.closes);
      var d := DecisionStep(su.strategy, st, shown, su.universe, f.bars, equity, f.day);
      Replay(d.st, d.shown, d.orders, curve + [(f.day, equity)])
  }

  function DayStep(su: Setup, held: State, r: Replay, f: Frame): Replay
    requires su.universe != []
  {
    DecideDay(su, FillQueue(su, held, r.pending, f), r.shown, r.curve, f)
  }

  /** The replay after the first `k` trading days. */
  function ReplayDays(su: Setup, t: Table, days: seq<int>, k: nat): Replay
    requires su.universe != [] && k <= |days|
  {
    if k == 0 then Start(su)
    else
      var r := ReplayDays(su, t, days, k - 1);
      DayStep(su, RefreshHeld(r.st, days, days[k - 1]), r, FrameOn(t, days[k - 1]))
  }

  /** Audit what is still queued, then report; every count is read off the audit trail. */
  function Finish(su: Setup, r: Replay, days: seq<int>): (State, Output)
    requires days != []
  {
    var st := Stranded(r.st, r.pending, days[|days| - 1]);
    var final := if r.curve == [] then su.initial else r.curve[|r.curve| - 1].1;
    var bought, sold := NumFills(st.log, Buy), NumFills(st.log, Sell);
    (st, Output(r.curve, bought + sold, bought, sold, final, RoundTrips(st.fills), NumSkips(st.log)))
  }

  /** The final equity is the curve's last value, or the starting equity of a run without one. */
  predicate EndsOnCurve(o: Output, initial: real) {
    o.finalEquity == if o.curve == [] then initial else o.curve[|o.curve| - 1].1
  }

  // ------------------------------------------------------------------------ no look-ahead

  /** Same symbols, and the same bars dated on or before `limit`. */
  ghost predicate AgreeUpTo(t1: Table, t2: Table, limit: int) {
    && t1.Keys == t2.Keys
    && forall s :: s in t1 ==> UpTo(t1[s], limit) == UpTo(t2[s], limit)
  }

  lemma {:induction false} OnIsOfUpTo(bars: seq<Bar>, day: int)
    ensures On(UpTo(bars, day), day) == On(bars, day)
  {
    if bars == [] {
    } else {
      var front, last := bars[..|bars| - 1], bars[|bars| - 1];
      OnIsOfUpTo(front, day);
      if UtcDate(last.start) <= day {
        assert UpTo(bars, day)[..|UpTo(bars, day)| - 1] == UpTo(front, day);
      } else {
        assert UpTo(bars, day) == UpTo(front, day);
      }
    }
  }

  lemma FramesAgree(t1: Table, t2: Table, day: int, limit: int)
    requires AgreeUpTo(t1, t2, limit) && day <= limit
    ensures FrameOn(t1, day) == FrameOn(t2, day)
  {
    hide UpTo, On;
    forall s | s in t1 ensures UpTo(t1[s], day) == UpTo(t2[s], day) && On(t1[s], day) == On(t2[s], day) {
      UpToTwice(t1[s], day, limit);
      UpToTwice(t2[s], day, limit);
      OnIsOfUpTo(t1[s], day);
      OnIsOfUpTo(t2[s], day);
    }
    assert Visible(t1, day) == Visible(t2, day);
    assert Opens(t1, day) == Opens(t2, day);
    assert Quotes(t1, day) == Quotes(t2, day);
  }

  /** Held days on the k-th day do not depend on later days of the list. */
  lemma HeldIgnoresLaterDays(st: State, days1: seq<int>, days2: seq<int>, k: nat)
    requires 0 < k <= |days1| && k <= |days2| && days1[..k] == days2[..k]
    requires StrictlyAscending(days1) && StrictlyAscending(days2)
    ensures RefreshHeld(st, days1, days1[k - 1]) == RefreshHeld(st, days2, days1[k - 1])
  {
    var day := days1[k - 1];
    assert days2[k - 1] == days2[..k][k - 1] == day;
    forall f ensures HeldDays(days1, f, day) == HeldDays(days2, f, day) {
      forall d | f < d <= day ensures d in days1 <==> d in days2 {
        assert d in days1 <==> d in days1[..k];
        assert d in days2 <==> d in days2[..k];
      }
      assert (set d | d in days1 && f < d <= day) == (set d | d in days2 && f < d <= day);
    }
  }

  /**
   No look-ahead.  For any strategy, any risk gate and any costs: two runs whose first k
   trading days are the same and whose bars agree up to some day at or after the k-th are in
   the same state after that day: cash, book, audit trail, queue, counters, equity curve and
   everything the strategy was shown.
   */
  lemma {:induction false} NoLookAhead(su: Setup, t1: Table, t2: Table, days1: seq<int>, days2: seq<int>, k: nat,
                                       limit: int)
    requires su.universe != [] && k <= |days1| && k <= |days2| && days1[..k] == days2[..k]
    requires StrictlyAscending(days1) && StrictlyAscending(days2)
    requires AgreeUpTo(t1, t2, limit) && (k > 0 ==> days1[k - 1] <= limit)
    ensures ReplayDays(su, t1, days1, k) == ReplayDays(su, t2, days2, k)
  {
    if k == 0 {
    } else {
      assert days1[..k - 1] == days1[..k][..k - 1] == days2[..k][..k - 1] == days2[..k - 1];
      NoLookAhead(su, t1, t2, days1, days2, k - 1, limit);
      assert days1[k - 1] == days1[..k][k - 1] == days2[..k][k - 1] == days2[k - 1];
      FramesAgree(t1, t2, days1[k - 1], limit);
      HeldIgnoresLaterDays(ReplayDays(su, t1, days1, k - 1).st, days1, days2, k);
    }
  }

  // ------------------------------------------------------------------ invariants over the run

  /** Held days of every open position count the trading days since its fill. */
  ghost predicate HeldOk(st: State, days: seq<int>, day: int) {
    forall s :: s in st.entries ==>
      && s in st.openedOn && st.openedOn[s] in days && st.openedOn[s] <= day
      && st.entries[s].heldDays == HeldDays(days, st.openedOn[s], day)
  }

  lemma HeldDaysOfToday(days: seq<int>, day: int)
    ensures HeldDays(days, day, day) == 0
  {
    assert (set d | d in days && day < d <= day) == {};
  }

  lemma OrderStepKeepsHeld(c: Costs, gate: Gate, snap: Snapshot, st: State, o: Order, days: seq<int>)
    requires HeldOk(st, days, snap.day) && snap.day in days
    ensures HeldOk(OrderStep(c, gate, snap, st, o), days, snap.day)
  {
    HeldDaysOfToday(days, snap.day);
  }

  lemma {:induction false} RunOrdersKeepsHeld(c: Costs, gate: Gate, snap: Snapshot, st: State, orders: seq<Order>,
                                              days: seq<int>)
    requires HeldOk(st, days, snap.day) && snap.day in days
    ensures HeldOk(RunOrders(c, gate, snap, st, orders), days, snap.day)
  {
    if orders == [] {
    } else {
      var last := |orders| - 1;
      RunOrdersKeepsHeld(c, gate, snap, st, orders[..last], days);
      OrderStepKeepsHeld(c, gate, snap, RunOrders(c, gate, snap, st, orders[..last]), orders[last], days);
    }
  }

  lemma {:induction false} HeldDaysByIndex(days: seq<int>, j: nat, k: nat)
    requires StrictlyAscending(days) && j <= k < |days|
    ensures HeldDays(days, days[j], days[k]) == k - j
  {
    if j == k {
      HeldDaysOfToday(days, days[k]);
    } else {
      HeldDaysByIndex(days, j, k - 1);
      var before := set d | d in days && days[j] < d <= days[k - 1];
      forall d | d in days && days[j] < d <= days[k] ensures d in before + {days[k]} {
        var i :| 0 <= i < |days| && days[i] == d;
        assert i <= k;
      }
      assert (set d | d in days && days[j] < d <= days[k]) == before + {days[k]};
    }
  }

  /** Cash, book and counters match the audit trail, and held days are right, after every day. */
  ghost predicate RunInv(su: Setup, r: Replay, days: seq<int>, day: int) {
    && Inv(su.costs, su.initial, r.st)
    && HeldOk(r.st, days, day)
  }

  lemma DrainKeepsHeld(c: Costs, gate: Gate, st: State, pending: seq<Order>, opens: map<Symbol, real>, day: int,
                       quotes: map<Symbol, Bar>, policy: MissingOpenPolicy, days: seq<int>)
    requires HeldOk(st, days, day) && day in days
    ensures HeldOk(Drain(c, gate, st, pending, opens, day, quotes, policy), days, day)
  {
    hide HeldOk, RunOrders, OfSide, Drained;
    var orders := Drained(pending, opens, policy);
    if orders != [] {
      var snap := Snap(st, day, opens, quotes);
      RunOrdersKeepsHeld(c, gate, snap, st, OfSide(orders, Sell), days);
      var sold := RunOrders(c, gate, snap, st, OfSide(orders, Sell));
      RunOrdersKeepsHeld(c, gate, Snap(sold, day, opens, quotes), sold, OfSide(orders, Buy), days);
    }
  }

  /** Right on an earlier day, right again after the refresh. */
  lemma RefreshKeepsHeld(st: State, days: seq<int>, before: int, day: int)
    requires HeldOk(st, days, before) && (before <= day || st.entries == map[])
    ensures HeldOk(RefreshHeld(st, days, day), days, day)
  {
    hide HeldDays;
  }

  lemma FillQueueKeepsInv(su: Setup, st: State, pending: seq<Order>, f: Frame, days: seq<int>)
    requires Inv(su.costs, su.initial, st) && HeldOk(st, days, f.day) && f.day in days
    ensures var r := FillQueue(su, st, pending, f);
      Inv(su.costs, su.initial, r) && HeldOk(r, days, f.day)
  {
    hide Inv, HeldOk, Drain;
    if pending != [] {
      ApplyKeepsInv(su.costs, su.gate, su.initial, st, DrainOp(pending, f.opens, f.day, f.quotes, SkipMissing));
      DrainKeepsHeld(su.costs, su.gate, st, pending, f.opens, f.day, f.quotes, SkipMissing, days);
    }
  }

  lemma DecisionKeepsInv(su: Setup, st: State, shown: seq<Context>, f: Frame, equity: real, days: seq<int>)
    requires su.universe != [] && Inv(su.costs, su.initial, st) && HeldOk(st, days, f.day)
    ensures var d := DecisionStep(su.strategy, st, shown, su.universe, f.bars, equity, f.day);
      Inv(su.costs, su.initial, d.st) && HeldOk(d.st, days, f.day)
  {
    var d := DecisionStep(su.strategy, st, shown, su.universe, f.bars, equity, f.day);
    if d.st != st {
      RecordKeepsInv(su.costs, su.initial, st, d.st.log[|st.log|]);
    }
  }

  lemma DayStepKeepsInv(su: Setup, held: State, r: Replay, f: Frame, days: seq<int>)
    requires su.universe != [] && Inv(su.costs, su.initial, held) && HeldOk(held, days, f.day) && f.day in days
    ensures RunInv(su, DayStep(su, held, r, f), days, f.day)
  {
    hide Inv, HeldOk, FillQueue, DecisionStep;
    FillQueueKeepsInv(su, held, r.pending, f, days);
    var st := FillQueue(su, held, r.pending, f);
    DecisionKeepsInv(su, st, r.shown, f, Equity(st.cash, st.positions, f.closes), days);
  }

  lemma NextDayKeepsInv(su: Setup, r: Replay, days: seq<int>, before: int, f: Frame)
    requires su.universe != [] && f.day in days
    requires RunInv(su, r, days, before) && (before <= f.day || r.st.entries == map[])
    ensures RunInv(su, DayStep(su, RefreshHeld(r.st, days, f.day), r, f), days, f.day)
  {
    hide Inv, HeldOk, RefreshHeld;
    ApplyKeepsInv(su.costs, su.gate, su.initial, r.st, RefreshOp(days, f.day));
    RefreshKeepsHeld(r.st, days, before, f.day);
    DayStepKeepsInv(su, RefreshHeld(r.st, days, f.day), r, f, days);
  }

  lemma StartHasRunInv(su: Setup, days: seq<int>)
    ensures RunInv(su, Start(su), days, 0)
  {
  }

  /** After every day of every daily run. */
  lemma {:induction false} RunKeepsRunInv(su: Setup, t: Table, days: seq<int>, k: nat)
    requires su.universe != [] && k <= |days| && StrictlyAscending(days)
    ensures RunInv(su, ReplayDays(su, t, days, k), days, if k == 0 then 0 else days[k - 1])
  {
    hide RunInv, DayStep, RefreshHeld, Visible, Opens, Closes, Quotes;
    if k == 0 {
      StartHasRunInv(su, days);
    } else {
      RunKeepsRunInv(su, t, days, k - 1);
      NextDayKeepsInv(su, ReplayDays(su, t, days, k - 1), days, if k == 1 then 0 else days[k - 2],
                      FrameOn(t, days[k - 1]));
    }
  }

  /** Right held days are index distances: one tick per listed day since the fill. */
  lemma HeldOkTicks(st: State, days: seq<int>, k: nat, s: Symbol)
    requires k < |days| && StrictlyAscending(days) && HeldOk(st, days, days[k]) && s in st.entries
    ensures s in st.openedOn && exists j :: 0 <= j <= k && st.openedOn[s] == days[j] && st.entries[s].heldDays == k - j
  {
    hide HeldDays;
    var j :| 0 <= j < |days| && days[j] == st.openedOn[s];
    assert j <= k;
    HeldDaysByIndex(days, j, k);
  }

  /**
   After the (k+1)-th trading day every open position was filled on some listed day j <= k
   and its held-days figure is exactly k - j: one tick per trading day since the fill.
   */
  lemma HeldDaysTick(su: Setup, t: Table, days: seq<int>, k: nat, s: Symbol)
    requires su.universe != [] && k < |days| && StrictlyAscending(days)
    requires s in ReplayDays(su, t, days, k + 1).st.entries
    ensures var st := ReplayDays(su, t, days, k + 1).st;
      s in st.openedOn && exists j :: 0 <= j <= k && st.openedOn[s] == days[j] && st.entries[s].heldDays == k - j
  {
    hide ReplayDays, Inv, HeldOk;
    RunKeepsRunInv(su, t, days, k + 1);
    HeldOkTicks(ReplayDays(su, t, days, k + 1).st, days, k, s);
  }
}
