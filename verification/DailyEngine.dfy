/**
 The daily loop as the engine runs it: dates parsed once, every slice and open found by
 bisection, and the kernel object mutated day by day.
 */
module DailyEngine {
  import opened OrderedDict
  import opened KernelSpec
  import opened KernelLaws
  import opened BarTables
  import opened DailySpec
  import opened DailyDays
  import opened Kernel
  import opened SortedTimes

  /** Insertion point after all entries <= x, by halving [lo, hi). */
  function BisectRight(xs: seq<int>, x: int, lo: nat, hi: nat): (r: nat)
    requires lo <= hi <= |xs|
    ensures lo <= r <= hi
    decreases hi - lo
  {
    if lo == hi then lo
    else
      var mid := (lo + hi) / 2;
      if x < xs[mid] then BisectRight(xs, x, lo, mid) else BisectRight(xs, x, mid + 1, hi)
  }

  /** Insertion point before all entries >= x, by halving [lo, hi). */
  function BisectLeft(xs: seq<int>, x: int, lo: nat, hi: nat): (r: nat)
    requires lo <= hi <= |xs|
    ensures lo <= r <= hi
    decreases hi - lo
  {
    if lo == hi then lo
    else
      var mid := (lo + hi) / 2;
      if xs[mid] < x then BisectLeft(xs, x, mid + 1, hi) else BisectLeft(xs, x, lo, mid)
  }

  predicate Sorted(xs: seq<int>) {
    forall i, j :: 0 <= i < j < |xs| ==> xs[i] <= xs[j]
  }

  lemma {:induction false} BisectRightSplits(xs: seq<int>, x: int, lo: nat, hi: nat)
    requires Sorted(xs) && lo <= hi <= |xs|
    requires forall i :: 0 <= i < lo ==> xs[i] <= x
    requires forall i :: hi <= i < |xs| ==> xs[i] > x
    ensures forall i :: 0 <= i < BisectRight(xs, x, lo, hi) ==> xs[i] <= x
    ensures forall i :: BisectRight(xs, x, lo, hi) <= i < |xs| ==> xs[i] > x
    decreases hi - lo
  {
    if lo < hi {
      var mid := (lo + hi) / 2;
      if x < xs[mid] {
        BisectRightSplits(xs, x, lo, mid);
      } else {
        BisectRightSplits(xs, x, mid + 1, hi);
      }
    }
  }

  lemma {:induction false} BisectLeftSplits(xs: seq<int>, x: int, lo: nat, hi: nat)
    requires Sorted(xs) && lo <= hi <= |xs|
    requires forall i :: 0 <= i < lo ==> xs[i] < x
    requires forall i :: hi <= i < |xs| ==> xs[i] >= x
    ensures forall i :: 0 <= i < BisectLeft(xs, x, lo, hi) ==> xs[i] < x
    ensures forall i :: BisectLeft(xs, x, lo, hi) <= i < |xs| ==> xs[i] >= x
    decreases hi - lo
  {
    if lo < hi {
      var mid := (lo + hi) / 2;
      if xs[mid] < x {
        BisectLeftSplits(xs, x, mid + 1, hi);
      } else {
        BisectLeftSplits(xs, x, lo, mid);
      }
    }
  }

  function DatesOf(bars: seq<Bar>): seq<int> {
    seq(|bars|, i requires 0 <= i < |bars| => UtcDate(bars[i].start))
  }

  function DateIndex(t: Table): map<Symbol, seq<int>> {
    map s | s in t :: DatesOf(t[s])
  }

  /** On ascending bars, cutting at the bisection point keeps exactly the bars dated up to `day`. */
  lemma CutIsFilter(bars: seq<Bar>, day: int)
    requires Ascending(bars)
    ensures var cut := BisectRight(DatesOf(bars), day, 0, |bars|); bars[..cut] == UpTo(bars, day)
  {
    var dates := DatesOf(bars);
    BisectRightSplits(dates, day, 0, |dates|);
    var cut := BisectRight(dates, day, 0, |dates|);
    assert forall i :: 0 <= i < |bars| ==> dates[i] == UtcDate(bars[i].start);
    UpToIsPrefix(bars, day, cut);
  }

  lemma {:induction false} OnIsSlice(bars: seq<Bar>, day: int, lo: nat, hi: nat)
    requires lo <= hi <= |bars|
    requires forall i :: 0 <= i < |bars| ==> (UtcDate(bars[i].start) == day <==> lo <= i < hi)
    ensures On(bars, day) == bars[lo..hi]
  {
    if bars == [] {
    } else {
      var front, last := bars[..|bars| - 1], bars[|bars| - 1];
      if hi == |bars| && lo < hi {
        OnIsSlice(front, day, lo, hi - 1);
        assert bars[lo..hi] == front[lo..hi - 1] + [last];
      } else if lo == |bars| {
        OnIsSlice(front, day, lo - 1, lo - 1);
      } else {
        OnIsSlice(front, day, lo, hi);
        assert front[lo..hi] == bars[lo..hi];
      }
    }
  }

  /** The two bisection points bracket exactly the bars of `day`; the last of them gives the open. */
  lemma BracketIsDay(bars: seq<Bar>, day: int)
    requires Ascending(bars)
    ensures var dates := DatesOf(bars);
      var lo, hi := BisectLeft(dates, day, 0, |dates|), BisectRight(dates, day, 0, |dates|);
      lo <= hi && On(bars, day) == bars[lo..hi]
  {
    var dates := DatesOf(bars);
    BisectRightSplits(dates, day, 0, |dates|);
    BisectLeftSplits(dates, day, 0, |dates|);
    var lo, hi := BisectLeft(dates, day, 0, |dates|), BisectRight(dates, day, 0, |dates|);
    assert (hi == |dates| || dates[hi] > day) && (lo == 0 || dates[lo - 1] < day);
    assert forall i :: 0 <= i < |bars| ==> dates[i] == UtcDate(bars[i].start);
    OnIsSlice(bars, day, lo, hi);
  }

  method BuildTsDateIndex(allBars: Table) returns (index: map<Symbol, seq<int>>)
    ensures index == DateIndex(allBars)
  {
    index := map[];
    var todo := allBars.Keys;
    while todo != {}
      invariant todo <= allBars.Keys
      invariant index == map s | s in allBars && s !in todo :: DatesOf(allBars[s])
      decreases |todo|
    {
      var s :| s in todo;
      index := index[s := DatesOf(allBars[s])];
      todo := todo - {s};
    }
  }

  /** Every symbol's bars up to and including `day`; symbols with none are left out. */
  method SliceBarsToDay(allBars: Table, day: int, index: map<Symbol, seq<int>>) returns (result: Table)
    requires AllAscending(allBars) && index == DateIndex(allBars)
    ensures result == Visible(allBars, day)
  {
    result := map[];
    var todo := allBars.Keys;
    while todo != {}
      invariant todo <= allBars.Keys
      invariant result == map s | s in allBars && s !in todo && UpTo(allBars[s], day) != [] :: UpTo(allBars[s], day)
      decreases |todo|
    {
      var s :| s in todo;
      var dates := index[s];
      var cut := BisectRight(dates, day, 0, |dates|);
      CutIsFilter(allBars[s], day);
      if cut > 0 {
        result := result[s := allBars[s][..cut]];
      }
      todo := todo - {s};
    }
  }

  /** The open of the last bar on `day`, its row found between the two bisection points. */
  function OpenOn(visible: seq<Bar>, dates: seq<int>, day: int): Option<real> {
    var lo, hi := BisectLeft(dates, day, 0, |dates|), BisectRight(dates, day, 0, |dates|);
    if lo == hi || hi == 0 || hi > |visible| then None else Some(visible[hi - 1].open)
  }

  lemma OpenOnIsFilter(bars: seq<Bar>, day: int)
    requires Ascending(bars)
    ensures OpenOn(UpTo(bars, day), DatesOf(bars), day)
         == if On(bars, day) == [] then None else Some(On(bars, day)[|On(bars, day)| - 1].open)
    ensures On(bars, day) != [] ==> UpTo(bars, day) != []
  {
    hide UpTo, On;
    BracketIsDay(bars, day);
    CutIsFilter(bars, day);
  }

  function BisectedOpens(bars: Table, index: map<Symbol, seq<int>>, day: int): map<Symbol, real>
    requires bars.Keys <= index.Keys
  {
    map s | s in bars && OpenOn(bars[s], index[s], day).Some? :: OpenOn(bars[s], index[s], day).value
  }

  /** Each visible symbol's open, only where it has a bar exactly on `day`. */
  method OpensOnDay(bars: Table, day: int, index: map<Symbol, seq<int>>) returns (opens: map<Symbol, real>)
    requires bars.Keys <= index.Keys
    ensures opens == BisectedOpens(bars, index, day)
  {
    opens := map[];
    var todo := bars.Keys;
    while todo != {}
      invariant todo <= bars.Keys
      invariant opens == map s | s in bars && s !in todo && OpenOn(bars[s], index[s], day).Some? ::
                           OpenOn(bars[s], index[s], day).value
      decreases |todo|
    {
      var s :| s in todo;
      var open := OpenOn(bars[s], index[s], day);
      if open.Some? {
        opens := opens[s := open.value];
      }
      todo := todo - {s};
    }
  }

  /** The opens read by bisection from the sliced bars are the opens of the plain date filter. */
  lemma OpensAreFilter(t: Table, day: int)
    requires AllAscending(t)
    ensures Visible(t, day).Keys <= DateIndex(t).Keys
    ensures BisectedOpens(Visible(t, day), DateIndex(t), day) == Opens(t, day)
  {
    var slow, fast := Opens(t, day), BisectedOpens(Visible(t, day), DateIndex(t), day);
    forall s ensures s in slow <==> s in fast {
      if s in t {
        OpenOnIsFilter(t[s], day);
      }
    }
    forall s | s in slow ensures slow[s] == fast[s] {
      OpenOnIsFilter(t[s], day);
    }
  }

  method LatestCloses(bars: Table) returns (closes: map<Symbol, real>)
    ensures closes == Closes(bars)
  {
    closes := map[];
    var todo := bars.Keys;
    while todo != {}
      invariant todo <= bars.Keys
      invariant closes == map s | s in bars && s !in todo && bars[s] != [] :: bars[s][|bars[s]| - 1].close
      decreases |todo|
    {
      var s :| s in todo;
      if bars[s] != [] {
        closes := closes[s := bars[s][|bars[s]| - 1].close];
      }
      todo := todo - {s};
    }
  }

  /** Some symbol has a bar dated `day`. */
  predicate HasBarOn(t: Table, day: int) {
    exists s, i :: s in t && 0 <= i < |t[s]| && UtcDate(t[s][i].start) == day
  }

  /** The days in range on which any symbol has a bar, in order. */
  method TradingDaysInRange(allBars: Table, from: int, to: int) returns (days: seq<int>)
    ensures StrictlyAscending(days)
    ensures forall d :: d in days <==> from <= d <= to && HasBarOn(allBars, d)
  {
    days := [];
    var todo := allBars.Keys;
    while todo != {}
      invariant todo <= allBars.Keys && StrictlyAscending(days)
      invariant SetOf(days)
             == set s, i | s in allBars && s !in todo && 0 <= i < |allBars[s]| && from <= UtcDate(allBars[s][i].start) <= to
                  :: UtcDate(allBars[s][i].start)
      decreases |todo|
    {
      var s :| s in todo;
      ghost var before := SetOf(days);
      var bars := allBars[s];
      for i := 0 to |bars|
        invariant StrictlyAscending(days)
        invariant SetOf(days)
               == before + set j | 0 <= j < i && from <= UtcDate(bars[j].start) <= to :: UtcDate(bars[j].start)
      {
        var day := UtcDate(bars[i].start);
        if from <= day <= to {
          days := InsertTime(days, day);
        }
      }
      todo := todo - {s};
    }
    assert forall d :: d in days <==> d in SetOf(days);
  }

  datatype Result = EmptyUniverse | Simulated(output: Output)

  class DailySimulation {
    const setup: Setup
    const allBars: Table
    const kernel: BacktestSimulationKernel
    var pending: seq<Order>
    var curve: seq<(int, real)>
    var buyCount: nat
    var sellCount: nat
    var tradeCount: nat
    var skippedCount: nat

    ghost function View(): Replay
      reads this, kernel
    {
      Replay(kernel.View(), kernel.shown, pending, curve)
    }

    /** The kernel is wired to this run, and the running counts agree with its audit trail. */
    ghost predicate Valid()
      reads this, kernel, kernel.broker
    {
      && kernel.Valid()
      && kernel.costs == setup.costs && kernel.gate == setup.gate
      && kernel.strategy == setup.strategy && kernel.bars == allBars
      && setup.universe != []
      && buyCount == NumFills(kernel.log, Buy)
      && sellCount == NumFills(kernel.log, Sell)
      && tradeCount == buyCount + sellCount
      && skippedCount == NumSkips(kernel.log)
    }

    constructor (setup: Setup, allBars: Table)
      requires setup.universe != []
      ensures Valid() && fresh(kernel) && fresh(kernel.broker)
      ensures this.setup == setup && this.allBars == allBars && View() == Start(setup)
    {
      this.setup, this.allBars := setup, allBars;
      pending, curve, buyCount, sellCount, tradeCount, skippedCount := [], [], 0, 0, 0, 0;
      kernel := new BacktestSimulationKernel(setup.costs, setup.gate, allBars, setup.strategy, setup.initial);
    }

    /** Fill yesterday's queue at today's opens. */
    method DrainQueue(opens: map<Symbol, real>, day: int, ghost f: Frame)
      requires Valid() && f.opens == opens && f.day == day && f.quotes == Quotes(allBars, day)
      modifies this`pending, this`buyCount, this`sellCount, this`tradeCount, this`skippedCount, kernel, kernel.broker
      ensures Valid()
      ensures kernel.View() == FillQueue(setup, old(kernel.View()), old(pending), f)
      ensures kernel.shown == old(kernel.shown) && pending == []
    {
      hide Unique, Drain, NumFills, NumSkips, Quotes;
      if pending != [] {
        var bought, sold, skipped, remaining := kernel.DrainPendingOrders(pending, opens, day, SkipMissing);
        buyCount, sellCount := buyCount + bought, sellCount + sold;
        tradeCount, skippedCount := tradeCount + (bought + sold), skippedCount + skipped;
        pending := [];
      }
    }

    /** Value the book at the closes and queue what the strategy decides. */
    method EvaluateDay(bars: Table, closes: map<Symbol, real>, day: int, ghost f: Frame)
      requires Valid() && pending == [] && f.bars == bars && f.closes == closes && f.day == day
      modifies this`pending, this`curve, kernel, kernel.broker
      ensures Valid()
      ensures View() == DecideDay(setup, old(kernel.View()), old(kernel.shown), old(curve), f)
    {
      hide Unique, DecisionStep, NumFills, NumSkips;
      if !AnyActive(setup.universe, bars) {
        return;
      }
      var equity := Equity(kernel.cash, kernel.positions, closes);
      var orders := kernel.SimulateDecisionStep(setup.universe, bars, closes, equity, day, day);
      pending := pending + orders;
      curve := curve + [(day, equity)];
    }

    /** One trading day: refresh, fill, value, decide, record. */
    method SimulateDay(days: seq<int>, day: int, index: map<Symbol, seq<int>>)
      requires Valid() && AllAscending(allBars) && index == DateIndex(allBars)
      modifies this, kernel, kernel.broker
      ensures Valid()
      ensures View() == DayStep(setup, RefreshHeld(old(kernel.View()), days, day), old(View()), FrameOn(allBars, day))
      ensures DayLeads(setup, allBars, days, day, old(View()), View())
    {
      hide DayReplayed, DecideDay, FillQueue, UpTo, On, Unique, NumFills, NumSkips;
      ghost var w := StepReplays(setup, allBars, days, day, View());
      kernel.RefreshHeldDays(days, day);
      var bars := SliceBarsToDay(allBars, day, index);
      var opens := OpensOnDay(bars, day, index);
      OpensAreFilter(allBars, day);
      var closes := LatestCloses(bars);
      DrainQueue(opens, day, FrameOn(allBars, day));
      EvaluateDay(bars, closes, day, FrameOn(allBars, day));
    }

    /** Audit stranded orders and assemble the output. */
    method Finalize(days: seq<int>) returns (output: Output)
      requires Valid() && days != []
      modifies this, kernel, kernel.broker
      ensures (kernel.View(), output) == Finish(setup, old(View()), days)
      ensures ReadsAudit(setup.initial, old(View()), kernel.View(), output)
      ensures WrittenOff(old(kernel.View()), old(pending), days[|days| - 1], kernel.View())
    {
      hide Unique, RoundTrips, ReadsAudit, WrittenOff, NumFills, NumSkips, Stranded;
      FinishReadsAudit(setup, View(), days);
      var final := if curve == [] then setup.initial else curve[|curve| - 1].1;
      var stranded := 0;
      StrandedCounts(kernel.View(), pending, days[|days| - 1]);
      if pending != [] {
        stranded := kernel.RecordStrandedOrders(pending, days[|days| - 1]);
      }
      output := Output(curve, tradeCount, buyCount, sellCount, final, kernel.RoundTripCount(), skippedCount + stranded);
    }
  }

  lemma {:induction false} StrandedCounts(st: State, pending: seq<Order>, day: int)
    ensures var log := Stranded(st, pending, day).log;
      && NumFills(log, Buy) == NumFills(st.log, Buy) && NumFills(log, Sell) == NumFills(st.log, Sell)
      && NumSkips(log) == NumSkips(st.log) + |pending|
    ensures pending == [] ==> Stranded(st, pending, day) == st
  {
    var log := Stranded(st, pending, day).log;
    if pending == [] {
      assert log == st.log;
    } else {
      var last := |pending| - 1;
      StrandedCounts(st, pending[..last], day);
      assert log[..|log| - 1] == Stranded(st, pending[..last], day).log;
    }
  }

  /** The output the specified daily run reports. */
  function DailyOutput(setup: Setup, allBars: Table, days: seq<int>): Output
    requires setup.universe != [] && days != []
  {
    Finish(setup, ReplayDays(setup, allBars, days, |days|), days).1
  }

  lemma RunStarts(setup: Setup, t: Table, days: seq<int>)
    requires setup.universe != []
    ensures RunsDays(setup, t, days, 0, [Start(setup)])
  {
  }

  /** The output of a run day by day, its leftover queue written off. */
  ghost predicate ReportsRun(setup: Setup, t: Table, days: seq<int>, replays: seq<Replay>, st: State, output: Output)
    requires setup.universe != [] && days != []
  {
    && RunsDays(setup, t, days, |days|, replays)
    && WrittenOff(replays[|days|].st, replays[|days|].pending, days[|days| - 1], st)
    && ReadsAudit(setup.initial, replays[|days|], st, output)
  }

  /** The whole daily run: every output figure is the one of the specified replay. */
  method SimulateDaily(setup: Setup, allBars: Table, days: seq<int>) returns (r: Result)
    requires AllAscending(allBars)
    ensures r.EmptyUniverse? <==> setup.universe == []
    ensures r.Simulated? && days == [] ==> r.output == Output([], 0, 0, 0, setup.initial, 0, 0)
    ensures r.Simulated? && days != [] ==> r.output == DailyOutput(setup, allBars, days)
    ensures r.Simulated? ==> EndsOnCurve(r.output, setup.initial)
    ensures r.Simulated? && days != [] ==> exists replays, st :: ReportsRun(setup, allBars, days, replays, st, r.output)
  {
    hide DayStep, RunsDays, DayLeads, FrameOn, RefreshHeld, ReadsAudit, WrittenOff, Unique;
    if setup.universe == [] {
      return EmptyUniverse;
    }
    if days == [] {
      return Simulated(Output([], 0, 0, 0, setup.initial, 0, 0));
    }
    var simulation := new DailySimulation(setup, allBars);
    var index := BuildTsDateIndex(allBars);
    ghost var replays := [simulation.View()];
    RunStarts(setup, allBars, days);
    for k := 0 to |days|
      invariant RunsDays(setup, allBars, days, k, replays) && |replays| == k + 1 && replays[k] == simulation.View()
      invariant simulation.Valid() && simulation.setup == setup && simulation.allBars == allBars
      invariant fresh(simulation) && fresh(simulation.kernel) && fresh(simulation.kernel.broker)
      invariant simulation.View() == ReplayDays(setup, allBars, days, k)
    {
      simulation.SimulateDay(days, days[k], index);
      RunsOneMore(setup, allBars, days, k, replays, simulation.View());
      replays := replays + [simulation.View()];
    }
    var output := simulation.Finalize(days);
    assert ReportsRun(setup, allBars, days, replays, simulation.kernel.View(), output);
    r := Simulated(output);
  }
}
