/**
 One day of the daily replay, said from the bar table itself: which prices it fills, marks and
 shows, what it adds to the equity curve, and what the final report counts.
 */
module DailyDays {
  import opened OrderedDict
  import opened KernelSpec
  import opened KernelLaws
  import opened KernelDecisions
  import opened BarTables
  import opened SortedTimes
  import opened DailySpec

  /** What one day reads off the table. */
  datatype Market = Market(bars: Table, opens: map<Symbol, real>, closes: map<Symbol, real>, quotes: map<Symbol, Bar>)

  /** Bar i is the last one dated exactly `day`. */
  ghost predicate IsLastOn(bars: seq<Bar>, day: int, i: nat) {
    && i < |bars| && UtcDate(bars[i].start) == day
    && forall j :: i < j < |bars| ==> UtcDate(bars[j].start) != day
  }

  /**
   One symbol's prices on `day`: its bars dated up to then, quoted and marked at the last of them;
   an open only with a bar on the day itself, the last such bar's.
   */
  ghost predicate PricesOf(m: Market, s: Symbol, all: seq<Bar>, day: int) {
    && (s in m.bars <==> UpTo(all, day) != []) && (s in m.quotes <==> s in m.bars) && (s in m.closes <==> s in m.bars)
    && (s in m.bars ==> m.bars[s] == UpTo(all, day) && m.quotes[s] == m.bars[s][|m.bars[s]| - 1]
                        && m.closes[s] == m.quotes[s].close)
    && (s in m.opens <==> exists i: nat :: IsLastOn(all, day, i))
    && (forall i: nat :: s in m.opens && IsLastOn(all, day, i) ==> m.opens[s] == all[i].open)
  }

  ghost predicate IsMarket(m: Market, t: Table, day: int) {
    && m.bars.Keys + m.opens.Keys + m.closes.Keys + m.quotes.Keys <= t.Keys
    && forall s :: s in t ==> PricesOf(m, s, t[s], day)
  }

  lemma {:induction false} LastOnDay(bars: seq<Bar>, day: int) returns (i: nat)
    ensures On(bars, day) != [] ==> IsLastOn(bars, day, i) && On(bars, day)[|On(bars, day)| - 1] == bars[i]
    ensures On(bars, day) == [] ==> forall j: nat :: !IsLastOn(bars, day, j)
  {
    i := 0;
    if bars == [] {
    } else {
      var n: nat := |bars| - 1;
      if UtcDate(bars[n].start) == day {
        i := n;
      } else {
        i := LastOnDay(bars[..n], day);
        assert forall j :: IsLastOn(bars, day, j) ==> IsLastOn(bars[..n], day, j);
      }
    }
  }

  lemma OnlyOneLast(bars: seq<Bar>, day: int, i: nat, j: nat)
    requires IsLastOn(bars, day, i) && IsLastOn(bars, day, j)
    ensures i == j
  {
  }

  lemma OpensOfLast(t: Table, day: int, s: Symbol)
    requires s in t
    ensures s in Opens(t, day) <==> exists i: nat :: IsLastOn(t[s], day, i)
    ensures forall i: nat :: s in Opens(t, day) && IsLastOn(t[s], day, i) ==> Opens(t, day)[s] == t[s][i].open
  {
    hide On, UpTo;
    var i := LastOnDay(t[s], day);
    forall j: nat | s in Opens(t, day) && IsLastOn(t[s], day, j) ensures Opens(t, day)[s] == t[s][j].open {
      OnlyOneLast(t[s], day, i, j);
    }
  }

  lemma FramePrices(t: Table, day: int, s: Symbol)
    requires s in t
    ensures var f := FrameOn(t, day); PricesOf(Market(f.bars, f.opens, f.closes, f.quotes), s, t[s], day)
  {
    hide Opens, UpTo, IsLastOn;
    OpensOfLast(t, day, s);
  }

  lemma FrameIsMarket(t: Table, day: int)
    ensures var f := FrameOn(t, day); f.day == day && IsMarket(Market(f.bars, f.opens, f.closes, f.quotes), t, day)
  {
    hide On, UpTo, PricesOf;
    var f := FrameOn(t, day);
    forall s | s in t ensures PricesOf(Market(f.bars, f.opens, f.closes, f.quotes), s, t[s], day) {
      FramePrices(t, day, s);
    }
  }

  /** Only held days move in the morning: each counts the listed days since the fill. */
  ghost predicate Refreshed(before: State, days: seq<int>, day: int, after: State) {
    && after == before.(entries := after.entries) && after.entries.Keys == before.entries.Keys
    && forall s :: s in before.entries && s in before.openedOn ==>
         after.entries[s] == EntryState(before.entries[s].entryPrice, |set d | d in days && before.openedOn[s] < d <= day|)
  }

  /** Valuing and deciding, once the market and the drained book are known. */
  ghost predicate DayDecided(su: Setup, filled: State, shown: seq<Context>, curve: seq<(int, real)>, active: bool, m: Market,
                             day: int, after: Replay)
    requires su.universe != []
  {
    if active then
      var equity := Valuation(filled.cash, filled.positions, m.closes);
      && after.curve == curve + [(day, equity)]
      && Evaluated(su.strategy, filled, shown, su.universe, m.bars, equity, day, after.st, after.shown, after.pending)
    else after == Replay(filled, shown, [], curve)
  }

  lemma RefreshRefreshes(st: State, days: seq<int>, day: int)
    ensures Refreshed(st, days, day, RefreshHeld(st, days, day))
  {
  }

  lemma InvIsAligned(su: Setup, st: State)
    requires Inv(su.costs, su.initial, st)
    ensures Aligned(st)
  {
  }

  /** How a day went: the refreshed book, the market, the drain, and the book once it is done. */
  datatype DayCourse = DayCourse(held: State, market: Market, drain: Course, filled: State)

  /**
   One trading day.  The queue of the day before is decided at the day's opens, and nothing stays
   queued.  If some universe symbol has a bar dated up to the day, the curve grows by cash plus
   quantity times latest close, the strategy sees that figure and every bar so far, and its intents
   make the next queue; otherwise the curve does not grow and the strategy is not asked.
   */
  ghost predicate DayReplayed(su: Setup, t: Table, days: seq<int>, day: int, before: Replay, w: DayCourse, after: Replay)
    requires su.universe != []
  {
    && Refreshed(before.st, days, day, w.held)
    && IsMarket(w.market, t, day)
    && DrainDecided(su.costs, su.gate, w.held, before.pending, w.market.opens, day, w.market.quotes, SkipMissing, w.drain,
                    w.filled, [])
    && DayDecided(su, w.filled, before.shown, before.curve,
                  exists s :: s in su.universe && s in t && UpTo(t[s], day) != [], w.market, day, after)
  }

  lemma EquityIsValuation(cash: real, positions: Dict<Symbol, Lot>, marks: map<Symbol, real>)
    ensures Equity(cash, positions, marks) == Valuation(cash, positions, marks)
  {
    hide MarketValue, EntryWorths;
    MarketValueIsSum(positions, marks);
  }

  lemma FillQueueDrains(su: Setup, st: State, pending: seq<Order>, f: Frame) returns (w: Course)
    requires Aligned(st)
    ensures DrainDecided(su.costs, su.gate, st, pending, f.opens, f.day, f.quotes, SkipMissing, w,
                         FillQueue(su, st, pending, f), [])
  {
    hide RunOrders, DrainDecided;
    NothingCarried(pending, f.opens);
    w := DrainDecides(su.costs, su.gate, st, pending, f.opens, f.day, f.quotes, SkipMissing);
  }

  lemma DecideDayDecides(su: Setup, t: Table, day: int, st: State, shown: seq<Context>, curve: seq<(int, real)>)
    requires su.universe != []
    ensures var f := FrameOn(t, day);
      DayDecided(su, st, shown, curve, exists s :: s in su.universe && s in t && UpTo(t[s], day) != [],
                 Market(f.bars, f.opens, f.closes, f.quotes), day, DecideDay(su, st, shown, curve, f))
  {
    hide UpTo, Opens, Closes, Quotes, Equity, Valuation, DecisionStep, Evaluated;
    var f := FrameOn(t, day);
    var equity := Equity(st.cash, st.positions, f.closes);
    EquityIsValuation(st.cash, st.positions, f.closes);
    DecisionEvaluates(su.strategy, st, shown, su.universe, f.bars, equity, day);
    assert AnyActive(su.universe, f.bars) <==> exists s :: s in su.universe && s in t && UpTo(t[s], day) != [] by {
      assert forall s :: s in su.universe && s in t && UpTo(t[s], day) != [] ==> s in f.bars && f.bars[s] != [];
    }
  }

  /** One day from any aligned book. */
  lemma StepReplays(su: Setup, t: Table, days: seq<int>, day: int, r: Replay) returns (w: DayCourse)
    requires su.universe != [] && Aligned(r.st)
    ensures DayReplayed(su, t, days, day, r, w, DayStep(su, RefreshHeld(r.st, days, day), r, FrameOn(t, day)))
  {
    hide DrainDecided, FillQueue, DecideDay, DayDecided, FrameOn, IsMarket, UpTo, HeldDays;
    var f := FrameOn(t, day);
    var held := RefreshHeld(r.st, days, day);
    FrameIsMarket(t, day);
    var drain := FillQueueDrains(su, held, r.pending, f);
    var filled := FillQueue(su, held, r.pending, f);
    w := DayCourse(held, Market(f.bars, f.opens, f.closes, f.quotes), drain, filled);
    RefreshRefreshes(r.st, days, day);
    DecideDayDecides(su, t, day, filled, r.shown, r.curve);
  }

  /** Every day of every daily run. */
  lemma DayReplays(su: Setup, t: Table, days: seq<int>, k: nat) returns (w: DayCourse)
    requires su.universe != [] && k < |days| && StrictlyAscending(days)
    ensures DayReplayed(su, t, days, days[k], ReplayDays(su, t, days, k), w, ReplayDays(su, t, days, k + 1))
  {
    hide DayStep, DayReplayed, FrameOn, Inv, RefreshHeld;
    var r := ReplayDays(su, t, days, k);
    RunKeepsRunInv(su, t, days, k);
    InvIsAligned(su, r.st);
    w := StepReplays(su, t, days, days[k], r);
  }

  ghost predicate DayLeads(su: Setup, t: Table, days: seq<int>, day: int, before: Replay, after: Replay)
    requires su.universe != []
  {
    exists w :: DayReplayed(su, t, days, day, before, w, after)
  }

  /** The k-th day leads from one replay to the next. */
  ghost predicate DayFollows(su: Setup, t: Table, days: seq<int>, replays: seq<Replay>, k: nat)
    requires su.universe != []
  {
    && k < |days| && k + 1 < |replays|
    && DayLeads(su, t, days, days[k], replays[k], replays[k + 1])
  }

  /** A run: it starts with the cash and an empty book, and every day follows from the one before. */
  ghost predicate RunsDays(su: Setup, t: Table, days: seq<int>, n: nat, replays: seq<Replay>)
    requires su.universe != []
  {
    && |replays| == n + 1
    && replays[0] == Replay(State(su.initial, [], map[], map[], [], []), [], [], [])
    && forall k: nat :: k < n ==> DayFollows(su, t, days, replays, k)
  }

  lemma RunsOneMore(su: Setup, t: Table, days: seq<int>, n: nat, replays: seq<Replay>, next: Replay)
    requires su.universe != [] && RunsDays(su, t, days, n, replays) && n < |days|
    requires DayLeads(su, t, days, days[n], replays[n], next)
    ensures RunsDays(su, t, days, n + 1, replays + [next])
  {
    hide DayLeads;
    forall k: nat | k < n + 1 ensures DayFollows(su, t, days, replays + [next], k) {
      assert k < n ==> DayFollows(su, t, days, replays, k);
    }
  }

  /** The report of a run: every count is the number of such records in the audit trail. */
  ghost predicate ReadsAudit(initial: real, r: Replay, st: State, o: Output) {
    && o.curve == r.curve
    && o.finalEquity == (if r.curve == [] then initial else r.curve[|r.curve| - 1].1)
    && o.buys == |FilledAt(st.log, Buy)| && o.sells == |FilledAt(st.log, Sell)| && o.trades == o.buys + o.sells
    && o.skips == |SkippedAt(st.log)|
  }

  /** What the run still holds queued is written off, one record per order and in order. */
  ghost predicate WrittenOff(before: State, pending: seq<Order>, day: int, after: State) {
    && after == before.(log := after.log)
    && |after.log| == |before.log| + |pending| && after.log[..|before.log|] == before.log
    && forall i :: 0 <= i < |pending| ==> after.log[|before.log| + i] == Skip(day, pending[i], NoNextBar)
  }

  lemma {:induction false} StrandedKeepsInv(c: Costs, initial: real, st: State, pending: seq<Order>, day: int)
    requires Inv(c, initial, st)
    ensures Inv(c, initial, Stranded(st, pending, day))
  {
    hide Inv;
    var after := Stranded(st, pending, day);
    if pending == [] {
      assert after == st;
    } else {
      var n := |pending| - 1;
      StrandedKeepsInv(c, initial, st, pending[..n], day);
      var record := Skip(day, pending[n], NoNextBar);
      var before := Stranded(st, pending[..n], day);
      assert after == before.(log := before.log + [record]);
      RecordKeepsInv(c, initial, before, record);
    }
  }

  lemma RoundTripsAreSells(c: Costs, initial: real, st: State)
    requires Inv(c, initial, st)
    ensures RoundTrips(st.fills) == NumFills(st.log, Sell)
  {
    RoundTripsWhenBalanced(st.fills);
  }

  lemma FinishReadsAudit(su: Setup, r: Replay, days: seq<int>)
    requires days != []
    ensures var (st, o) := Finish(su, r, days);
      ReadsAudit(su.initial, r, st, o) && WrittenOff(r.st, r.pending, days[|days| - 1], st)
  {
    hide RoundTrips, NumFills, NumSkips;
    var st := Stranded(r.st, r.pending, days[|days| - 1]);
    CountsAreRecords(st.log, Buy);
    CountsAreRecords(st.log, Sell);
  }

  /** The report of every daily run, read off its curve and its audit trail. */
  lemma FinishReports(su: Setup, t: Table, days: seq<int>)
    requires su.universe != [] && days != [] && StrictlyAscending(days)
    ensures var r := ReplayDays(su, t, days, |days|);
      var (st, o) := Finish(su, r, days);
      && ReadsAudit(su.initial, r, st, o) && o.roundTrips == o.sells
      && WrittenOff(r.st, r.pending, days[|days| - 1], st)
  {
    hide Inv, RoundTrips, NumFills, NumSkips, ReplayDays;
    var r := ReplayDays(su, t, days, |days|);
    RunKeepsRunInv(su, t, days, |days|);
    var st := Stranded(r.st, r.pending, days[|days| - 1]);
    StrandedKeepsInv(su.costs, su.initial, r.st, r.pending, days[|days| - 1]);
    RoundTripsAreSells(su.costs, su.initial, st);
    FinishReadsAudit(su, r, days);
  }
}
