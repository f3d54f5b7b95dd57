/**
 The intraday loop as the engine runs it: cursors advanced in place, prices found by search or
 lookup, and the kernel object mutated event by event.
 */
module IntradayEngine {
  import opened OrderedDict
  import opened KernelSpec
  import opened KernelLaws
  import opened BarTables
  import opened DailySpec
  import opened DailyDays
  import opened Kernel
  import opened IntradaySpec
  import opened SortedTimes
  import DailyEngine

  // ----------------------------------------------------------------------- per-symbol helpers

  function StartsOf(bars: seq<Bar>): seq<int> {
    seq(|bars|, i requires 0 <= i < |bars| => bars[i].start)
  }

  /** The search for the sizing close lands just after the bars that start before `ts`. */
  lemma SearchIsCount(bars: seq<Bar>, ts: int)
    requires Ascending(bars)
    ensures DailyEngine.BisectLeft(StartsOf(bars), ts, 0, |bars|) == NumStarted(bars, ts - 1)
  {
    var starts := StartsOf(bars);
    DailyEngine.BisectLeftSplits(starts, ts, 0, |starts|);
    StartedIsPrefix(bars, ts - 1);
    var found, n := DailyEngine.BisectLeft(starts, ts, 0, |starts|), NumStarted(bars, ts - 1);
    assert found == |bars| || starts[found] == bars[found].start;
    assert found == 0 || starts[found - 1] == bars[found - 1].start;
  }

  /** Opens keyed by bar start, a later bar overwriting an earlier one. */
  function OpenByTs(bars: seq<Bar>): map<int, real> {
    if bars == [] then map[]
    else OpenByTs(bars[..|bars| - 1])[bars[|bars| - 1].start := bars[|bars| - 1].open]
  }

  lemma {:induction false} OpenByTsIsOpenAt(bars: seq<Bar>, ts: int)
    requires Ascending(bars)
    ensures ts in OpenByTs(bars) <==> OpenAt(bars, ts).Some?
    ensures ts in OpenByTs(bars) ==> OpenByTs(bars)[ts] == OpenAt(bars, ts).value
  {
    if bars == [] {
    } else {
      var front, last := bars[..|bars| - 1], bars[|bars| - 1];
      OpenByTsIsOpenAt(front, ts);
      StartedIsPrefix(bars, ts);
      StartedIsPrefix(front, ts);
      if last.start <= ts {
        assert NumStarted(bars, ts) == |bars|;
        assert NumStarted(front, ts) == |front|;
      } else {
        assert NumStarted(front, ts) == NumStarted(bars, ts) <= |front|;
      }
    }
  }

  function OpenMaps(t: Table): map<Symbol, map<int, real>> {
    map s | s in t :: OpenByTs(t[s])
  }

  method BuildFrames(p: Tempo, all: Table) returns (t: Table)
    ensures t == Frames(p, all)
  {
    t := map[];
    var todo := all.Keys;
    while todo != {}
      invariant todo <= all.Keys
      invariant t == map s | s in all && s !in todo :: if p.sameSession then SessionBars(p, all[s]) else all[s]
      decreases |todo|
    {
      var s :| s in todo;
      t := t[s := if p.sameSession then SessionBars(p, all[s]) else all[s]];
      todo := todo - {s};
    }
  }

  lemma {:induction false} SessionBarsAscending(p: Tempo, bars: seq<Bar>)
    requires Ascending(bars)
    ensures Ascending(SessionBars(p, bars))
    ensures forall b :: b in SessionBars(p, bars) ==> b in bars
  {
    if bars == [] {
    } else {
      var front, last := bars[..|bars| - 1], bars[|bars| - 1];
      SessionBarsAscending(p, front);
      forall b | b in front ensures b.start <= last.start {
        var i :| 0 <= i < |front| && front[i] == b;
        assert bars[i] == b;
      }
    }
  }

  lemma FramesAscending(p: Tempo, all: Table)
    requires AllAscending(all)
    ensures AllAscending(Frames(p, all))
  {
    forall s | s in all ensures Ascending(Frames(p, all)[s]) {
      SessionBarsAscending(p, all[s]);
    }
  }

  method BuildOpenMaps(t: Table) returns (opens: map<Symbol, map<int, real>>)
    ensures opens == OpenMaps(t)
  {
    opens := map[];
    var todo := t.Keys;
    while todo != {}
      invariant todo <= t.Keys
      invariant opens == map s | s in t && s !in todo :: OpenByTs(t[s])
      decreases |todo|
    {
      var s :| s in todo;
      var byTs: map<int, real> := map[];
      for i := 0 to |t[s]|
        invariant byTs == OpenByTs(t[s][..i])
      {
        assert t[s][..i + 1][..i] == t[s][..i];
        byTs := byTs[t[s][i].start := t[s][i].open];
      }
      assert t[s][..|t[s]|] == t[s];
      opens := opens[s := byTs];
      todo := todo - {s};
    }
  }

  /** Prices for the symbols with a bar starting exactly at `ts`. */
  method OpensAtTimestamp(t: Table, openByTs: map<Symbol, map<int, real>>, ts: int) returns (opens: map<Symbol, real>)
    requires AllAscending(t) && openByTs == OpenMaps(t)
    ensures opens == OpensAt(t, ts)
  {
    hide OpenAt, OpenByTs;
    opens := map[];
    var todo := openByTs.Keys;
    while todo != {}
      invariant todo <= t.Keys
      invariant opens == map s | s in t && s !in todo && OpenAt(t[s], ts).Some? :: OpenAt(t[s], ts).value
      decreases |todo|
    {
      var s :| s in todo;
      OpenByTsIsOpenAt(t[s], ts);
      if ts in openByTs[s] {
        opens := opens[s := openByTs[s][ts]];
      }
      todo := todo - {s};
    }
  }

  /** Each symbol's last close strictly before `ts`, its row found by binary search. */
  method LatestCloseAtTs(t: Table, ts: int) returns (closes: map<Symbol, real>)
    requires AllAscending(t)
    ensures closes == ClosesBefore(t, ts)
  {
    hide NumStarted;
    closes := map[];
    var todo := t.Keys;
    while todo != {}
      invariant todo <= t.Keys
      invariant closes == map s | s in t && s !in todo && CloseBefore(t[s], ts).Some? :: CloseBefore(t[s], ts).value
      decreases |todo|
    {
      var s :| s in todo;
      SearchIsCount(t[s], ts);
      var found := DailyEngine.BisectLeft(StartsOf(t[s]), ts, 0, |t[s]|);
      if found > 0 {
        closes := closes[s := t[s][found - 1].close];
      }
      todo := todo - {s};
    }
  }

  /** One symbol's cursor moved past every bar completed by `ts`, one bar at a time. */
  method AdvanceCursor(bars: seq<Bar>, size: int, ts: int, cursor: nat) returns (idx: nat, advanced: bool)
    requires Ascending(bars)
    ensures idx == Later(cursor, NumDone(bars, size, ts))
    ensures advanced <==> idx > cursor
  {
    idx, advanced := cursor, false;
    StartedIsPrefix(bars, ts - size);
    while idx < |bars| && bars[idx].start + size <= ts
      invariant cursor <= idx && (advanced <==> idx > cursor)
      invariant idx == cursor || idx <= NumDone(bars, size, ts)
    {
      idx := idx + 1;
      advanced := true;
    }
    assert idx >= |bars| || !(idx < NumDone(bars, size, ts));
  }

  lemma AdvancedStep(before: map<Symbol, nat>, moved: map<Symbol, nat>, s: Symbol, idx: nat)
    requires s !in moved
    ensures Advanced(before, moved[s := idx]) <==> Advanced(before, moved) || idx > CursorOf(before, s)
  {
    var next := moved[s := idx];
    if x :| x in moved && moved[x] > CursorOf(before, x) {
      assert x in next && next[x] > CursorOf(before, x);
    }
    if idx > CursorOf(before, s) {
      assert s in next && next[s] > CursorOf(before, s);
    }
  }

  /** Every cursor moved past the bars completed by `ts`; whether any moved. */
  method AdvanceAll(p: Tempo, t: Table, cursors: map<Symbol, nat>, ts: int)
    returns (moved: map<Symbol, nat>, advanced: bool)
    requires AllAscending(t)
    ensures moved == Advance(p, t, cursors, ts)
    ensures advanced <==> Advanced(cursors, moved)
  {
    moved, advanced := map[], false;
    var todo := t.Keys;
    while todo != {}
      invariant todo <= t.Keys && moved.Keys == t.Keys - todo
      invariant forall s :: s in moved ==> moved[s] == Later(CursorOf(cursors, s), NumDone(t[s], p.barSize, ts))
      invariant advanced <==> Advanced(cursors, moved)
      decreases |todo|
    {
      var s :| s in todo;
      var idx, did := AdvanceCursor(t[s], p.barSize, ts, CursorOf(cursors, s));
      AdvancedStep(cursors, moved, s, idx);
      moved := moved[s := idx];
      advanced := advanced || did;
      todo := todo - {s};
    }
  }

  /** The visible prefix of each universe symbol; symbols with nothing visible are left out. */
  method BuildVisibleBars(universe: seq<Symbol>, t: Table, cursors: map<Symbol, nat>) returns (visible: Table)
    requires forall s :: s in t && s in cursors ==> cursors[s] <= |t[s]|
    ensures visible == VisibleBars(universe, t, cursors)
  {
    visible := map[];
    for i := 0 to |universe|
      invariant visible == VisibleBars(universe[..i], t, cursors)
    {
      var s := universe[i];
      assert universe[..i + 1] == universe[..i] + [s];
      if s in t && CursorOf(cursors, s) > 0 {
        visible := visible[s := t[s][..CursorOf(cursors, s)]];
      }
    }
    assert universe[..|universe|] == universe;
  }

  // --------------------------------------------------------------------------- event timeline

  /** Starts of the day's bars, symbol by symbol. */
  method FillTimes(p: Tempo, t: Table, day: int) returns (fills: seq<int>)
    ensures SetOf(fills) == StartsOn(p, t, day)
  {
    fills := [];
    var todo := t.Keys;
    while todo != {}
      invariant todo <= t.Keys
      invariant SetOf(fills)
             == set s, i | s in t && s !in todo && 0 <= i < |t[s]| && p.dayOf(t[s][i].start) == day :: t[s][i].start
      decreases |todo|
    {
      var s :| s in todo;
      ghost var before := SetOf(fills);
      for i := 0 to |t[s]|
        invariant SetOf(fills) == before + set j | 0 <= j < i && p.dayOf(t[s][j].start) == day :: t[s][j].start
      {
        if p.dayOf(t[s][i].start) == day {
          SetOfGrows(fills, t[s][i].start);
          fills := fills + [t[s][i].start];
        }
      }
      todo := todo - {s};
    }
  }

  function Events(starts: seq<int>, size: int): set<int> {
    SetOf(starts) + Shifted(SetOf(starts), size)
  }

  lemma EventsGrow(starts: seq<int>, x: int, size: int)
    ensures Events(starts + [x], size) == Events(starts, size) + {x} + {x + size}
  {
    SetOfGrows(starts, x);
    assert Shifted(SetOf(starts) + {x}, size) == Shifted(SetOf(starts), size) + {x + size};
  }

  /** The day's events, each once and in time order: every bar start and every bar completion. */
  method BuildEventTimeline(starts: seq<int>, size: int) returns (timeline: seq<int>)
    ensures StrictlyAscending(timeline) && SetOf(timeline) == Events(starts, size)
  {
    timeline := [];
    for i := 0 to |starts|
      invariant StrictlyAscending(timeline) && SetOf(timeline) == Events(starts[..i], size)
    {
      assert starts[..i + 1] == starts[..i] + [starts[i]];
      EventsGrow(starts[..i], starts[i], size);
      timeline := InsertTime(timeline, starts[i]);
      timeline := InsertTime(timeline, starts[i] + size);
    }
    assert starts[..|starts|] == starts;
  }

  /** Running a timeline one event further is running a set with one more, latest, event. */
  lemma NextEvent(su: Setup, p: Tempo, t: Table, day: int, r: Intraday, timeline: seq<int>, i: nat)
    requires su.universe != [] && StrictlyAscending(timeline) && i < |timeline|
    ensures RunEvents(su, p, t, day, r, SetOf(timeline[..i + 1]))
         == EventStep(su, p, t, day, RunEvents(su, p, t, day, r, SetOf(timeline[..i])), timeline[i])
  {
    var upTo, before := SetOf(timeline[..i + 1]), SetOf(timeline[..i]);
    assert timeline[..i + 1] == timeline[..i] + [timeline[i]];
    assert timeline[i] in upTo && Max(upTo) == timeline[i];
    assert upTo - {timeline[i]} == before;
  }

  // --------------------------------------------------------------------------- day-end prices

  /** Last close on `day`; with no bar that day, and if allowed, the last close before it. */
  method LatestCloseOnDayForSymbol(p: Tempo, bars: seq<Bar>, day: int, allowPrior: bool) returns (close: Option<real>)
    ensures close == CloseOnDay(p, bars, day, allowPrior)
  {
    var onDay, prior: Option<real> := None, None;
    for i := 0 to |bars|
      invariant onDay == LastCloseOn(p, bars[..i], day) && prior == LastCloseBefore(p, bars[..i], day)
    {
      assert bars[..i + 1][..i] == bars[..i];
      if p.dayOf(bars[i].start) == day {
        onDay := Some(bars[i].close);
      } else if p.dayOf(bars[i].start) < day {
        prior := Some(bars[i].close);
      }
    }
    assert bars[..|bars|] == bars;
    close := if onDay.Some? then onDay else if allowPrior then prior else None;
  }

  method LastClosesOnDay(p: Tempo, t: Table, symbols: set<Symbol>, day: int) returns (closes: map<Symbol, real>)
    ensures closes == ClosesOnDay(p, t, day, symbols)
  {
    closes := map[];
    var todo := symbols;
    while todo != {}
      invariant todo <= symbols
      invariant closes == ClosesOnDay(p, t, day, symbols - todo)
      decreases |todo|
    {
      var s :| s in todo;
      todo := todo - {s};
      if s in t {
        var close := LatestCloseOnDayForSymbol(p, t[s], day, false);
        if close.Some? {
          closes := closes[s := close.value];
        }
      }
    }
    assert symbols - {} == symbols;
  }

  method MarkToMarketAtDayEnd(p: Tempo, t: Table, positions: Dict<Symbol, Lot>, day: int, cash: real)
    returns (equity: real)
    ensures equity == cash + DayEndValue(p, t, day, positions)
  {
    equity := cash;
    for i := 0 to |positions|
      invariant equity == cash + DayEndValue(p, t, day, positions[..i])
    {
      assert positions[..i + 1][..i] == positions[..i];
      var e := positions[i];
      if e.key in t {
        var close := LatestCloseOnDayForSymbol(p, t[e.key], day, true);
        if close.Some? {
          equity := equity + e.value.qty * close.value;
        }
      }
    }
    assert positions[..|positions|] == positions;
  }

  method PendingExitReasons(pending: seq<Order>) returns (reasons: map<Symbol, string>)
    ensures reasons == ExitReasons(pending)
  {
    reasons := map[];
    for i := 0 to |pending|
      invariant reasons == ExitReasons(pending[..i])
    {
      assert pending[..i + 1][..i] == pending[..i];
      if pending[i].side.Sell? {
        reasons := reasons[pending[i].symbol := pending[i].reasoning];
      }
    }
    assert pending[..|pending|] == pending;
  }

  // ------------------------------------------------------------------------------- the loop

  datatype Result = EmptyUniverse | Simulated(output: Output)

  class IntradaySimulation {
    const setup: Setup
    const tempo: Tempo
    const bars: Table
    const kernel: BacktestSimulationKernel
    var pending: seq<Order>
    var curve: seq<(int, real)>
    var cursors: map<Symbol, nat>
    var buyCount: nat
    var sellCount: nat
    var tradeCount: nat
    var skippedCount: nat
    ghost var history: History

    ghost function View(): Intraday
      reads this, kernel
    {
      Intraday(kernel.View(), kernel.shown, pending, curve, cursors, history)
    }

    /** The kernel is wired to this run, and the running counts agree with its audit trail. */
    ghost predicate Valid()
      reads this, kernel, kernel.broker
    {
      && kernel.Valid()
      && kernel.costs == setup.costs && kernel.gate == setup.gate
      && kernel.strategy == setup.strategy && kernel.bars == bars
      && setup.universe != [] && AllAscending(bars)
      && (forall s :: s in bars && s in cursors ==> cursors[s] <= |bars[s]|)
      && buyCount == NumFills(kernel.log, Buy)
      && sellCount == NumFills(kernel.log, Sell)
      && tradeCount == buyCount + sellCount
      && skippedCount == NumSkips(kernel.log)
    }

    constructor (setup: Setup, tempo: Tempo, bars: Table)
      requires setup.universe != [] && AllAscending(bars)
      ensures Valid() && fresh(kernel) && fresh(kernel.broker)
      ensures this.setup == setup && this.tempo == tempo && this.bars == bars && View() == Begin(setup, bars)
    {
      this.setup, this.tempo, this.bars := setup, tempo, bars;
      pending, curve, buyCount, sellCount, tradeCount, skippedCount := [], [], 0, 0, 0, 0;
      cursors := map s | s in bars :: 0;
      history := History([], [], []);
      kernel := new BacktestSimulationKernel(setup.costs, setup.gate, bars, setup.strategy, setup.initial);
    }

    /** Move every cursor past the bars completed by `ts`; say whether any moved. */
    method AdvanceCursors(ts: int) returns (advanced: bool)
      requires Valid()
      modifies this`cursors
      ensures Valid() && cursors == Advance(tempo, bars, old(cursors), ts)
      ensures advanced <==> Advanced(old(cursors), cursors)
    {
      cursors, advanced := AdvanceAll(tempo, bars, cursors, ts);
    }

    /** Show the strategy what is visible at `ts` and queue what it decides. */
    method Evaluate(day: int, ts: int)
      requires Valid()
      modifies this`pending, this`cursors, this`history, kernel, kernel.broker
      ensures Valid() && View() == Decide(setup, tempo, bars, old(View()), ts)
    {
      hide Unique, DecisionStep, NumFills, NumSkips, Advance;
      var advanced := AdvanceCursors(ts);
      if advanced {
        var visible := BuildVisibleBars(setup.universe, bars, cursors);
        if visible != map[] {
          var closes := LatestCloseAtTs(bars, ts);
          var equity := Equity(kernel.cash, kernel.positions, closes);
          var orders := kernel.SimulateDecisionStep(setup.universe, visible, closes, equity, day, ts);
          pending := pending + orders;
          history := history.(queued := history.queued + orders);
        }
      }
    }

    /** Attempt what has an open; everything else stays queued. */
    method Drain(opens: map<Symbol, real>, ts: int)
      requires Valid()
      modifies this`pending, this`buyCount, this`sellCount, this`tradeCount, this`skippedCount, kernel, kernel.broker
      ensures Valid() && kernel.shown == old(kernel.shown)
      ensures kernel.View() == KernelSpec.Drain(setup.costs, setup.gate, old(kernel.View()), old(pending), opens,
                                                UtcDate(ts), Quotes(bars, UtcDate(ts)), RetainMissing)
      ensures pending == Carried(old(pending), opens, RetainMissing)
    {
      hide KernelSpec.Drain, Unique, NumFills, NumSkips, Carried, Quotes;
      var bought, sold, skipped;
      bought, sold, skipped, pending := kernel.DrainPendingOrders(pending, opens, UtcDate(ts), RetainMissing);
      buyCount, sellCount := buyCount + bought, sellCount + sold;
      tradeCount, skippedCount := tradeCount + (bought + sold), skippedCount + skipped;
    }

    /** If a bar of the day starts at `ts`, fill the queue at the opens of that moment. */
    method FillQueue(openByTs: map<Symbol, map<int, real>>, fills: seq<int>, day: int, ts: int)
      requires Valid() && openByTs == OpenMaps(bars) && SetOf(fills) == StartsOn(tempo, bars, day)
      modifies this`pending, this`history, this`buyCount, this`sellCount, this`tradeCount, this`skippedCount,
               kernel, kernel.broker
      ensures Valid() && View() == FillAt(setup, tempo, bars, day, old(View()), ts)
    {
      assert ts in fills <==> ts in StartsOn(tempo, bars, day);
      if ts in fills && pending != [] {
        var opens := OpensAtTimestamp(bars, openByTs, ts);
        history := history.(attempts := history.attempts + Attempts(Drained(pending, opens, RetainMissing), ts));
        Drain(opens, ts);
      }
    }

    /** Every event of the day in order: advance, evaluate, then fill. */
    method RunTimeline(openByTs: map<Symbol, map<int, real>>, day: int)
      requires Valid() && openByTs == OpenMaps(bars)
      modifies this`pending, this`cursors, this`history, this`buyCount, this`sellCount, this`tradeCount,
               this`skippedCount, kernel, kernel.broker
      ensures Valid() && View() == RunEvents(setup, tempo, bars, day, old(View()), Times(tempo, bars, day))
    {
      var fills := FillTimes(tempo, bars, day);
      var timeline := BuildEventTimeline(fills, tempo.barSize);
      ghost var start := View();
      for i := 0 to |timeline|
        invariant Valid() && View() == RunEvents(setup, tempo, bars, day, start, SetOf(timeline[..i]))
      {
        NextEvent(setup, tempo, bars, day, start, timeline, i);
        Evaluate(day, timeline[i]);
        FillQueue(openByTs, fills, day, timeline[i]);
      }
      assert timeline[..|timeline|] == timeline;
    }

    /** Close the book at the day's closes; returns the symbols closed. */
    method Liquidate(day: int, closes: map<Symbol, real>, reasons: map<Symbol, string>) returns (flattened: set<Symbol>)
      requires Valid()
      modifies this`sellCount, this`tradeCount, kernel, kernel.broker
      ensures Valid() && kernel.shown == old(kernel.shown)
      ensures kernel.View() == KernelSpec.Liquidate(setup.costs, setup.gate, old(kernel.View()), closes, day,
                                                    Quotes(bars, day), reasons, FLATTEN_REASON)
      ensures flattened == old(kernel.entries).Keys - kernel.entries.Keys
    {
      flattened := kernel.LiquidateOpenPositions(closes, day, FLATTEN_REASON, reasons);
      sellCount, tradeCount := sellCount + |flattened|, tradeCount + |flattened|;
    }

    /** A same-session run ends the day flat and drops the exits the flatten replaced. */
    method FlattenSession(day: int)
      requires Valid()
      modifies this`pending, this`history, this`sellCount, this`tradeCount, kernel, kernel.broker
      ensures Valid() && View() == Flatten(setup, tempo, bars, day, old(View()))
    {
      hide Unique, NumFills, NumSkips, KernelSpec.Liquidate, ClosesOnDay, ExitReasons;
      if tempo.sameSession {
        var reasons := PendingExitReasons(pending);
        var closes := LastClosesOnDay(tempo, bars, Keys(kernel.positions), day);
        var flattened := Liquidate(day, closes, reasons);
        history := history.(dropped := history.dropped + Select(pending, (o: Order) => Redundant(o, flattened)));
        pending := Select(pending, (o: Order) => !Redundant(o, flattened));
      }
    }

    method RefreshHeldDays(days: seq<int>, day: int)
      requires Valid()
      modifies kernel`entries
      ensures Valid() && View() == StartDay(old(View()), days, day)
    {
      kernel.RefreshHeldDays(days, day);
    }

    method RecordDayEnd(day: int)
      requires Valid()
      modifies this`curve
      ensures Valid()
      ensures var r := old(View());
        View() == r.(curve := r.curve + [(day, r.st.cash + DayEndValue(tempo, bars, day, r.st.positions))])
    {
      var equity := MarkToMarketAtDayEnd(tempo, bars, kernel.positions, day, kernel.cash);
      curve := curve + [(day, equity)];
    }

    method CloseDay(day: int)
      requires Valid()
      modifies this`pending, this`history, this`sellCount, this`tradeCount, this`curve, kernel, kernel.broker
      ensures Valid() && View() == EndDay(setup, tempo, bars, day, old(View()))
    {
      FlattenSession(day);
      RecordDayEnd(day);
    }

    method SimulateDay(days: seq<int>, day: int, openByTs: map<Symbol, map<int, real>>)
      requires Valid() && openByTs == OpenMaps(bars)
      modifies this, kernel, kernel.broker
      ensures Valid() && View() == IntradayDay(setup, tempo, bars, days, day, old(View()))
    {
      RefreshHeldDays(days, day);
      RunTimeline(openByTs, day);
      CloseDay(day);
    }

    /** Audit stranded orders and assemble the output. */
    method Finalize(days: seq<int>) returns (output: Output)
      requires Valid() && days != []
      modifies this, kernel, kernel.broker
      ensures var r := old(View());
        (kernel.View(), output) == Finish(setup, Replay(r.st, r.shown, r.pending, r.curve), days)
      ensures var r := old(View());
        ReadsAudit(setup.initial, Replay(r.st, r.shown, r.pending, r.curve), kernel.View(), output)
      ensures WrittenOff(old(kernel.View()), old(pending), days[|days| - 1], kernel.View())
    {
      hide Unique, RoundTrips, ReadsAudit, WrittenOff, NumFills, NumSkips, Stranded;
      FinishReadsAudit(setup, Replay(kernel.View(), kernel.shown, pending, curve), days);
      var final := if curve == [] then setup.initial else curve[|curve| - 1].1;
      var stranded := 0;
      DailyEngine.StrandedCounts(kernel.View(), pending, days[|days| - 1]);
      if pending != [] {
        stranded := kernel.RecordStrandedOrders(pending, days[|days| - 1]);
      }
      output := Output(curve, tradeCount, buyCount, sellCount, final, kernel.RoundTripCount(), skippedCount + stranded);
    }
  }

  /** The output the specified intraday run reports. */
  ghost function IntradayOutput(setup: Setup, tempo: Tempo, all: Table, days: seq<int>): Output
    requires setup.universe != [] && days != []
  {
    var r := IntradayDays(setup, tempo, Frames(tempo, all), days, |days|);
    Finish(setup, Replay(r.st, r.shown, r.pending, r.curve), days).1
  }

  /** The whole intraday run: every output figure is the one of the specified replay. */
  method SimulateIntraday(setup: Setup, tempo: Tempo, allBars: Table, days: seq<int>) returns (r: Result)
    requires AllAscending(allBars)
    ensures r.EmptyUniverse? <==> setup.universe == []
    ensures r.Simulated? && days == [] ==> r.output == Output([], 0, 0, 0, setup.initial, 0, 0)
    ensures r.Simulated? && days != [] ==> r.output == IntradayOutput(setup, tempo, allBars, days)
    ensures r.Simulated? ==> EndsOnCurve(r.output, setup.initial)
  {
    if setup.universe == [] {
      return EmptyUniverse;
    }
    if days == [] {
      return Simulated(Output([], 0, 0, 0, setup.initial, 0, 0));
    }
    var bars := BuildFrames(tempo, allBars);
    FramesAscending(tempo, allBars);
    var openByTs := BuildOpenMaps(bars);
    var simulation := new IntradaySimulation(setup, tempo, bars);
    for k := 0 to |days|
      invariant simulation.Valid() && simulation.setup == setup && simulation.tempo == tempo && simulation.bars == bars
      invariant fresh(simulation) && fresh(simulation.kernel) && fresh(simulation.kernel.broker)
      invariant simulation.View() == IntradayDays(setup, tempo, bars, days, k)
    {
      simulation.SimulateDay(days, days[k], openByTs);
    }
    var output := simulation.Finalize(days);
    r := Simulated(output);
  }
}
