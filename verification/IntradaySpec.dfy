/**
 The intraday replay as a function.  Within a day the events are bar starts and bar
 completions, in time order; at each event newly completed bars become visible, the strategy
 decides if any did, and queued orders fill at the opens of bars starting right then.
 */
module IntradaySpec {
  import opened OrderedDict
  import opened KernelSpec
  import opened KernelLaws
  import opened BarTables
  import opened DailySpec

  /**
   `dayOf` is the session day a bar start belongs to.  A same-session run keeps only the bars
   starting in the regular session and flattens each day.
   */
  datatype Tempo = Tempo(barSize: int, sameSession: bool, inSession: int -> bool, dayOf: int -> int)

  datatype Attempt = Attempt(order: Order, ts: int)

  /** What became of every order the strategy queued; kept for reasoning only. */
  datatype History = History(queued: seq<Order>, attempts: seq<Attempt>, dropped: seq<Order>)

  datatype Intraday = Intraday(st: State, shown: seq<Context>, pending: seq<Order>, curve: seq<(int, real)>,
                               cursors: map<Symbol, nat>, history: History)

  const FLATTEN_REASON := "backtest.intraday_session_end_flatten"

  function SessionBars(p: Tempo, bars: seq<Bar>): seq<Bar> {
    if bars == [] then []
    else
      var last := bars[|bars| - 1];
      SessionBars(p, bars[..|bars| - 1]) + (if p.inSession(last.start) then [last] else [])
  }

  /** The bars a run replays, and the only ones it ever looks at. */
  function Frames(p: Tempo, all: Table): Table {
    map s | s in all :: if p.sameSession then SessionBars(p, all[s]) else all[s]
  }

  /**
   Every replayed bar falls on its session day's UTC date: by definition without a session filter,
   and because the US session lies within one UTC date with it.
   */
  ghost predicate DatesAgree(p: Tempo, t: Table) {
    forall s, i :: s in t && 0 <= i < |t[s]| ==> p.dayOf(t[s][i].start) == UtcDate(t[s][i].start)
  }

  /** How many bars start at or before `x`. */
  function NumStarted(bars: seq<Bar>, x: int): (n: nat)
    ensures n <= |bars|
  {
    if bars == [] then 0
    else NumStarted(bars[..|bars| - 1], x) + (if bars[|bars| - 1].start <= x then 1 else 0)
  }

  /** How many bars have completed by `ts`. */
  function NumDone(bars: seq<Bar>, size: int, ts: int): nat {
    NumStarted(bars, ts - size)
  }

  function StartsOn(p: Tempo, t: Table, day: int): set<int> {
    set s, i | s in t && 0 <= i < |t[s]| && p.dayOf(t[s][i].start) == day :: t[s][i].start
  }

  function Shifted(xs: set<int>, size: int): set<int> {
    set x | x in xs :: x + size
  }

  /** The event times of a day: every bar start and every bar completion. */
  function Times(p: Tempo, t: Table, day: int): set<int> {
    StartsOn(p, t, day) + Shifted(StartsOn(p, t, day), p.barSize)
  }

  function TimesUpTo(p: Tempo, t: Table, day: int, ts: int): set<int> {
    set e | e in Times(p, t, day) && e <= ts
  }

  function Later(a: nat, b: nat): nat {
    if a < b then b else a
  }

  function CursorOf(cursors: map<Symbol, nat>, s: Symbol): nat {
    if s in cursors then cursors[s] else 0
  }

  /** Cursors only move forward, to the number of bars completed by `ts`. */
  function Advance(p: Tempo, t: Table, cursors: map<Symbol, nat>, ts: int): map<Symbol, nat> {
    map s | s in t :: Later(CursorOf(cursors, s), NumDone(t[s], p.barSize, ts))
  }

  predicate Advanced(before: map<Symbol, nat>, after: map<Symbol, nat>) {
    exists s :: s in after && after[s] > CursorOf(before, s)
  }

  function VisibleBars(universe: seq<Symbol>, t: Table, cursors: map<Symbol, nat>): Table {
    map s | s in t && s in universe && s in cursors && 0 < cursors[s] <= |t[s]| :: t[s][..cursors[s]]
  }

  /** The close of the last bar starting strictly before `ts`. */
  function CloseBefore(bars: seq<Bar>, ts: int): Option<real> {
    var n := NumStarted(bars, ts - 1);
    if n == 0 then None else Some(bars[n - 1].close)
  }

  function ClosesBefore(t: Table, ts: int): map<Symbol, real> {
    map s | s in t && CloseBefore(t[s], ts).Some? :: CloseBefore(t[s], ts).value
  }

  /** The open of the (last) bar starting exactly at `ts`. */
  function OpenAt(bars: seq<Bar>, ts: int): Option<real> {
    var n := NumStarted(bars, ts);
    if n == 0 || bars[n - 1].start != ts then None else Some(bars[n - 1].open)
  }

  function OpensAt(t: Table, ts: int): map<Symbol, real> {
    map s | s in t && OpenAt(t[s], ts).Some? :: OpenAt(t[s], ts).value
  }

  function Attempts(orders: seq<Order>, ts: int): seq<Attempt> {
    seq(|orders|, i requires 0 <= i < |orders| => Attempt(orders[i], ts))
  }

  /** Evaluate the strategy if a bar has just completed and something is visible. */
  function Decide(su: Setup, p: Tempo, t: Table, r: Intraday, ts: int): Intraday
    requires su.universe != []
  {
    var cursors := Advance(p, t, r.cursors, ts);
    var visible := VisibleBars(su.universe, t, cursors);
    if !Advanced(r.cursors, cursors) || visible == map[] then r.(cursors := cursors)
    else
      var equity := Equity(r.st.cash, r.st.positions, ClosesBefore(t, ts));
      var d := DecisionStep(su.strategy, r.st, r.shown, su.universe, visible, equity, ts);
      Intraday(d.st, d.shown, r.pending + d.orders, r.curve, cursors,
               r.history.(queued := r.history.queued + d.orders))
  }

  /** Fill what can fill at `ts`, if a bar of this day starts then; keep the rest queued. */
  function FillAt(su: Setup, p: Tempo, t: Table, day: int, r: Intraday, ts: int): Intraday {
    if ts !in StartsOn(p, t, day) || r.pending == [] then r
    else
      var opens := OpensAt(t, ts);
      r.(st := Drain(su.costs, su.gate, r.st, r.pending, opens, UtcDate(ts), Quotes(t, UtcDate(ts)), RetainMissing),
         pending := Carried(r.pending, opens, RetainMissing),
         history := r.history.(attempts := r.history.attempts + Attempts(Drained(r.pending, opens, RetainMissing), ts)))
  }

  function EventStep(su: Setup, p: Tempo, t: Table, day: int, r: Intraday, ts: int): Intraday
    requires su.universe != []
  {
    FillAt(su, p, t, day, Decide(su, p, t, r, ts), ts)
  }

  ghost predicate IsMax(xs: set<int>, m: int) {
    m in xs && forall x :: x in xs ==> x <= m
  }

  ghost predicate NonEmpty(xs: set<int>) {
    exists x :: x in xs
  }

  lemma {:induction false} MaxExists(xs: set<int>) returns (m: int)
    requires NonEmpty(xs)
    ensures IsMax(xs, m)
    decreases |xs|
  {
    m :| m in xs;
    var rest := xs - {m};
    if NonEmpty(rest) {
      var top := MaxExists(rest);
      assert forall y :: y in xs ==> y == m || y in rest;
      m := if m < top then top else m;
    } else {
      assert forall y :: y in xs ==> y == m || y in rest;
    }
  }

  ghost function Max(xs: set<int>): (m: int)
    requires NonEmpty(xs)
    ensures IsMax(xs, m)
  {
    assert exists m :: IsMax(xs, m) by {
      var m := MaxExists(xs);
    }
    var m :| IsMax(xs, m);
    m
  }

  /** The events of a set of times, processed in ascending order. */
  ghost function RunEvents(su: Setup, p: Tempo, t: Table, day: int, r: Intraday, times: set<int>): Intraday
    requires su.universe != []
    decreases |times|
  {
    if !NonEmpty(times) then r
    else
      var last := Max(times);
      EventStep(su, p, t, day, RunEvents(su, p, t, day, r, times - {last}), last)
  }

  function LastCloseOn(p: Tempo, bars: seq<Bar>, day: int): Option<real> {
    if bars == [] then None
    else if p.dayOf(bars[|bars| - 1].start) == day then Some(bars[|bars| - 1].close)
    else LastCloseOn(p, bars[..|bars| - 1], day)
  }

  function LastCloseBefore(p: Tempo, bars: seq<Bar>, day: int): Option<real> {
    if bars == [] then None
    else if p.dayOf(bars[|bars| - 1].start) < day then Some(bars[|bars| - 1].close)
    else LastCloseBefore(p, bars[..|bars| - 1], day)
  }

  /** Last close of the bars that fall on `day`, if any; otherwise, if allowed, of those before. */
  function CloseOnDay(p: Tempo, bars: seq<Bar>, day: int, allowPrior: bool): Option<real> {
    if LastCloseOn(p, bars, day).Some? then LastCloseOn(p, bars, day)
    else if allowPrior then LastCloseBefore(p, bars, day)
    else None
  }

  function ClosesOnDay(p: Tempo, t: Table, day: int, symbols: set<Symbol>): map<Symbol, real> {
    map s | s in symbols && s in t && CloseOnDay(p, t[s], day, false).Some? :: CloseOnDay(p, t[s], day, false).value
  }

  /** Cash plus each position at its latest close on or before `day`; unpriceable ones count nothing. */
  function DayEndValue(p: Tempo, t: Table, day: int, positions: Dict<Symbol, Lot>): real {
    if positions == [] then 0.0
    else
      var last := positions[|positions| - 1];
      var close := if last.key in t then CloseOnDay(p, t[last.key], day, true) else None;
      DayEndValue(p, t, day, positions[..|positions| - 1])
      + (if close.Some? then last.value.qty * close.value else 0.0)
  }

  /** The reasoning of each symbol's queued exit, the latest one winning. */
  function ExitReasons(pending: seq<Order>): map<Symbol, string> {
    if pending == [] then map[]
    else
      var o := pending[|pending| - 1];
      var before := ExitReasons(pending[..|pending| - 1]);
      if o.side.Sell? then before[o.symbol := o.reasoning] else before
  }

  predicate Redundant(o: Order, flattened: set<Symbol>) {
    o.side.Sell? && o.symbol in flattened
  }

  /** Flatten a same-session book at the day's closes and drop the exits that became redundant. */
  function Flatten(su: Setup, p: Tempo, t: Table, day: int, r: Intraday): Intraday {
    if !p.sameSession then r
    else
      var st := Liquidate(su.costs, su.gate, r.st, ClosesOnDay(p, t, day, Keys(r.st.positions)), day, Quotes(t, day),
                          ExitReasons(r.pending), FLATTEN_REASON);
      var flattened := r.st.entries.Keys - st.entries.Keys;
      r.(st := st,
         pending := Select(r.pending, (o: Order) => !Redundant(o, flattened)),
         history := r.history.(dropped := r.history.dropped + Select(r.pending, (o: Order) => Redundant(o, flattened))))
  }

  function EndDay(su: Setup, p: Tempo, t: Table, day: int, r: Intraday): Intraday {
    var flat := Flatten(su, p, t, day, r);
    flat.(curve := flat.curve + [(day, flat.st.cash + DayEndValue(p, t, day, flat.st.positions))])
  }

  function StartDay(r: Intraday, days: seq<int>, day: int): Intraday {
    r.(st := RefreshHeld(r.st, days, day))
  }

  function Begin(su: Setup, t: Table): Intraday {
    Intraday(Initial(su.initial), [], [], [], map s | s in t :: 0, History([], [], []))
  }

  /** One trading day: refresh held days, run the day's events, flatten and mark to market. */
  ghost function IntradayDay(su: Setup, p: Tempo, t: Table, days: seq<int>, day: int, r: Intraday): Intraday
    requires su.universe != []
  {
    EndDay(su, p, t, day, RunEvents(su, p, t, day, StartDay(r, days, day), Times(p, t, day)))
  }

  /** The replay after the first `k` trading days. */
  ghost function IntradayDays(su: Setup, p: Tempo, t: Table, days: seq<int>, k: nat): Intraday
    requires su.universe != [] && k <= |days|
  {
    if k == 0 then Begin(su, t)
    else IntradayDay(su, p, t, days, days[k - 1], IntradayDays(su, p, t, days, k - 1))
  }

  /** The replay on the (k+1)-th trading day, once all its events up to time `ts` are done. */
  ghost function IntradayAt(su: Setup, p: Tempo, t: Table, days: seq<int>, k: nat, ts: int): Intraday
    requires su.universe != [] && k < |days|
  {
    var start := StartDay(IntradayDays(su, p, t, days, k), days, days[k]);
    RunEvents(su, p, t, days[k], start, TimesUpTo(p, t, days[k], ts))
  }

  // ------------------------------------------------------------------- counting on ascending bars

  lemma {:induction false} StartedIsPrefix(bars: seq<Bar>, x: int)
    requires Ascending(bars)
    ensures forall i :: 0 <= i < |bars| ==> (bars[i].start <= x <==> i < NumStarted(bars, x))
  {
    if bars == [] {
    } else {
      var front := bars[..|bars| - 1];
      StartedIsPrefix(front, x);
      assert front == [] || front[|front| - 1].start <= bars[|bars| - 1].start;
    }
  }

  lemma StartedMonotone(bars: seq<Bar>, x: int, y: int)
    requires Ascending(bars) && x <= y
    ensures NumStarted(bars, x) <= NumStarted(bars, y)
  {
    StartedIsPrefix(bars, x);
    StartedIsPrefix(bars, y);
    var nx, ny := NumStarted(bars, x), NumStarted(bars, y);
    assert (ny == |bars| || bars[ny].start > y) && (nx == 0 || bars[nx - 1].start <= x);
  }

  /**
   The sizing close (last bar starting before `ts`) is the last visible bar's close exactly
   when no bar is open across `ts`.
   */
  lemma SizingCloseIsLastVisible(bars: seq<Bar>, size: int, ts: int)
    requires Ascending(bars) && size > 0
    ensures NumStarted(bars, ts - 1) == NumDone(bars, size, ts)
       <==> !exists i :: 0 <= i < |bars| && bars[i].start < ts < bars[i].start + size
  {
    var before, done := NumStarted(bars, ts - 1), NumDone(bars, size, ts);
    StartedIsPrefix(bars, ts - 1);
    StartedIsPrefix(bars, ts - size);
    StartedMonotone(bars, ts - size, ts - 1);
    if done < before {
      assert bars[done].start < ts < bars[done].start + size;
    }
  }
}
