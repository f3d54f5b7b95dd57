/**
 One event and one day end of the intraday replay, said from the bars themselves: when the strategy
 is asked, which bars and which equity it is shown, at which opens its orders are decided, and
 which closes flatten and value the book.
 */
module IntradayEvents {
  import opened OrderedDict
  import opened KernelSpec
  import opened KernelLaws
  import opened KernelDecisions
  import opened BarTables
  import opened SortedTimes
  import opened Sums
  import opened DailySpec
  import opened DailyDays
  import opened IntradaySpec
  import opened IntradayNoLookAhead
  import opened IntradayFills
  import opened IntradayBook

  // ------------------------------------------------------------------ what completes at an event

  /** A day's events are the starts and the completions of its bars, nothing else. */
  lemma EventsAreStartsAndEnds(p: Tempo, t: Table, day: int, e: int)
    ensures e in Times(p, t, day)
       <==> exists s, i :: s in t && 0 <= i < |t[s]| && p.dayOf(t[s][i].start) == day
                           && (e == t[s][i].start || e == t[s][i].start + p.barSize)
  {
    if s, i :| s in t && 0 <= i < |t[s]| && p.dayOf(t[s][i].start) == day
               && (e == t[s][i].start || e == t[s][i].start + p.barSize) {
      assert t[s][i].start in StartsOn(p, t, day);
    }
  }

  /** `e` is an event of one of the first `k` days, or among `done` of the next. */
  ghost predicate Happened(p: Tempo, t: Table, days: seq<int>, k: nat, done: set<int>, e: int)
    requires k <= |days|
  {
    e in done || exists j :: 0 <= j < k && e in Times(p, t, days[j])
  }

  /** Bar i of `s` is complete by `ts` and was not by any event before. */
  ghost predicate NewlyDone(p: Tempo, t: Table, days: seq<int>, k: nat, done: set<int>, ts: int, s: Symbol, i: nat)
    requires k <= |days|
  {
    && s in t && i < |t[s]| && t[s][i].start + p.barSize <= ts
    && forall e :: Happened(p, t, days, k, done, e) ==> e < t[s][i].start + p.barSize
  }

  ghost predicate SomethingCompletes(p: Tempo, t: Table, days: seq<int>, k: nat, done: set<int>, ts: int)
    requires k <= |days|
  {
    exists s, i :: NewlyDone(p, t, days, k, done, ts, s, i)
  }

  /** Each cursor is the most bars complete at any event so far. */
  ghost predicate CountsSoFar(p: Tempo, t: Table, days: seq<int>, k: nat, done: set<int>, cursors: map<Symbol, nat>)
    requires k <= |days|
  {
    forall s :: s in t ==>
      && s in cursors
      && (forall e :: Happened(p, t, days, k, done, e) ==> NumDone(t[s], p.barSize, e) <= cursors[s])
      && (cursors[s] == 0 || exists e :: Happened(p, t, days, k, done, e) && cursors[s] == NumDone(t[s], p.barSize, e))
  }

  lemma AdvanceCounts(p: Tempo, t: Table, days: seq<int>, k: nat, done: set<int>, cursors: map<Symbol, nat>, ts: int)
    requires k <= |days| && CountsSoFar(p, t, days, k, done, cursors)
    ensures CountsSoFar(p, t, days, k, done + {ts}, Advance(p, t, cursors, ts))
  {
    hide NumDone, Times;
    var after := Advance(p, t, cursors, ts);
    assert Happened(p, t, days, k, done + {ts}, ts);
    forall e ensures Happened(p, t, days, k, done + {ts}, e) <==> e == ts || Happened(p, t, days, k, done, e) {
    }
  }

  lemma NoneLeft(times: set<int>)
    requires !NonEmpty(times)
    ensures times == {}
  {
    assert forall x :: x !in times;
  }

  lemma {:induction false} EventsCount(su: Setup, p: Tempo, t: Table, days: seq<int>, k: nat, r: Intraday, times: set<int>)
    requires su.universe != [] && k < |days| && CountsSoFar(p, t, days, k, {}, r.cursors)
    ensures CountsSoFar(p, t, days, k, times, RunEvents(su, p, t, days[k], r, times).cursors)
    decreases |times|
  {
    hide EventStep, CountsSoFar;
    if NonEmpty(times) {
      var last := Max(times);
      var done := times - {last};
      EventsCount(su, p, t, days, k, r, done);
      var before := RunEvents(su, p, t, days[k], r, done);
      EventCursors(su, p, t, days[k], before, last);
      AdvanceCounts(p, t, days, k, done, before.cursors, last);
      assert done + {last} == times;
    } else {
      NoneLeft(times);
    }
  }

  lemma NextDayCounts(p: Tempo, t: Table, days: seq<int>, k: nat, cursors: map<Symbol, nat>)
    requires k < |days| && CountsSoFar(p, t, days, k, Times(p, t, days[k]), cursors)
    ensures CountsSoFar(p, t, days, k + 1, {}, cursors)
  {
    hide NumDone, Times;
    forall e ensures Happened(p, t, days, k + 1, {}, e) <==> Happened(p, t, days, k, Times(p, t, days[k]), e) {
    }
  }

  lemma NothingCountedYet(su: Setup, p: Tempo, t: Table, days: seq<int>)
    ensures CountsSoFar(p, t, days, 0, {}, Begin(su, t).cursors)
  {
  }

  lemma {:induction false} DaysCount(su: Setup, p: Tempo, t: Table, days: seq<int>, k: nat)
    requires su.universe != [] && k <= |days|
    ensures CountsSoFar(p, t, days, k, {}, IntradayDays(su, p, t, days, k).cursors)
  {
    hide CountsSoFar, RunEvents, Times;
    if k == 0 {
      NothingCountedYet(su, p, t, days);
    } else {
      DaysCount(su, p, t, days, k - 1);
      var day := days[k - 1];
      EventsCount(su, p, t, days, k - 1, StartDay(IntradayDays(su, p, t, days, k - 1), days, day), Times(p, t, day));
      NextDayCounts(p, t, days, k - 1, IntradayDays(su, p, t, days, k).cursors);
    }
  }

  lemma MovedMeansDone(p: Tempo, t: Table, days: seq<int>, k: nat, done: set<int>, cursors: map<Symbol, nat>, ts: int,
                       s: Symbol)
    requires AllAscending(t) && k <= |days| && CountsSoFar(p, t, days, k, done, cursors)
    requires s in t && NumDone(t[s], p.barSize, ts) > cursors[s]
    ensures NewlyDone(p, t, days, k, done, ts, s, cursors[s])
  {
    hide Happened;
    var i: nat := cursors[s];
    StartedIsPrefix(t[s], ts - p.barSize);
    forall e | Happened(p, t, days, k, done, e) ensures e < t[s][i].start + p.barSize {
      StartedIsPrefix(t[s], e - p.barSize);
    }
  }

  lemma DoneMeansMoved(p: Tempo, t: Table, days: seq<int>, k: nat, done: set<int>, cursors: map<Symbol, nat>, ts: int,
                       s: Symbol, i: nat)
    requires AllAscending(t) && k <= |days| && CountsSoFar(p, t, days, k, done, cursors)
    requires NewlyDone(p, t, days, k, done, ts, s, i)
    ensures s in t && NumDone(t[s], p.barSize, ts) > cursors[s]
  {
    hide Happened;
    StartedIsPrefix(t[s], ts - p.barSize);
    if cursors[s] > 0 {
      var e :| Happened(p, t, days, k, done, e) && cursors[s] == NumDone(t[s], p.barSize, e);
      StartedIsPrefix(t[s], e - p.barSize);
    }
  }

  /** A cursor moves exactly when some bar is newly complete. */
  lemma AdvancesIff(p: Tempo, t: Table, days: seq<int>, k: nat, done: set<int>, cursors: map<Symbol, nat>, ts: int)
    requires AllAscending(t) && k <= |days| && CountsSoFar(p, t, days, k, done, cursors)
    ensures Advanced(cursors, Advance(p, t, cursors, ts)) <==> SomethingCompletes(p, t, days, k, done, ts)
  {
    hide NewlyDone, NumDone;
    var after := Advance(p, t, cursors, ts);
    if Advanced(cursors, after) {
      var s :| s in after && after[s] > CursorOf(cursors, s);
      MovedMeansDone(p, t, days, k, done, cursors, ts, s);
    }
    if s, i :| NewlyDone(p, t, days, k, done, ts, s, i) {
      DoneMeansMoved(p, t, days, k, done, cursors, ts, s, i);
      assert after[s] > CursorOf(cursors, s);
    }
  }

  // ------------------------------------------------------------------ what an event decides

  /** Exactly the universe symbols with a completed bar, each with all its completed bars. */
  ghost predicate SeesCompleted(bars: Table, universe: seq<Symbol>, t: Table, size: int, ts: int) {
    && (forall s :: s in bars <==> s in universe && s in t && NumDone(t[s], size, ts) > 0)
    && (forall s :: s in bars ==> bars[s] == t[s][..NumDone(t[s], size, ts)])
  }

  ghost predicate MarkedAt(s: Symbol, marks: map<Symbol, real>, bars: seq<Bar>, n: nat) {
    && (s in marks <==> n > 0)
    && (s in marks ==> n <= |bars| && marks[s] == bars[n - 1].close)
  }

  /** Every symbol of the table at the close of its last completed bar. */
  ghost predicate MarksCompleted(marks: map<Symbol, real>, t: Table, size: int, ts: int) {
    && marks.Keys <= t.Keys
    && forall s :: s in t ==> MarkedAt(s, marks, t[s], NumDone(t[s], size, ts))
  }

  /** Bar i is the last one starting exactly at `ts`. */
  ghost predicate IsLastAt(bars: seq<Bar>, ts: int, i: nat) {
    i < |bars| && bars[i].start == ts && forall j :: i < j < |bars| ==> bars[j].start != ts
  }

  /** An open only for a symbol with a bar starting right at `ts`: the last such bar's. */
  ghost predicate OpensStarting(opens: map<Symbol, real>, s: Symbol, bars: seq<Bar>, ts: int) {
    && (s in opens <==> exists i: nat :: IsLastAt(bars, ts, i))
    && (forall i: nat :: s in opens && IsLastAt(bars, ts, i) ==> opens[s] == bars[i].open)
  }

  ghost predicate OpensNow(opens: map<Symbol, real>, t: Table, ts: int) {
    && opens.Keys <= t.Keys
    && forall s :: s in t ==> OpensStarting(opens, s, t[s], ts)
  }

  ghost predicate QuotedAt(s: Symbol, quotes: map<Symbol, Bar>, upTo: seq<Bar>) {
    && (s in quotes <==> upTo != [])
    && (s in quotes ==> upTo != [] && quotes[s] == upTo[|upTo| - 1])
  }

  /** The provider's quotes: each symbol's last bar dated up to `day`. */
  ghost predicate QuotesOn(quotes: map<Symbol, Bar>, t: Table, day: int) {
    && quotes.Keys <= t.Keys
    && forall s :: s in t ==> QuotedAt(s, quotes, UpTo(t[s], day))
  }

  lemma CursorsShowCompleted(universe: seq<Symbol>, p: Tempo, t: Table, cursors: map<Symbol, nat>, ts: int)
    requires forall s :: s in t ==> s in cursors && cursors[s] == NumDone(t[s], p.barSize, ts)
    ensures SeesCompleted(VisibleBars(universe, t, cursors), universe, t, p.barSize, ts)
  {
  }

  lemma SizingMarksCompleted(p: Tempo, t: Table, day: int, ts: int)
    requires OnGrid(p, t) && ts in Times(p, t, day)
    ensures MarksCompleted(ClosesBefore(t, ts), t, p.barSize, ts)
  {
    hide OnGrid, Times, NumDone, NumStarted;
    forall s | s in t ensures MarkedAt(s, ClosesBefore(t, ts), t[s], NumDone(t[s], p.barSize, ts)) {
      SizingSeesOnlyCompleted(p, t, day, ts, s);
    }
  }

  lemma OpenIsLastAt(bars: seq<Bar>, ts: int)
    requires Ascending(bars)
    ensures OpenAt(bars, ts).None? ==> forall i: nat :: !IsLastAt(bars, ts, i)
    ensures OpenAt(bars, ts).Some? ==>
              var i := NumStarted(bars, ts) - 1; i >= 0 && IsLastAt(bars, ts, i) && OpenAt(bars, ts).value == bars[i].open
    ensures forall i: nat, j: nat :: IsLastAt(bars, ts, i) && IsLastAt(bars, ts, j) ==> i == j
  {
    StartedIsPrefix(bars, ts);
  }

  lemma OpensAreNow(t: Table, ts: int)
    requires AllAscending(t)
    ensures OpensNow(OpensAt(t, ts), t, ts)
  {
    hide OpenAt, IsLastAt, Ascending;
    forall s | s in t ensures OpensStarting(OpensAt(t, ts), s, t[s], ts) {
      OpenIsLastAt(t[s], ts);
    }
  }

  lemma QuotesAreOn(t: Table, day: int)
    ensures QuotesOn(Quotes(t, day), t, day)
  {
    hide UpTo;
  }

  /** How an event went: what was shown and queued, and how the fills were decided. */
  datatype EventCourse = EventCourse(bars: Table, marks: map<Symbol, real>, orders: seq<Order>, decided: State,
                                     opens: map<Symbol, real>, quotes: map<Symbol, Bar>, drain: Course)

  /** The strategy is asked when some bar is newly complete and some universe symbol has a completed bar. */
  ghost predicate Asks(su: Setup, p: Tempo, t: Table, days: seq<int>, k: nat, done: set<int>, ts: int)
    requires k <= |days|
  {
    && SomethingCompletes(p, t, days, k, done, ts)
    && exists s :: s in su.universe && s in t && NumDone(t[s], p.barSize, ts) > 0
  }

  /**
   Asked, the strategy sees one more context: all completed bars, the book, and cash plus quantity
   times last completed close.  Otherwise it sees nothing new.
   */
  ghost predicate EventDecided(su: Setup, p: Tempo, t: Table, asks: bool, ts: int, before: Intraday, w: EventCourse,
                               shown: seq<Context>)
    requires su.universe != []
  {
    if asks then
      && SeesCompleted(w.bars, su.universe, t, p.barSize, ts) && MarksCompleted(w.marks, t, p.barSize, ts)
      && Evaluated(su.strategy, before.st, before.shown, su.universe, w.bars,
                   Valuation(before.st.cash, before.st.positions, w.marks), ts, w.decided, shown, w.orders)
    else w.decided == before.st && shown == before.shown && w.orders == []
  }

  /** When a bar of the day starts right now, the queue is decided at such bars' opens. */
  ghost predicate EventFilled(su: Setup, t: Table, starts: bool, ts: int, queue: seq<Order>, w: EventCourse,
                              after: Intraday) {
    if starts then
      && OpensNow(w.opens, t, ts) && QuotesOn(w.quotes, t, UtcDate(ts))
      && DrainDecided(su.costs, su.gate, w.decided, queue, w.opens, UtcDate(ts), w.quotes, RetainMissing, w.drain, after.st,
                      after.pending)
    else after.st == w.decided && after.pending == queue
  }

  ghost predicate BarStarts(p: Tempo, t: Table, day: int, ts: int) {
    exists s, i :: s in t && 0 <= i < |t[s]| && t[s][i].start == ts && p.dayOf(ts) == day
  }

  /** One event: what it adds to the queue joins behind, and can fill at this very event. */
  ghost predicate EventReplayed(su: Setup, p: Tempo, t: Table, days: seq<int>, k: nat, ts: int, before: Intraday,
                                w: EventCourse, after: Intraday)
    requires su.universe != [] && k < |days|
  {
    && EventDecided(su, p, t, Asks(su, p, t, days, k, TimesUpTo(p, t, days[k], ts - 1), ts), ts, before, w, after.shown)
    && EventFilled(su, t, BarStarts(p, t, days[k], ts), ts, before.pending + w.orders, w, after)
    && after.curve == before.curve
  }

  lemma DecideDecides(su: Setup, p: Tempo, t: Table, r: Intraday, ts: int, asks: bool, w: EventCourse)
    requires su.universe != []
    requires SeesCompleted(VisibleBars(su.universe, t, Advance(p, t, r.cursors, ts)), su.universe, t, p.barSize, ts)
    requires MarksCompleted(ClosesBefore(t, ts), t, p.barSize, ts)
    requires asks <==> Advanced(r.cursors, Advance(p, t, r.cursors, ts))
                       && VisibleBars(su.universe, t, Advance(p, t, r.cursors, ts)) != map[]
    requires w.bars == VisibleBars(su.universe, t, Advance(p, t, r.cursors, ts)) && w.marks == ClosesBefore(t, ts)
    requires var d := Decide(su, p, t, r, ts);
      w.decided == d.st && |d.pending| >= |r.pending| && w.orders == d.pending[|r.pending|..]
    ensures var d := Decide(su, p, t, r, ts);
      && EventDecided(su, p, t, asks, ts, r, w, d.shown)
      && d.pending == r.pending + w.orders && d.curve == r.curve
  {
    hide VisibleBars, Advance, Advanced, ClosesBefore, SeesCompleted, MarksCompleted, Equity, Valuation, Evaluated, Unique;
    EquityIsValuation(r.st.cash, r.st.positions, w.marks);
    DecisionEvaluates(su.strategy, r.st, r.shown, su.universe, w.bars, Valuation(r.st.cash, r.st.positions, w.marks), ts);
    var d := Decide(su, p, t, r, ts);
    if asks {
      var step := DecisionStep(su.strategy, r.st, r.shown, su.universe, w.bars,
                               Equity(r.st.cash, r.st.positions, w.marks), ts);
      assert d.pending == r.pending + step.orders;
    }
  }

  lemma DecideQueuesBehind(su: Setup, p: Tempo, t: Table, r: Intraday, ts: int)
    requires su.universe != []
    ensures r.pending <= Decide(su, p, t, r, ts).pending
  {
    hide DecisionStep, Advance, VisibleBars, ClosesBefore;
  }

  lemma DecideKeepsAligned(su: Setup, p: Tempo, t: Table, r: Intraday, ts: int)
    requires su.universe != [] && Aligned(r.st)
    ensures Aligned(Decide(su, p, t, r, ts).st)
  {
    hide Advance, VisibleBars, ClosesBefore, Unique;
  }

  lemma StartsIff(p: Tempo, t: Table, day: int, ts: int)
    ensures ts in StartsOn(p, t, day) <==> BarStarts(p, t, day, ts)
  {
  }

  lemma FillFills(su: Setup, p: Tempo, t: Table, day: int, r: Intraday, ts: int) returns (drain: Course)
    requires AllAscending(t) && Aligned(r.st)
    ensures var f := FillAt(su, p, t, day, r, ts);
      && (BarStarts(p, t, day, ts) ==>
            DrainDecided(su.costs, su.gate, r.st, r.pending, OpensAt(t, ts), UtcDate(ts), Quotes(t, UtcDate(ts)),
                         RetainMissing, drain, f.st, f.pending))
      && (!BarStarts(p, t, day, ts) ==> f.st == r.st && f.pending == r.pending)
      && f.shown == r.shown && f.curve == r.curve
  {
    hide DrainDecided, RunOrders, OfSide, Quotes, OpensAt, UtcDate, BarStarts, Unique, StartsOn;
    StartsIff(p, t, day, ts);
    drain := DrainDecides(su.costs, su.gate, r.st, r.pending, OpensAt(t, ts), UtcDate(ts), Quotes(t, UtcDate(ts)),
                          RetainMissing);
  }

  lemma SomethingShown(bars: Table, universe: seq<Symbol>, t: Table, size: int, ts: int)
    requires SeesCompleted(bars, universe, t, size, ts)
    ensures bars != map[] <==> exists s :: s in universe && s in t && NumDone(t[s], size, ts) > 0
  {
    hide NumDone;
    if bars != map[] {
      var s :| s in bars;
    }
  }

  lemma StepReplayed(su: Setup, p: Tempo, t: Table, days: seq<int>, k: nat, r: Intraday, ts: int) returns (w: EventCourse)
    requires su.universe != [] && k < |days| && OnGrid(p, t) && ts in Times(p, t, days[k]) && Aligned(r.st)
    requires CountsSoFar(p, t, days, k, TimesUpTo(p, t, days[k], ts - 1), r.cursors)
    requires var c := Advance(p, t, r.cursors, ts);
      forall s :: s in t ==> s in c && c[s] == NumDone(t[s], p.barSize, ts)
    ensures EventReplayed(su, p, t, days, k, ts, r, w, EventStep(su, p, t, days[k], r, ts))
  {
    hide Decide, FillAt, OpensAt, ClosesBefore, Quotes, Advance, Advanced, SomethingCompletes, CountsSoFar, Times, TimesUpTo,
      NumDone, VisibleBars, EventDecided, OpensNow, QuotesOn, DrainDecided, BarStarts, MarksCompleted, Unique, UtcDate;
    var cursors, done := Advance(p, t, r.cursors, ts), TimesUpTo(p, t, days[k], ts - 1);
    CursorsShowCompleted(su.universe, p, t, cursors, ts);
    SizingMarksCompleted(p, t, days[k], ts);
    AdvancesIff(p, t, days, k, done, r.cursors, ts);
    var bars := VisibleBars(su.universe, t, cursors);
    assert bars != map[] <==> exists s :: s in su.universe && s in t && NumDone(t[s], p.barSize, ts) > 0 by {
      SomethingShown(bars, su.universe, t, p.barSize, ts);
    }
    DecideQueuesBehind(su, p, t, r, ts);
    DecideKeepsAligned(su, p, t, r, ts);
    var d := Decide(su, p, t, r, ts);
    var drain := FillFills(su, p, t, days[k], d, ts);
    w := EventCourse(bars, ClosesBefore(t, ts), d.pending[|r.pending|..], d.st, OpensAt(t, ts), Quotes(t, UtcDate(ts)), drain);
    DecideDecides(su, p, t, r, ts, Asks(su, p, t, days, k, done, ts), w);
    OpensAreNow(t, ts);
    QuotesAreOn(t, UtcDate(ts));
  }

  lemma LastEventIs(su: Setup, p: Tempo, t: Table, days: seq<int>, k: nat, ts: int)
    requires su.universe != [] && k < |days| && ts in Times(p, t, days[k])
    ensures IntradayAt(su, p, t, days, k, ts) == EventStep(su, p, t, days[k], IntradayAt(su, p, t, days, k, ts - 1), ts)
  {
    hide EventStep, Times, IntradayDays;
    var times := TimesUpTo(p, t, days[k], ts);
    assert ts in times && Max(times) == ts;
    assert times - {ts} == TimesUpTo(p, t, days[k], ts - 1);
  }

  lemma EventsKeepAligned(su: Setup, p: Tempo, t: Table, days: seq<int>, k: nat, times: set<int>)
    requires su.universe != [] && k < |days|
    ensures Aligned(RunEvents(su, p, t, days[k], StartDay(IntradayDays(su, p, t, days, k), days, days[k]), times).st)
  {
    hide RunEvents, Inv, IntradayDays, Unique;
    RunKeepsSound(su, p, t, days, k);
    var r := IntradayDays(su, p, t, days, k);
    ApplyKeepsSound(su, r.st, RefreshOp(days, days[k]));
    EventsKeepSound(su, p, t, days[k], StartDay(r, days, days[k]), times);
    InvIsAligned(su, RunEvents(su, p, t, days[k], StartDay(r, days, days[k]), times).st);
  }

  /** Every event of every intraday run. */
  lemma EventReplays(su: Setup, p: Tempo, t: Table, days: seq<int>, k: nat, ts: int) returns (w: EventCourse)
    requires su.universe != [] && OnGrid(p, t) && StrictlyAscending(days) && k < |days| && ts in Times(p, t, days[k])
    ensures EventReplayed(su, p, t, days, k, ts, IntradayAt(su, p, t, days, k, ts - 1), w, IntradayAt(su, p, t, days, k, ts))
  {
    hide EventStep, EventReplayed, Times, RunEvents, IntradayDays, OnGrid, CountsSoFar, NumDone, Advance, Aligned;
    var before := IntradayAt(su, p, t, days, k, ts - 1);
    LastEventIs(su, p, t, days, k, ts);
    DaysCount(su, p, t, days, k);
    EventsCount(su, p, t, days, k, StartDay(IntradayDays(su, p, t, days, k), days, days[k]), TimesUpTo(p, t, days[k], ts - 1));
    EventsKeepAligned(su, p, t, days, k, TimesUpTo(p, t, days[k], ts - 1));
    EventCursors(su, p, t, days[k], before, ts);
    forall s | s in t
      ensures s in IntradayAt(su, p, t, days, k, ts).cursors
           && IntradayAt(su, p, t, days, k, ts).cursors[s] == NumDone(t[s], p.barSize, ts)
    {
      CursorsCountCompleted(su, p, t, days, k, ts, s);
    }
    w := StepReplayed(su, p, t, days, k, before, ts);
  }

  /** The first NumDone bars are those that started at least a bar size ago. */
  lemma CompletedAreEarlier(p: Tempo, t: Table, ts: int)
    requires OnGrid(p, t)
    ensures forall s, i :: s in t && 0 <= i < |t[s]| ==>
              (i < NumDone(t[s], p.barSize, ts) <==> t[s][i].start + p.barSize <= ts)
  {
    hide NumStarted;
    forall s | s in t
      ensures forall i :: 0 <= i < |t[s]| ==> (i < NumDone(t[s], p.barSize, ts) <==> t[s][i].start + p.barSize <= ts)
    {
      StartedIsPrefix(t[s], ts - p.barSize);
    }
  }

  /**
   What the strategy is shown, in one statement: at an event that asks it, the last context holds
   for each universe symbol exactly its completed bars, absent without any, and the first symbol's
   as the primary ones.
   */
  lemma ShownAreCompleted(su: Setup, p: Tempo, t: Table, days: seq<int>, k: nat, ts: int)
    requires su.universe != [] && OnGrid(p, t) && StrictlyAscending(days) && k < |days| && ts in Times(p, t, days[k])
    ensures var before, after := IntradayAt(su, p, t, days, k, ts - 1).shown, IntradayAt(su, p, t, days, k, ts).shown;
      if Asks(su, p, t, days, k, TimesUpTo(p, t, days[k], ts - 1), ts) then
        && |after| == |before| + 1 && after[..|before|] == before
        && (forall s :: s in after[|before|].bars <==> s in su.universe && s in t && t[s][..NumDone(t[s], p.barSize, ts)] != [])
        && (forall s :: s in after[|before|].bars ==> after[|before|].bars[s] == t[s][..NumDone(t[s], p.barSize, ts)])
        && after[|before|].primary == if su.universe[0] in t then t[su.universe[0]][..NumDone(t[su.universe[0]], p.barSize, ts)]
                                      else []
      else after == before
  {
    hide IntradayAt, Times, TimesUpTo, OnGrid, Asks, NumStarted, EventFilled, MarksCompleted, Valuation;
    var w := EventReplays(su, p, t, days, k, ts);
  }

  // ---------------------------------------------------------------------------- the day's ends

  /** Bar i is the last one on session day `day`. */
  ghost predicate IsLastOfDay(p: Tempo, bars: seq<Bar>, day: int, i: nat) {
    && i < |bars| && p.dayOf(bars[i].start) == day
    && forall j :: i < j < |bars| ==> p.dayOf(bars[j].start) != day
  }

  ghost predicate IsLastBeforeDay(p: Tempo, bars: seq<Bar>, day: int, i: nat) {
    && i < |bars| && p.dayOf(bars[i].start) < day
    && forall j :: i < j < |bars| ==> p.dayOf(bars[j].start) >= day
  }

  /** The close a bar list ends the day at: its last bar of the day, or failing that of the days before. */
  ghost predicate ClosesAt(p: Tempo, bars: seq<Bar>, day: int, allowPrior: bool, close: Option<real>) {
    if exists i: nat :: IsLastOfDay(p, bars, day, i)
    then forall i: nat :: IsLastOfDay(p, bars, day, i) ==> close == Some(bars[i].close)
    else if allowPrior && exists i: nat :: IsLastBeforeDay(p, bars, day, i)
    then forall i: nat :: IsLastBeforeDay(p, bars, day, i) ==> close == Some(bars[i].close)
    else close == None
  }

  lemma {:induction false} LastOfDay(p: Tempo, bars: seq<Bar>, day: int) returns (i: nat)
    ensures LastCloseOn(p, bars, day).Some? ==>
              IsLastOfDay(p, bars, day, i) && LastCloseOn(p, bars, day) == Some(bars[i].close)
    ensures LastCloseOn(p, bars, day).None? ==> forall j: nat :: !IsLastOfDay(p, bars, day, j)
  {
    i := 0;
    if bars == [] {
    } else {
      var n: nat := |bars| - 1;
      if p.dayOf(bars[n].start) == day {
        i := n;
      } else {
        i := LastOfDay(p, bars[..n], day);
        assert forall j: nat :: IsLastOfDay(p, bars, day, j) ==> IsLastOfDay(p, bars[..n], day, j);
      }
    }
  }

  lemma {:induction false} LastBeforeDay(p: Tempo, bars: seq<Bar>, day: int) returns (i: nat)
    ensures LastCloseBefore(p, bars, day).Some? ==>
              IsLastBeforeDay(p, bars, day, i) && LastCloseBefore(p, bars, day) == Some(bars[i].close)
    ensures LastCloseBefore(p, bars, day).None? ==> forall j: nat :: !IsLastBeforeDay(p, bars, day, j)
  {
    i := 0;
    if bars == [] {
    } else {
      var n: nat := |bars| - 1;
      if p.dayOf(bars[n].start) < day {
        i := n;
      } else {
        i := LastBeforeDay(p, bars[..n], day);
        assert forall j: nat :: IsLastBeforeDay(p, bars, day, j) ==> IsLastBeforeDay(p, bars[..n], day, j);
      }
    }
  }

  lemma CloseOnDayIs(p: Tempo, bars: seq<Bar>, day: int, allowPrior: bool)
    ensures ClosesAt(p, bars, day, allowPrior, CloseOnDay(p, bars, day, allowPrior))
  {
    hide LastCloseOn, LastCloseBefore;
    var on := LastOfDay(p, bars, day);
    var before := LastBeforeDay(p, bars, day);
  }

  function CloseOf(s: Symbol, closes: map<Symbol, real>): Option<real> {
    if s in closes then Some(closes[s]) else None
  }

  /** A flatten prices exactly the held symbols with a bar on the day, at the last such bar's close. */
  ghost predicate FlattenPriced(closes: map<Symbol, real>, p: Tempo, t: Table, day: int, held: set<Symbol>) {
    && closes.Keys <= t.Keys * held
    && forall s :: s in t && s in held ==> ClosesAt(p, t[s], day, false, CloseOf(s, closes))
  }

  /** Order j is the latest sell of `s` in the queue. */
  ghost predicate IsLatestSell(pending: seq<Order>, s: Symbol, j: nat) {
    && j < |pending| && pending[j].side.Sell? && pending[j].symbol == s
    && forall i :: j < i < |pending| ==> !(pending[i].side.Sell? && pending[i].symbol == s)
  }

  ghost predicate ReasonOf(reasons: map<Symbol, string>, pending: seq<Order>, s: Symbol) {
    && (s in reasons <==> exists j: nat :: IsLatestSell(pending, s, j))
    && (forall j: nat :: s in reasons && IsLatestSell(pending, s, j) ==> reasons[s] == pending[j].reasoning)
  }

  lemma {:induction false} ExitReasonIs(pending: seq<Order>, s: Symbol)
    ensures ReasonOf(ExitReasons(pending), pending, s)
  {
    if pending == [] {
    } else {
      var n: nat := |pending| - 1;
      ExitReasonIs(pending[..n], s);
      if pending[n].side.Sell? && pending[n].symbol == s {
        assert IsLatestSell(pending, s, n);
      } else {
        assert forall j: nat :: IsLatestSell(pending, s, j) <==> IsLatestSell(pending[..n], s, j);
      }
    }
  }

  /** One position's part of the day-end figure: quantity times close, or nothing without a close. */
  ghost predicate IsWorth(p: Tempo, t: Table, day: int, e: Entry<Symbol, Lot>, worth: real) {
    if e.key in t then
      exists close :: ClosesAt(p, t[e.key], day, true, close)
                      && worth == if close.Some? then e.value.qty * close.value else 0.0
    else worth == 0.0
  }

  function DayEndWorths(p: Tempo, t: Table, day: int, d: Dict<Symbol, Lot>): seq<real> {
    seq(|d|, i requires 0 <= i < |d| => Valued(p, t, day, d[i].key, d[i].value.qty))
  }

  lemma ValuedIsWorth(p: Tempo, t: Table, day: int, e: Entry<Symbol, Lot>)
    ensures IsWorth(p, t, day, e, Valued(p, t, day, e.key, e.value.qty))
  {
    hide CloseOnDay, ClosesAt;
    if e.key in t {
      CloseOnDayIs(p, t[e.key], day, true);
    }
  }

  lemma {:induction false} DayEndValueIsSum(p: Tempo, t: Table, day: int, d: Dict<Symbol, Lot>)
    ensures DayEndValue(p, t, day, d) == Sum(DayEndWorths(p, t, day, d))
  {
    hide CloseOnDay;
    if d == [] {
    } else {
      var n := |d| - 1;
      DayEndValueIsSum(p, t, day, d[..n]);
      assert DayEndWorths(p, t, day, d)[..n] == DayEndWorths(p, t, day, d[..n]);
    }
  }

  /** How a flatten went: its prices, quotes, reasons and course, and the places of the orders kept. */
  datatype SessionEnd = SessionEnd(closes: map<Symbol, real>, quotes: map<Symbol, Bar>, reasons: map<Symbol, string>,
                                   settling: Settling, kept: seq<nat>)

  /** The exits that stay queued are those of positions the flatten did not close. */
  predicate StaysQueued(o: Order, before: State, after: State) {
    !(o.side.Sell? && o.symbol in before.entries && o.symbol !in after.entries)
  }

  ghost predicate Flattened(su: Setup, p: Tempo, t: Table, day: int, r: Intraday, w: SessionEnd, after: Intraday) {
    && FlattenPriced(w.closes, p, t, day, r.st.entries.Keys)
    && QuotesOn(w.quotes, t, day)
    && (forall s :: ReasonOf(w.reasons, r.pending, s))
    && FlattenSettled(su.costs, su.gate, r.st, w.closes, day, w.quotes, w.reasons, FLATTEN_REASON, w.settling, after.st)
    && PlacesOf(r.pending, (o: Order) => StaysQueued(o, r.st, after.st), w.kept)
    && AreAt(after.pending, r.pending, w.kept)
  }

  /**
   The end of a day: a same-session run is flattened at the day's last closes, and the equity curve
   grows by cash plus every position at its last close on the day or before.
   */
  ghost predicate DayClosed(su: Setup, p: Tempo, t: Table, day: int, r: Intraday, w: SessionEnd, worths: seq<real>,
                            after: Intraday) {
    && (if p.sameSession then Flattened(su, p, t, day, r, w, after) else after.st == r.st && after.pending == r.pending)
    && |worths| == |after.st.positions|
    && (forall i :: 0 <= i < |worths| ==> IsWorth(p, t, day, after.st.positions[i], worths[i]))
    && after.curve == r.curve + [(day, after.st.cash + Sum(worths))]
    && after.shown == r.shown
  }

  lemma ClosesArePriced(p: Tempo, t: Table, day: int, held: set<Symbol>)
    ensures FlattenPriced(ClosesOnDay(p, t, day, held), p, t, day, held)
  {
    hide CloseOnDay, ClosesAt;
    var closes := ClosesOnDay(p, t, day, held);
    forall s | s in t && s in held ensures ClosesAt(p, t[s], day, false, CloseOf(s, closes)) {
      CloseOnDayIs(p, t[s], day, false);
    }
  }

  lemma SelectSame(orders: seq<Order>, p: Order -> bool, q: Order -> bool)
    requires forall o :: p(o) == q(o)
    ensures Select(orders, p) == Select(orders, q)
  {
    SelectTwice(orders, p, q, q);
    SelectTwice(orders, q, p, q);
  }

  lemma FlattenFlattens(su: Setup, p: Tempo, t: Table, day: int, r: Intraday) returns (w: SessionEnd)
    requires Aligned(r.st)
    ensures p.sameSession ==> Flattened(su, p, t, day, r, w, Flatten(su, p, t, day, r))
  {
    hide Liquidate, ClosesOnDay, ExitReasons, FlattenPriced, QuotesOn, Quotes, ReasonOf, FlattenSettled, PlacesOf, AreAt,
      Unique;
    var flat := Flatten(su, p, t, day, r);
    var closes := ClosesOnDay(p, t, day, r.st.entries.Keys);
    ClosesArePriced(p, t, day, r.st.entries.Keys);
    QuotesAreOn(t, day);
    forall s ensures ReasonOf(ExitReasons(r.pending), r.pending, s) {
      ExitReasonIs(r.pending, s);
    }
    var settling := FlattenSettles(su.costs, su.gate, r.st, closes, day, Quotes(t, day), ExitReasons(r.pending),
                                   FLATTEN_REASON);
    var keep := (o: Order) => StaysQueued(o, r.st, flat.st);
    var kept := SelectPlaces(r.pending, keep);
    var flattened := r.st.entries.Keys - flat.st.entries.Keys;
    var stays := (o: Order) => !Redundant(o, flattened);
    SelectSame(r.pending, keep, stays);
    assert p.sameSession ==> flat.pending == Select(r.pending, stays);
    w := SessionEnd(closes, Quotes(t, day), ExitReasons(r.pending), settling, kept);
  }

  lemma FlattenedIgnoresCurve(su: Setup, p: Tempo, t: Table, day: int, r: Intraday, w: SessionEnd)
    ensures Flattened(su, p, t, day, r, w, Flatten(su, p, t, day, r)) ==>
              Flattened(su, p, t, day, r, w, EndDay(su, p, t, day, r))
  {
    hide Flatten;
  }

  lemma EndDayCloses(su: Setup, p: Tempo, t: Table, day: int, r: Intraday) returns (w: SessionEnd, worths: seq<real>)
    requires Aligned(r.st)
    ensures DayClosed(su, p, t, day, r, w, worths, EndDay(su, p, t, day, r))
  {
    hide Flattened, DayEndValue, IsWorth, Aligned, Liquidate, ClosesOnDay, ExitReasons, Quotes, Valued;
    w := FlattenFlattens(su, p, t, day, r);
    var st := Flatten(su, p, t, day, r).st;
    worths := DayEndWorths(p, t, day, st.positions);
    DayEndValueIsSum(p, t, day, st.positions);
    forall i | 0 <= i < |st.positions| ensures IsWorth(p, t, day, st.positions[i], worths[i]) {
      ValuedIsWorth(p, t, day, st.positions[i]);
    }
    FlattenedIgnoresCurve(su, p, t, day, r, w);
  }

  /** The end of every day of every intraday run, from the state once all its events are done. */
  lemma DayCloses(su: Setup, p: Tempo, t: Table, days: seq<int>, k: nat, ts: int)
    returns (w: SessionEnd, worths: seq<real>)
    requires su.universe != [] && k < |days| && forall e :: e in Times(p, t, days[k]) ==> e <= ts
    ensures DayClosed(su, p, t, days[k], IntradayAt(su, p, t, days, k, ts), w, worths, IntradayDays(su, p, t, days, k + 1))
  {
    hide RunEvents, StartDay, EndDay, DayClosed, Times, Aligned;
    EventsKeepAligned(su, p, t, days, k, TimesUpTo(p, t, days[k], ts));
    assert TimesUpTo(p, t, days[k], ts) == Times(p, t, days[k]);
    w, worths := EndDayCloses(su, p, t, days[k], IntradayAt(su, p, t, days, k, ts));
  }

  /** Before its first event a day has only refreshed the held days. */
  lemma DayStarts(su: Setup, p: Tempo, t: Table, days: seq<int>, k: nat, ts: int)
    requires su.universe != [] && k < |days| && forall e :: e in Times(p, t, days[k]) ==> e > ts
    ensures var before, after := IntradayDays(su, p, t, days, k), IntradayAt(su, p, t, days, k, ts);
      Refreshed(before.st, days, days[k], after.st) && after == before.(st := after.st)
  {
    hide IntradayDays, Times, HeldDays;
    assert !NonEmpty(TimesUpTo(p, t, days[k], ts));
    RefreshRefreshes(IntradayDays(su, p, t, days, k).st, days, days[k]);
  }

  /** The report of every intraday run, read off its curve and its audit trail. */
  lemma RunReports(su: Setup, p: Tempo, t: Table, days: seq<int>)
    requires su.universe != [] && days != []
    ensures var r := IntradayDays(su, p, t, days, |days|);
      var replay := Replay(r.st, r.shown, r.pending, r.curve);
      var (st, o) := Finish(su, replay, days);
      && ReadsAudit(su.initial, replay, st, o) && o.roundTrips == o.sells
      && WrittenOff(r.st, r.pending, days[|days| - 1], st)
  {
    hide Inv, RoundTrips, NumFills, NumSkips, IntradayDays;
    var r := IntradayDays(su, p, t, days, |days|);
    RunKeepsSound(su, p, t, days, |days|);
    StrandedKeepsInv(su.costs, su.initial, r.st, r.pending, days[|days| - 1]);
    RoundTripsAreSells(su.costs, su.initial, Stranded(r.st, r.pending, days[|days| - 1]));
    FinishReadsAudit(su, Replay(r.st, r.shown, r.pending, r.curve), days);
  }

  // ------------------------------------------------------------------------- what is replayed

  /** `picked` are, in order, the bars starting in session, at the places `at`. */
  ghost predicate PicksSession(p: Tempo, bars: seq<Bar>, at: seq<nat>, picked: seq<Bar>) {
    && StrictlyAscending(at) && |at| == |picked|
    && (forall i :: 0 <= i < |at| ==> at[i] < |bars| && picked[i] == bars[at[i]])
    && (forall j: nat :: j < |bars| ==> (j in at <==> p.inSession(bars[j].start)))
  }

  lemma OneMoreBar(p: Tempo, bars: seq<Bar>, at: seq<nat>, picked: seq<Bar>)
    requires bars != [] && PicksSession(p, bars[..|bars| - 1], at, picked)
    ensures var n := |bars| - 1;
      if p.inSession(bars[n].start) then PicksSession(p, bars, at + [n], picked + [bars[n]])
      else PicksSession(p, bars, at, picked)
  {
    var n: nat := |bars| - 1;
    var front := bars[..n];
    assert forall j: nat :: j < n ==> bars[j] == front[j];
    if p.inSession(bars[n].start) {
      assert forall x :: x in SetOf(at) ==> x < n;
      AscendingGrows(at, n);
    }
  }

  lemma {:induction false} SessionPlaces(p: Tempo, bars: seq<Bar>) returns (at: seq<nat>)
    ensures PicksSession(p, bars, at, SessionBars(p, bars))
  {
    at := [];
    if bars == [] {
    } else {
      hide PicksSession;
      var n: nat := |bars| - 1;
      at := SessionPlaces(p, bars[..n]);
      OneMoreBar(p, bars, at, SessionBars(p, bars[..n]));
      at := if p.inSession(bars[n].start) then at + [n] else at;
    }
  }

  /** A same-session run replays exactly the bars starting in session; any other run replays all. */
  lemma FramesAreSession(p: Tempo, all: Table, s: Symbol)
    requires s in all
    ensures Frames(p, all).Keys == all.Keys
    ensures if p.sameSession then exists at :: PicksSession(p, all[s], at, Frames(p, all)[s]) else Frames(p, all)[s] == all[s]
  {
    hide SessionBars, PicksSession;
    var at := SessionPlaces(p, all[s]);
  }
}
