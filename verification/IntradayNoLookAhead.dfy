/**
 No look-ahead within the day: the replay after the events up to time `ts` depends only on
 bars completed by `ts` and on the starts and opens of bars already started by `ts`.
 */
module IntradayNoLookAhead {
  import opened OrderedDict
  import opened KernelSpec
  import opened KernelLaws
  import opened BarTables
  import opened SortedTimes
  import opened DailySpec
  import opened IntradaySpec

  /** All bar starts lie on one grid of bar-size steps, and session days follow time. */
  ghost predicate OnGrid(p: Tempo, t: Table) {
    && p.barSize > 0
    && AllAscending(t)
    && (forall x, y :: x <= y ==> p.dayOf(x) <= p.dayOf(y))
    && (forall r, s, i, j :: r in t && s in t && 0 <= i < |t[r]| && 0 <= j < |t[s]| && t[r][i].start < t[s][j].start
          ==> t[r][i].start + p.barSize <= t[s][j].start)
  }

  /** Same completed bars by `ts`, and same starts and opens of bars started by `ts`. */
  ghost predicate AgreeBars(b1: seq<Bar>, b2: seq<Bar>, size: int, ts: int) {
    && NumStarted(b1, ts) == NumStarted(b2, ts)
    && (forall i :: 0 <= i < NumStarted(b1, ts) ==> b1[i].start == b2[i].start && b1[i].open == b2[i].open)
    && NumDone(b1, size, ts) == NumDone(b2, size, ts)
    && b1[..NumDone(b1, size, ts)] == b2[..NumDone(b1, size, ts)]
  }

  ghost predicate AgreeAt(p: Tempo, t1: Table, t2: Table, ts: int) {
    && t1.Keys == t2.Keys
    && forall s :: s in t1 ==> AgreeBars(t1[s], t2[s], p.barSize, ts)
  }

  lemma CountsAgree(b1: seq<Bar>, b2: seq<Bar>, size: int, ts: int, x: int)
    requires Ascending(b1) && Ascending(b2) && AgreeBars(b1, b2, size, ts) && x <= ts
    ensures NumStarted(b1, x) == NumStarted(b2, x)
  {
    StartedIsPrefix(b1, x);
    StartedIsPrefix(b2, x);
    StartedMonotone(b1, x, ts);
    StartedMonotone(b2, x, ts);
    var n1, n2 := NumStarted(b1, x), NumStarted(b2, x);
    var n := NumStarted(b1, ts);
    assert n1 == n || b1[n1].start > x;
    assert n2 == n || b2[n2].start > x;
  }

  /** An event time of a day is on the grid: nothing is open across it. */
  lemma NothingOpenAcrossEvent(p: Tempo, t: Table, day: int, ts: int)
    requires OnGrid(p, t) && ts in Times(p, t, day)
    ensures forall s, i :: s in t && 0 <= i < |t[s]| && t[s][i].start < ts ==> t[s][i].start + p.barSize <= ts
  {
    forall s, i | s in t && 0 <= i < |t[s]| && t[s][i].start < ts ensures t[s][i].start + p.barSize <= ts {
      if ts in StartsOn(p, t, day) {
        var r, j :| r in t && 0 <= j < |t[r]| && t[r][j].start == ts;
      } else {
        var x :| x in StartsOn(p, t, day) && x + p.barSize == ts;
        var r, j :| r in t && 0 <= j < |t[r]| && t[r][j].start == x;
        assert !(t[r][j].start < t[s][i].start);
      }
    }
  }

  /** On an event time, the bars counted for sizing are exactly the completed ones. */
  lemma SizingSeesOnlyCompleted(p: Tempo, t: Table, day: int, ts: int, s: Symbol)
    requires OnGrid(p, t) && ts in Times(p, t, day) && s in t
    ensures NumStarted(t[s], ts - 1) == NumDone(t[s], p.barSize, ts)
  {
    NothingOpenAcrossEvent(p, t, day, ts);
    SizingCloseIsLastVisible(t[s], p.barSize, ts);
  }

  /** The bars counted for sizing at `ts` are exactly the completed ones, for every symbol. */
  ghost predicate Settled(t: Table, size: int, ts: int) {
    forall s :: s in t ==> NumStarted(t[s], ts - 1) == NumDone(t[s], size, ts)
  }

  lemma EventsAreSettled(p: Tempo, t: Table, day: int, ts: int)
    requires OnGrid(p, t) && ts in Times(p, t, day)
    ensures Settled(t, p.barSize, ts)
  {
    forall s | s in t ensures NumStarted(t[s], ts - 1) == NumDone(t[s], p.barSize, ts) {
      SizingSeesOnlyCompleted(p, t, day, ts, s);
    }
  }

  ghost predicate CursorsWithin(p: Tempo, t: Table, cursors: map<Symbol, nat>, ts: int) {
    forall s :: s in cursors && s in t ==> cursors[s] <= NumDone(t[s], p.barSize, ts)
  }

  lemma DoneAgrees(b1: seq<Bar>, b2: seq<Bar>, size: int, ts: int, limit: int)
    requires size > 0 && Ascending(b1) && Ascending(b2) && AgreeBars(b1, b2, size, limit) && ts <= limit
    ensures NumDone(b1, size, ts) == NumDone(b2, size, ts) <= NumDone(b1, size, limit)
  {
    CountsAgree(b1, b2, size, limit, ts - size);
    StartedMonotone(b1, ts - size, limit - size);
  }

  lemma PrefixAgrees(b1: seq<Bar>, b2: seq<Bar>, size: int, limit: int, c: nat)
    requires AgreeBars(b1, b2, size, limit) && c <= NumDone(b1, size, limit)
    ensures c <= |b1| && c <= |b2| && b1[..c] == b2[..c]
    ensures c > 0 ==> b1[c - 1] == b2[c - 1]
  {
    var n := NumDone(b1, size, limit);
    assert b1[..c] == b1[..n][..c];
    assert b2[..c] == b2[..n][..c];
    if c > 0 {
      assert b1[c - 1] == b1[..n][c - 1];
    }
  }

  /** Same cursors at an event up to `limit`, and still within the completed bars. */
  lemma CursorsAgree(p: Tempo, t1: Table, t2: Table, cursors: map<Symbol, nat>, ts: int, limit: int)
    requires p.barSize > 0 && AllAscending(t1) && AllAscending(t2) && AgreeAt(p, t1, t2, limit) && ts <= limit
    requires CursorsWithin(p, t1, cursors, limit)
    ensures Advance(p, t1, cursors, ts) == Advance(p, t2, cursors, ts)
    ensures CursorsWithin(p, t1, Advance(p, t1, cursors, ts), limit)
  {
    forall s | s in t1
      ensures NumDone(t1[s], p.barSize, ts) == NumDone(t2[s], p.barSize, ts) <= NumDone(t1[s], p.barSize, limit)
    {
      DoneAgrees(t1[s], t2[s], p.barSize, ts, limit);
    }
  }

  lemma VisibleAgrees(p: Tempo, t1: Table, t2: Table, universe: seq<Symbol>, cursors: map<Symbol, nat>, limit: int)
    requires AgreeAt(p, t1, t2, limit) && CursorsWithin(p, t1, cursors, limit)
    ensures VisibleBars(universe, t1, cursors) == VisibleBars(universe, t2, cursors)
  {
    var v1, v2 := VisibleBars(universe, t1, cursors), VisibleBars(universe, t2, cursors);
    forall s | s in t1 && s in cursors ensures s in v1 <==> s in v2 {
      PrefixAgrees(t1[s], t2[s], p.barSize, limit, cursors[s]);
    }
    forall s | s in v1 ensures v1[s] == v2[s] {
      PrefixAgrees(t1[s], t2[s], p.barSize, limit, cursors[s]);
    }
  }

  lemma CloseAgrees(b1: seq<Bar>, b2: seq<Bar>, size: int, ts: int, limit: int)
    requires size > 0 && Ascending(b1) && Ascending(b2) && AgreeBars(b1, b2, size, limit) && ts <= limit
    requires NumStarted(b1, ts - 1) == NumDone(b1, size, ts) && NumStarted(b2, ts - 1) == NumDone(b2, size, ts)
    ensures CloseBefore(b1, ts) == CloseBefore(b2, ts)
  {
    DoneAgrees(b1, b2, size, ts, limit);
    PrefixAgrees(b1, b2, size, limit, NumDone(b1, size, ts));
  }

  lemma ClosesAgree(p: Tempo, t1: Table, t2: Table, ts: int, limit: int)
    requires p.barSize > 0 && AllAscending(t1) && AllAscending(t2) && AgreeAt(p, t1, t2, limit) && ts <= limit
    requires Settled(t1, p.barSize, ts) && Settled(t2, p.barSize, ts)
    ensures ClosesBefore(t1, ts) == ClosesBefore(t2, ts)
  {
    hide CloseBefore, AgreeBars, Ascending, NumDone;
    forall s | s in t1 ensures CloseBefore(t1[s], ts) == CloseBefore(t2[s], ts) {
      CloseAgrees(t1[s], t2[s], p.barSize, ts, limit);
    }
  }

  lemma OpenAgrees(b1: seq<Bar>, b2: seq<Bar>, size: int, ts: int, limit: int)
    requires Ascending(b1) && Ascending(b2) && AgreeBars(b1, b2, size, limit) && ts <= limit
    ensures OpenAt(b1, ts) == OpenAt(b2, ts)
  {
    CountsAgree(b1, b2, size, limit, ts);
    StartedMonotone(b1, ts, limit);
  }

  lemma OpensAgree(p: Tempo, t1: Table, t2: Table, ts: int, limit: int)
    requires AllAscending(t1) && AllAscending(t2) && AgreeAt(p, t1, t2, limit) && ts <= limit
    ensures OpensAt(t1, ts) == OpensAt(t2, ts)
  {
    hide OpenAt, AgreeBars, Ascending;
    forall s | s in t1 ensures OpenAt(t1[s], ts) == OpenAt(t2[s], ts) {
      OpenAgrees(t1[s], t2[s], p.barSize, ts, limit);
    }
  }

  /** Bars of a day that have started by `limit` are the same in both tables. */
  lemma StartsAgree(p: Tempo, t1: Table, t2: Table, day: int, limit: int, x: int)
    requires AllAscending(t1) && AllAscending(t2) && AgreeAt(p, t1, t2, limit) && x <= limit
    ensures x in StartsOn(p, t1, day) <==> x in StartsOn(p, t2, day)
  {
    if x in StartsOn(p, t1, day) {
      var s, i :| s in t1 && 0 <= i < |t1[s]| && p.dayOf(t1[s][i].start) == day && t1[s][i].start == x;
      StartedIsPrefix(t1[s], limit);
      assert t2[s][i].start == x;
    }
    if x in StartsOn(p, t2, day) {
      var s, i :| s in t2 && 0 <= i < |t2[s]| && p.dayOf(t2[s][i].start) == day && t2[s][i].start == x;
      StartedIsPrefix(t2[s], limit);
      assert t1[s][i].start == x;
    }
  }

  lemma TimesAgree(p: Tempo, t1: Table, t2: Table, day: int, limit: int)
    requires p.barSize > 0 && AllAscending(t1) && AllAscending(t2) && AgreeAt(p, t1, t2, limit)
    ensures TimesUpTo(p, t1, day, limit) == TimesUpTo(p, t2, day, limit)
  {
    hide StartsOn, AgreeAt, AllAscending;
    forall e | e <= limit ensures e in Times(p, t1, day) <==> e in Times(p, t2, day) {
      StartsAgree(p, t1, t2, day, limit, e);
      StartsAgree(p, t1, t2, day, limit, e - p.barSize);
    }
  }

  /**
   The gate cannot tell the tables apart through the provider's latest bars: it ignores them, or
   they are the same on every day up to `lastDay`.
   */
  ghost predicate QuotesAgree(gate: Gate, t1: Table, t2: Table, lastDay: int) {
    BlindToQuotes(gate) || forall d :: d <= lastDay ==> Quotes(t1, d) == Quotes(t2, d)
  }

  lemma DrainAgrees(su: Setup, t1: Table, t2: Table, st: State, pending: seq<Order>, opens: map<Symbol, real>, day: int,
                    lastDay: int)
    requires QuotesAgree(su.gate, t1, t2, lastDay) && day <= lastDay
    ensures Drain(su.costs, su.gate, st, pending, opens, day, Quotes(t1, day), RetainMissing)
         == Drain(su.costs, su.gate, st, pending, opens, day, Quotes(t2, day), RetainMissing)
  {
    hide Drain, Quotes;
    if BlindToQuotes(su.gate) {
      DrainBlind(su.costs, su.gate, st, pending, opens, day, Quotes(t1, day), Quotes(t2, day), RetainMissing);
    }
  }

  lemma LiquidateAgrees(su: Setup, t1: Table, t2: Table, st: State, closes: map<Symbol, real>, day: int,
                        reasons: map<Symbol, string>, lastDay: int)
    requires QuotesAgree(su.gate, t1, t2, lastDay) && day <= lastDay
    ensures Liquidate(su.costs, su.gate, st, closes, day, Quotes(t1, day), reasons, FLATTEN_REASON)
         == Liquidate(su.costs, su.gate, st, closes, day, Quotes(t2, day), reasons, FLATTEN_REASON)
  {
    hide Liquidate, Quotes;
    if BlindToQuotes(su.gate) {
      LiquidateBlind(su.costs, su.gate, st, closes, day, Quotes(t1, day), Quotes(t2, day), reasons, FLATTEN_REASON);
    }
  }

  lemma FillAgrees(su: Setup, p: Tempo, t1: Table, t2: Table, day: int, r: Intraday, ts: int, limit: int, lastDay: int)
    requires AllAscending(t1) && AllAscending(t2) && AgreeAt(p, t1, t2, limit) && ts <= limit
    requires QuotesAgree(su.gate, t1, t2, lastDay) && UtcDate(limit) <= lastDay
    ensures FillAt(su, p, t1, day, r, ts) == FillAt(su, p, t2, day, r, ts)
  {
    StartsAgree(p, t1, t2, day, limit, ts);
    OpensAgree(p, t1, t2, ts, limit);
    DrainAgrees(su, t1, t2, r.st, r.pending, OpensAt(t1, ts), UtcDate(ts), lastDay);
  }

  lemma DecideAgrees(su: Setup, p: Tempo, t1: Table, t2: Table, day: int, r: Intraday, ts: int, limit: int)
    requires su.universe != [] && OnGrid(p, t1) && OnGrid(p, t2) && AgreeAt(p, t1, t2, limit) && ts <= limit
    requires ts in Times(p, t1, day) && ts in Times(p, t2, day) && CursorsWithin(p, t1, r.cursors, limit)
    ensures Decide(su, p, t1, r, ts) == Decide(su, p, t2, r, ts)
    ensures CursorsWithin(p, t1, Decide(su, p, t1, r, ts).cursors, limit)
  {
    CursorsAgree(p, t1, t2, r.cursors, ts, limit);
    VisibleAgrees(p, t1, t2, su.universe, Advance(p, t1, r.cursors, ts), limit);
    EventsAreSettled(p, t1, day, ts);
    EventsAreSettled(p, t2, day, ts);
    ClosesAgree(p, t1, t2, ts, limit);
  }

  lemma EventAgrees(su: Setup, p: Tempo, t1: Table, t2: Table, day: int, r: Intraday, ts: int, limit: int, lastDay: int)
    requires su.universe != [] && OnGrid(p, t1) && OnGrid(p, t2) && AgreeAt(p, t1, t2, limit) && ts <= limit
    requires QuotesAgree(su.gate, t1, t2, lastDay) && UtcDate(limit) <= lastDay && CursorsWithin(p, t1, r.cursors, limit)
    requires ts in Times(p, t1, day) && ts in Times(p, t2, day)
    ensures EventStep(su, p, t1, day, r, ts) == EventStep(su, p, t2, day, r, ts)
    ensures CursorsWithin(p, t1, EventStep(su, p, t1, day, r, ts).cursors, limit)
  {
    DecideAgrees(su, p, t1, t2, day, r, ts, limit);
    FillAgrees(su, p, t1, t2, day, Decide(su, p, t1, r, ts), ts, limit, lastDay);
  }

  lemma {:induction false} EventsAgree(su: Setup, p: Tempo, t1: Table, t2: Table, day: int, r: Intraday,
                                       times: set<int>, limit: int, lastDay: int)
    requires su.universe != [] && OnGrid(p, t1) && OnGrid(p, t2) && AgreeAt(p, t1, t2, limit)
    requires QuotesAgree(su.gate, t1, t2, lastDay) && UtcDate(limit) <= lastDay && CursorsWithin(p, t1, r.cursors, limit)
    requires forall e :: e in times ==> e <= limit && e in Times(p, t1, day) && e in Times(p, t2, day)
    ensures RunEvents(su, p, t1, day, r, times) == RunEvents(su, p, t2, day, r, times)
    ensures CursorsWithin(p, t1, RunEvents(su, p, t1, day, r, times).cursors, limit)
    decreases |times|
  {
    hide EventStep, OnGrid, AgreeAt, QuotesAgree, CursorsWithin, Times;
    if !NonEmpty(times) {
    } else {
      var last := Max(times);
      EventsAgree(su, p, t1, t2, day, r, times - {last}, limit, lastDay);
      EventAgrees(su, p, t1, t2, day, RunEvents(su, p, t1, day, r, times - {last}), last, limit, lastDay);
    }
  }

  // ------------------------------------------------------------------------ across day ends

  /** Every bar of a session before `day` has completed by `limit`. */
  ghost predicate DoneBefore(p: Tempo, t: Table, day: int, limit: int) {
    forall s, i :: s in t && 0 <= i < |t[s]| && p.dayOf(t[s][i].start) < day ==> t[s][i].start + p.barSize <= limit
  }

  /** Once a day has had an event, every earlier session's bars have completed. */
  lemma EarlierDaysDone(p: Tempo, t: Table, day: int, ts: int, limit: int)
    requires OnGrid(p, t) && ts in Times(p, t, day) && ts <= limit
    ensures DoneBefore(p, t, day, limit)
  {
    var x :| x in StartsOn(p, t, day) && (x == ts || x + p.barSize == ts);
    var r, j :| r in t && 0 <= j < |t[r]| && p.dayOf(t[r][j].start) == day && t[r][j].start == x;
    forall s, i | s in t && 0 <= i < |t[s]| && p.dayOf(t[s][i].start) < day
      ensures t[s][i].start + p.barSize <= limit
    {
      assert !(x <= t[s][i].start);
      assert t[s][i].start < t[r][j].start;
    }
  }

  lemma {:induction false} CloseOnDayOfPrefix(p: Tempo, bars: seq<Bar>, n: nat, day: int)
    requires n <= |bars| && forall i :: n <= i < |bars| ==> p.dayOf(bars[i].start) > day
    ensures LastCloseOn(p, bars, day) == LastCloseOn(p, bars[..n], day)
    ensures LastCloseBefore(p, bars, day) == LastCloseBefore(p, bars[..n], day)
  {
    if n == |bars| {
      assert bars[..n] == bars;
    } else {
      CloseOnDayOfPrefix(p, bars[..|bars| - 1], n, day);
      assert bars[..|bars| - 1][..n] == bars[..n];
    }
  }

  lemma UndoneIsLater(p: Tempo, t: Table, s: Symbol, day: int, limit: int)
    requires AllAscending(t) && DoneBefore(p, t, day, limit) && s in t
    ensures forall i :: NumDone(t[s], p.barSize, limit) <= i < |t[s]| ==> p.dayOf(t[s][i].start) >= day
  {
    StartedIsPrefix(t[s], limit - p.barSize);
  }

  lemma CloseOnDayAgrees(p: Tempo, t1: Table, t2: Table, s: Symbol, d: int, day: int, limit: int, allowPrior: bool)
    requires AllAscending(t1) && AllAscending(t2) && AgreeAt(p, t1, t2, limit) && s in t1 && d < day
    requires DoneBefore(p, t1, day, limit) && DoneBefore(p, t2, day, limit)
    ensures CloseOnDay(p, t1[s], d, allowPrior) == CloseOnDay(p, t2[s], d, allowPrior)
  {
    var n := NumDone(t1[s], p.barSize, limit);
    UndoneIsLater(p, t1, s, day, limit);
    UndoneIsLater(p, t2, s, day, limit);
    CloseOnDayOfPrefix(p, t1[s], n, d);
    CloseOnDayOfPrefix(p, t2[s], n, d);
  }

  lemma {:induction false} DayEndValueAgrees(p: Tempo, t1: Table, t2: Table, d: int, day: int, limit: int,
                                             positions: Dict<Symbol, Lot>)
    requires AllAscending(t1) && AllAscending(t2) && AgreeAt(p, t1, t2, limit) && d < day
    requires DoneBefore(p, t1, day, limit) && DoneBefore(p, t2, day, limit)
    ensures DayEndValue(p, t1, d, positions) == DayEndValue(p, t2, d, positions)
  {
    hide CloseOnDay, DoneBefore, AllAscending;
    if positions == [] {
    } else {
      var last := positions[|positions| - 1];
      DayEndValueAgrees(p, t1, t2, d, day, limit, positions[..|positions| - 1]);
      if last.key in t1 {
        CloseOnDayAgrees(p, t1, t2, last.key, d, day, limit, true);
      }
    }
  }

  lemma FlattenAgrees(su: Setup, p: Tempo, t1: Table, t2: Table, d: int, day: int, r: Intraday, limit: int, lastDay: int)
    requires AllAscending(t1) && AllAscending(t2) && AgreeAt(p, t1, t2, limit) && d < day
    requires DoneBefore(p, t1, day, limit) && DoneBefore(p, t2, day, limit)
    requires QuotesAgree(su.gate, t1, t2, lastDay) && day <= lastDay
    ensures Flatten(su, p, t1, d, r) == Flatten(su, p, t2, d, r)
  {
    var symbols := Keys(r.st.positions);
    forall s | s in t1 ensures CloseOnDay(p, t1[s], d, false) == CloseOnDay(p, t2[s], d, false) {
      CloseOnDayAgrees(p, t1, t2, s, d, day, limit, false);
    }
    assert ClosesOnDay(p, t1, d, symbols) == ClosesOnDay(p, t2, d, symbols);
    LiquidateAgrees(su, t1, t2, r.st, ClosesOnDay(p, t1, d, symbols), d, ExitReasons(r.pending), lastDay);
  }

  lemma EndDayAgrees(su: Setup, p: Tempo, t1: Table, t2: Table, d: int, day: int, r: Intraday, limit: int, lastDay: int)
    requires AllAscending(t1) && AllAscending(t2) && AgreeAt(p, t1, t2, limit) && d < day
    requires DoneBefore(p, t1, day, limit) && DoneBefore(p, t2, day, limit)
    requires QuotesAgree(su.gate, t1, t2, lastDay) && day <= lastDay
    ensures EndDay(su, p, t1, d, r) == EndDay(su, p, t2, d, r)
  {
    FlattenAgrees(su, p, t1, t2, d, day, r, limit, lastDay);
    DayEndValueAgrees(p, t1, t2, d, day, limit, Flatten(su, p, t1, d, r).st.positions);
  }

  lemma DoneDayTimes(p: Tempo, t: Table, d: int, day: int, limit: int)
    requires p.barSize > 0 && d < day && DoneBefore(p, t, day, limit)
    ensures Times(p, t, d) == TimesUpTo(p, t, d, limit)
  {
  }

  lemma {:induction false} DaysAgree(su: Setup, p: Tempo, t1: Table, t2: Table, days1: seq<int>, days2: seq<int>,
                                     k: nat, day: int, limit: int, lastDay: int)
    requires su.universe != [] && OnGrid(p, t1) && OnGrid(p, t2) && AgreeAt(p, t1, t2, limit)
    requires QuotesAgree(su.gate, t1, t2, lastDay) && UtcDate(limit) <= lastDay && day <= lastDay
    requires DoneBefore(p, t1, day, limit) && DoneBefore(p, t2, day, limit)
    requires k <= |days1| && k <= |days2| && days1[..k] == days2[..k]
    requires StrictlyAscending(days1) && StrictlyAscending(days2) && forall i :: 0 <= i < k ==> days1[i] < day
    ensures IntradayDays(su, p, t1, days1, k) == IntradayDays(su, p, t2, days2, k)
    ensures CursorsWithin(p, t1, IntradayDays(su, p, t1, days1, k).cursors, limit)
  {
    if k == 0 {
    } else {
      assert days1[..k - 1] == days1[..k][..k - 1] == days2[..k][..k - 1] == days2[..k - 1];
      DaysAgree(su, p, t1, t2, days1, days2, k - 1, day, limit, lastDay);
      assert days1[k - 1] == days1[..k][k - 1] == days2[..k][k - 1] == days2[k - 1];
      var r, d := IntradayDays(su, p, t1, days1, k - 1), days1[k - 1];
      HeldIgnoresLaterDays(r.st, days1, days2, k);
      var start := StartDay(r, days1, d);
      DoneDayTimes(p, t1, d, day, limit);
      DoneDayTimes(p, t2, d, day, limit);
      TimesAgree(p, t1, t2, d, limit);
      EventsAgree(su, p, t1, t2, d, start, Times(p, t1, d), limit, lastDay);
      EndDayAgrees(su, p, t1, t2, d, day, RunEvents(su, p, t1, d, start, Times(p, t1, d)), limit, lastDay);
    }
  }

  lemma SamePrefix(days1: seq<int>, days2: seq<int>, k: nat)
    requires k < |days1| && k < |days2| && days1[..k + 1] == days2[..k + 1]
    ensures days1[..k] == days2[..k] && days1[k] == days2[k]
  {
    assert days1[..k] == days1[..k + 1][..k];
    assert days2[..k] == days2[..k + 1][..k];
    assert days1[k] == days1[..k + 1][k];
  }

  lemma DayAgrees(su: Setup, p: Tempo, t1: Table, t2: Table, day: int, r: Intraday, ts: int, lastDay: int)
    requires su.universe != [] && OnGrid(p, t1) && OnGrid(p, t2) && AgreeAt(p, t1, t2, ts)
    requires QuotesAgree(su.gate, t1, t2, lastDay) && UtcDate(ts) <= lastDay
    requires CursorsWithin(p, t1, r.cursors, ts)
    ensures RunEvents(su, p, t1, day, r, TimesUpTo(p, t1, day, ts))
         == RunEvents(su, p, t2, day, r, TimesUpTo(p, t2, day, ts))
  {
    TimesAgree(p, t1, t2, day, ts);
    EventsAgree(su, p, t1, t2, day, r, TimesUpTo(p, t1, day, ts), ts, lastDay);
  }

  lemma EventInBoth(p: Tempo, t1: Table, t2: Table, day: int, ts: int)
    requires p.barSize > 0 && AllAscending(t1) && AllAscending(t2) && AgreeAt(p, t1, t2, ts) && ts in Times(p, t1, day)
    ensures ts in Times(p, t2, day)
  {
    TimesAgree(p, t1, t2, day, ts);
    assert ts in TimesUpTo(p, t1, day, ts);
  }

  predicate StartedAlike(a: Bar, b: Bar, size: int, ts: int) {
    a.start == b.start && a.open == b.open && (a.start + size <= ts ==> a == b)
  }

  /** Bars started by `ts` have the same starts and opens; those completed by `ts` are the same. */
  ghost predicate SameSoFar(b1: seq<Bar>, b2: seq<Bar>, size: int, ts: int) {
    && (forall i :: 0 <= i < |b1| && b1[i].start <= ts ==> i < |b2| && StartedAlike(b1[i], b2[i], size, ts))
    && (forall i :: 0 <= i < |b2| && b2[i].start <= ts ==> i < |b1| && StartedAlike(b1[i], b2[i], size, ts))
  }

  lemma SameSoFarMeansAgree(b1: seq<Bar>, b2: seq<Bar>, size: int, ts: int)
    requires Ascending(b1) && Ascending(b2) && size > 0 && SameSoFar(b1, b2, size, ts)
    ensures AgreeBars(b1, b2, size, ts)
  {
    StartedIsPrefix(b1, ts);
    StartedIsPrefix(b2, ts);
    StartedIsPrefix(b1, ts - size);
    StartedIsPrefix(b2, ts - size);
    StartedMonotone(b1, ts - size, ts);
    StartedMonotone(b2, ts - size, ts);
    var n1, n2 := NumStarted(b1, ts), NumStarted(b2, ts);
    assert n1 == 0 || b1[n1 - 1].start <= ts;
    assert n2 == 0 || b2[n2 - 1].start <= ts;
    assert n1 == n2;
    var d1, d2 := NumDone(b1, size, ts), NumDone(b2, size, ts);
    assert d1 == 0 || b1[d1 - 1].start + size <= ts;
    assert d2 == 0 || b2[d2 - 1].start + size <= ts;
    assert d1 == d2;
    assert forall i :: 0 <= i < d1 ==> b1[i] == b2[i];
  }

  ghost predicate SameTables(p: Tempo, t1: Table, t2: Table, ts: int) {
    && t1.Keys == t2.Keys
    && forall s :: s in t1 ==> SameSoFar(t1[s], t2[s], p.barSize, ts)
  }

  /**
   No look-ahead within the day.  For any strategy, any costs and any gate that sees the same
   latest bars from the data provider (or ignores them): two runs with the same first k+1 trading
   days, whose tables agree on every bar completed by the event time `ts` and on the start and
   open of every bar started by `ts`, are in the same state after the events up to `ts` on the
   (k+1)-th day.
   */
  lemma NoLookAheadWithinDay(su: Setup, p: Tempo, t1: Table, t2: Table, days1: seq<int>, days2: seq<int>, k: nat,
                             ts: int, lastDay: int)
    requires su.universe != [] && OnGrid(p, t1) && OnGrid(p, t2) && SameTables(p, t1, t2, ts)
    requires QuotesAgree(su.gate, t1, t2, lastDay)
    requires k < |days1| && k < |days2| && days1[..k + 1] == days2[..k + 1]
    requires StrictlyAscending(days1) && StrictlyAscending(days2) && ts in Times(p, t1, days1[k])
    requires UtcDate(ts) <= lastDay && days1[k] <= lastDay
    ensures IntradayAt(su, p, t1, days1, k, ts) == IntradayAt(su, p, t2, days2, k, ts)
  {
    forall s | s in t1 ensures AgreeBars(t1[s], t2[s], p.barSize, ts) {
      SameSoFarMeansAgree(t1[s], t2[s], p.barSize, ts);
    }
    SamePrefix(days1, days2, k);
    var day := days1[k];
    EventInBoth(p, t1, t2, day, ts);
    EarlierDaysDone(p, t1, day, ts, ts);
    EarlierDaysDone(p, t2, day, ts, ts);
    DaysAgree(su, p, t1, t2, days1, days2, k, day, ts, lastDay);
    var r := IntradayDays(su, p, t1, days1, k);
    HeldIgnoresLaterDays(r.st, days1, days2, k + 1);
    DayAgrees(su, p, t1, t2, day, StartDay(r, days1, day), ts, lastDay);
  }
}
