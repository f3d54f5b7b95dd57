/**
 Book-keeping of the intraday run: the audit trail reconstructs cash and the open book after
 every day, and the session-end flatten moves day-end equity by its own costs only.
 */
module IntradayBook {
  import opened OrderedDict
  import opened KernelSpec
  import opened KernelLaws
  import opened BarTables
  import opened SortedTimes
  import opened DailySpec
  import opened IntradaySpec

  /** The kernel invariant, and the cash floor wherever costs allow one. */
  ghost predicate Sound(su: Setup, st: State) {
    && Inv(su.costs, su.initial, st)
    && (su.costs.slippage <= 1.0 && 0.0 <= su.initial ==> CashFloor(su.costs, st))
  }

  lemma ApplyKeepsSound(su: Setup, st: State, op: Op)
    requires Sound(su, st)
    ensures Sound(su, Apply(su.costs, su.gate, st, op))
  {
    ApplyKeepsInv(su.costs, su.gate, su.initial, st, op);
    if su.costs.slippage <= 1.0 && 0.0 <= su.initial {
      ApplyKeepsFloor(su.costs, su.gate, su.initial, st, op);
    }
  }

  lemma RecordKeepsSound(su: Setup, st: State, r: Record)
    requires Sound(su, st) && !r.Filled?
    ensures Sound(su, st.(log := st.log + [r]))
  {
    RecordKeepsInv(su.costs, su.initial, st, r);
    Appended(st.log, r);
  }

  lemma DecideKeepsSound(su: Setup, p: Tempo, t: Table, r: Intraday, ts: int)
    requires su.universe != [] && Sound(su, r.st)
    ensures Sound(su, Decide(su, p, t, r, ts).st)
  {
    var st := Decide(su, p, t, r, ts).st;
    if st != r.st {
      RecordKeepsSound(su, r.st, st.log[|r.st.log|]);
    }
  }

  lemma FillKeepsSound(su: Setup, p: Tempo, t: Table, day: int, r: Intraday, ts: int)
    requires Sound(su, r.st)
    ensures Sound(su, FillAt(su, p, t, day, r, ts).st)
  {
    ApplyKeepsSound(su, r.st, DrainOp(r.pending, OpensAt(t, ts), UtcDate(ts), Quotes(t, UtcDate(ts)), RetainMissing));
  }

  lemma {:induction false} EventsKeepSound(su: Setup, p: Tempo, t: Table, day: int, r: Intraday, times: set<int>)
    requires su.universe != [] && Sound(su, r.st)
    ensures Sound(su, RunEvents(su, p, t, day, r, times).st)
    decreases |times|
  {
    if !NonEmpty(times) {
    } else {
      var last := Max(times);
      EventsKeepSound(su, p, t, day, r, times - {last});
      var before := RunEvents(su, p, t, day, r, times - {last});
      DecideKeepsSound(su, p, t, before, last);
      FillKeepsSound(su, p, t, day, Decide(su, p, t, before, last), last);
    }
  }

  lemma FlattenKeepsSound(su: Setup, p: Tempo, t: Table, day: int, r: Intraday)
    requires Sound(su, r.st)
    ensures Sound(su, Flatten(su, p, t, day, r).st)
  {
    ApplyKeepsSound(su, r.st, LiquidateOp(ClosesOnDay(p, t, day, Keys(r.st.positions)), day, Quotes(t, day),
                                          ExitReasons(r.pending), FLATTEN_REASON));
  }

  lemma DayKeepsSound(su: Setup, p: Tempo, t: Table, days: seq<int>, day: int, r: Intraday)
    requires su.universe != [] && Sound(su, r.st)
    ensures Sound(su, IntradayDay(su, p, t, days, day, r).st)
  {
    ApplyKeepsSound(su, r.st, RefreshOp(days, day));
    EventsKeepSound(su, p, t, day, StartDay(r, days, day), Times(p, t, day));
    FlattenKeepsSound(su, p, t, day, RunEvents(su, p, t, day, StartDay(r, days, day), Times(p, t, day)));
  }

  lemma StartIsSound(su: Setup, t: Table)
    ensures Sound(su, Begin(su, t).st)
  {
  }

  /** After every day of every intraday run. */
  lemma {:induction false} RunKeepsSound(su: Setup, p: Tempo, t: Table, days: seq<int>, k: nat)
    requires su.universe != [] && k <= |days|
    ensures Sound(su, IntradayDays(su, p, t, days, k).st)
  {
    hide Sound, IntradayDay;
    if k == 0 {
      StartIsSound(su, t);
    } else {
      RunKeepsSound(su, p, t, days, k - 1);
      DayKeepsSound(su, p, t, days, days[k - 1], IntradayDays(su, p, t, days, k - 1));
    }
  }

  // ------------------------------------------------------------- held days

  lemma {:induction false} FlattenAllKeepsHeld(c: Costs, gate: Gate, snap: Snapshot, reasons: map<Symbol, string>,
                                               st: State, symbols: seq<Symbol>, days: seq<int>, day: int)
    requires HeldOk(st, days, day)
    ensures HeldOk(FlattenAll(c, gate, snap, reasons, FLATTEN_REASON, st, symbols), days, day)
  {
    hide HeldDays;
    if symbols == [] {
    } else {
      FlattenAllKeepsHeld(c, gate, snap, reasons, st, symbols[..|symbols| - 1], days, day);
    }
  }

  lemma DecideKeepsHeld(su: Setup, p: Tempo, t: Table, r: Intraday, ts: int, days: seq<int>, day: int)
    requires su.universe != [] && HeldOk(r.st, days, day)
    ensures HeldOk(Decide(su, p, t, r, ts).st, days, day)
  {
    hide HeldDays;
  }

  lemma FillKeepsHeld(su: Setup, p: Tempo, t: Table, day: int, r: Intraday, ts: int, days: seq<int>)
    requires DatesAgree(p, t) && HeldOk(r.st, days, day) && day in days
    ensures HeldOk(FillAt(su, p, t, day, r, ts).st, days, day)
  {
    hide HeldOk, Drain;
    if ts in StartsOn(p, t, day) {
      assert UtcDate(ts) == day;
      DrainKeepsHeld(su.costs, su.gate, r.st, r.pending, OpensAt(t, ts), day, Quotes(t, day), RetainMissing, days);
    }
  }

  lemma {:induction false} EventsKeepHeld(su: Setup, p: Tempo, t: Table, day: int, r: Intraday, times: set<int>,
                                          days: seq<int>)
    requires su.universe != [] && DatesAgree(p, t) && HeldOk(r.st, days, day) && day in days
    ensures HeldOk(RunEvents(su, p, t, day, r, times).st, days, day)
    decreases |times|
  {
    hide HeldOk, Decide, FillAt, DatesAgree;
    if !NonEmpty(times) {
    } else {
      var last := Max(times);
      EventsKeepHeld(su, p, t, day, r, times - {last}, days);
      var before := RunEvents(su, p, t, day, r, times - {last});
      DecideKeepsHeld(su, p, t, before, last, days, day);
      FillKeepsHeld(su, p, t, day, Decide(su, p, t, before, last), last, days);
    }
  }

  lemma DayKeepsHeld(su: Setup, p: Tempo, t: Table, days: seq<int>, day: int, r: Intraday)
    requires su.universe != [] && DatesAgree(p, t) && HeldOk(StartDay(r, days, day).st, days, day) && day in days
    ensures HeldOk(IntradayDay(su, p, t, days, day, r).st, days, day)
  {
    hide HeldOk, DatesAgree, RunEvents, FlattenAll;
    EventsKeepHeld(su, p, t, day, StartDay(r, days, day), Times(p, t, day), days);
    var done := RunEvents(su, p, t, day, StartDay(r, days, day), Times(p, t, day));
    var closes := ClosesOnDay(p, t, day, Keys(done.st.positions));
    FlattenAllKeepsHeld(su.costs, su.gate, Snap(done.st, day, closes, Quotes(t, day)), ExitReasons(done.pending), done.st,
                        SymbolsOf(done.st.positions), days, day);
  }

  lemma NothingHeld(su: Setup, t: Table, days: seq<int>, day: int)
    ensures HeldOk(Begin(su, t).st, days, day)
  {
  }

  /** Held days are right again once a day has started. */
  lemma {:induction false} StartKeepsHeld(su: Setup, p: Tempo, t: Table, days: seq<int>, k: nat)
    requires su.universe != [] && k < |days| && StrictlyAscending(days) && DatesAgree(p, t)
    ensures HeldOk(StartDay(IntradayDays(su, p, t, days, k), days, days[k]).st, days, days[k])
  {
    hide HeldOk, DatesAgree, RefreshHeld, IntradayDay;
    if k == 0 {
      NothingHeld(su, t, days, days[k]);
      RefreshKeepsHeld(IntradayDays(su, p, t, days, k).st, days, days[k], days[k]);
    } else {
      StartKeepsHeld(su, p, t, days, k - 1);
      DayKeepsHeld(su, p, t, days, days[k - 1], IntradayDays(su, p, t, days, k - 1));
      RefreshKeepsHeld(IntradayDays(su, p, t, days, k).st, days, days[k - 1], days[k]);
    }
  }

  /**
   At any time of the (k+1)-th trading day every open position was filled on some listed day
   j <= k, and what the strategy is shown as its held days is k - j: the figure ticks once per
   trading day, at its first event, however many bars the day has.
   */
  lemma HeldDaysTick(su: Setup, p: Tempo, t: Table, days: seq<int>, k: nat, ts: int, s: Symbol)
    requires su.universe != [] && k < |days| && StrictlyAscending(days) && DatesAgree(p, t)
    requires s in IntradayAt(su, p, t, days, k, ts).st.entries
    ensures var st := IntradayAt(su, p, t, days, k, ts).st;
      s in st.openedOn && exists j :: 0 <= j <= k && st.openedOn[s] == days[j] && st.entries[s].heldDays == k - j
  {
    hide HeldOk, DatesAgree, StartDay, IntradayDays, RunEvents;
    StartKeepsHeld(su, p, t, days, k);
    EventsKeepHeld(su, p, t, days[k], StartDay(IntradayDays(su, p, t, days, k), days, days[k]),
                   TimesUpTo(p, t, days[k], ts), days);
    HeldOkTicks(IntradayAt(su, p, t, days, k, ts).st, days, k, s);
  }

  // ------------------------------------------------------------- equity across the flatten

  /** What day-end valuation adds for one position. */
  function Valued(p: Tempo, t: Table, day: int, symbol: Symbol, qty: real): real {
    var close := if symbol in t then CloseOnDay(p, t[symbol], day, true) else None;
    if close.Some? then qty * close.value else 0.0
  }

  lemma {:induction false} DayEndValueSplits(p: Tempo, t: Table, day: int, d: Dict<Symbol, Lot>)
    requires d != []
    ensures DayEndValue(p, t, day, d)
         == Valued(p, t, day, d[0].key, d[0].value.qty) + DayEndValue(p, t, day, d[1..])
  {
    if |d| == 1 {
      assert d[..0] == [] && d[1..] == [];
    } else {
      var front := d[..|d| - 1];
      DayEndValueSplits(p, t, day, front);
      assert front[1..] == d[1..][..|d| - 2];
      assert d[1..][|d| - 2] == d[|d| - 1];
    }
  }

  lemma {:induction false} DayEndValueRemove(p: Tempo, t: Table, day: int, d: Dict<Symbol, Lot>, s: Symbol)
    requires Unique(d) && Has(d, s)
    ensures DayEndValue(p, t, day, Remove(d, s)) == DayEndValue(p, t, day, d) - Valued(p, t, day, s, Get(d, s).qty)
  {
    DayEndValueSplits(p, t, day, d);
    if d[0].key == s {
      RemoveAbsent(d[1..], s);
    } else {
      var rest := Remove(d[1..], s);
      DayEndValueRemove(p, t, day, d[1..], s);
      assert Remove(d, s) == [d[0]] + rest && ([d[0]] + rest)[1..] == rest;
      DayEndValueSplits(p, t, day, [d[0]] + rest);
    }
  }

  /** Day-end value plus everything the recorded fills have cost at the day's closes. */
  function DayEndWorth(su: Setup, p: Tempo, t: Table, day: int, st: State, closes: map<Symbol, real>): real {
    st.cash + DayEndValue(p, t, day, st.positions) + Friction(su.costs, st.log, closes)
  }

  lemma SoldFriction(c: Costs, log: seq<Record>, r: Record, marks: map<Symbol, real>)
    requires r.Filled? && r.symbol in marks
    ensures Friction(c, log + [r], marks) == Friction(c, log, marks) + c.slippage * marks[r.symbol] * r.qty + c.commission
  {
    Appended(log, r);
  }

  lemma SaleKeepsWorth(su: Setup, p: Tempo, t: Table, day: int, st: State, o: Order, marks: map<Symbol, real>, on: int,
                       price: real)
    requires Unique(st.positions) && Has(st.positions, o.symbol) && o.quantity == Get(st.positions, o.symbol).qty
    requires o.symbol in marks && o.symbol in t && CloseOnDay(p, t[o.symbol], day, true) == Some(marks[o.symbol])
    requires price * o.quantity == marks[o.symbol] * o.quantity - su.costs.slippage * marks[o.symbol] * o.quantity
    ensures DayEndWorth(su, p, t, day, SellFilled(su.costs, st, on, o, price), marks) == DayEndWorth(su, p, t, day, st, marks)
  {
    hide DayEndValue, Friction, Remove, Get, Unique, CloseOnDay;
    SoldFriction(su.costs, st.log, Filled(on, o.symbol, Sell, o.quantity, price), marks);
    DayEndValueRemove(p, t, day, st.positions, o.symbol);
  }

  lemma FlattenStepKeepsWorth(su: Setup, p: Tempo, t: Table, day: int, snap: Snapshot, reasons: map<Symbol, string>,
                              st: State, s: Symbol)
    requires Aligned(st)
    requires forall x :: x in snap.marks ==> x in t && CloseOnDay(p, t[x], day, true) == Some(snap.marks[x])
    ensures DayEndWorth(su, p, t, day, FlattenStep(su.costs, su.gate, snap, reasons, FLATTEN_REASON, st, s), snap.marks)
         == DayEndWorth(su, p, t, day, st, snap.marks)
  {
    if s in snap.marks && snap.marks[s] > 0.0 && Has(st.positions, s) {
      var qty := Get(st.positions, s).qty;
      var reasoning := if s in reasons then reasons[s] else FLATTEN_REASON;
      var o := Order(s, Sell, qty, reasoning, snap.day);
      Appended(st.log, Vetoed(snap.day, s, Sell, qty));
      SlippageSplits(snap.marks[s], su.costs.slippage, qty);
      SaleKeepsWorth(su, p, t, day, st, o, snap.marks, snap.day, FillPrice(snap.marks[s], Sell, su.costs.slippage));
    }
  }

  lemma {:induction false} FlattenAllKeepsWorth(su: Setup, p: Tempo, t: Table, day: int, snap: Snapshot,
                                                reasons: map<Symbol, string>, st: State, symbols: seq<Symbol>)
    requires Aligned(st)
    requires forall x :: x in snap.marks ==> x in t && CloseOnDay(p, t[x], day, true) == Some(snap.marks[x])
    ensures DayEndWorth(su, p, t, day, FlattenAll(su.costs, su.gate, snap, reasons, FLATTEN_REASON, st, symbols), snap.marks)
         == DayEndWorth(su, p, t, day, st, snap.marks)
  {
    if symbols == [] {
    } else {
      var front := symbols[..|symbols| - 1];
      FlattenAllKeepsWorth(su, p, t, day, snap, reasons, st, front);
      FlattenAllConserves(su.costs, su.gate, snap, reasons, FLATTEN_REASON, st, front);
      FlattenStepKeepsWorth(su, p, t, day, snap, reasons,
                            FlattenAll(su.costs, su.gate, snap, reasons, FLATTEN_REASON, st, front), symbols[|symbols| - 1]);
    }
  }

  /**
   The flatten sells at the very prices the day-end mark uses: day-end equity after it equals
   day-end equity before it, less exactly the slippage and commission of its own fills.
   */
  lemma FlattenIsContinuous(su: Setup, p: Tempo, t: Table, day: int, r: Intraday)
    requires Aligned(r.st)
    ensures var f := Flatten(su, p, t, day, r).st;
      var closes := ClosesOnDay(p, t, day, Keys(r.st.positions));
      && r.st.log <= f.log
      && f.cash + DayEndValue(p, t, day, f.positions)
      == r.st.cash + DayEndValue(p, t, day, r.st.positions) - Friction(su.costs, f.log[|r.st.log|..], closes)
  {
    var closes := ClosesOnDay(p, t, day, Keys(r.st.positions));
    var snap, reasons := Snap(r.st, day, closes, Quotes(t, day)), ExitReasons(r.pending);
    var f := Flatten(su, p, t, day, r).st;
    if p.sameSession {
      FlattenAllKeepsWorth(su, p, t, day, snap, reasons, r.st, SymbolsOf(r.st.positions));
      FlattenAllExtendsLog(su.costs, su.gate, snap, reasons, FLATTEN_REASON, r.st, SymbolsOf(r.st.positions));
    }
    FrictionSplits(su.costs, r.st.log, f.log, closes);
  }
}
