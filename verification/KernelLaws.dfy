/**
 Laws of the simulation kernel: equity is conserved through a drain or a liquidation up to
 the recorded cost of each fill, and over every run the audit trail alone reconstructs
 cash, the open book and the fill counters.
 */
module KernelLaws {
  import opened OrderedDict
  import opened KernelSpec

  // ---------------------------------------------------------------- ledger read off the log

  /** What one record cost in equity at `marks`: slippage on the mark, plus commission. */
  function FrictionOf(c: Costs, r: Record, marks: map<Symbol, real>): real {
    if r.Filled? then c.slippage * MarkOf(marks, r.symbol, 0.0) * r.qty + c.commission else 0.0
  }

  function Friction(c: Costs, log: seq<Record>, marks: map<Symbol, real>): real {
    if log == [] then 0.0
    else Friction(c, log[..|log| - 1], marks) + FrictionOf(c, log[|log| - 1], marks)
  }

  function CashFlowOf(c: Costs, r: Record): real {
    if !r.Filled? then 0.0
    else if r.side.Buy? then -(r.price * r.qty + c.commission)
    else r.price * r.qty - c.commission
  }

  function CashFlow(c: Costs, log: seq<Record>): real {
    if log == [] then 0.0 else CashFlow(c, log[..|log| - 1]) + CashFlowOf(c, log[|log| - 1])
  }

  /** The open book that the recorded fills leave behind. */
  function Book(log: seq<Record>): Dict<Symbol, Lot> {
    if log == [] then []
    else
      var before, r := Book(log[..|log| - 1]), log[|log| - 1];
      if !r.Filled? then before
      else if r.side.Buy? then Put(before, r.symbol, Lot(r.qty, r.price))
      else Remove(before, r.symbol)
  }

  function FillsOf(log: seq<Record>, symbol: Symbol, side: Side): nat {
    if log == [] then 0
    else FillsOf(log[..|log| - 1], symbol, side)
         + (var r := log[|log| - 1]; if r.Filled? && r.symbol == symbol && r.side == side then 1 else 0)
  }

  function NumFills(log: seq<Record>, side: Side): nat {
    if log == [] then 0
    else NumFills(log[..|log| - 1], side) + (var r := log[|log| - 1]; if r.Filled? && r.side == side then 1 else 0)
  }

  function NumSkips(log: seq<Record>): nat {
    if log == [] then 0 else NumSkips(log[..|log| - 1]) + (if log[|log| - 1].Skipped? then 1 else 0)
  }

  function TotalSells(fills: Dict<Symbol, Counts>): nat {
    if fills == [] then 0 else fills[0].value.sells + TotalSells(fills[1..])
  }

  // ------------------------------------------------------------------- equity conservation

  /** Portfolio value at `marks`, plus what every recorded fill has cost at those marks. */
  function Worth(c: Costs, st: State, marks: map<Symbol, real>): real {
    Equity(st.cash, st.positions, marks) + Friction(c, st.log, marks)
  }

  lemma {:induction false} MarketValuePut(d: Dict<Symbol, Lot>, k: Symbol, v: Lot, marks: map<Symbol, real>)
    requires !Has(d, k)
    ensures MarketValue(Put(d, k, v), marks) == MarketValue(d, marks) + LotValue(k, v, marks)
  {
    hide LotValue;
    if d == [] {
    } else {
      MarketValuePut(d[1..], k, v, marks);
      assert Put(d, k, v)[1..] == Put(d[1..], k, v);
    }
  }

  lemma {:induction false} MarketValueRemove(d: Dict<Symbol, Lot>, k: Symbol, marks: map<Symbol, real>)
    requires Unique(d) && Has(d, k)
    ensures MarketValue(Remove(d, k), marks) == MarketValue(d, marks) - LotValue(k, Get(d, k), marks)
  {
    hide LotValue;
    if d[0].key == k {
      RemoveAbsent(d[1..], k);
    } else {
      var rest := Remove(d[1..], k);
      MarketValueRemove(d[1..], k, marks);
      assert ([d[0]] + rest)[1..] == rest;
    }
  }

  lemma Appended<T>(log: seq<T>, r: T)
    ensures (log + [r])[..|log + [r]| - 1] == log && (log + [r])[|log + [r]| - 1] == r
  {
  }

  lemma SlippageSplits(mark: real, slippage: real, qty: real)
    ensures FillPrice(mark, Buy, slippage) * qty == mark * qty + slippage * mark * qty
    ensures FillPrice(mark, Sell, slippage) * qty == mark * qty - slippage * mark * qty
  {
  }

  lemma BuyConserves(c: Costs, st: State, day: int, o: Order, marks: map<Symbol, real>)
    requires o.symbol in marks && !Has(st.positions, o.symbol)
    ensures Worth(c, BuyFilled(c, st, day, o, FillPrice(marks[o.symbol], Buy, c.slippage)), marks) == Worth(c, st, marks)
  {
    hide MarketValue, Put, Has;
    var mark := marks[o.symbol];
    var price := FillPrice(mark, Buy, c.slippage);
    Appended(st.log, Filled(day, o.symbol, Buy, o.quantity, price));
    MarketValuePut(st.positions, o.symbol, Lot(o.quantity, price), marks);
    SlippageSplits(mark, c.slippage, o.quantity);
  }

  lemma SellConserves(c: Costs, st: State, day: int, o: Order, marks: map<Symbol, real>)
    requires Unique(st.positions) && o.symbol in marks
    requires Has(st.positions, o.symbol) && o.quantity == Get(st.positions, o.symbol).qty
    ensures Worth(c, SellFilled(c, st, day, o, FillPrice(marks[o.symbol], Sell, c.slippage)), marks)
         == Worth(c, st, marks)
  {
    hide Remove, Get, Unique, MarketValue;
    var mark := marks[o.symbol];
    var price := FillPrice(mark, Sell, c.slippage);
    Appended(st.log, Filled(day, o.symbol, Sell, o.quantity, price));
    MarketValueRemove(st.positions, o.symbol, marks);
    SlippageSplits(mark, c.slippage, o.quantity);
  }

  lemma SubmitConserves(c: Costs, gate: Gate, snap: Snapshot, st: State, o: Order)
    requires Aligned(st) && o.symbol in snap.marks
    requires o.side.Buy? ==> !Has(st.positions, o.symbol)
    requires o.side.Sell? ==> Has(st.positions, o.symbol) && o.quantity == Get(st.positions, o.symbol).qty
    ensures Worth(c, Submit(c, gate, snap, st, o), snap.marks) == Worth(c, st, snap.marks)
  {
    if !gate(st.log, o, snap) {
      Appended(st.log, Vetoed(snap.day, o.symbol, o.side, o.quantity));
    } else if o.side.Buy? {
      BuyConserves(c, st, snap.day, o, snap.marks);
    } else {
      SellConserves(c, st, snap.day, o, snap.marks);
    }
  }

  lemma SubmitAligned(c: Costs, gate: Gate, snap: Snapshot, st: State, o: Order)
    requires Aligned(st) && o.symbol in snap.marks
    ensures Aligned(Submit(c, gate, snap, st, o))
  {
  }

  lemma OrderStepAligned(c: Costs, gate: Gate, snap: Snapshot, st: State, o: Order)
    requires Aligned(st)
    ensures Aligned(OrderStep(c, gate, snap, st, o))
  {
    if SkipReason(c, st, o, snap.marks).None? {
      SubmitAligned(c, gate, snap, st, Sized(st, o));
    }
  }

  lemma FlattenStepAligned(c: Costs, gate: Gate, snap: Snapshot, reasons: map<Symbol, string>, fallback: string,
                           st: State, symbol: Symbol)
    requires Aligned(st)
    ensures Aligned(FlattenStep(c, gate, snap, reasons, fallback, st, symbol))
  {
  }

  lemma SkipConserves(c: Costs, st: State, day: int, o: Order, reason: Reason, marks: map<Symbol, real>)
    ensures var r := SkipOrder(st, day, o, reason);
            Friction(c, r.log, marks) == Friction(c, st.log, marks)
  {
    var r := SkipOrder(st, day, o, reason);
    if reason != NonPositiveQuantity {
      Appended(st.log, r.log[|st.log|]);
    }
  }

  lemma {:induction false} RunOrdersConserves(c: Costs, gate: Gate, snap: Snapshot, st: State, orders: seq<Order>)
    requires Aligned(st)
    ensures Aligned(RunOrders(c, gate, snap, st, orders))
    ensures Worth(c, RunOrders(c, gate, snap, st, orders), snap.marks) == Worth(c, st, snap.marks)
  {
    if orders == [] {
    } else {
      var last := |orders| - 1;
      RunOrdersConserves(c, gate, snap, st, orders[..last]);
      var mid := RunOrders(c, gate, snap, st, orders[..last]);
      OrderStepAligned(c, gate, snap, mid, orders[last]);
      match SkipReason(c, mid, orders[last], snap.marks)
      case Some(reason) => SkipConserves(c, mid, snap.day, orders[last], reason, snap.marks);
      case None => SubmitConserves(c, gate, snap, mid, Sized(mid, orders[last]));
    }
  }

  lemma {:induction false} FlattenAllConserves(c: Costs, gate: Gate, snap: Snapshot, reasons: map<Symbol, string>,
                                               fallback: string, st: State, symbols: seq<Symbol>)
    requires Aligned(st)
    ensures Aligned(FlattenAll(c, gate, snap, reasons, fallback, st, symbols))
    ensures Worth(c, FlattenAll(c, gate, snap, reasons, fallback, st, symbols), snap.marks) == Worth(c, st, snap.marks)
  {
    if symbols == [] {
    } else {
      var last := |symbols| - 1;
      FlattenAllConserves(c, gate, snap, reasons, fallback, st, symbols[..last]);
      var mid := FlattenAll(c, gate, snap, reasons, fallback, st, symbols[..last]);
      var s := symbols[last];
      FlattenStepAligned(c, gate, snap, reasons, fallback, mid, s);
      if s in snap.marks && snap.marks[s] > 0.0 && Has(mid.positions, s) {
        var reasoning := if s in reasons then reasons[s] else fallback;
        SubmitConserves(c, gate, snap, mid, Order(s, Sell, Get(mid.positions, s).qty, reasoning, snap.day));
      }
    }
  }

  /** Everything recorded before a step is still there after it. */
  lemma {:induction false} RunOrdersExtendsLog(c: Costs, gate: Gate, snap: Snapshot, st: State, orders: seq<Order>)
    ensures st.log <= RunOrders(c, gate, snap, st, orders).log
  {
    if orders == [] {
    } else {
      RunOrdersExtendsLog(c, gate, snap, st, orders[..|orders| - 1]);
    }
  }

  lemma {:induction false} FlattenAllExtendsLog(c: Costs, gate: Gate, snap: Snapshot, reasons: map<Symbol, string>,
                                                fallback: string, st: State, symbols: seq<Symbol>)
    ensures st.log <= FlattenAll(c, gate, snap, reasons, fallback, st, symbols).log
  {
    if symbols == [] {
    } else {
      FlattenAllExtendsLog(c, gate, snap, reasons, fallback, st, symbols[..|symbols| - 1]);
    }
  }

  lemma {:induction false} FrictionSplits(c: Costs, before: seq<Record>, after: seq<Record>, marks: map<Symbol, real>)
    requires before <= after
    ensures Friction(c, after, marks) == Friction(c, before, marks) + Friction(c, after[|before|..], marks)
  {
    if |before| == |after| {
      assert before == after;
    } else {
      var shorter := after[..|after| - 1];
      FrictionSplits(c, before, shorter, marks);
      var tail := after[|before|..];
      assert tail[..|tail| - 1] == shorter[|before|..];
    }
  }

  /**
   Portfolio value marked at the drain's opens falls by exactly the recorded cost of the
   fills of that drain: slippage * open * quantity + commission each, for any mix of sells,
   buys, skips, carried orders and vetoes.
   */
  lemma DrainConservesEquity(c: Costs, gate: Gate, st: State, pending: seq<Order>, opens: map<Symbol, real>,
                             day: int, quotes: map<Symbol, Bar>, policy: MissingOpenPolicy)
    requires Aligned(st)
    ensures var r := Drain(c, gate, st, pending, opens, day, quotes, policy);
            && st.log <= r.log
            && Equity(r.cash, r.positions, opens)
            == Equity(st.cash, st.positions, opens) - Friction(c, r.log[|st.log|..], opens)
  {
    var orders := Drained(pending, opens, policy);
    var r := Drain(c, gate, st, pending, opens, day, quotes, policy);
    if orders != [] {
      var snap := Snap(st, day, opens, quotes);
      var sold := RunOrders(c, gate, snap, st, OfSide(orders, Sell));
      RunOrdersConserves(c, gate, snap, st, OfSide(orders, Sell));
      RunOrdersExtendsLog(c, gate, snap, st, OfSide(orders, Sell));
      RunOrdersConserves(c, gate, Snap(sold, day, opens, quotes), sold, OfSide(orders, Buy));
      RunOrdersExtendsLog(c, gate, Snap(sold, day, opens, quotes), sold, OfSide(orders, Buy));
    }
    FrictionSplits(c, st.log, r.log, opens);
  }

  /** The same identity for the session-end flatten, at the day's closes. */
  lemma LiquidateConservesEquity(c: Costs, gate: Gate, st: State, closes: map<Symbol, real>, day: int,
                                 quotes: map<Symbol, Bar>, reasons: map<Symbol, string>, fallback: string)
    requires Aligned(st)
    ensures var r := Liquidate(c, gate, st, closes, day, quotes, reasons, fallback);
            && st.log <= r.log
            && Equity(r.cash, r.positions, closes)
            == Equity(st.cash, st.positions, closes) - Friction(c, r.log[|st.log|..], closes)
  {
    var r := Liquidate(c, gate, st, closes, day, quotes, reasons, fallback);
    var snap := Snap(st, day, closes, quotes);
    FlattenAllConserves(c, gate, snap, reasons, fallback, st, SymbolsOf(st.positions));
    FlattenAllExtendsLog(c, gate, snap, reasons, fallback, st, SymbolsOf(st.positions));
    FrictionSplits(c, st.log, r.log, closes);
  }

  // ------------------------------------------------------------------ invariant over every run

  /** Every open position has a positive size and the entry price it was filled at. */
  ghost predicate LotsOk(positions: Dict<Symbol, Lot>, entries: map<Symbol, EntryState>) {
    forall s :: Has(positions, s) ==>
      Get(positions, s).qty > 0.0 && s in entries && entries[s].entryPrice == Get(positions, s).price
  }

  /** Cash, the book and the fill counters are all functions of the audit trail. */
  ghost predicate Inv(c: Costs, initial: real, st: State) {
    && Aligned(st)
    && st.positions == Book(st.log)
    && st.cash == initial + CashFlow(c, st.log)
    && TotalSells(st.fills) == NumFills(st.log, Sell)
    && (forall s :: CountsOf(st.fills, s) == Counts(FillsOf(st.log, s, Buy), FillsOf(st.log, s, Sell)))
    && (forall s :: CountsOf(st.fills, s).buys - CountsOf(st.fills, s).sells == if Has(st.positions, s) then 1 else 0)
    && LotsOk(st.positions, st.entries)
  }

  lemma PutKeepsLots(d: Dict<Symbol, Lot>, entries: map<Symbol, EntryState>, k: Symbol, lot: Lot)
    requires LotsOk(d, entries) && lot.qty > 0.0
    ensures LotsOk(Put(d, k, lot), entries[k := EntryState(lot.price, 0)])
  {
    forall s | Has(Put(d, k, lot), s)
      ensures var after := entries[k := EntryState(lot.price, 0)];
        Get(Put(d, k, lot), s).qty > 0.0 && s in after && after[s].entryPrice == Get(Put(d, k, lot), s).price
    {
      GetPut(d, k, lot, s);
    }
  }

  lemma RemoveKeepsLots(d: Dict<Symbol, Lot>, entries: map<Symbol, EntryState>, k: Symbol)
    requires LotsOk(d, entries)
    ensures LotsOk(Remove(d, k), entries - {k})
  {
    forall s | Has(Remove(d, k), s)
      ensures Get(Remove(d, k), s).qty > 0.0 && s in entries - {k}
           && (entries - {k})[s].entryPrice == Get(Remove(d, k), s).price
    {
      GetRemove(d, k, s);
    }
  }

  lemma {:induction false} TotalSellsPut(fills: Dict<Symbol, Counts>, k: Symbol, v: Counts)
    requires Unique(fills)
    ensures TotalSells(Put(fills, k, v)) == TotalSells(fills) - CountsOf(fills, k).sells + v.sells
  {
    if fills == [] {
    } else {
      if fills[0].key != k {
        TotalSellsPut(fills[1..], k, v);
        assert Put(fills, k, v)[1..] == Put(fills[1..], k, v);
      } else {
        assert Put(fills, k, v)[1..] == fills[1..];
      }
    }
  }

  /** A fill of `o` moves the counters of its own symbol by one and no others. */
  lemma BumpMatchesLog(st: State, o: Order, r: Record)
    requires Unique(st.fills) && TotalSells(st.fills) == NumFills(st.log, Sell)
    requires forall s :: CountsOf(st.fills, s) == Counts(FillsOf(st.log, s, Buy), FillsOf(st.log, s, Sell))
    requires r.Filled? && r.symbol == o.symbol && r.side == o.side
    ensures var fills, log := Bump(st.fills, o.symbol, o.side), st.log + [r];
      && TotalSells(fills) == NumFills(log, Sell)
      && (forall s :: CountsOf(fills, s) == Counts(FillsOf(log, s, Buy), FillsOf(log, s, Sell)))
      && (forall s :: s != o.symbol ==> CountsOf(fills, s) == CountsOf(st.fills, s))
      && (var n := CountsOf(st.fills, o.symbol);
          CountsOf(fills, o.symbol) == if o.side.Buy? then n.(buys := n.buys + 1) else n.(sells := n.sells + 1))
  {
    Appended(st.log, r);
    var n := CountsOf(st.fills, o.symbol);
    var fills := Bump(st.fills, o.symbol, o.side);
    GetPut(st.fills, o.symbol, if o.side.Buy? then n.(buys := n.buys + 1) else n.(sells := n.sells + 1), o.symbol);
    TotalSellsPut(st.fills, o.symbol, CountsOf(fills, o.symbol));
    forall s ensures CountsOf(fills, s) == Counts(FillsOf(st.log + [r], s, Buy), FillsOf(st.log + [r], s, Sell)) {
      assert CountsOf(st.fills, s) == Counts(FillsOf(st.log, s, Buy), FillsOf(st.log, s, Sell));
      if s == o.symbol || Has(st.fills, s) {
        GetPut(st.fills, o.symbol, Get(fills, o.symbol), s);
      }
    }
  }

  lemma FlowGrows(c: Costs, log: seq<Record>, r: Record)
    ensures CashFlow(c, log + [r]) == CashFlow(c, log) + CashFlowOf(c, r)
  {
    Appended(log, r);
  }

  lemma BuyKeepsInv(c: Costs, initial: real, st: State, day: int, o: Order, price: real)
    requires Inv(c, initial, st) && o.side.Buy? && !Has(st.positions, o.symbol) && o.quantity > 0.0
    ensures Inv(c, initial, BuyFilled(c, st, day, o, price))
  {
    hide LotsOk, Get, NumFills, CashFlow, FillsOf, TotalSells, CountsOf;
    var rec := Filled(day, o.symbol, Buy, o.quantity, price);
    Appended(st.log, rec);
    FlowGrows(c, st.log, rec);
    BumpMatchesLog(st, o, rec);
    PutKeepsLots(st.positions, st.entries, o.symbol, Lot(o.quantity, price));
  }

  lemma SellKeepsInv(c: Costs, initial: real, st: State, day: int, o: Order, price: real)
    requires Inv(c, initial, st) && o.side.Sell? && Has(st.positions, o.symbol)
    ensures Inv(c, initial, SellFilled(c, st, day, o, price))
  {
    hide LotsOk, NumFills, CashFlow, FillsOf, TotalSells, CountsOf;
    var rec := Filled(day, o.symbol, Sell, o.quantity, price);
    Appended(st.log, rec);
    FlowGrows(c, st.log, rec);
    BumpMatchesLog(st, o, rec);
    RemoveKeepsLots(st.positions, st.entries, o.symbol);
  }

  lemma RecordKeepsInv(c: Costs, initial: real, st: State, r: Record)
    requires Inv(c, initial, st) && !r.Filled?
    ensures Inv(c, initial, st.(log := st.log + [r]))
  {
    Appended(st.log, r);
    forall s ensures FillsOf(st.log + [r], s, Buy) == FillsOf(st.log, s, Buy)
                  && FillsOf(st.log + [r], s, Sell) == FillsOf(st.log, s, Sell) {
    }
  }

  lemma SubmitKeepsInv(c: Costs, gate: Gate, snap: Snapshot, initial: real, st: State, o: Order)
    requires Inv(c, initial, st) && o.symbol in snap.marks && o.quantity > 0.0
    requires o.side.Buy? ==> !Has(st.positions, o.symbol)
    requires o.side.Sell? ==> Has(st.positions, o.symbol)
    ensures Inv(c, initial, Submit(c, gate, snap, st, o))
  {
    var price := FillPrice(snap.marks[o.symbol], o.side, c.slippage);
    if !gate(st.log, o, snap) {
      RecordKeepsInv(c, initial, st, Vetoed(snap.day, o.symbol, o.side, o.quantity));
    } else if o.side.Buy? {
      BuyKeepsInv(c, initial, st, snap.day, o, price);
    } else {
      SellKeepsInv(c, initial, st, snap.day, o, price);
    }
  }

  lemma {:induction false} RunOrdersKeepsInv(c: Costs, gate: Gate, snap: Snapshot, initial: real, st: State,
                                             orders: seq<Order>)
    requires Inv(c, initial, st)
    ensures Inv(c, initial, RunOrders(c, gate, snap, st, orders))
  {
    if orders == [] {
    } else {
      var last := |orders| - 1;
      RunOrdersKeepsInv(c, gate, snap, initial, st, orders[..last]);
      var mid, o := RunOrders(c, gate, snap, st, orders[..last]), orders[last];
      match SkipReason(c, mid, o, snap.marks) {
        case Some(reason) => RecordKeepsInv(c, initial, mid, Skipped(snap.day, o.symbol, o.side, o.quantity, reason));
        case None => SubmitKeepsInv(c, gate, snap, initial, mid, Sized(mid, o));
      }
    }
  }

  lemma FlattenStepKeepsInv(c: Costs, gate: Gate, snap: Snapshot, reasons: map<Symbol, string>, fallback: string,
                            initial: real, st: State, s: Symbol)
    requires Inv(c, initial, st)
    ensures Inv(c, initial, FlattenStep(c, gate, snap, reasons, fallback, st, s))
  {
    hide Submit;
    if s in snap.marks && snap.marks[s] > 0.0 && Has(st.positions, s) {
      var reasoning := if s in reasons then reasons[s] else fallback;
      SubmitKeepsInv(c, gate, snap, initial, st, Order(s, Sell, Get(st.positions, s).qty, reasoning, snap.day));
    }
  }

  lemma {:induction false} FlattenAllKeepsInv(c: Costs, gate: Gate, snap: Snapshot, reasons: map<Symbol, string>,
                                              fallback: string, initial: real, st: State, symbols: seq<Symbol>)
    requires Inv(c, initial, st)
    ensures Inv(c, initial, FlattenAll(c, gate, snap, reasons, fallback, st, symbols))
  {
    hide Inv, FlattenStep;
    if symbols == [] {
    } else {
      var last := |symbols| - 1;
      FlattenAllKeepsInv(c, gate, snap, reasons, fallback, initial, st, symbols[..last]);
      FlattenStepKeepsInv(c, gate, snap, reasons, fallback, initial,
                          FlattenAll(c, gate, snap, reasons, fallback, st, symbols[..last]), symbols[last]);
    }
  }

  /** One call of a state-changing kernel operation. */
  datatype Op =
    | DrainOp(pending: seq<Order>, opens: map<Symbol, real>, day: int, quotes: map<Symbol, Bar>,
              policy: MissingOpenPolicy)
    | LiquidateOp(closes: map<Symbol, real>, day: int, quotes: map<Symbol, Bar>, reasons: map<Symbol, string>,
                  fallback: string)
    | RefreshOp(days: seq<int>, day: int)
    | NoActionOp(symbol: Symbol, bar: Bar, reasoning: string)

  function Apply(c: Costs, gate: Gate, st: State, op: Op): State {
    match op
    case DrainOp(pending, opens, day, quotes, policy) => Drain(c, gate, st, pending, opens, day, quotes, policy)
    case LiquidateOp(closes, day, quotes, reasons, fallback) =>
      Liquidate(c, gate, st, closes, day, quotes, reasons, fallback)
    case RefreshOp(days, day) => RefreshHeld(st, days, day)
    case NoActionOp(symbol, bar, reasoning) =>
      st.(log := st.log + [NoAction(symbol, bar.start, bar.close, reasoning)])
  }

  function Run(c: Costs, gate: Gate, initial: real, ops: seq<Op>): State {
    if ops == [] then Initial(initial)
    else Apply(c, gate, Run(c, gate, initial, ops[..|ops| - 1]), ops[|ops| - 1])
  }

  lemma RefreshKeepsInv(c: Costs, initial: real, st: State, days: seq<int>, day: int)
    requires Inv(c, initial, st)
    ensures Inv(c, initial, RefreshHeld(st, days, day))
  {
    hide NumFills, FillsOf, Book, HeldDays, CashFlow, TotalSells;
  }

  lemma ApplyKeepsInv(c: Costs, gate: Gate, initial: real, st: State, op: Op)
    requires Inv(c, initial, st)
    ensures Inv(c, initial, Apply(c, gate, st, op))
  {
    hide RunOrders, FlattenAll, Drained, OfSide, Snap, Inv;
    match op
    case DrainOp(pending, opens, day, quotes, policy) =>
      var orders := Drained(pending, opens, policy);
      if orders != [] {
        var sold := RunOrders(c, gate, Snap(st, day, opens, quotes), st, OfSide(orders, Sell));
        RunOrdersKeepsInv(c, gate, Snap(st, day, opens, quotes), initial, st, OfSide(orders, Sell));
        RunOrdersKeepsInv(c, gate, Snap(sold, day, opens, quotes), initial, sold, OfSide(orders, Buy));
      }
    case LiquidateOp(closes, day, quotes, reasons, fallback) =>
      FlattenAllKeepsInv(c, gate, Snap(st, day, closes, quotes), reasons, fallback, initial, st, SymbolsOf(st.positions));
    case RefreshOp(days, day) => RefreshKeepsInv(c, initial, st, days, day);
    case NoActionOp(symbol, bar, reasoning) =>
      RecordKeepsInv(c, initial, st, NoAction(symbol, bar.start, bar.close, reasoning));
  }

  /** The invariant holds after every run of kernel operations, whatever the gate decides. */
  lemma {:induction false} RunKeepsInv(c: Costs, gate: Gate, initial: real, ops: seq<Op>)
    ensures Inv(c, initial, Run(c, gate, initial, ops))
  {
    hide Apply;
    if ops == [] {
    } else {
      RunKeepsInv(c, gate, initial, ops[..|ops| - 1]);
      ApplyKeepsInv(c, gate, initial, Run(c, gate, initial, ops[..|ops| - 1]), ops[|ops| - 1]);
    }
  }

  lemma {:induction false} RoundTripsWhenBalanced(fills: Dict<Symbol, Counts>)
    requires Unique(fills)
    requires forall s :: CountsOf(fills, s).buys >= CountsOf(fills, s).sells
    ensures RoundTrips(fills) == TotalSells(fills)
  {
    if fills == [] {
    } else {
      assert CountsOf(fills, fills[0].key) == fills[0].value;
      forall s ensures CountsOf(fills[1..], s).buys >= CountsOf(fills[1..], s).sells {
        if Has(fills[1..], s) {
          assert CountsOf(fills[1..], s) == CountsOf(fills, s);
        }
      }
      RoundTripsWhenBalanced(fills[1..]);
    }
  }

  /** Per-symbol minima add up to the number of sells filled, over every run. */
  lemma RoundTripsCountSells(c: Costs, gate: Gate, initial: real, ops: seq<Op>)
    ensures var st := Run(c, gate, initial, ops); RoundTrips(st.fills) == NumFills(st.log, Sell)
  {
    RunKeepsInv(c, gate, initial, ops);
    RoundTripsWhenBalanced(Run(c, gate, initial, ops).fills);
  }

  // -------------------------------------------------------------------------- cash floor

  /** The commission as a charge; a negative one charges nothing. */
  function Charge(c: Costs): real {
    if c.commission > 0.0 then c.commission else 0.0
  }

  /** Only sell commissions can take cash below zero, one per sell fill. */
  ghost predicate CashFloor(c: Costs, st: State) {
    st.cash >= -(Charge(c) * NumFills(st.log, Sell) as real)
  }

  lemma ScaledSum(commission: real, n: nat)
    requires commission >= 0.0
    ensures commission * n as real >= 0.0
    ensures commission * (n + 1) as real == commission * n as real + commission
  {
  }

  lemma ProductNonNegative(price: real, qty: real)
    requires price >= 0.0 && qty >= 0.0
    ensures price * qty >= 0.0
  {
  }

  lemma SellKeepsFloor(c: Costs, st: State, day: int, o: Order, price: real)
    requires CashFloor(c, st)
    requires o.side.Sell? && price >= 0.0 && o.quantity > 0.0
    ensures CashFloor(c, SellFilled(c, st, day, o, price))
  {
    Appended(st.log, Filled(day, o.symbol, Sell, o.quantity, price));
    ScaledSum(Charge(c), NumFills(st.log, Sell));
    ProductNonNegative(price, o.quantity);
  }

  lemma BuyKeepsFloor(c: Costs, st: State, day: int, o: Order, price: real)
    requires st.cash >= price * o.quantity + c.commission
    ensures CashFloor(c, BuyFilled(c, st, day, o, price))
  {
    Appended(st.log, Filled(day, o.symbol, Buy, o.quantity, price));
    ScaledSum(Charge(c), NumFills(st.log, Sell));
  }

  lemma RecordKeepsFloor(c: Costs, st: State, r: Record)
    requires CashFloor(c, st) && !r.Filled?
    ensures CashFloor(c, st.(log := st.log + [r]))
  {
    Appended(st.log, r);
  }

  lemma SubmitKeepsFloor(c: Costs, gate: Gate, snap: Snapshot, st: State, o: Order)
    requires CashFloor(c, st)
    requires c.slippage <= 1.0
    requires o.symbol in snap.marks && snap.marks[o.symbol] > 0.0 && o.quantity > 0.0
    requires o.side.Buy? ==>
      st.cash >= FillPrice(snap.marks[o.symbol], Buy, c.slippage) * o.quantity + c.commission
    ensures CashFloor(c, Submit(c, gate, snap, st, o))
  {
    var price := FillPrice(snap.marks[o.symbol], o.side, c.slippage);
    if !gate(st.log, o, snap) {
      RecordKeepsFloor(c, st, Vetoed(snap.day, o.symbol, o.side, o.quantity));
    } else if o.side.Buy? {
      BuyKeepsFloor(c, st, snap.day, o, price);
    } else {
      ProductNonNegative(snap.marks[o.symbol], 1.0 - c.slippage);
      SellKeepsFloor(c, st, snap.day, o, price);
    }
  }

  lemma OrderStepKeepsFloor(c: Costs, gate: Gate, snap: Snapshot, st: State, o: Order)
    requires LotsOk(st.positions, st.entries) && CashFloor(c, st)
    requires c.slippage <= 1.0
    ensures CashFloor(c, OrderStep(c, gate, snap, st, o))
  {
    match SkipReason(c, st, o, snap.marks)
    case Some(reason) => RecordKeepsFloor(c, st, Skipped(snap.day, o.symbol, o.side, o.quantity, reason));
    case None => SubmitKeepsFloor(c, gate, snap, st, Sized(st, o));
  }

  lemma {:induction false} RunOrdersKeepsFloor(c: Costs, gate: Gate, snap: Snapshot, initial: real, st: State,
                                               orders: seq<Order>)
    requires Inv(c, initial, st) && CashFloor(c, st)
    requires c.slippage <= 1.0
    ensures CashFloor(c, RunOrders(c, gate, snap, st, orders))
  {
    if orders == [] {
    } else {
      var last := |orders| - 1;
      RunOrdersKeepsFloor(c, gate, snap, initial, st, orders[..last]);
      RunOrdersKeepsInv(c, gate, snap, initial, st, orders[..last]);
      OrderStepKeepsFloor(c, gate, snap, RunOrders(c, gate, snap, st, orders[..last]), orders[last]);
    }
  }

  lemma FlattenStepKeepsFloor(c: Costs, gate: Gate, snap: Snapshot, reasons: map<Symbol, string>, fallback: string,
                              st: State, s: Symbol)
    requires LotsOk(st.positions, st.entries) && CashFloor(c, st)
    requires c.slippage <= 1.0
    ensures CashFloor(c, FlattenStep(c, gate, snap, reasons, fallback, st, s))
  {
    hide Submit, CashFloor;
    if s in snap.marks && snap.marks[s] > 0.0 && Has(st.positions, s) {
      var reasoning := if s in reasons then reasons[s] else fallback;
      SubmitKeepsFloor(c, gate, snap, st, Order(s, Sell, Get(st.positions, s).qty, reasoning, snap.day));
    }
  }

  lemma {:induction false} FlattenAllKeepsFloor(c: Costs, gate: Gate, snap: Snapshot, reasons: map<Symbol, string>,
                                                fallback: string, initial: real, st: State, symbols: seq<Symbol>)
    requires Inv(c, initial, st) && CashFloor(c, st)
    requires c.slippage <= 1.0
    ensures CashFloor(c, FlattenAll(c, gate, snap, reasons, fallback, st, symbols))
  {
    hide CashFloor, FlattenStep, NumFills, Book, FillsOf, CashFlow;
    if symbols == [] {
    } else {
      var last := |symbols| - 1;
      FlattenAllKeepsFloor(c, gate, snap, reasons, fallback, initial, st, symbols[..last]);
      FlattenAllKeepsInv(c, gate, snap, reasons, fallback, initial, st, symbols[..last]);
      FlattenStepKeepsFloor(c, gate, snap, reasons, fallback,
                            FlattenAll(c, gate, snap, reasons, fallback, st, symbols[..last]), symbols[last]);
    }
  }

  lemma ApplyKeepsFloor(c: Costs, gate: Gate, initial: real, st: State, op: Op)
    requires Inv(c, initial, st) && CashFloor(c, st)
    requires c.slippage <= 1.0
    ensures CashFloor(c, Apply(c, gate, st, op))
  {
    hide Inv, RunOrders, FlattenAll, Drained, OfSide, Snap, NumFills;
    match op
    case DrainOp(pending, opens, day, quotes, policy) =>
      var orders := Drained(pending, opens, policy);
      if orders != [] {
        var sold := RunOrders(c, gate, Snap(st, day, opens, quotes), st, OfSide(orders, Sell));
        RunOrdersKeepsInv(c, gate, Snap(st, day, opens, quotes), initial, st, OfSide(orders, Sell));
        RunOrdersKeepsFloor(c, gate, Snap(st, day, opens, quotes), initial, st, OfSide(orders, Sell));
        RunOrdersKeepsFloor(c, gate, Snap(sold, day, opens, quotes), initial, sold, OfSide(orders, Buy));
      }
    case LiquidateOp(closes, day, quotes, reasons, fallback) =>
      FlattenAllKeepsFloor(c, gate, Snap(st, day, closes, quotes), reasons, fallback, initial, st,
                           SymbolsOf(st.positions));
    case RefreshOp(days, day) =>
    case NoActionOp(symbol, bar, reasoning) => RecordKeepsFloor(c, st, NoAction(symbol, bar.start, bar.close, reasoning));
  }

  /** Over every run, cash stays at or above minus one commission per sell fill. */
  lemma {:induction false} RunKeepsFloor(c: Costs, gate: Gate, initial: real, ops: seq<Op>)
    requires c.slippage <= 1.0 && 0.0 <= initial
    ensures CashFloor(c, Run(c, gate, initial, ops))
  {
    if ops == [] {
    } else {
      RunKeepsInv(c, gate, initial, ops[..|ops| - 1]);
      RunKeepsFloor(c, gate, initial, ops[..|ops| - 1]);
      ApplyKeepsFloor(c, gate, initial, Run(c, gate, initial, ops[..|ops| - 1]), ops[|ops| - 1]);
    }
  }

  /** Buy `qty` shares at an open of 1 with exactly the cash they cost; sell them at the next open of 1. */
  function OneRoundTrip(qty: real): seq<Op> {
    [DrainOp([Order(Ticker(0), Buy, qty, "entry", 0)], map[Ticker(0) := 1.0], 1, map[], SkipMissing),
     DrainOp([Order(Ticker(0), Sell, qty, "exit", 1)], map[Ticker(0) := 1.0], 2, map[], SkipMissing)]
  }

  lemma SingleSplit(o: Order, opens: map<Symbol, real>)
    ensures Drained([o], opens, SkipMissing) == [o]
    ensures OfSide([o], o.side) == [o]
    ensures OfSide([o], if o.side.Buy? then Sell else Buy) == []
  {
    assert [o][..0] == [];
    var now := (x: Order) => !(SkipMissing.RetainMissing? && x.symbol !in opens);
    var isSell, isBuy := (x: Order) => x.side == Sell, (x: Order) => x.side == Buy;
    assert Select([o], now) == [o] && Drained([o], opens, SkipMissing) == Select([o], now);
    assert Select([o], isSell) == (if o.side.Sell? then [o] else []) && OfSide([o], Sell) == Select([o], isSell);
    assert Select([o], isBuy) == (if o.side.Buy? then [o] else []) && OfSide([o], Buy) == Select([o], isBuy);
  }

  lemma SingleRun(c: Costs, gate: Gate, snap: Snapshot, st: State, o: Order)
    ensures RunOrders(c, gate, snap, st, []) == st
    ensures RunOrders(c, gate, snap, st, [o]) == OrderStep(c, gate, snap, st, o)
  {
    assert [o][..0] == [];
  }

  lemma SingleDrain(c: Costs, gate: Gate, st: State, o: Order, opens: map<Symbol, real>, day: int)
    ensures Drain(c, gate, st, [o], opens, day, map[], SkipMissing)
         == OrderStep(c, gate, Snap(st, day, opens, map[]), st, o)
  {
    SingleSplit(o, opens);
    SingleRun(c, gate, Snap(st, day, opens, map[]), st, o);
  }

  /** The states that round trip passes through. */
  lemma RoundTripRun(c: Costs, gate: Gate, initial: real, qty: real) returns (bought: State)
    requires qty > 0.0 && initial >= FillPrice(1.0, Buy, c.slippage) * qty + c.commission
    requires forall log, o, snap :: gate(log, o, snap)
    ensures var entry, exit := Order(Ticker(0), Buy, qty, "entry", 0), Order(Ticker(0), Sell, qty, "exit", 1);
      && bought == BuyFilled(c, Initial(initial), 1, entry, FillPrice(1.0, Buy, c.slippage))
      && Run(c, gate, initial, OneRoundTrip(qty)) == SellFilled(c, bought, 2, exit, FillPrice(1.0, Sell, c.slippage))
  {
    hide Drain, FillPrice;
    var ops := OneRoundTrip(qty);
    var entry, exit := ops[0].pending[0], ops[1].pending[0];
    bought := BuyFilled(c, Initial(initial), 1, entry, FillPrice(1.0, Buy, c.slippage));
    assert ops[..1][..0] == [];
    SingleDrain(c, gate, Initial(initial), entry, map[Ticker(0) := 1.0], 1);
    assert Run(c, gate, initial, ops[..1]) == bought;
    SingleDrain(c, gate, bought, exit, map[Ticker(0) := 1.0], 2);
  }

  lemma OneSellFill(bought: Record, sold: Record)
    requires bought.Filled? && bought.side.Buy? && sold.Filled? && sold.side.Sell?
    ensures NumFills([bought] + [sold], Sell) == 1
  {
    assert [bought][..0] == [];
    assert NumFills([bought], Sell) == 0;
    Appended([bought], sold);
  }

  /** What that round trip leaves in the account. */
  lemma RoundTripLeaves(c: Costs, gate: Gate, qty: real)
    requires qty > 0.0 && forall log, o, snap :: gate(log, o, snap)
    ensures var st := Run(c, gate, qty * (1.0 + c.slippage) + c.commission, OneRoundTrip(qty));
      st.cash == qty * (1.0 - c.slippage) - c.commission && NumFills(st.log, Sell) == 1
  {
    hide Run, NumFills;
    var initial := qty * (1.0 + c.slippage) + c.commission;
    assert FillPrice(1.0, Buy, c.slippage) * qty == qty * (1.0 + c.slippage);
    assert FillPrice(1.0, Sell, c.slippage) * qty == qty * (1.0 - c.slippage);
    hide FillPrice;
    var bought := RoundTripRun(c, gate, initial, qty);
    var st := Run(c, gate, initial, OneRoundTrip(qty));
    assert bought.cash == 0.0;
    assert st.log == [st.log[0]] + [st.log[1]];
    OneSellFill(st.log[0], st.log[1]);
  }

  /** A quantity large enough for the round trip to lose more than any rebate gives back. */
  lemma LosingQuantity(c: Costs) returns (qty: real)
    requires c.slippage > 1.0
    ensures qty > 0.0 && qty * (1.0 + c.slippage) + c.commission >= 0.0
    ensures qty * (1.0 - c.slippage) - c.commission < -Charge(c)
  {
    var loss := c.slippage - 1.0;
    if c.commission >= 0.0 {
      qty := 1.0;
    } else {
      var share := -c.commission / loss;
      assert share * loss == -c.commission && share > 0.0;
      qty := 1.0 + share;
      assert qty * loss == loss - c.commission;
      assert qty * (1.0 - c.slippage) == -(qty * loss);
      assert qty * (1.0 + c.slippage) == qty * loss + 2.0 * qty;
    }
  }

  lemma BelowFloor(c: Costs, st: State)
    requires NumFills(st.log, Sell) == 1 && st.cash < -Charge(c)
    ensures !CashFloor(c, st)
  {
  }

  /** The floor holds over every run of every gate and starting cash exactly when slippage is at most 1. */
  lemma FloorIffSlippageAtMostOne(c: Costs)
    ensures (forall gate: Gate, initial: real, ops: seq<Op> :: 0.0 <= initial ==> CashFloor(c, Run(c, gate, initial, ops)))
       <==> c.slippage <= 1.0
  {
    hide Run, CashFloor;
    if c.slippage <= 1.0 {
      forall gate: Gate, initial: real, ops: seq<Op> | 0.0 <= initial ensures CashFloor(c, Run(c, gate, initial, ops)) {
        RunKeepsFloor(c, gate, initial, ops);
      }
    } else {
      var gate: Gate := (log, o, snap) => true;
      var qty := LosingQuantity(c);
      var initial := qty * (1.0 + c.slippage) + c.commission;
      RoundTripLeaves(c, gate, qty);
      BelowFloor(c, Run(c, gate, initial, OneRoundTrip(qty)));
    }
  }

  // ------------------------------------------------------------- one record for each order

  lemma {:induction false} EachOrderRecordedOnce(c: Costs, gate: Gate, snap: Snapshot, st: State, orders: seq<Order>)
    requires forall o :: o in orders && o.side.Buy? ==> o.quantity > 0.0
    ensures |RunOrders(c, gate, snap, st, orders).log| == |st.log| + |orders|
  {
    if orders == [] {
    } else {
      EachOrderRecordedOnce(c, gate, snap, st, orders[..|orders| - 1]);
    }
  }

  lemma CarriedStep(orders: seq<Order>, o: Order, opens: map<Symbol, real>, policy: MissingOpenPolicy)
    ensures var kept := policy.RetainMissing? && o.symbol !in opens;
      && Carried(orders + [o], opens, policy) == Carried(orders, opens, policy) + (if kept then [o] else [])
      && Drained(orders + [o], opens, policy) == Drained(orders, opens, policy) + (if kept then [] else [o])
  {
    assert (orders + [o])[..|orders|] == orders;
  }

  lemma OfSideStep(orders: seq<Order>, o: Order, side: Side)
    ensures OfSide(orders + [o], side) == OfSide(orders, side) + (if o.side == side then [o] else [])
  {
    assert (orders + [o])[..|orders|] == orders;
  }

  lemma {:induction false} OfSideIsOneSided(orders: seq<Order>, side: Side)
    ensures forall o :: o in OfSide(orders, side) ==> o.side == side
  {
    if orders == [] {
    } else {
      var last := |orders| - 1;
      OfSideIsOneSided(orders[..last], side);
      assert orders == orders[..last] + [orders[last]];
      OfSideStep(orders[..last], orders[last], side);
    }
  }

  lemma {:induction false} NothingCarried(orders: seq<Order>, opens: map<Symbol, real>)
    ensures Carried(orders, opens, SkipMissing) == [] && Drained(orders, opens, SkipMissing) == orders
  {
    if orders == [] {
    } else {
      var last := |orders| - 1;
      NothingCarried(orders[..last], opens);
      assert orders == orders[..last] + [orders[last]];
      CarriedStep(orders[..last], orders[last], opens, SkipMissing);
    }
  }

  /** What a flatten leaves behind: fewer open symbols, and one sell fill for each one gone. */
  ghost predicate OnlySold(st: State, r: State) {
    && r.entries.Keys <= st.entries.Keys
    && NumFills(r.log, Sell) == NumFills(st.log, Sell) + |st.entries.Keys - r.entries.Keys|
    && NumFills(r.log, Buy) == NumFills(st.log, Buy)
    && NumSkips(r.log) == NumSkips(st.log)
  }

  /** One flatten either leaves the book, is vetoed, or sells exactly its symbol. */
  lemma FlattenStepOutcome(c: Costs, gate: Gate, snap: Snapshot, reasons: map<Symbol, string>, fallback: string,
                           st: State, symbol: Symbol) returns (sold: bool)
    requires Aligned(st)
    ensures var r := FlattenStep(c, gate, snap, reasons, fallback, st, symbol);
      && NumFills(r.log, Sell) == NumFills(st.log, Sell) + (if sold then 1 else 0)
      && NumFills(r.log, Buy) == NumFills(st.log, Buy)
      && NumSkips(r.log) == NumSkips(st.log)
      && r.entries.Keys == (if sold then st.entries.Keys - {symbol} else st.entries.Keys)
      && (sold ==> symbol in st.entries)
  {
    hide Bump, Keys;
    var r := FlattenStep(c, gate, snap, reasons, fallback, st, symbol);
    sold := symbol in snap.marks && snap.marks[symbol] > 0.0 && Has(st.positions, symbol) && r.entries != st.entries;
    if |r.log| > |st.log| {
      Appended(st.log, r.log[|st.log|]);
    }
  }

  lemma OnlySoldStep(st: State, mid: State, r: State, symbol: Symbol, sold: bool)
    requires OnlySold(st, mid) && (sold ==> symbol in mid.entries)
    requires NumFills(r.log, Sell) == NumFills(mid.log, Sell) + (if sold then 1 else 0)
    requires NumFills(r.log, Buy) == NumFills(mid.log, Buy) && NumSkips(r.log) == NumSkips(mid.log)
    requires r.entries.Keys == (if sold then mid.entries.Keys - {symbol} else mid.entries.Keys)
    ensures OnlySold(st, r)
  {
    if sold {
      assert st.entries.Keys - r.entries.Keys == (st.entries.Keys - mid.entries.Keys) + {symbol};
    }
  }

  /** A flatten fills one sell for each symbol it closes, and nothing else. */
  lemma {:induction false} FlattenAllOnlySells(c: Costs, gate: Gate, snap: Snapshot, reasons: map<Symbol, string>,
                                               fallback: string, st: State, symbols: seq<Symbol>)
    requires Aligned(st)
    ensures OnlySold(st, FlattenAll(c, gate, snap, reasons, fallback, st, symbols))
  {
    if symbols == [] {
      assert st.entries.Keys - st.entries.Keys == {};
    } else {
      var last := |symbols| - 1;
      FlattenAllOnlySells(c, gate, snap, reasons, fallback, st, symbols[..last]);
      FlattenAllConserves(c, gate, snap, reasons, fallback, st, symbols[..last]);
      var mid := FlattenAll(c, gate, snap, reasons, fallback, st, symbols[..last]);
      var r := FlattenAll(c, gate, snap, reasons, fallback, st, symbols);
      var sold := FlattenStepOutcome(c, gate, snap, reasons, fallback, mid, symbols[last]);
      OnlySoldStep(st, mid, r, symbols[last], sold);
    }
  }

  /** The symbol is closed, or the gate vetoed closing it. */
  ghost predicate ClosedOrVetoed(before: State, after: State, s: Symbol) {
    !Has(after.positions, s)
    || exists i :: |before.log| <= i < |after.log| && after.log[i].Vetoed? && after.log[i].symbol == s
  }

  lemma FlattenStepSettles(c: Costs, gate: Gate, snap: Snapshot, reasons: map<Symbol, string>, fallback: string,
                           st: State, mid: State, last: Symbol, s: Symbol)
    requires |st.log| <= |mid.log| && s in snap.marks && snap.marks[s] > 0.0
    requires s == last || ClosedOrVetoed(st, mid, s)
    ensures ClosedOrVetoed(st, FlattenStep(c, gate, snap, reasons, fallback, mid, last), s)
  {
    hide Bump, Keys;
    var r := FlattenStep(c, gate, snap, reasons, fallback, mid, last);
    assert mid.log <= r.log;
    if s == last && Has(r.positions, s) {
      assert r.log[|mid.log|].Vetoed? && r.log[|mid.log|].symbol == s;
    } else if s != last && Has(mid.positions, s) {
      var i :| |st.log| <= i < |mid.log| && mid.log[i].Vetoed? && mid.log[i].symbol == s;
      assert r.log[i] == mid.log[i];
    }
  }

  /** A flatten leaves no position with a positive close open, unless the gate vetoed closing it. */
  lemma {:induction false} FlattenSettlesPriced(c: Costs, gate: Gate, snap: Snapshot, reasons: map<Symbol, string>,
                                                fallback: string, st: State, symbols: seq<Symbol>, s: Symbol)
    requires s in symbols && s in snap.marks && snap.marks[s] > 0.0
    ensures ClosedOrVetoed(st, FlattenAll(c, gate, snap, reasons, fallback, st, symbols), s)
  {
    hide FlattenStep, ClosedOrVetoed;
    var front, last := symbols[..|symbols| - 1], symbols[|symbols| - 1];
    assert symbols == front + [last];
    if s != last {
      FlattenSettlesPriced(c, gate, snap, reasons, fallback, st, front, s);
    }
    FlattenAllExtendsLog(c, gate, snap, reasons, fallback, st, front);
    FlattenStepSettles(c, gate, snap, reasons, fallback, st, FlattenAll(c, gate, snap, reasons, fallback, st, front),
                       last, s);
  }

  lemma {:induction false} DistinctSymbols(d: Dict<Symbol, Lot>)
    requires Unique(d)
    ensures forall i, j :: 0 <= i < j < |d| ==> d[i].key != d[j].key
    ensures forall i :: 0 <= i < |d| ==> Has(d, d[i].key)
  {
    if d == [] {
    } else {
      DistinctSymbols(d[1..]);
      forall j | 0 < j < |d| ensures d[0].key != d[j].key && Has(d, d[j].key) {
        assert d[j] == d[1..][j - 1];
      }
      forall i, j | 0 < i < j < |d| ensures d[i].key != d[j].key {
        assert d[1..][i - 1].key != d[1..][j - 1].key;
      }
    }
  }

  lemma {:induction false} SymbolsOfHolds(positions: Dict<Symbol, Lot>, s: Symbol)
    ensures s in SymbolsOf(positions) <==> Has(positions, s)
  {
    if positions == [] {
    } else {
      SymbolsOfHolds(positions[1..], s);
      assert SymbolsOf(positions) == [positions[0].key] + SymbolsOf(positions[1..]);
    }
  }

  /** After the session-end flatten a position with a positive close is open only if it was vetoed. */
  lemma LiquidateSettlesPriced(c: Costs, gate: Gate, st: State, closes: map<Symbol, real>, day: int,
                               quotes: map<Symbol, Bar>, reasons: map<Symbol, string>, fallback: string, s: Symbol)
    requires Has(st.positions, s) && s in closes && closes[s] > 0.0
    ensures ClosedOrVetoed(st, Liquidate(c, gate, st, closes, day, quotes, reasons, fallback), s)
  {
    hide FlattenAll, ClosedOrVetoed;
    SymbolsOfHolds(st.positions, s);
    FlattenSettlesPriced(c, gate, Snap(st, day, closes, quotes), reasons, fallback, st, SymbolsOf(st.positions), s);
  }

  lemma SelectLast(orders: seq<Order>, p: Order -> bool)
    requires orders != []
    ensures var front, o := orders[..|orders| - 1], orders[|orders| - 1];
      Select(orders, p) == if p(o) then Select(front, p) + [o] else Select(front, p)
  {
  }

  lemma {:induction false} SelectSplits(orders: seq<Order>, p: Order -> bool, q: Order -> bool)
    requires forall o :: p(o) <==> !q(o)
    ensures multiset(orders) == multiset(Select(orders, p)) + multiset(Select(orders, q))
    ensures |orders| == |Select(orders, p)| + |Select(orders, q)|
  {
    if orders == [] {
    } else {
      hide Select;
      var front := orders[..|orders| - 1];
      SelectSplits(front, p, q);
      SelectLast(orders, p);
      SelectLast(orders, q);
      assert orders == front + [orders[|orders| - 1]];
    }
  }

  lemma {:induction false} SelectKeeps(orders: seq<Order>, p: Order -> bool)
    ensures forall o :: o in Select(orders, p) <==> o in orders && p(o)
  {
    if orders == [] {
    } else {
      var last := |orders| - 1;
      SelectKeeps(orders[..last], p);
      assert orders == orders[..last] + [orders[last]];
    }
  }

  /** A drain splits the queue into orders it attempts and orders it carries over, losing none. */
  lemma DrainSplitsQueue(pending: seq<Order>, opens: map<Symbol, real>, policy: MissingOpenPolicy)
    ensures multiset(pending) == multiset(Drained(pending, opens, policy)) + multiset(Carried(pending, opens, policy))
    ensures forall o :: o in Drained(pending, opens, policy) ==> o in pending
  {
    var carry := (o: Order) => policy.RetainMissing? && o.symbol !in opens;
    var now := (o: Order) => !(policy.RetainMissing? && o.symbol !in opens);
    SelectSplits(pending, now, carry);
    SelectKeeps(pending, now);
    assert Drained(pending, opens, policy) == Select(pending, now);
    assert Carried(pending, opens, policy) == Select(pending, carry);
  }

  lemma SidesSplit(orders: seq<Order>)
    ensures |orders| == |OfSide(orders, Sell)| + |OfSide(orders, Buy)|
    ensures forall o, side :: o in OfSide(orders, side) ==> o in orders
  {
    var isSell, isBuy := (o: Order) => o.side == Sell, (o: Order) => o.side == Buy;
    SelectSplits(orders, isSell, isBuy);
    SelectKeeps(orders, isSell);
    SelectKeeps(orders, isBuy);
    assert OfSide(orders, Sell) == Select(orders, isSell) && OfSide(orders, Buy) == Select(orders, isBuy);
  }

  /**
   A drain leaves exactly one record (fill, veto or skip) for each attempted order of positive
   size.
   */
  lemma DrainRecordsEachOrder(c: Costs, gate: Gate, st: State, pending: seq<Order>, opens: map<Symbol, real>,
                              day: int, quotes: map<Symbol, Bar>, policy: MissingOpenPolicy)
    requires forall o :: o in pending && o.side.Buy? ==> o.quantity > 0.0
    ensures |Drain(c, gate, st, pending, opens, day, quotes, policy).log|
         == |st.log| + |Drained(pending, opens, policy)|
  {
    hide Drained, OfSide, RunOrders, Snap;
    DrainSplitsQueue(pending, opens, policy);
    var orders := Drained(pending, opens, policy);
    SidesSplit(orders);
    if orders != [] {
      var sold := RunOrders(c, gate, Snap(st, day, opens, quotes), st, OfSide(orders, Sell));
      EachOrderRecordedOnce(c, gate, Snap(st, day, opens, quotes), st, OfSide(orders, Sell));
      EachOrderRecordedOnce(c, gate, Snap(sold, day, opens, quotes), sold, OfSide(orders, Buy));
    }
  }

  predicate OnSide(r: Record, side: Side) {
    !r.NoAction? && r.side == side
  }

  /** What running orders of one side adds to the audit trail is all on that side. */
  lemma {:induction false} RunOrdersRecordsSide(c: Costs, gate: Gate, snap: Snapshot, st: State, orders: seq<Order>,
                                                side: Side)
    requires forall o :: o in orders ==> o.side == side
    ensures var log := RunOrders(c, gate, snap, st, orders).log;
      st.log <= log && forall i :: |st.log| <= i < |log| ==> OnSide(log[i], side)
  {
    if orders == [] {
    } else {
      var last := |orders| - 1;
      RunOrdersRecordsSide(c, gate, snap, st, orders[..last], side);
      assert orders[last] in orders;
    }
  }

  /** A drain settles every sell before it looks at any buy. */
  lemma DrainSellsFirst(c: Costs, gate: Gate, st: State, pending: seq<Order>, opens: map<Symbol, real>,
                        day: int, quotes: map<Symbol, Bar>, policy: MissingOpenPolicy) returns (turn: nat)
    ensures var log := Drain(c, gate, st, pending, opens, day, quotes, policy).log;
      && |st.log| <= turn <= |log|
      && (forall i :: |st.log| <= i < turn ==> OnSide(log[i], Sell))
      && (forall i :: turn <= i < |log| ==> OnSide(log[i], Buy))
  {
    hide Drained, OfSide, RunOrders, Snap, OnSide;
    var orders := Drained(pending, opens, policy);
    turn := |st.log|;
    if orders != [] {
      OfSideIsOneSided(orders, Sell);
      OfSideIsOneSided(orders, Buy);
      var snap := Snap(st, day, opens, quotes);
      var sold := RunOrders(c, gate, snap, st, OfSide(orders, Sell));
      RunOrdersRecordsSide(c, gate, snap, st, OfSide(orders, Sell), Sell);
      RunOrdersRecordsSide(c, gate, Snap(sold, day, opens, quotes), sold, OfSide(orders, Buy), Buy);
      turn := |sold.log|;
    }
  }

  // ------------------------------------------------------- gates that ignore the data quote

  /** The gate does not look at the data provider's latest bars (the bypassing risk policy). */
  ghost predicate BlindToQuotes(gate: Gate) {
    forall log, o, snap, q :: gate(log, o, snap) == gate(log, o, snap.(quotes := q))
  }

  lemma {:induction false} RunOrdersBlind(c: Costs, gate: Gate, snap: Snapshot, q: map<Symbol, Bar>, st: State,
                                          orders: seq<Order>)
    requires BlindToQuotes(gate)
    ensures RunOrders(c, gate, snap, st, orders) == RunOrders(c, gate, snap.(quotes := q), st, orders)
  {
    if orders == [] {
    } else {
      RunOrdersBlind(c, gate, snap, q, st, orders[..|orders| - 1]);
    }
  }

  lemma {:induction false} FlattenAllBlind(c: Costs, gate: Gate, snap: Snapshot, q: map<Symbol, Bar>,
                                           reasons: map<Symbol, string>, fallback: string, st: State,
                                           symbols: seq<Symbol>)
    requires BlindToQuotes(gate)
    ensures FlattenAll(c, gate, snap, reasons, fallback, st, symbols)
         == FlattenAll(c, gate, snap.(quotes := q), reasons, fallback, st, symbols)
  {
    if symbols == [] {
    } else {
      FlattenAllBlind(c, gate, snap, q, reasons, fallback, st, symbols[..|symbols| - 1]);
    }
  }

  lemma DrainBlind(c: Costs, gate: Gate, st: State, pending: seq<Order>, opens: map<Symbol, real>, day: int,
                   q1: map<Symbol, Bar>, q2: map<Symbol, Bar>, policy: MissingOpenPolicy)
    requires BlindToQuotes(gate)
    ensures Drain(c, gate, st, pending, opens, day, q1, policy) == Drain(c, gate, st, pending, opens, day, q2, policy)
  {
    var orders := Drained(pending, opens, policy);
    if orders != [] {
      var snap := Snap(st, day, opens, q1);
      RunOrdersBlind(c, gate, snap, q2, st, OfSide(orders, Sell));
      var sold := RunOrders(c, gate, snap, st, OfSide(orders, Sell));
      RunOrdersBlind(c, gate, Snap(sold, day, opens, q1), q2, sold, OfSide(orders, Buy));
    }
  }

  lemma LiquidateBlind(c: Costs, gate: Gate, st: State, closes: map<Symbol, real>, day: int, q1: map<Symbol, Bar>,
                       q2: map<Symbol, Bar>, reasons: map<Symbol, string>, fallback: string)
    requires BlindToQuotes(gate)
    ensures Liquidate(c, gate, st, closes, day, q1, reasons, fallback)
         == Liquidate(c, gate, st, closes, day, q2, reasons, fallback)
  {
    FlattenAllBlind(c, gate, Snap(st, day, closes, q1), q2, reasons, fallback, st, SymbolsOf(st.positions));
  }
}
