/**
 The simulated broker and the backtest kernel, as the objects the replay loops mutate.  Every
 method is proved to compute the corresponding function of KernelSpec on the kernel's state.
 */
module Kernel {
  import opened OrderedDict
  import opened KernelSpec
  import opened KernelLaws
  import opened KernelDecisions
  import opened BarTables

  datatype BrokerOrder = BrokerOrder(day: int, symbol: Symbol, side: Side, quantity: real, price: real)

  datatype SubmitResult = NoPrice | Accepted(order: BrokerOrder)

  datatype Outcome = DidFill | DidSkip | Neither

  /** The audit trail grew by what `outcome` says, all of it on `side`. */
  ghost predicate Tallied(before: seq<Record>, after: seq<Record>, side: Side, outcome: Outcome) {
    && NumFills(after, side) == NumFills(before, side) + (if outcome.DidFill? then 1 else 0)
    && NumFills(after, if side.Buy? then Sell else Buy) == NumFills(before, if side.Buy? then Sell else Buy)
    && NumSkips(after) == NumSkips(before) + (if outcome.DidSkip? then 1 else 0)
  }

  class SimulatedBroker {
    const slippage: real
    const commission: real
    var day: int
    var closes: map<Symbol, real>
    var cash: real
    var equity: real
    var positions: seq<Position>
    var orders: seq<BrokerOrder>

    constructor (slippage: real, commission: real)
      ensures this.slippage == slippage && this.commission == commission && orders == []
    {
      this.slippage, this.commission := slippage, commission;
      day, closes, cash, equity, positions, orders := 0, map[], 0.0, 0.0, [], [];
    }

    method SetSimulationDay(day: int, closes: map<Symbol, real>)
      modifies this`day, this`closes
      ensures this.day == day && this.closes == closes
    {
      this.day, this.closes := day, closes;
    }

    method UpdateAccount(cash: real, equity: real)
      modifies this`cash, this`equity
      ensures this.cash == cash && this.equity == equity
    {
      this.cash, this.equity := cash, equity;
    }

    method SetPositions(positions: seq<Position>)
      modifies this`positions
      ensures this.positions == positions
    {
      this.positions := positions;
    }

    /** No price without a positive close; otherwise slippage against the trader, no commission. */
    function FillPriceFor(symbol: Symbol, side: Side): (r: Option<real>)
      reads this
      ensures r.Some? <==> symbol in closes && closes[symbol] > 0.0
      ensures r.Some? ==>
                slippage * closes[symbol] == if side.Buy? then r.value - closes[symbol] else closes[symbol] - r.value
    {
      if symbol !in closes || closes[symbol] <= 0.0 then None
      else Some(FillPrice(closes[symbol], side, slippage))
    }

    /** Fill in full at the model price and log the order, or refuse and log nothing. */
    method SubmitOrder(symbol: Symbol, side: Side, quantity: real) returns (r: SubmitResult)
      modifies this`orders
      ensures r.NoPrice? <==> FillPriceFor(symbol, side).None?
      ensures r.NoPrice? ==> orders == old(orders)
      ensures r.Accepted? ==>
        && r.order == BrokerOrder(day, symbol, side, quantity, FillPrice(closes[symbol], side, slippage))
        && orders == old(orders) + [r.order]
    {
      var price := FillPriceFor(symbol, side);
      match price {
        case None => r := NoPrice;
        case Some(p) =>
          r := Accepted(BrokerOrder(day, symbol, side, quantity, p));
          orders := orders + [r.order];
      }
    }
  }

  class BacktestSimulationKernel {
    const costs: Costs
    const gate: Gate
    const bars: Table
    const strategy: Strategy
    const broker: SimulatedBroker

    var cash: real
    var positions: Dict<Symbol, Lot>
    var entries: map<Symbol, EntryState>
    var openedOn: map<Symbol, int>
    var fills: Dict<Symbol, Counts>
    var log: seq<Record>
    var shown: seq<Context>
    var providerDay: int

    function View(): State
      reads this
    {
      State(cash, positions, entries, openedOn, fills, log)
    }

    /** What the execution service sees right now. */
    function Visible(): Snapshot
      reads this, broker
    {
      Snapshot(broker.day, broker.closes, broker.cash, broker.equity, broker.positions, Quotes(bars, providerDay))
    }

    ghost predicate Valid()
      reads this, broker
    {
      && Aligned(View())
      && broker.slippage == costs.slippage
      && broker.commission == costs.commission
    }

    constructor (costs: Costs, gate: Gate, bars: Table, strategy: Strategy, initialCash: real)
      ensures Valid() && fresh(broker)
      ensures View() == Initial(initialCash) && shown == []
      ensures this.costs == costs && this.gate == gate && this.bars == bars && this.strategy == strategy
    {
      this.costs, this.gate, this.bars, this.strategy := costs, gate, bars, strategy;
      cash, positions, entries, openedOn, fills, log := initialCash, [], map[], map[], [], [];
      shown, providerDay := [], 0;
      broker := new SimulatedBroker(costs.slippage, costs.commission);
    }

    function RoundTripCount(): nat
      reads this
    {
      RoundTrips(fills)
    }

    /** Inject day, prices, account and open positions into the broker and the data provider. */
    method SyncBrokerState(day: int, closes: map<Symbol, real>, equity: real)
      requires Valid()
      modifies this`providerDay, broker
      ensures Valid() && View() == old(View())
      ensures Visible() == Snap(View(), day, closes, Quotes(bars, day)).(equity := equity)
    {
      broker.SetSimulationDay(day, closes);
      providerDay := day;
      broker.UpdateAccount(cash, equity);
      var reported: seq<Position> := [];
      for i := 0 to |positions|
        invariant |reported| == i
        invariant forall j :: 0 <= j < i ==>
          reported[j] == Report(positions[j].key, positions[j].value, closes)
      {
        reported := reported + [Report(positions[i].key, positions[i].value, closes)];
      }
      broker.SetPositions(reported);
    }

    /** Submit through the risk gate: vetoed and recorded, or filled by the broker and recorded. */
    method SubmitBacktest(o: Order) returns (price: Option<real>)
      requires Valid()
      requires o.symbol in broker.closes && broker.closes[o.symbol] > 0.0
      modifies this`log, broker`orders
      ensures Valid()
      ensures price.Some? <==> gate(old(log), o, old(Visible()))
      ensures price.Some? ==>
        && price.value == FillPrice(broker.closes[o.symbol], o.side, costs.slippage)
        && log == old(log) + [Filled(broker.day, o.symbol, o.side, o.quantity, price.value)]
      ensures price.None? ==> log == old(log) + [Vetoed(broker.day, o.symbol, o.side, o.quantity)]
    {
      if gate(log, o, Visible()) {
        var result := broker.SubmitOrder(o.symbol, o.side, o.quantity);
        price := Some(result.order.price);
        log := log + [Filled(result.order.day, o.symbol, o.side, o.quantity, result.order.price)];
      } else {
        price := None;
        log := log + [Vetoed(broker.day, o.symbol, o.side, o.quantity)];
      }
    }

    method RecordSkippedOrder(day: int, o: Order, reason: Reason)
      modifies this`log
      ensures log == old(log) + [Skipped(day, o.symbol, o.side, o.quantity, reason)]
    {
      log := log + [Skipped(day, o.symbol, o.side, o.quantity, reason)];
    }

    /** Sell the whole position behind `o` through the gate. */
    method SellPosition(o: Order) returns (filled: bool)
      requires Valid() && o.side.Sell? && Has(positions, o.symbol) && o.quantity == Get(positions, o.symbol).qty
      requires o.symbol in broker.closes && broker.closes[o.symbol] > 0.0
      modifies this`cash, this`positions, this`entries, this`openedOn, this`fills, this`log, broker`orders
      ensures Valid()
      ensures View() == Submit(costs, gate, old(Visible()), old(View()), o)
      ensures filled <==> gate(old(log), o, old(Visible()))
    {
      hide FillPrice, Remove, Keys, Unique;
      SubmitAligned(costs, gate, Visible(), View(), o);
      var price := SubmitBacktest(o);
      filled := price.Some?;
      if filled {
        cash := cash + (price.value * o.quantity - costs.commission);
        positions := Remove(positions, o.symbol);
        entries, openedOn := entries - {o.symbol}, openedOn - {o.symbol};
        fills := Bump(fills, o.symbol, Sell);
      }
    }

    method BuyPosition(o: Order, day: int) returns (filled: bool)
      requires Valid() && o.side.Buy? && day == broker.day
      requires o.symbol in broker.closes && broker.closes[o.symbol] > 0.0
      modifies this`cash, this`positions, this`entries, this`openedOn, this`fills, this`log, broker`orders
      ensures Valid()
      ensures View() == Submit(costs, gate, old(Visible()), old(View()), o)
      ensures filled <==> gate(old(log), o, old(Visible()))
    {
      hide FillPrice, Put, Keys, Unique;
      SubmitAligned(costs, gate, Visible(), View(), o);
      var price := SubmitBacktest(o);
      filled := price.Some?;
      if filled {
        cash := cash - (price.value * o.quantity + costs.commission);
        positions := Put(positions, o.symbol, Lot(o.quantity, price.value));
        entries := entries[o.symbol := EntryState(price.value, 0)];
        openedOn := openedOn[o.symbol := day];
        fills := Bump(fills, o.symbol, Buy);
      }
    }

    /** Record and report a sell that cannot be submitted. */
    method SkipMissingOrInvalidSell(o: Order, opens: map<Symbol, real>, day: int) returns (skipped: bool)
      requires Valid() && o.side.Sell?
      modifies this`log
      ensures Valid()
      ensures skipped <==> !Has(old(positions), o.symbol) || o.symbol !in opens || opens[o.symbol] <= 0.0
      ensures skipped ==>
        log == old(log) + [Skip(day, o, if !Has(old(positions), o.symbol) then SellWithoutPosition
                                        else if o.symbol !in opens then MissingNextOpen else InvalidNextOpen)]
      ensures !skipped ==> log == old(log)
    {
      if !Has(positions, o.symbol) {
        RecordSkippedOrder(day, o, SellWithoutPosition);
        return true;
      }
      if o.symbol !in opens {
        RecordSkippedOrder(day, o, MissingNextOpen);
        return true;
      }
      if opens[o.symbol] <= 0.0 {
        RecordSkippedOrder(day, o, InvalidNextOpen);
        return true;
      }
      return false;
    }

    function BuySkipReason(o: Order, opens: map<Symbol, real>): Option<Reason>
      reads this
      requires o.side.Buy?
    {
      SkipReason(costs, View(), o, opens)
    }

    /** One sell of a drain: skip it, or close its whole position through the gate. */
    method DrainSell(o: Order, opens: map<Symbol, real>, day: int) returns (outcome: Outcome)
      requires Valid() && o.side.Sell? && broker.closes == opens && broker.day == day
      modifies this`cash, this`positions, this`entries, this`openedOn, this`fills, this`log, broker`orders
      ensures Valid() && View() == OrderStep(costs, gate, old(Visible()), old(View()), o)
      ensures Tallied(old(log), log, Sell, outcome)
    {
      hide FillPrice, Put, Remove, Bump, Keys, Unique;
      var passed := SkipMissingOrInvalidSell(o, opens, day);
      if passed {
        outcome := DidSkip;
      } else {
        var filled := SellPosition(o.(quantity := Get(positions, o.symbol).qty));
        outcome := if filled then DidFill else Neither;
      }
      Appended(old(log), log[|old(log)|]);
    }

    /** One buy of a drain: drop it, skip it, or submit it as queued. */
    method DrainBuy(o: Order, opens: map<Symbol, real>, day: int) returns (outcome: Outcome)
      requires Valid() && o.side.Buy? && broker.closes == opens && broker.day == day
      modifies this`cash, this`positions, this`entries, this`openedOn, this`fills, this`log, broker`orders
      ensures Valid() && View() == OrderStep(costs, gate, old(Visible()), old(View()), o)
      ensures Tallied(old(log), log, Buy, outcome)
    {
      var reason := BuySkipReason(o, opens);
      if reason == Some(NonPositiveQuantity) {
        return Neither;
      }
      if reason.Some? {
        RecordSkippedOrder(day, o, reason.value);
        outcome := DidSkip;
      } else {
        var filled := BuyPosition(o, day);
        outcome := if filled then DidFill else Neither;
      }
      Appended(old(log), log[|old(log)|]);
    }

    method DrainSells(sells: seq<Order>, opens: map<Symbol, real>, day: int) returns (sold: nat, skipped: nat)
      requires Valid() && forall o :: o in sells ==> o.side.Sell?
      requires broker.closes == opens && broker.day == day
      modifies this`cash, this`positions, this`entries, this`openedOn, this`fills, this`log, broker`orders
      ensures Valid()
      ensures View() == RunOrders(costs, gate, old(Visible()), old(View()), sells)
      ensures NumFills(log, Sell) == NumFills(old(log), Sell) + sold && NumFills(log, Buy) == NumFills(old(log), Buy)
      ensures NumSkips(log) == NumSkips(old(log)) + skipped
    {
      hide OrderStep, Unique;
      ghost var snap, before := Visible(), View();
      sold, skipped := 0, 0;
      for i := 0 to |sells|
        invariant Valid() && Visible() == snap
        invariant View() == RunOrders(costs, gate, snap, before, sells[..i])
        invariant NumFills(log, Sell) == NumFills(before.log, Sell) + sold
        invariant NumFills(log, Buy) == NumFills(before.log, Buy)
        invariant NumSkips(log) == NumSkips(before.log) + skipped
      {
        assert sells[..i + 1][..i] == sells[..i];
        var outcome := DrainSell(sells[i], opens, day);
        if outcome.DidFill? {
          sold := sold + 1;
        } else if outcome.DidSkip? {
          skipped := skipped + 1;
        }
      }
      assert sells[..|sells|] == sells;
    }

    method DrainBuys(buys: seq<Order>, opens: map<Symbol, real>, day: int) returns (bought: nat, skipped: nat)
      requires Valid() && forall o :: o in buys ==> o.side.Buy?
      requires broker.closes == opens && broker.day == day
      modifies this`cash, this`positions, this`entries, this`openedOn, this`fills, this`log, broker`orders
      ensures Valid()
      ensures View() == RunOrders(costs, gate, old(Visible()), old(View()), buys)
      ensures NumFills(log, Buy) == NumFills(old(log), Buy) + bought && NumFills(log, Sell) == NumFills(old(log), Sell)
      ensures NumSkips(log) == NumSkips(old(log)) + skipped
    {
      hide OrderStep, Unique;
      ghost var snap, before := Visible(), View();
      bought, skipped := 0, 0;
      for i := 0 to |buys|
        invariant Valid() && Visible() == snap
        invariant View() == RunOrders(costs, gate, snap, before, buys[..i])
        invariant NumFills(log, Buy) == NumFills(before.log, Buy) + bought
        invariant NumFills(log, Sell) == NumFills(before.log, Sell)
        invariant NumSkips(log) == NumSkips(before.log) + skipped
      {
        assert buys[..i + 1][..i] == buys[..i];
        var outcome := DrainBuy(buys[i], opens, day);
        if outcome.DidFill? {
          bought := bought + 1;
        } else if outcome.DidSkip? {
          skipped := skipped + 1;
        }
      }
      assert buys[..|buys|] == buys;
    }

    /** Which queued orders this drain attempts, and which it carries over. */
    static method PartitionPending(pending: seq<Order>, opens: map<Symbol, real>, policy: MissingOpenPolicy)
      returns (orders: seq<Order>, remaining: seq<Order>)
      ensures orders == Drained(pending, opens, policy) && remaining == Carried(pending, opens, policy)
    {
      orders, remaining := [], [];
      if policy.SkipMissing? {
        NothingCarried(pending, opens);
        return pending, [];
      }
      for i := 0 to |pending|
        invariant remaining == Carried(pending[..i], opens, policy)
        invariant orders == Drained(pending[..i], opens, policy)
      {
        assert pending[..i + 1] == pending[..i] + [pending[i]];
        CarriedStep(pending[..i], pending[i], opens, policy);
        if pending[i].symbol !in opens {
          remaining := remaining + [pending[i]];
        } else {
          orders := orders + [pending[i]];
        }
      }
      assert pending[..|pending|] == pending;
    }

    /** Fill queued orders at `opens`: sells, re-sync, then buys; carry over what the policy retains. */
    method DrainPendingOrders(pending: seq<Order>, opens: map<Symbol, real>, day: int, policy: MissingOpenPolicy)
      returns (buyCount: nat, sellCount: nat, skippedCount: nat, remaining: seq<Order>)
      requires Valid()
      modifies this`cash, this`positions, this`entries, this`openedOn, this`fills, this`log,
               this`providerDay, broker
      ensures Valid()
      ensures View() == Drain(costs, gate, old(View()), pending, opens, day, Quotes(bars, day), policy)
      ensures remaining == Carried(pending, opens, policy)
      ensures exists w :: DrainDecided(costs, gate, old(View()), pending, opens, day, Quotes(bars, day), policy, w,
                                       View(), remaining)
      ensures NumFills(log, Buy) == NumFills(old(log), Buy) + buyCount
      ensures NumFills(log, Sell) == NumFills(old(log), Sell) + sellCount
      ensures NumSkips(log) == NumSkips(old(log)) + skippedCount
    {
      hide DrainDecided;
      ghost var w := DrainDecides(costs, gate, View(), pending, opens, day, Quotes(bars, day), policy);
      buyCount, sellCount, skippedCount := 0, 0, 0;
      var orders;
      orders, remaining := PartitionPending(pending, opens, policy);
      if orders == [] {
        return;
      }
      var sells, buys := OfSide(orders, Sell), OfSide(orders, Buy);
      OfSideIsOneSided(orders, Sell);
      OfSideIsOneSided(orders, Buy);
      SyncBrokerState(day, opens, Equity(cash, positions, opens));
      assert Visible() == Snap(View(), day, opens, Quotes(bars, day));
      var skippedSells, skippedBuys: nat;
      sellCount, skippedSells := DrainSells(sells, opens, day);
      ghost var sold := View();
      SyncBrokerState(day, opens, Equity(cash, positions, opens));
      assert View() == sold && Visible() == Snap(sold, day, opens, Quotes(bars, day));
      buyCount, skippedBuys := DrainBuys(buys, opens, day);
      skippedCount := skippedSells + skippedBuys;
    }

    /** Set held days of every open position from its fill day. */
    method RefreshHeldDays(days: seq<int>, day: int)
      requires Valid()
      modifies this`entries
      ensures Valid() && View() == RefreshHeld(old(View()), days, day)
    {
      entries := RefreshEntries(entries, openedOn, days, day);
    }

    /** Audit orders that have no next bar before the run ends. */
    method RecordStrandedOrders(pending: seq<Order>, day: int) returns (skipped: nat)
      requires Valid()
      modifies this`log
      ensures Valid() && View() == Stranded(old(View()), pending, day) && skipped == |pending|
      ensures |log| == |old(log)| + |pending| && log[..|old(log)|] == old(log)
      ensures forall i :: 0 <= i < |pending| ==> log[|old(log)| + i] == Skip(day, pending[i], NoNextBar)
    {
      ghost var before := log;
      skipped := 0;
      for i := 0 to |pending|
        invariant skipped == i
        invariant log == before + Stranded(State(0.0, [], map[], map[], [], []), pending[..i], day).log
      {
        RecordSkippedOrder(day, pending[i], NoNextBar);
        skipped := skipped + 1;
      }
      assert pending[..|pending|] == pending;
    }

    /** Close one position at its close, if it has a positive one. */
    method FlattenSymbol(symbol: Symbol, closes: map<Symbol, real>, day: int, fallback: string,
                         reasons: map<Symbol, string>)
      returns (filled: bool)
      requires Valid() && Has(positions, symbol) && broker.closes == closes && broker.day == day
      modifies this`cash, this`positions, this`entries, this`openedOn, this`fills, this`log, broker`orders
      ensures Valid()
      ensures View() == FlattenStep(costs, gate, old(Visible()), reasons, fallback, old(View()), symbol)
      ensures entries.Keys == if filled then old(entries).Keys - {symbol} else old(entries).Keys
      ensures Tallied(old(log), log, Sell, if filled then DidFill else Neither)
    {
      filled := false;
      if symbol in closes && closes[symbol] > 0.0 {
        var reasoning := if symbol in reasons then reasons[symbol] else fallback;
        filled := SellPosition(Order(symbol, Sell, Get(positions, symbol).qty, reasoning, day));
        Appended(old(log), log[|old(log)|]);
      }
    }

    method FlattenSymbols(symbols: seq<Symbol>, closes: map<Symbol, real>, day: int, fallback: string,
                          reasons: map<Symbol, string>)
      returns (flattened: set<Symbol>)
      requires Valid() && broker.closes == closes && broker.day == day
      requires forall i :: 0 <= i < |symbols| ==> symbols[i] in entries
      requires forall i, j :: 0 <= i < j < |symbols| ==> symbols[i] != symbols[j]
      modifies this`cash, this`positions, this`entries, this`openedOn, this`fills, this`log, broker`orders
      ensures Valid()
      ensures View() == FlattenAll(costs, gate, old(Visible()), reasons, fallback, old(View()), symbols)
      ensures flattened == old(entries).Keys - entries.Keys
    {
      hide FlattenStep, Unique, HeldDays, Reported, Report, Keys;
      flattened := {};
      ghost var snap, before := Visible(), View();
      for i := 0 to |symbols|
        invariant Valid() && Visible() == snap
        invariant View() == FlattenAll(costs, gate, snap, reasons, fallback, before, symbols[..i])
        invariant forall j :: i <= j < |symbols| ==> symbols[j] in entries
        invariant entries.Keys <= before.entries.Keys && flattened == before.entries.Keys - entries.Keys
      {
        assert symbols[..i + 1][..i] == symbols[..i];
        var filled := FlattenSymbol(symbols[i], closes, day, fallback, reasons);
        if filled {
          flattened := flattened + {symbols[i]};
        }
      }
      assert symbols[..|symbols|] == symbols;
    }

    /** Flatten every position with a positive close; returns exactly the symbols closed. */
    method LiquidateOpenPositions(closes: map<Symbol, real>, day: int, fallback: string, reasons: map<Symbol, string>)
      returns (flattened: set<Symbol>)
      requires Valid()
      modifies this`cash, this`positions, this`entries, this`openedOn, this`fills, this`log,
               this`providerDay, broker
      ensures Valid()
      ensures View() == Liquidate(costs, gate, old(View()), closes, day, Quotes(bars, day), reasons, fallback)
      ensures exists w :: FlattenSettled(costs, gate, old(View()), closes, day, Quotes(bars, day), reasons, fallback, w,
                                         View())
      ensures flattened == old(entries).Keys - entries.Keys
      ensures NumFills(log, Sell) == NumFills(old(log), Sell) + |flattened|
      ensures NumFills(log, Buy) == NumFills(old(log), Buy) && NumSkips(log) == NumSkips(old(log))
    {
      hide FlattenSettled;
      ghost var w := FlattenSettles(costs, gate, View(), closes, day, Quotes(bars, day), reasons, fallback);
      if positions == [] {
        return {};
      }
      var symbols := SymbolsOf(positions);
      DistinctSymbols(positions);
      SyncBrokerState(day, closes, Equity(cash, positions, closes));
      assert Visible() == Snap(View(), day, closes, Quotes(bars, day));
      FlattenAllOnlySells(costs, gate, Visible(), reasons, fallback, View(), symbols);
      flattened := FlattenSymbols(symbols, closes, day, fallback, reasons);
    }

    /**
     Sync, evaluate once, then queue the intents or record a no-action row: the orders are the
     intents the strategy returns for the contexts now shown, one each and in order.
     */
    method SimulateDecisionStep(universe: seq<Symbol>, barsBySymbol: Table, closes: map<Symbol, real>, equity: real,
                                syncDay: int, stamp: int)
      returns (orders: seq<Order>)
      requires Valid() && universe != []
      modifies this, broker
      ensures Valid()
      ensures Decided(View(), shown, orders)
           == DecisionStep(strategy, old(View()), old(shown), universe, barsBySymbol, equity, stamp)
      ensures Evaluated(strategy, old(View()), old(shown), universe, barsBySymbol, equity, stamp, View(), shown, orders)
      ensures |orders| == |strategy(shown).intents|
      ensures forall i :: 0 <= i < |orders| ==>
        var d := strategy(shown);
        orders[i] == Order(d.intents[i].symbol, d.intents[i].side, d.intents[i].quantity, d.reasoning, stamp)
      ensures NumFills(log, Sell) == NumFills(old(log), Sell) && NumFills(log, Buy) == NumFills(old(log), Buy)
      ensures NumSkips(log) == NumSkips(old(log))
    {
      DecisionEvaluates(strategy, View(), shown, universe, barsBySymbol, equity, stamp);
      SyncBrokerState(syncDay, closes, equity);
      var primary := PrimaryBars(universe, barsBySymbol);
      shown := shown + [Context(primary, barsBySymbol, equity, Holdings(positions), entries)];
      var decision := strategy(shown);
      if decision.intents != [] {
        return Queue(decision, stamp);
      }
      if primary != [] {
        var bar := primary[|primary| - 1];
        log := log + [NoAction(universe[0], bar.start, bar.close, decision.reasoning)];
        Appended(old(log), log[|old(log)|]);
      }
      return [];
    }
  }

  /** Entry states with held days counted from each fill day. */
  method RefreshEntries(entries: map<Symbol, EntryState>, openedOn: map<Symbol, int>, days: seq<int>, day: int)
    returns (done: map<Symbol, EntryState>)
    requires entries.Keys == openedOn.Keys
    ensures done == map s | s in entries :: entries[s].(heldDays := HeldDays(days, openedOn[s], day))
  {
    hide HeldDays;
    done := map[];
    var todo := entries.Keys;
    while todo != {}
      invariant todo <= entries.Keys && done.Keys == entries.Keys - todo
      invariant forall s :: s in done ==> done[s] == entries[s].(heldDays := HeldDays(days, openedOn[s], day))
      decreases |todo|
    {
      var s :| s in todo;
      done := done[s := entries[s].(heldDays := HeldDays(days, openedOn[s], day))];
      todo := todo - {s};
    }
  }
}
