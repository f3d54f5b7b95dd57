/**
 The simulation kernel as a function of its state: what one order, one drain, one
 liquidation and one held-days refresh do to cash, the open book and the audit trail.
 */
module KernelSpec {
  import opened OrderedDict

  /** A normalised ticker; only its identity matters. */
  datatype Symbol = Ticker(id: nat)

  datatype Side = Buy | Sell

  /** Why an order is passed over; a buy of non-positive size is dropped without a record. */
  datatype Reason =
    | SellWithoutPosition | DuplicatePosition | NonPositiveQuantity | MissingNextOpen
    | InvalidNextOpen | InsufficientCash | NoNextBar

  datatype Bar = Bar(start: int, open: real, high: real, low: real, close: real, volume: int)

  /** A queued intent; `decidedAt` is the decision day (daily) or timestamp (intraday). */
  datatype Order = Order(symbol: Symbol, side: Side, quantity: real, reasoning: string, decidedAt: int)

  datatype Lot = Lot(qty: real, price: real)

  datatype EntryState = EntryState(entryPrice: real, heldDays: int)

  datatype Counts = Counts(buys: nat, sells: nat)

  datatype Position = Position(symbol: Symbol, quantity: real, avgEntryPrice: real, currentPrice: real,
                               marketValue: real, unrealizedPnl: real, unrealizedPnlPct: real)

  /**
   What the execution service can see when it decides on an order: the account and positions
   last injected into the broker, the broker's prices, and the data provider's latest bar
   per symbol for the simulation day.
   */
  datatype Snapshot = Snapshot(day: int, marks: map<Symbol, real>, cash: real, equity: real,
                               positions: seq<Position>, quotes: map<Symbol, Bar>)

  /** The audit trail. */
  datatype Record =
    | Filled(day: int, symbol: Symbol, side: Side, qty: real, price: real)
    | Vetoed(day: int, symbol: Symbol, side: Side, qty: real)
    | Skipped(day: int, symbol: Symbol, side: Side, qty: real, reason: Reason)
    | NoAction(symbol: Symbol, barStart: int, close: real, reasoning: string)

  /** Risk: any decision on an order, given everything recorded so far and the snapshot. */
  type Gate = (seq<Record>, Order, Snapshot) -> bool

  datatype Costs = Costs(slippage: real, commission: real)

  datatype State = State(
    cash: real,
    positions: Dict<Symbol, Lot>,
    entries: map<Symbol, EntryState>,
    openedOn: map<Symbol, int>,
    fills: Dict<Symbol, Counts>,
    log: seq<Record>)

  datatype MissingOpenPolicy = SkipMissing | RetainMissing

  /** The parallel books agree: positions, entry state and fill days have the same symbols. */
  ghost predicate Aligned(st: State) {
    && Unique(st.positions)
    && Unique(st.fills)
    && st.entries.Keys == st.openedOn.Keys == Keys(st.positions)
  }

  function Initial(cash: real): State {
    State(cash, [], map[], map[], [], [])
  }

  function MarkOf(marks: map<Symbol, real>, symbol: Symbol, fallback: real): real {
    if symbol in marks then marks[symbol] else fallback
  }

  function LotValue(symbol: Symbol, lot: Lot, marks: map<Symbol, real>): real {
    lot.qty * MarkOf(marks, symbol, lot.price)
  }

  /** Open positions valued at `marks`, each falling back to its own entry price. */
  function MarketValue(positions: Dict<Symbol, Lot>, marks: map<Symbol, real>): real {
    if positions == [] then 0.0
    else
      var e := positions[0];
      LotValue(e.key, e.value, marks) + MarketValue(positions[1..], marks)
  }

  function Equity(cash: real, positions: Dict<Symbol, Lot>, marks: map<Symbol, real>): real {
    cash + MarketValue(positions, marks)
  }

  function Report(symbol: Symbol, lot: Lot, marks: map<Symbol, real>): Position {
    var price := MarkOf(marks, symbol, lot.price);
    Position(symbol, lot.qty, lot.price, price, price * lot.qty, (price - lot.price) * lot.qty,
             if lot.price == 0.0 then 0.0 else (price - lot.price) / lot.price)
  }

  function Reported(positions: Dict<Symbol, Lot>, marks: map<Symbol, real>): seq<Position> {
    seq(|positions|, i requires 0 <= i < |positions| => Report(positions[i].key, positions[i].value, marks))
  }

  /** The broker state after a sync at `marks` on `day`. */
  function Snap(st: State, day: int, marks: map<Symbol, real>, quotes: map<Symbol, Bar>): Snapshot {
    Snapshot(day, marks, st.cash, Equity(st.cash, st.positions, marks), Reported(st.positions, marks), quotes)
  }

  function FillPrice(mark: real, side: Side, slippage: real): real {
    if side.Buy? then mark * (1.0 + slippage) else mark * (1.0 - slippage)
  }

  /** Why an order is passed over before it is submitted, if it is. */
  function SkipReason(c: Costs, st: State, o: Order, opens: map<Symbol, real>): Option<Reason> {
    match o.side
    case Sell =>
      if !Has(st.positions, o.symbol) then Some(SellWithoutPosition)
      else if o.symbol !in opens then Some(MissingNextOpen)
      else if opens[o.symbol] <= 0.0 then Some(InvalidNextOpen)
      else None
    case Buy =>
      if Has(st.positions, o.symbol) then Some(DuplicatePosition)
      else if o.quantity <= 0.0 then Some(NonPositiveQuantity)
      else if o.symbol !in opens then Some(MissingNextOpen)
      else if opens[o.symbol] <= 0.0 then Some(InvalidNextOpen)
      else if st.cash < FillPrice(opens[o.symbol], Buy, c.slippage) * o.quantity + c.commission then Some(InsufficientCash)
      else None
  }

  function CountsOf(fills: Dict<Symbol, Counts>, symbol: Symbol): Counts {
    if Has(fills, symbol) then Get(fills, symbol) else Counts(0, 0)
  }

  function Bump(fills: Dict<Symbol, Counts>, symbol: Symbol, side: Side): Dict<Symbol, Counts> {
    var n := CountsOf(fills, symbol);
    Put(fills, symbol, if side.Buy? then n.(buys := n.buys + 1) else n.(sells := n.sells + 1))
  }

  /** The book once a buy of `o.quantity` at `price` has filled. */
  function BuyFilled(c: Costs, st: State, day: int, o: Order, price: real): State {
    State(st.cash - (price * o.quantity + c.commission),
          Put(st.positions, o.symbol, Lot(o.quantity, price)),
          st.entries[o.symbol := EntryState(price, 0)],
          st.openedOn[o.symbol := day],
          Bump(st.fills, o.symbol, Buy),
          st.log + [Filled(day, o.symbol, Buy, o.quantity, price)])
  }

  /** The book once the whole position in `o.symbol` has been sold at `price`. */
  function SellFilled(c: Costs, st: State, day: int, o: Order, price: real): State {
    State(st.cash + (price * o.quantity - c.commission),
          Remove(st.positions, o.symbol),
          st.entries - {o.symbol},
          st.openedOn - {o.symbol},
          Bump(st.fills, o.symbol, Sell),
          st.log + [Filled(day, o.symbol, Sell, o.quantity, price)])
  }

  /** The quantity an order trades: sells always close the whole position. */
  function Sized(st: State, o: Order): Order {
    if o.side.Sell? && Has(st.positions, o.symbol) then o.(quantity := Get(st.positions, o.symbol).qty) else o
  }

  /** Submit a sized order: vetoed, or filled at the broker's price for its symbol. */
  function Submit(c: Costs, gate: Gate, snap: Snapshot, st: State, o: Order): State
    requires o.symbol in snap.marks
  {
    var price := FillPrice(snap.marks[o.symbol], o.side, c.slippage);
    if !gate(st.log, o, snap) then st.(log := st.log + [Vetoed(snap.day, o.symbol, o.side, o.quantity)])
    else if o.side.Buy? then BuyFilled(c, st, snap.day, o, price)
    else SellFilled(c, st, snap.day, o, price)
  }

  function SkipOrder(st: State, day: int, o: Order, reason: Reason): State {
    if reason == NonPositiveQuantity then st
    else st.(log := st.log + [Skipped(day, o.symbol, o.side, o.quantity, reason)])
  }

  function OrderStep(c: Costs, gate: Gate, snap: Snapshot, st: State, o: Order): State {
    match SkipReason(c, st, o, snap.marks)
    case Some(reason) => SkipOrder(st, snap.day, o, reason)
    case None => Submit(c, gate, snap, st, Sized(st, o))
  }

  function RunOrders(c: Costs, gate: Gate, snap: Snapshot, st: State, orders: seq<Order>): State {
    if orders == [] then st
    else
      var last := |orders| - 1;
      OrderStep(c, gate, snap, RunOrders(c, gate, snap, st, orders[..last]), orders[last])
  }

  /** The orders of `orders` that satisfy `p`, in order. */
  function Select(orders: seq<Order>, p: Order -> bool): seq<Order> {
    if orders == [] then []
    else
      var last := |orders| - 1;
      Select(orders[..last], p) + (if p(orders[last]) then [orders[last]] else [])
  }

  function OfSide(orders: seq<Order>, side: Side): seq<Order> {
    Select(orders, (o: Order) => o.side == side)
  }

  /** Orders a drain carries over: under the retaining policy, those with no open yet. */
  function Carried(pending: seq<Order>, opens: map<Symbol, real>, policy: MissingOpenPolicy): seq<Order> {
    Select(pending, (o: Order) => policy.RetainMissing? && o.symbol !in opens)
  }

  function Drained(pending: seq<Order>, opens: map<Symbol, real>, policy: MissingOpenPolicy): seq<Order> {
    Select(pending, (o: Order) => !(policy.RetainMissing? && o.symbol !in opens))
  }

  /** Sells at one snapshot, then buys at a second snapshot taken once the sells are done. */
  function Drain(c: Costs, gate: Gate, st: State, pending: seq<Order>, opens: map<Symbol, real>, day: int,
                 quotes: map<Symbol, Bar>, policy: MissingOpenPolicy): State {
    var orders := Drained(pending, opens, policy);
    if orders == [] then st
    else
      var sold := RunOrders(c, gate, Snap(st, day, opens, quotes), st, OfSide(orders, Sell));
      RunOrders(c, gate, Snap(sold, day, opens, quotes), sold, OfSide(orders, Buy))
  }

  function SymbolsOf(positions: Dict<Symbol, Lot>): seq<Symbol> {
    seq(|positions|, i requires 0 <= i < |positions| => positions[i].key)
  }

  /** Close one position at the snapshot's price, if it has an honest one. */
  function FlattenStep(c: Costs, gate: Gate, snap: Snapshot, reasons: map<Symbol, string>, fallback: string,
                       st: State, symbol: Symbol): State {
    if symbol !in snap.marks || snap.marks[symbol] <= 0.0 || !Has(st.positions, symbol) then st
    else
      var reasoning := if symbol in reasons then reasons[symbol] else fallback;
      Submit(c, gate, snap, st, Order(symbol, Sell, Get(st.positions, symbol).qty, reasoning, snap.day))
  }

  function FlattenAll(c: Costs, gate: Gate, snap: Snapshot, reasons: map<Symbol, string>, fallback: string,
                      st: State, symbols: seq<Symbol>): State {
    if symbols == [] then st
    else
      var last := |symbols| - 1;
      FlattenStep(c, gate, snap, reasons, fallback,
                  FlattenAll(c, gate, snap, reasons, fallback, st, symbols[..last]), symbols[last])
  }

  /** Close every position that has a positive price in `closes`, in book order. */
  function Liquidate(c: Costs, gate: Gate, st: State, closes: map<Symbol, real>, day: int,
                     quotes: map<Symbol, Bar>, reasons: map<Symbol, string>, fallback: string): State {
    FlattenAll(c, gate, Snap(st, day, closes, quotes), reasons, fallback, st, SymbolsOf(st.positions))
  }

  /** Listed days after `openedOn`, up to and including `asOf`; duplicates count once. */
  function HeldDays(days: seq<int>, openedOn: int, asOf: int): nat {
    |set d | d in days && openedOn < d <= asOf|
  }

  function RefreshHeld(st: State, days: seq<int>, day: int): State {
    st.(entries := map s | s in st.entries ::
        if s in st.openedOn then st.entries[s].(heldDays := HeldDays(days, st.openedOn[s], day)) else st.entries[s])
  }

  /** Completed round trips: per symbol, the smaller of its buy and sell fills. */
  function RoundTrips(fills: Dict<Symbol, Counts>): nat {
    if fills == [] then 0
    else (if fills[0].value.buys < fills[0].value.sells then fills[0].value.buys else fills[0].value.sells)
         + RoundTrips(fills[1..])
  }

  /** Orders still queued when the window ends are audited as skipped, one record each. */
  function Stranded(st: State, pending: seq<Order>, day: int): State {
    st.(log := st.log + seq(|pending|, i requires 0 <= i < |pending| =>
      Skipped(day, pending[i].symbol, pending[i].side, pending[i].quantity, NoNextBar)))
  }

  // ------------------------------------------------------------------------ decision step

  datatype Intent = Intent(symbol: Symbol, side: Side, quantity: real)

  /** What a strategy is shown: primary bars, every symbol's bars, equity, holdings, entry state. */
  datatype Context = Context(primary: seq<Bar>, bars: map<Symbol, seq<Bar>>, equity: real,
                             holdings: seq<(Symbol, real)>, entries: map<Symbol, EntryState>)

  datatype Decision = Decision(intents: seq<Intent>, reasoning: string)

  /** A strategy is any function of everything it has been shown so far, the latest context last. */
  type Strategy = seq<Context> -> Decision

  datatype Decided = Decided(st: State, shown: seq<Context>, orders: seq<Order>)

  function Holdings(positions: Dict<Symbol, Lot>): seq<(Symbol, real)> {
    seq(|positions|, i requires 0 <= i < |positions| => (positions[i].key, positions[i].value.qty))
  }

  /** The primary symbol's own bars, or none: another symbol's bars are never substituted. */
  function PrimaryBars(universe: seq<Symbol>, bars: map<Symbol, seq<Bar>>): seq<Bar>
    requires universe != []
  {
    if universe[0] in bars then bars[universe[0]] else []
  }

  function Queue(d: Decision, stamp: int): seq<Order> {
    seq(|d.intents|, i requires 0 <= i < |d.intents| =>
      Order(d.intents[i].symbol, d.intents[i].side, d.intents[i].quantity, d.reasoning, stamp))
  }

  /** Evaluate once; queue the intents, or record a no-action row quoting the primary's own bar. */
  function DecisionStep(strategy: Strategy, st: State, shown: seq<Context>, universe: seq<Symbol>,
                        bars: map<Symbol, seq<Bar>>, equity: real, stamp: int): Decided
    requires universe != []
  {
    var primary := PrimaryBars(universe, bars);
    var seen := shown + [Context(primary, bars, equity, Holdings(st.positions), st.entries)];
    var d := strategy(seen);
    if d.intents != [] then Decided(st, seen, Queue(d, stamp))
    else if primary != [] then
      var bar := primary[|primary| - 1];
      Decided(st.(log := st.log + [NoAction(universe[0], bar.start, bar.close, d.reasoning)]), seen, [])
    else Decided(st, seen, [])
  }
}
