/**
 What the kernel decides about each order, said outright: what a drain, a session-end flatten and
 a decision step do to the book and write to the audit trail, from the prices, the cash and the
 positions they find.
 */
module KernelDecisions {
  import opened OrderedDict
  import opened KernelSpec
  import opened KernelLaws
  import opened SortedTimes
  import opened Sums

  // ------------------------------------------------------------------------ counting records

  /** Positions in the audit trail of the fills on one side. */
  function FilledAt(log: seq<Record>, side: Side): set<nat> {
    set i: nat | i < |log| && log[i].Filled? && log[i].side == side
  }

  function SkippedAt(log: seq<Record>): set<nat> {
    set i: nat | i < |log| && log[i].Skipped?
  }

  lemma SetGrows(before: set<nat>, after: set<nat>, n: nat, grows: bool)
    requires n !in before && forall i :: i in after <==> i in before || (grows && i == n)
    ensures |after| == |before| + if grows then 1 else 0
  {
    assert after == before + if grows then {n} else {};
  }

  lemma OneMoreRecord(log: seq<Record>, side: Side)
    requires log != []
    ensures var n := |log| - 1;
      && |FilledAt(log, side)| == |FilledAt(log[..n], side)| + (if log[n].Filled? && log[n].side == side then 1 else 0)
      && |SkippedAt(log)| == |SkippedAt(log[..n])| + (if log[n].Skipped? then 1 else 0)
  {
    var n: nat := |log| - 1;
    SetGrows(FilledAt(log[..n], side), FilledAt(log, side), n, log[n].Filled? && log[n].side == side);
    SetGrows(SkippedAt(log[..n]), SkippedAt(log), n, log[n].Skipped?);
  }

  /** The running counts are the numbers of such records. */
  lemma {:induction false} CountsAreRecords(log: seq<Record>, side: Side)
    ensures NumFills(log, side) == |FilledAt(log, side)| && NumSkips(log) == |SkippedAt(log)|
  {
    if log == [] {
      assert FilledAt(log, side) == {} && SkippedAt(log) == {};
    } else {
      var n: nat := |log| - 1;
      CountsAreRecords(log[..n], side);
      OneMoreRecord(log, side);
    }
  }

  // ---------------------------------------------------------------------- what the gate is shown

  /** The mark of a symbol, or the price it was bought at. */
  function Priced(e: Entry<Symbol, Lot>, marks: map<Symbol, real>): real {
    if e.key in marks then marks[e.key] else e.value.price
  }

  function EntryWorth(e: Entry<Symbol, Lot>, marks: map<Symbol, real>): real {
    e.value.qty * Priced(e, marks)
  }

  function EntryWorths(positions: Dict<Symbol, Lot>, marks: map<Symbol, real>): seq<real> {
    seq(|positions|, i requires 0 <= i < |positions| => EntryWorth(positions[i], marks))
  }

  /** Cash plus quantity times mark, summed over the book. */
  function Valuation(cash: real, positions: Dict<Symbol, Lot>, marks: map<Symbol, real>): real {
    cash + Sum(EntryWorths(positions, marks))
  }

  lemma NothingSums()
    ensures Sum([]) == 0.0
  {
  }

  lemma {:induction false} MarketValueIsSum(positions: Dict<Symbol, Lot>, marks: map<Symbol, real>)
    ensures MarketValue(positions, marks) == Sum(EntryWorths(positions, marks))
  {
    hide Sum;
    if positions == [] {
      NothingSums();
    } else {
      MarketValueIsSum(positions[1..], marks);
      var first := EntryWorth(positions[0], marks);
      assert EntryWorths(positions, marks) == [first] + EntryWorths(positions[1..], marks);
      SumOfCons(first, EntryWorths(positions[1..], marks));
    }
  }

  /** One reported position: the lot as it was bought, and as it stands at the mark. */
  ghost predicate Reports(r: Position, e: Entry<Symbol, Lot>, marks: map<Symbol, real>) {
    var mark, bought := Priced(e, marks), e.value.price;
    && r.symbol == e.key && r.quantity == e.value.qty && r.avgEntryPrice == bought && r.currentPrice == mark
    && r.marketValue == mark * e.value.qty && r.unrealizedPnl == (mark - bought) * e.value.qty
    && r.unrealizedPnlPct == if bought == 0.0 then 0.0 else (mark - bought) / bought
  }

  /** Everything the execution service sees of an account at these marks. */
  ghost predicate Shows(snap: Snapshot, day: int, marks: map<Symbol, real>, quotes: map<Symbol, Bar>, cash: real,
                        positions: Dict<Symbol, Lot>) {
    && snap.day == day && snap.marks == marks && snap.quotes == quotes
    && snap.cash == cash && snap.equity == Valuation(cash, positions, marks)
    && |snap.positions| == |positions|
    && forall i :: 0 <= i < |positions| ==> Reports(snap.positions[i], positions[i], marks)
  }

  lemma ReportReports(e: Entry<Symbol, Lot>, marks: map<Symbol, real>)
    ensures Reports(Report(e.key, e.value, marks), e, marks)
  {
  }

  lemma SnapShows(st: State, day: int, marks: map<Symbol, real>, quotes: map<Symbol, Bar>)
    ensures Shows(Snap(st, day, marks, quotes), day, marks, quotes, st.cash, st.positions)
  {
    hide MarketValue, EntryWorths, Reports, Report;
    MarketValueIsSum(st.positions, marks);
    forall i | 0 <= i < |st.positions|
      ensures Reports(Report(st.positions[i].key, st.positions[i].value, marks), st.positions[i], marks)
    {
      ReportReports(st.positions[i], marks);
    }
  }

  // -------------------------------------------------------------------------- one order decided

  /** What a step added to the audit trail, or nothing if it did not only add. */
  function Added(before: State, after: State): seq<Record> {
    if before.log <= after.log then after.log[|before.log|..] else []
  }

  ghost predicate Unmoved(before: State, after: State) {
    before.log <= after.log && after == before.(log := after.log)
  }

  /** A buy pays the open plus slippage, a sell is paid the open less slippage. */
  function BuyPrice(c: Costs, open: real): real {
    open * (1.0 + c.slippage)
  }

  function SellPrice(c: Costs, open: real): real {
    open * (1.0 - c.slippage)
  }

  ghost predicate BoughtAt(c: Costs, day: int, before: State, o: Order, price: real, after: State) {
    && after.cash == before.cash - (price * o.quantity + c.commission)
    && after.positions == before.positions + [Entry(o.symbol, Lot(o.quantity, price))]
    && after.entries == before.entries[o.symbol := EntryState(price, 0)]
    && after.openedOn == before.openedOn[o.symbol := day]
    && after.log == before.log + [Filled(day, o.symbol, Buy, o.quantity, price)]
  }

  /** The whole position at place k is sold, the others keep their order. */
  ghost predicate SoldAt(c: Costs, day: int, before: State, k: nat, price: real, after: State) {
    && k < |before.positions|
    && var s, qty := before.positions[k].key, before.positions[k].value.qty;
       && after.cash == before.cash + (price * qty - c.commission)
       && after.positions == before.positions[..k] + before.positions[k + 1..]
       && after.entries == before.entries - {s} && after.openedOn == before.openedOn - {s}
       && after.log == before.log + [Filled(day, s, Sell, qty, price)]
  }

  /** The position in `s`, by its place in the book. */
  ghost predicate HeldAt(st: State, s: Symbol, k: nat) {
    k < |st.positions| && st.positions[k].key == s
  }

  ghost predicate Holds(st: State, s: Symbol) {
    exists k :: HeldAt(st, s, k)
  }

  function Skip(day: int, o: Order, reason: Reason): Record {
    Skipped(day, o.symbol, o.side, o.quantity, reason)
  }

  /**
   A queued buy: filled in full, exactly when its symbol is not held, its quantity and open are
   positive, the cash covers it at the slipped price with commission, and the gate approves; each
   skip names the first thing missing, and a buy of nothing leaves no record.
   */
  ghost predicate BuyDecided(c: Costs, gate: Gate, snap: Snapshot, before: State, o: Order, after: State) {
    var held, priced := Holds(before, o.symbol), o.symbol in snap.marks;
    var open := if priced then snap.marks[o.symbol] else 0.0;
    var price := BuyPrice(c, open);
    var covered := before.cash >= price * o.quantity + c.commission;
    var clear := !held && o.quantity > 0.0 && open > 0.0 && covered;
    var added := Added(before, after);
    && (added == [Filled(snap.day, o.symbol, Buy, o.quantity, price)] <==> clear && gate(before.log, o, snap))
    && (added == [Vetoed(snap.day, o.symbol, Buy, o.quantity)] <==> clear && !gate(before.log, o, snap))
    && (added == [Skip(snap.day, o, DuplicatePosition)] <==> held)
    && (added == [] <==> !held && o.quantity <= 0.0)
    && (added == [Skip(snap.day, o, MissingNextOpen)] <==> !held && o.quantity > 0.0 && !priced)
    && (added == [Skip(snap.day, o, InvalidNextOpen)] <==> !held && o.quantity > 0.0 && priced && open <= 0.0)
    && (added == [Skip(snap.day, o, InsufficientCash)] <==> !held && o.quantity > 0.0 && open > 0.0 && !covered)
    && (if clear && gate(before.log, o, snap) then BoughtAt(c, snap.day, before, o, price, after) else Unmoved(before, after))
  }

  /**
   A queued sell: the whole position is sold, whatever quantity was asked for, exactly when the
   symbol is held, its open is positive and the gate approves.
   */
  ghost predicate SellDecided(c: Costs, gate: Gate, snap: Snapshot, before: State, o: Order, k: nat, after: State) {
    var held, priced := Holds(before, o.symbol), o.symbol in snap.marks;
    var open := if priced then snap.marks[o.symbol] else 0.0;
    var added := Added(before, after);
    && (held ==> HeldAt(before, o.symbol, k))
    && var whole := if held then o.(quantity := before.positions[k].value.qty) else o;
       var sold := held && open > 0.0 && gate(before.log, whole, snap);
       var price := SellPrice(c, open);
       && (added == [Filled(snap.day, o.symbol, Sell, whole.quantity, price)] <==> sold)
       && (added == [Vetoed(snap.day, o.symbol, Sell, whole.quantity)]
           <==> held && open > 0.0 && !gate(before.log, whole, snap))
       && (added == [Skip(snap.day, o, SellWithoutPosition)] <==> !held)
       && (added == [Skip(snap.day, o, MissingNextOpen)] <==> held && !priced)
       && (added == [Skip(snap.day, o, InvalidNextOpen)] <==> held && priced && open <= 0.0)
       && (if sold then SoldAt(c, snap.day, before, k, price, after) else Unmoved(before, after))
  }

  lemma {:induction false} PlaceOf(d: Dict<Symbol, Lot>, s: Symbol) returns (k: nat)
    ensures Has(d, s) ==> k < |d| && d[k].key == s && Get(d, s) == d[k].value
    ensures !Has(d, s) ==> forall i :: 0 <= i < |d| ==> d[i].key != s
  {
    k := 0;
    if d == [] {
    } else if d[0].key == s {
    } else {
      var rest := PlaceOf(d[1..], s);
      k := rest + 1;
      assert forall i :: 0 < i < |d| ==> d[i] == d[1..][i - 1];
    }
  }

  lemma {:induction false} PutAppends(d: Dict<Symbol, Lot>, s: Symbol, lot: Lot)
    requires !Has(d, s)
    ensures Put(d, s, lot) == d + [Entry(s, lot)]
  {
    if d == [] {
    } else {
      PutAppends(d[1..], s, lot);
    }
  }

  lemma CutLater(d: Dict<Symbol, Lot>, k: nat)
    requires 0 < k < |d|
    ensures d[..k] + d[k + 1..] == [d[0]] + (d[1..][..k - 1] + d[1..][k..])
  {
  }

  lemma {:induction false} RemoveCuts(d: Dict<Symbol, Lot>, s: Symbol, k: nat)
    requires Unique(d) && k < |d| && d[k].key == s
    ensures Remove(d, s) == d[..k] + d[k + 1..]
  {
    hide Keys, Get;
    if k == 0 {
      RemoveAbsent(d[1..], s);
      assert d[..0] + d[1..] == d[1..];
    } else {
      var at := PlaceOf(d[1..], s);
      assert d[1..][k - 1] == d[k];
      RemoveCuts(d[1..], s, k - 1);
      CutLater(d, k);
    }
  }

  lemma OneAdded(before: State, after: State, r: Record)
    requires after.log == before.log + [r]
    ensures Added(before, after) == [r]
  {
  }

  lemma PricesAre(c: Costs, snap: Snapshot, s: Symbol)
    ensures s in snap.marks ==>
              && FillPrice(snap.marks[s], Buy, c.slippage) == BuyPrice(c, snap.marks[s])
              && FillPrice(snap.marks[s], Sell, c.slippage) == SellPrice(c, snap.marks[s])
  {
  }

  lemma NoneAdded(before: State, after: State)
    requires after.log == before.log
    ensures Added(before, after) == []
  {
  }

  lemma BuyIsDecided(c: Costs, gate: Gate, snap: Snapshot, st: State, o: Order)
    requires o.side.Buy?
    ensures BuyDecided(c, gate, snap, st, o, OrderStep(c, gate, snap, st, o))
  {
    PricesAre(c, snap, o.symbol);
    hide Keys, Put, Bump, Unique, Get, Added, FillPrice, BuyPrice;
    var after := OrderStep(c, gate, snap, st, o);
    var k := PlaceOf(st.positions, o.symbol);
    assert Has(st.positions, o.symbol) <==> Holds(st, o.symbol) by {
      assert Has(st.positions, o.symbol) ==> HeldAt(st, o.symbol, k);
    }
    if |after.log| > |st.log| {
      OneAdded(st, after, after.log[|st.log|]);
    } else {
      NoneAdded(st, after);
    }
    if !Has(st.positions, o.symbol) && o.symbol in snap.marks {
      var price := BuyPrice(c, snap.marks[o.symbol]);
      PutAppends(st.positions, o.symbol, Lot(o.quantity, price));
      if SkipReason(c, st, o, snap.marks).None? {
        assert after == Submit(c, gate, snap, st, o);
        assert gate(st.log, o, snap) ==> BoughtAt(c, snap.day, st, o, price, after);
      }
    }
  }

  lemma SellIsDecided(c: Costs, gate: Gate, snap: Snapshot, st: State, o: Order) returns (k: nat)
    requires o.side.Sell? && Unique(st.positions)
    ensures SellDecided(c, gate, snap, st, o, k, OrderStep(c, gate, snap, st, o))
  {
    PricesAre(c, snap, o.symbol);
    hide Keys, Remove, Bump, Unique, Get, Added, FillPrice, SellPrice;
    k := PlaceOf(st.positions, o.symbol);
    assert Has(st.positions, o.symbol) <==> Holds(st, o.symbol) by {
      assert Has(st.positions, o.symbol) ==> HeldAt(st, o.symbol, k);
    }
    var after := OrderStep(c, gate, snap, st, o);
    OneAdded(st, after, after.log[|st.log|]);
    if Has(st.positions, o.symbol) {
      RemoveCuts(st.positions, o.symbol, k);
      var whole := o.(quantity := st.positions[k].value.qty);
      assert Sized(st, o) == whole;
      if o.symbol in snap.marks && snap.marks[o.symbol] > 0.0 {
        var price := SellPrice(c, snap.marks[o.symbol]);
        if gate(st.log, whole, snap) {
          assert after == Submit(c, gate, snap, st, whole);
          assert SoldAt(c, snap.day, st, k, price, after);
        }
      }
    }
  }

  // --------------------------------------------------------------------------- a whole drain

  /** `at` lists, in order, the places in the queue of exactly the orders that satisfy `p`. */
  ghost predicate PlacesOf(orders: seq<Order>, p: Order -> bool, at: seq<nat>) {
    && StrictlyAscending(at)
    && (forall i :: 0 <= i < |at| ==> at[i] < |orders|)
    && (forall j: nat :: j < |orders| ==> (j in at <==> p(orders[j])))
  }

  /** The orders at these places, in that order. */
  ghost predicate AreAt(orders: seq<Order>, pending: seq<Order>, at: seq<nat>) {
    |orders| == |at| && forall i :: 0 <= i < |at| ==> at[i] < |pending| && orders[i] == pending[at[i]]
  }

  lemma OneMorePlace(orders: seq<Order>, p: Order -> bool, at: seq<nat>)
    requires orders != [] && PlacesOf(orders[..|orders| - 1], p, at)
    ensures var n := |orders| - 1; PlacesOf(orders, p, if p(orders[n]) then at + [n] else at)
  {
    var n: nat := |orders| - 1;
    if p(orders[n]) {
      assert forall x :: x in SetOf(at) ==> x < n;
      AscendingGrows(at, n);
      forall j: nat | j < |orders| ensures j in at + [n] <==> p(orders[j]) {
        assert j < n ==> (j in at <==> p(orders[..n][j]));
      }
    } else {
      forall j: nat | j < |orders| ensures j in at <==> p(orders[j]) {
        assert j < n ==> (j in at <==> p(orders[..n][j]));
      }
    }
  }

  lemma OneMoreAt(picked: seq<Order>, orders: seq<Order>, at: seq<nat>)
    requires orders != [] && AreAt(picked, orders[..|orders| - 1], at)
    ensures AreAt(picked, orders, at) && AreAt(picked + [orders[|orders| - 1]], orders, at + [|orders| - 1])
  {
  }

  lemma {:induction false} SelectPlaces(orders: seq<Order>, p: Order -> bool) returns (at: seq<nat>)
    ensures PlacesOf(orders, p, at) && AreAt(Select(orders, p), orders, at)
  {
    at := [];
    if orders == [] {
    } else {
      hide PlacesOf, AreAt, Select;
      var n: nat := |orders| - 1;
      var before := SelectPlaces(orders[..n], p);
      SelectLast(orders, p);
      OneMorePlace(orders, p, before);
      OneMoreAt(Select(orders[..n], p), orders, before);
      at := if p(orders[n]) then before + [n] else before;
    }
  }

  lemma {:induction false} SelectTwice(orders: seq<Order>, p: Order -> bool, q: Order -> bool, both: Order -> bool)
    requires forall o :: both(o) <==> p(o) && q(o)
    ensures Select(Select(orders, p), q) == Select(orders, both)
  {
    if orders == [] {
    } else {
      hide Select;
      var front, o := orders[..|orders| - 1], orders[|orders| - 1];
      SelectTwice(front, p, q, both);
      SelectLast(orders, p);
      SelectLast(orders, both);
      if p(o) {
        SelectLast(Select(front, p) + [o], q);
        assert (Select(front, p) + [o])[..|Select(front, p)|] == Select(front, p);
      }
    }
  }

  /** The drain attempts this order now, on this side. */
  predicate Attempted(o: Order, opens: map<Symbol, real>, policy: MissingOpenPolicy, side: Side) {
    o.side == side && (policy.SkipMissing? || o.symbol in opens)
  }

  /** The attempted orders of one side are those of the queue, in queue order. */
  lemma SidePlaces(pending: seq<Order>, opens: map<Symbol, real>, policy: MissingOpenPolicy, side: Side)
    returns (at: seq<nat>)
    ensures PlacesOf(pending, (o: Order) => Attempted(o, opens, policy, side), at)
    ensures AreAt(OfSide(Drained(pending, opens, policy), side), pending, at)
  {
    var now := (o: Order) => !(policy.RetainMissing? && o.symbol !in opens);
    var onSide := (o: Order) => o.side == side;
    var both := (o: Order) => Attempted(o, opens, policy, side);
    SelectTwice(pending, now, onSide, both);
    at := SelectPlaces(pending, both);
    assert Drained(pending, opens, policy) == Select(pending, now);
    assert OfSide(Drained(pending, opens, policy), side) == Select(Select(pending, now), onSide);
  }

  ghost predicate OrderDecided(c: Costs, gate: Gate, snap: Snapshot, before: State, o: Order, after: State) {
    if o.side.Buy? then BuyDecided(c, gate, snap, before, o, after)
    else exists k :: SellDecided(c, gate, snap, before, o, k, after)
  }

  /** The i-th step decides the order at the i-th listed place of the queue. */
  ghost predicate StepDecided(c: Costs, gate: Gate, snap: Snapshot, pending: seq<Order>, at: seq<nat>, states: seq<State>,
                              i: nat)
    requires i < |at| && |states| == |at| + 1
  {
    at[i] < |pending| && OrderDecided(c, gate, snap, states[i], pending[at[i]], states[i + 1])
  }

  /**
   One side of a drain, order by order: `states` leads from the state before it to the one after,
   every step at the same snapshot.
   */
  ghost predicate SideDecided(c: Costs, gate: Gate, snap: Snapshot, pending: seq<Order>, at: seq<nat>,
                              states: seq<State>) {
    |states| == |at| + 1 && forall i :: 0 <= i < |at| ==> StepDecided(c, gate, snap, pending, at, states, i)
  }

  lemma OrderIsDecided(c: Costs, gate: Gate, snap: Snapshot, st: State, o: Order)
    requires Unique(st.positions)
    ensures OrderDecided(c, gate, snap, st, o, OrderStep(c, gate, snap, st, o))
  {
    hide OrderStep, BuyDecided, SellDecided, Unique;
    if o.side.Buy? {
      BuyIsDecided(c, gate, snap, st, o);
    } else {
      var k := SellIsDecided(c, gate, snap, st, o);
    }
  }

  ghost predicate StepsTo(c: Costs, gate: Gate, snap: Snapshot, states: seq<State>, orders: seq<Order>, i: nat) {
    i < |orders| && i + 1 < |states| && OrderDecided(c, gate, snap, states[i], orders[i], states[i + 1])
  }

  lemma RunOrdersDecides(c: Costs, gate: Gate, snap: Snapshot, st: State, orders: seq<Order>, pending: seq<Order>,
                         at: seq<nat>) returns (states: seq<State>)
    requires Aligned(st) && AreAt(orders, pending, at)
    ensures SideDecided(c, gate, snap, pending, at, states) && |states| == |at| + 1
    ensures states[0] == st && states[|at|] == RunOrders(c, gate, snap, st, orders) && Aligned(states[|at|])
  {
    hide OrderStep, OrderDecided;
    states := [st];
    for n := 0 to |orders|
      invariant |states| == n + 1 && states[0] == st
      invariant states[n] == RunOrders(c, gate, snap, st, orders[..n]) && Aligned(states[n])
      invariant forall i: nat :: i < n ==> StepsTo(c, gate, snap, states, orders, i)
    {
      assert orders[..n + 1][..n] == orders[..n];
      OrderStepAligned(c, gate, snap, states[n], orders[n]);
      OrderIsDecided(c, gate, snap, states[n], orders[n]);
      var longer := states + [OrderStep(c, gate, snap, states[n], orders[n])];
      forall i: nat | i < n + 1 ensures StepsTo(c, gate, snap, longer, orders, i) {
        assert i < n ==> StepsTo(c, gate, snap, states, orders, i);
      }
      states := longer;
    }
    assert orders[..|orders|] == orders;
    forall i | 0 <= i < |at| ensures StepDecided(c, gate, snap, pending, at, states, i) {
      assert StepsTo(c, gate, snap, states, orders, i);
    }
  }

  /** How a drain went: the places of its sells, buys and kept orders in the queue, and the states in between. */
  datatype Course = Course(sells: seq<nat>, buys: seq<nat>, kept: seq<nat>, selling: seq<State>, buying: seq<State>,
                           first: Snapshot, second: Snapshot)

  /**
   A drain decides exactly the queue's attempted orders: all sells in queue order at what the
   account shows before them, then all buys in queue order at what it shows after the sells.  What
   it leaves queued is what the policy retains, in queue order.
   */
  ghost predicate DrainDecided(c: Costs, gate: Gate, before: State, pending: seq<Order>, opens: map<Symbol, real>, day: int,
                               quotes: map<Symbol, Bar>, policy: MissingOpenPolicy, w: Course, after: State,
                               remaining: seq<Order>) {
    && PlacesOf(pending, (o: Order) => Attempted(o, opens, policy, Sell), w.sells)
    && PlacesOf(pending, (o: Order) => Attempted(o, opens, policy, Buy), w.buys)
    && PlacesOf(pending, (o: Order) => policy.RetainMissing? && o.symbol !in opens, w.kept)
    && AreAt(remaining, pending, w.kept)
    && Shows(w.first, day, opens, quotes, before.cash, before.positions)
    && SideDecided(c, gate, w.first, pending, w.sells, w.selling)
    && w.selling[0] == before
    && var sold := w.selling[|w.sells|];
       && Shows(w.second, day, opens, quotes, sold.cash, sold.positions)
       && SideDecided(c, gate, w.second, pending, w.buys, w.buying)
       && w.buying[0] == sold && w.buying[|w.buys|] == after
  }

  lemma DrainRuns(c: Costs, gate: Gate, st: State, pending: seq<Order>, opens: map<Symbol, real>, day: int,
                  quotes: map<Symbol, Bar>, policy: MissingOpenPolicy)
    ensures var orders := Drained(pending, opens, policy);
      var sold := RunOrders(c, gate, Snap(st, day, opens, quotes), st, OfSide(orders, Sell));
      Drain(c, gate, st, pending, opens, day, quotes, policy)
      == RunOrders(c, gate, Snap(sold, day, opens, quotes), sold, OfSide(orders, Buy))
  {
    hide Snap, OrderStep;
  }

  lemma DrainDecides(c: Costs, gate: Gate, st: State, pending: seq<Order>, opens: map<Symbol, real>, day: int,
                     quotes: map<Symbol, Bar>, policy: MissingOpenPolicy) returns (w: Course)
    requires Aligned(st)
    ensures DrainDecided(c, gate, st, pending, opens, day, quotes, policy, w,
                         Drain(c, gate, st, pending, opens, day, quotes, policy), Carried(pending, opens, policy))
  {
    hide RunOrders, OfSide, Drained, Shows, SideDecided, PlacesOf;
    var orders := Drained(pending, opens, policy);
    var sells := SidePlaces(pending, opens, policy, Sell);
    var buys := SidePlaces(pending, opens, policy, Buy);
    OfSideIsOneSided(orders, Sell);
    OfSideIsOneSided(orders, Buy);
    var first := Snap(st, day, opens, quotes);
    SnapShows(st, day, opens, quotes);
    var selling := RunOrdersDecides(c, gate, first, st, OfSide(orders, Sell), pending, sells);
    var sold := selling[|sells|];
    SnapShows(sold, day, opens, quotes);
    var second := Snap(sold, day, opens, quotes);
    var buying := RunOrdersDecides(c, gate, second, sold, OfSide(orders, Buy), pending, buys);
    var kept := SelectPlaces(pending, (o: Order) => policy.RetainMissing? && o.symbol !in opens);
    w := Course(sells, buys, kept, selling, buying, first, second);
    DrainRuns(c, gate, st, pending, opens, day, quotes, policy);
  }

  // ---------------------------------------------------------------------- the session-end flatten

  /**
   One position of a flatten: with a positive close the gate decides on selling all of it, under the
   reasoning of its queued exit or else the engine's; otherwise nothing happens.
   */
  ghost predicate FlattenDecided(c: Costs, gate: Gate, snap: Snapshot, reasons: map<Symbol, string>, fallback: string,
                                 before: State, e: Entry<Symbol, Lot>, k: nat, after: State) {
    var close := if e.key in snap.marks then snap.marks[e.key] else 0.0;
    var exit := Order(e.key, Sell, e.value.qty, if e.key in reasons then reasons[e.key] else fallback, snap.day);
    && HeldAt(before, e.key, k) && before.positions[k] == e
    && (close <= 0.0 ==> after == before)
    && (close > 0.0 && gate(before.log, exit, snap) ==> SoldAt(c, snap.day, before, k, SellPrice(c, close), after))
    && (close > 0.0 && !gate(before.log, exit, snap) ==>
          after == before.(log := before.log + [Vetoed(snap.day, e.key, Sell, e.value.qty)]))
  }

  ghost predicate PositionDecided(c: Costs, gate: Gate, snap: Snapshot, reasons: map<Symbol, string>, fallback: string,
                                  before: State, e: Entry<Symbol, Lot>, after: State) {
    exists k :: FlattenDecided(c, gate, snap, reasons, fallback, before, e, k, after)
  }

  /** The i-th step decides the i-th position of the book as it stood at the start. */
  ghost predicate FlattensNext(c: Costs, gate: Gate, snap: Snapshot, reasons: map<Symbol, string>, fallback: string,
                               book: Dict<Symbol, Lot>, states: seq<State>, i: nat) {
    && i < |book| && i + 1 < |states|
    && PositionDecided(c, gate, snap, reasons, fallback, states[i], book[i], states[i + 1])
  }

  lemma {:induction false} OneEntryEach(d: Dict<Symbol, Lot>, e: Entry<Symbol, Lot>, k: nat)
    requires Unique(d) && e in d
    ensures Has(d, e.key)
    ensures k < |d| && d[k].key == e.key ==> d[k] == e
  {
    if d[0] == e {
      if 0 < k < |d| {
        assert d[1..][k - 1] == d[k];
        var at := PlaceOf(d[1..], e.key);
      }
    } else {
      assert e in d[1..];
      OneEntryEach(d[1..], e, if k == 0 then 0 else k - 1);
      if 0 < k < |d| {
        assert d[1..][k - 1] == d[k];
      }
    }
  }

  lemma FlattenIsDecided(c: Costs, gate: Gate, snap: Snapshot, reasons: map<Symbol, string>, fallback: string, st: State,
                         e: Entry<Symbol, Lot>) returns (k: nat)
    requires Unique(st.positions) && e in st.positions
    ensures FlattenDecided(c, gate, snap, reasons, fallback, st, e, k,
                           FlattenStep(c, gate, snap, reasons, fallback, st, e.key))
  {
    hide Keys, Remove, Bump, Get, FillPrice, SellPrice;
    k := PlaceOf(st.positions, e.key);
    OneEntryEach(st.positions, e, k);
    PricesAre(c, snap, e.key);
    RemoveCuts(st.positions, e.key, k);
  }

  lemma FlattenKeepsOthers(c: Costs, gate: Gate, snap: Snapshot, reasons: map<Symbol, string>, fallback: string,
                           before: State, e: Entry<Symbol, Lot>, k: nat, after: State, other: Entry<Symbol, Lot>)
    requires FlattenDecided(c, gate, snap, reasons, fallback, before, e, k, after)
    requires other in before.positions && other.key != e.key
    ensures other in after.positions
  {
    var j :| 0 <= j < |before.positions| && before.positions[j] == other;
    if after.positions != before.positions {
      assert after.positions[if j < k then j else j - 1] == other;
    }
  }

  /** How a flatten went: what the gate was shown, and the states in between. */
  datatype Settling = Settling(snap: Snapshot, states: seq<State>)

  /** A flatten decides every position once, in book order, at what the account shows before it. */
  ghost predicate FlattenSettled(c: Costs, gate: Gate, before: State, closes: map<Symbol, real>, day: int,
                                 quotes: map<Symbol, Bar>, reasons: map<Symbol, string>, fallback: string, w: Settling,
                                 after: State) {
    && Shows(w.snap, day, closes, quotes, before.cash, before.positions)
    && |w.states| == |before.positions| + 1 && w.states[0] == before && w.states[|before.positions|] == after
    && forall i :: 0 <= i < |before.positions| ==>
         FlattensNext(c, gate, w.snap, reasons, fallback, before.positions, w.states, i)
  }

  lemma FlattenSettles(c: Costs, gate: Gate, st: State, closes: map<Symbol, real>, day: int, quotes: map<Symbol, Bar>,
                       reasons: map<Symbol, string>, fallback: string) returns (w: Settling)
    requires Aligned(st)
    ensures FlattenSettled(c, gate, st, closes, day, quotes, reasons, fallback, w,
                           Liquidate(c, gate, st, closes, day, quotes, reasons, fallback))
  {
    hide FlattenStep, FlattenDecided, Shows, Unique;
    var snap, book, symbols := Snap(st, day, closes, quotes), st.positions, SymbolsOf(st.positions);
    SnapShows(st, day, closes, quotes);
    DistinctSymbols(book);
    var states := [st];
    for n := 0 to |book|
      invariant |states| == n + 1 && states[0] == st && Aligned(states[n])
      invariant states[n] == FlattenAll(c, gate, snap, reasons, fallback, st, symbols[..n])
      invariant forall j :: n <= j < |book| ==> book[j] in states[n].positions
      invariant forall i: nat :: i < n ==> FlattensNext(c, gate, snap, reasons, fallback, book, states, i)
    {
      assert symbols[..n + 1][..n] == symbols[..n];
      var next := FlattenStep(c, gate, snap, reasons, fallback, states[n], symbols[n]);
      FlattenStepAligned(c, gate, snap, reasons, fallback, states[n], symbols[n]);
      var k := FlattenIsDecided(c, gate, snap, reasons, fallback, states[n], book[n]);
      forall j | n + 1 <= j < |book| ensures book[j] in next.positions {
        FlattenKeepsOthers(c, gate, snap, reasons, fallback, states[n], book[n], k, next, book[j]);
      }
      var longer := states + [next];
      forall i: nat | i < n + 1 ensures FlattensNext(c, gate, snap, reasons, fallback, book, longer, i) {
        assert i < n ==> FlattensNext(c, gate, snap, reasons, fallback, book, states, i);
      }
      states := longer;
    }
    assert symbols[..|symbols|] == symbols;
    w := Settling(snap, states);
  }

  // ------------------------------------------------------------------------- the decision step

  /** What the strategy is shown: every bar it may see, the equity, the holdings and their entries. */
  ghost predicate Presents(ctx: Context, st: State, universe: seq<Symbol>, bars: map<Symbol, seq<Bar>>, equity: real)
    requires universe != []
  {
    && ctx.bars == bars && ctx.equity == equity && ctx.entries == st.entries
    && ctx.primary == (if universe[0] in bars then bars[universe[0]] else [])
    && |ctx.holdings| == |st.positions|
    && forall i :: 0 <= i < |st.positions| ==> ctx.holdings[i] == (st.positions[i].key, st.positions[i].value.qty)
  }

  /** The orders are the decision's intents, one each and in order, under its reasoning and the stamp. */
  ghost predicate Queues(orders: seq<Order>, d: Decision, stamp: int) {
    && |orders| == |d.intents|
    && forall i :: 0 <= i < |orders| ==>
         && orders[i].symbol == d.intents[i].symbol && orders[i].side == d.intents[i].side
         && orders[i].quantity == d.intents[i].quantity
         && orders[i].reasoning == d.reasoning && orders[i].decidedAt == stamp
  }

  /**
   One evaluation: the strategy sees one more context, its intents are queued, and the book does not
   change; without intents, and with a primary bar to quote, one no-action record is written.
   */
  ghost predicate Evaluated(strategy: Strategy, before: State, shown: seq<Context>, universe: seq<Symbol>,
                            bars: map<Symbol, seq<Bar>>, equity: real, stamp: int, after: State, seen: seq<Context>,
                            orders: seq<Order>)
    requires universe != []
  {
    && |seen| == |shown| + 1 && seen[..|shown|] == shown
    && var ctx, d := seen[|shown|], strategy(seen);
       && Presents(ctx, before, universe, bars, equity)
       && Queues(orders, d, stamp)
       && after == before.(log := after.log)
       && after.log == before.log + if d.intents != [] || ctx.primary == [] then []
            else [NoAction(universe[0], ctx.primary[|ctx.primary| - 1].start, ctx.primary[|ctx.primary| - 1].close, d.reasoning)]
  }

  lemma DecisionEvaluates(strategy: Strategy, st: State, shown: seq<Context>, universe: seq<Symbol>,
                          bars: map<Symbol, seq<Bar>>, equity: real, stamp: int)
    requires universe != []
    ensures var d := DecisionStep(strategy, st, shown, universe, bars, equity, stamp);
      Evaluated(strategy, st, shown, universe, bars, equity, stamp, d.st, d.shown, d.orders)
  {
  }
}
