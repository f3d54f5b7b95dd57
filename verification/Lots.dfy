/**
 First-in-first-out lot matching of trades, and the share-by-share queue it stands for.
 */
module Lots {
  import opened OrderedDict
  import opened SortedTimes
  import opened Sums

  datatype Side = Buy | Sell | Other

  /** `recorded` is the recording time trades are sorted by, `date` its calendar day when it parses. */
  datatype Trade = Trade(side: Side, symbol: nat, qty: real, price: real, recorded: int, date: Option<int>)

  datatype Lot = Lot(qty: real, price: real, date: Option<int>)

  /** What is left of a lot at or below this is dropped as dust. */
  const DUST := 0.000000001

  function Least(a: real, b: real): real {
    if b < a then b else a
  }

  /** Profit of selling `qty` of a lot at `price`. */
  function Profit(lot: Lot, price: real, qty: real): real {
    (price - lot.price) * qty
  }

  /** A sale: the profit of each match in order, the lots left, and the quantities matched and dropped. */
  datatype Sale = Sale(pnls: seq<real>, lots: seq<Lot>, matched: real, dust: real)

  /** Match `qty` against the lots from the front. */
  function SellFrom(lots: seq<Lot>, qty: real, price: real): Sale
    decreases |lots|
  {
    if qty <= 0.0 || lots == [] then Sale([], lots, 0.0, 0.0)
    else
      var m := Least(qty, lots[0].qty);
      var left := lots[0].qty - m;
      if left <= DUST then
        var rest := SellFrom(lots[1..], qty - m, price);
        Sale([Profit(lots[0], price, m)] + rest.pnls, rest.lots, m + rest.matched, left + rest.dust)
      else
        Sale([Profit(lots[0], price, m)], [lots[0].(qty := left)] + lots[1..], m, 0.0)
  }

  /** Days between purchase and sale, where both are dated. */
  function Held(lot: Lot, sold: Option<int>): seq<int> {
    if lot.date.Some? && sold.Some? then [sold.value - lot.date.value] else []
  }

  /** The holding days of the same matches, in order. */
  function HoldsFrom(lots: seq<Lot>, qty: real, sold: Option<int>): seq<int>
    decreases |lots|
  {
    if qty <= 0.0 || lots == [] then []
    else
      var m := Least(qty, lots[0].qty);
      Held(lots[0], sold) + if lots[0].qty - m <= DUST then HoldsFrom(lots[1..], qty - m, sold) else []
  }

  function Total(lots: seq<Lot>): real {
    if lots == [] then 0.0 else lots[0].qty + Total(lots[1..])
  }

  /** Every quantity offered is matched, left or dropped as dust: nothing is lost or made. */
  lemma {:induction false} SaleConserves(lots: seq<Lot>, qty: real, price: real)
    ensures var s := SellFrom(lots, qty, price); Total(lots) == s.matched + Total(s.lots) + s.dust
    decreases |lots|
  {
    if qty > 0.0 && lots != [] {
      var m := Least(qty, lots[0].qty);
      if lots[0].qty - m <= DUST {
        SaleConserves(lots[1..], qty - m, price);
      }
    }
  }

  /** Each match drops at most one piece of dust, itself at most the threshold. */
  lemma {:induction false} DustIsBounded(lots: seq<Lot>, qty: real, price: real)
    ensures var s := SellFrom(lots, qty, price);
      0.0 <= s.dust <= DUST * |s.pnls| as real && |s.pnls| + |s.lots| <= |lots| + 1
    decreases |lots|
  {
    if qty > 0.0 && lots != [] {
      var m := Least(qty, lots[0].qty);
      if lots[0].qty - m <= DUST {
        DustIsBounded(lots[1..], qty - m, price);
        var rest := SellFrom(lots[1..], qty - m, price);
        assert DUST * (1 + |rest.pnls|) as real == DUST + DUST * |rest.pnls| as real;
      }
    }
  }

  // ------------------------------------------------------------------------------- the loops

  /** The lots once `m` of the front one has been matched. */
  function AfterMatch(lots: seq<Lot>, m: real): seq<Lot>
    requires lots != []
  {
    var entry := lots[0].(qty := lots[0].qty - m);
    if entry.qty <= DUST then lots[1..] else [entry] + lots[1..]
  }

  lemma MatchFront(lots: seq<Lot>, qty: real, price: real, sold: Option<int>)
    requires qty > 0.0 && lots != []
    ensures var m := Least(qty, lots[0].qty);
      var more := AfterMatch(lots, m);
      && SellFrom(lots, qty, price).pnls == [Profit(lots[0], price, m)] + SellFrom(more, qty - m, price).pnls
      && SellFrom(lots, qty, price).lots == SellFrom(more, qty - m, price).lots
      && HoldsFrom(lots, qty, sold) == Held(lots[0], sold) + HoldsFrom(more, qty - m, sold)
      && (|more| < |lots| || (|more| == |lots| && qty - m <= 0.0))
  {
    hide Profit, Held;
  }

  lemma NothingToSell(lots: seq<Lot>, qty: real, price: real, sold: Option<int>)
    requires qty <= 0.0 || lots == []
    ensures SellFrom(lots, qty, price) == Sale([], lots, 0.0, 0.0) && HoldsFrom(lots, qty, sold) == []
  {
  }

  // --------------------------------------------------------------- a sale, match by match

  /** What the i-th of n matches takes: its whole lot, but for the last no more than is still to sell. */
  function Taken(lots: seq<Lot>, qty: real, n: nat, i: nat): real
    requires i < n <= |lots|
  {
    var asked := qty - Total(lots[..i]);
    if i + 1 < n || lots[i].qty <= asked then lots[i].qty else asked
  }

  /** Selling `qty` takes the first n lots; a rest of the last one stays in front unless it is dust. */
  ghost predicate TakesFront(lots: seq<Lot>, qty: real, price: real, n: nat, pnls: seq<real>, left: seq<Lot>) {
    && n <= |lots| && |pnls| == n
    && (forall i :: 0 <= i < n ==> pnls[i] == Profit(lots[i], price, Taken(lots, qty, n, i)))
    && (forall i :: 0 <= i < n ==> Total(lots[..i]) < qty)
    && (n == |lots| || n == 0 || Total(lots[..n]) >= qty) && (n == 0 ==> qty <= 0.0 || lots == [])
    && left == if n > 0 && lots[n - 1].qty - Taken(lots, qty, n, n - 1) > DUST
               then [lots[n - 1].(qty := lots[n - 1].qty - Taken(lots, qty, n, n - 1))] + lots[n..]
               else lots[n..]
  }

  function Later(at: seq<nat>): seq<nat> {
    seq(|at|, i requires 0 <= i < |at| => at[i] + 1)
  }

  lemma LaterHas(at: seq<nat>, j: nat)
    ensures j in Later(at) <==> j > 0 && j - 1 in at
  {
    if j > 0 && j - 1 in at {
      var i :| 0 <= i < |at| && at[i] == j - 1;
      assert Later(at)[i] == j;
    }
  }

  lemma LaterAscends(at: seq<nat>)
    requires StrictlyAscending(at)
    ensures StrictlyAscending(Later(at)) && StrictlyAscending([0] + Later(at))
  {
  }

  /** The places of the matches, once the front lot is one of them or is undated. */
  function WithFront(lots: seq<Lot>, sold: Option<int>, at: seq<nat>): seq<nat>
    requires lots != []
  {
    if lots[0].date.Some? && sold.Some? then [0] + Later(at) else Later(at)
  }

  /** The places hold exactly the matches of dated lots, in order. */
  ghost predicate DatedMatches(lots: seq<Lot>, sold: Option<int>, n: nat, at: seq<nat>) {
    && StrictlyAscending(at)
    && forall j: nat :: j in at <==> j < n && j < |lots| && lots[j].date.Some? && sold.Some?
  }

  lemma LaterMatches(lots: seq<Lot>, sold: Option<int>, n: nat, at: seq<nat>)
    requires lots != [] && DatedMatches(lots[1..], sold, n, at)
    ensures DatedMatches(lots, sold, n + 1, WithFront(lots, sold, at))
  {
    hide StrictlyAscending, Later;
    LaterAscends(at);
    forall j: nat ensures j in WithFront(lots, sold, at) <==> j < n + 1 && j < |lots| && lots[j].date.Some? && sold.Some? {
      LaterHas(at, j);
      if 0 < j < |lots| {
        assert lots[j] == lots[1..][j - 1];
      }
    }
  }

  /** The holding time of the match at each place. */
  ghost predicate MeasuresAt(lots: seq<Lot>, sold: Option<int>, at: seq<nat>, holds: seq<int>) {
    && |at| == |holds|
    && forall i :: 0 <= i < |at| && at[i] < |lots| && lots[at[i]].date.Some? && sold.Some? ==>
         holds[i] == sold.value - lots[at[i]].date.value
  }

  lemma LaterMeasures(lots: seq<Lot>, sold: Option<int>, at: seq<nat>, holds: seq<int>)
    requires lots != [] && MeasuresAt(lots[1..], sold, at, holds)
    ensures MeasuresAt(lots, sold, Later(at), holds)
  {
    forall i | 0 <= i < |at| && at[i] + 1 < |lots| && lots[at[i] + 1].date.Some? && sold.Some?
      ensures holds[i] == sold.value - lots[at[i] + 1].date.value
    {
      assert lots[at[i] + 1] == lots[1..][at[i]];
    }
  }

  lemma FrontMeasures(lots: seq<Lot>, sold: Option<int>, at: seq<nat>, holds: seq<int>)
    requires lots != [] && lots[0].date.Some? && sold.Some? && MeasuresAt(lots, sold, at, holds)
    ensures MeasuresAt(lots, sold, [0] + at, Held(lots[0], sold) + holds)
  {
  }

  /** One holding time per match of a dated lot, in order, if the sale is dated. */
  ghost predicate HoldsAt(lots: seq<Lot>, sold: Option<int>, n: nat, at: seq<nat>, holds: seq<int>) {
    DatedMatches(lots, sold, n, at) && MeasuresAt(lots, sold, at, holds)
  }

  lemma LaterHolds(lots: seq<Lot>, sold: Option<int>, n: nat, at: seq<nat>, holds: seq<int>)
    requires lots != [] && HoldsAt(lots[1..], sold, n, at, holds)
    ensures HoldsAt(lots, sold, n + 1, WithFront(lots, sold, at), Held(lots[0], sold) + holds)
  {
    hide DatedMatches, MeasuresAt, Later;
    LaterMatches(lots, sold, n, at);
    LaterMeasures(lots, sold, at, holds);
    if lots[0].date.Some? && sold.Some? {
      FrontMeasures(lots, sold, Later(at), holds);
    } else {
      assert Held(lots[0], sold) + holds == holds;
    }
  }

  lemma NothingTaken(lots: seq<Lot>, qty: real, price: real, sold: Option<int>)
    requires qty <= 0.0 || lots == []
    ensures TakesFront(lots, qty, price, 0, [], lots) && HoldsAt(lots, sold, 0, [], [])
  {
  }

  lemma OneHeld(lots: seq<Lot>, sold: Option<int>)
    requires lots != []
    ensures HoldsAt(lots, sold, 1, WithFront(lots, sold, []), Held(lots[0], sold))
  {
  }

  lemma TotalOfMore(lots: seq<Lot>, i: nat)
    requires 0 < i <= |lots|
    ensures Total(lots[..i]) == lots[0].qty + Total(lots[1..][..i - 1])
  {
    assert lots[..i][1..] == lots[1..][..i - 1];
  }

  lemma NothingTotals()
    ensures Total([]) == 0.0
  {
  }

  lemma TakesOneMore(lots: seq<Lot>, qty: real, price: real, n: nat, pnls: seq<real>, left: seq<Lot>)
    requires lots != [] && 0.0 < qty && lots[0].qty <= qty && TakesFront(lots[1..], qty - lots[0].qty, price, n, pnls, left)
    ensures TakesFront(lots, qty, price, n + 1, [Profit(lots[0], price, lots[0].qty)] + pnls, left)
  {
    hide Total, Profit;
    var rest, more := lots[1..], [Profit(lots[0], price, lots[0].qty)] + pnls;
    assert Total(lots[..0]) == 0.0 by { assert lots[..0] == []; NothingTotals(); }
    forall i | 0 < i <= n ensures Total(lots[..i]) == lots[0].qty + Total(rest[..i - 1]) {
      TotalOfMore(lots, i);
    }
    TotalOfMore(lots, n + 1);
    assert forall i :: 0 < i < n + 1 ==> more[i] == pnls[i - 1] && lots[i] == rest[i - 1];
    assert lots[n + 1..] == rest[n..];
  }

  lemma TakesPart(lots: seq<Lot>, qty: real, price: real)
    requires lots != [] && 0.0 < qty < lots[0].qty
    ensures var left := lots[0].qty - qty;
      TakesFront(lots, qty, price, 1, [Profit(lots[0], price, qty)],
                 (if left > DUST then [lots[0].(qty := left)] else []) + lots[1..])
  {
    TotalOfMore(lots, 1);
    assert lots[1..][..0] == [] && lots[..0] == [];
  }

  lemma WholeLotSold(lots: seq<Lot>, qty: real, price: real, sold: Option<int>)
    requires lots != [] && 0.0 < qty && lots[0].qty <= qty
    ensures var s, rest := SellFrom(lots, qty, price), SellFrom(lots[1..], qty - lots[0].qty, price);
      && s.pnls == [Profit(lots[0], price, lots[0].qty)] + rest.pnls && s.lots == rest.lots
      && HoldsFrom(lots, qty, sold) == Held(lots[0], sold) + HoldsFrom(lots[1..], qty - lots[0].qty, sold)
  {
    hide Profit, Held;
  }

  lemma PartSold(lots: seq<Lot>, qty: real, price: real, sold: Option<int>)
    requires lots != [] && 0.0 < qty < lots[0].qty
    ensures var s, left := SellFrom(lots, qty, price), lots[0].qty - qty;
      && s.pnls == [Profit(lots[0], price, qty)]
      && s.lots == (if left > DUST then [lots[0].(qty := left)] else []) + lots[1..]
      && HoldsFrom(lots, qty, sold) == Held(lots[0], sold)
  {
    hide Profit, Held;
    NothingToSell(lots[1..], qty - qty, price, sold);
  }

  /** Every sale, of any quantities: the lots it takes, what each match makes, and what it leaves. */
  lemma {:induction false} SaleTakesFront(lots: seq<Lot>, qty: real, price: real, sold: Option<int>)
    returns (n: nat, at: seq<nat>)
    ensures TakesFront(lots, qty, price, n, SellFrom(lots, qty, price).pnls, SellFrom(lots, qty, price).lots)
    ensures HoldsAt(lots, sold, n, at, HoldsFrom(lots, qty, sold))
    decreases |lots|
  {
    hide HoldsAt, TakesFront, WithFront, Profit, Held, SellFrom, HoldsFrom;
    if qty <= 0.0 || lots == [] {
      n, at := 0, [];
      NothingToSell(lots, qty, price, sold);
      NothingTaken(lots, qty, price, sold);
    } else if lots[0].qty <= qty {
      var rest := qty - lots[0].qty;
      n, at := SaleTakesFront(lots[1..], rest, price, sold);
      TakesOneMore(lots, qty, price, n, SellFrom(lots[1..], rest, price).pnls, SellFrom(lots[1..], rest, price).lots);
      LaterHolds(lots, sold, n, at, HoldsFrom(lots[1..], rest, sold));
      WholeLotSold(lots, qty, price, sold);
      n, at := n + 1, WithFront(lots, sold, at);
    } else {
      TakesPart(lots, qty, price);
      OneHeld(lots, sold);
      PartSold(lots, qty, price, sold);
      n, at := 1, WithFront(lots, sold, []);
    }
  }

  /** The inner loop: match the sale against the front lot until either runs out. */
  method MatchSale(lots: seq<Lot>, qty: real, price: real, sold: Option<int>)
    returns (pnls: seq<real>, holds: seq<int>, left: seq<Lot>)
    ensures pnls == SellFrom(lots, qty, price).pnls && left == SellFrom(lots, qty, price).lots
    ensures holds == HoldsFrom(lots, qty, sold)
    ensures exists n, at :: TakesFront(lots, qty, price, n, pnls, left) && HoldsAt(lots, sold, n, at, holds)
  {
    hide Profit, SellFrom, HoldsFrom, AfterMatch, Least, TakesFront, HoldsAt;
    ghost var n, at := SaleTakesFront(lots, qty, price, sold);
    var remaining := qty;
    pnls, holds, left := [], [], lots;
    while remaining > 0.0 && left != []
      invariant pnls + SellFrom(left, remaining, price).pnls == SellFrom(lots, qty, price).pnls
      invariant SellFrom(left, remaining, price).lots == SellFrom(lots, qty, price).lots
      invariant holds + HoldsFrom(left, remaining, sold) == HoldsFrom(lots, qty, sold)
      decreases |left|, if remaining > 0.0 then 1 else 0
    {
      MatchFront(left, remaining, price, sold);
      var entry := left[0];
      var m := Least(remaining, entry.qty);
      pnls := pnls + [Profit(entry, price, m)];
      if sold.Some? && entry.date.Some? {
        holds := holds + [sold.value - entry.date.value];
      }
      remaining := remaining - m;
      left := AfterMatch(left, m);
    }
    NothingToSell(left, remaining, price, sold);
  }

  datatype Book = Book(pending: map<nat, seq<Lot>>, pnls: seq<real>, holds: seq<int>)

  function PendingOf(pending: map<nat, seq<Lot>>, symbol: nat): seq<Lot> {
    if symbol in pending then pending[symbol] else []
  }

  function LotOf(t: Trade): Lot {
    Lot(t.qty, t.price, t.date)
  }

  /** One trade: a buy queues a lot, a sell is matched, anything else is ignored. */
  function ApplyTrade(b: Book, t: Trade): Book {
    match t.side
    case Buy => b.(pending := b.pending[t.symbol := PendingOf(b.pending, t.symbol) + [LotOf(t)]])
    case Sell =>
      var s := SellFrom(PendingOf(b.pending, t.symbol), t.qty, t.price);
      Book(b.pending[t.symbol := s.lots], b.pnls + s.pnls,
           b.holds + HoldsFrom(PendingOf(b.pending, t.symbol), t.qty, t.date))
    case Other => b
  }

  function BookAfter(trades: seq<Trade>): Book {
    if trades == [] then Book(map[], [], []) else ApplyTrade(BookAfter(trades[..|trades| - 1]), trades[|trades| - 1])
  }

  /** Other symbols' lots stay as they are. */
  ghost predicate OthersStay(before: Book, after: Book, symbol: nat) {
    forall x :: x != symbol ==> PendingOf(after.pending, x) == PendingOf(before.pending, x)
  }

  /** A sale books its matches behind the earlier ones, measured against the symbol's own lots and dates. */
  ghost predicate BookedSale(before: Book, t: Trade, n: nat, at: seq<nat>, after: Book) {
    && before.pnls <= after.pnls && before.holds <= after.holds && OthersStay(before, after, t.symbol)
    && TakesFront(PendingOf(before.pending, t.symbol), t.qty, t.price, n, after.pnls[|before.pnls|..],
                  PendingOf(after.pending, t.symbol))
    && HoldsAt(PendingOf(before.pending, t.symbol), t.date, n, at, after.holds[|before.holds|..])
  }

  /** What each trade does to the book. */
  lemma TradeIsBooked(b: Book, t: Trade) returns (n: nat, at: seq<nat>)
    ensures t.side == Sell ==> BookedSale(b, t, n, at, ApplyTrade(b, t))
    ensures t.side == Buy ==>
              && OthersStay(b, ApplyTrade(b, t), t.symbol)
              && PendingOf(ApplyTrade(b, t).pending, t.symbol)
              == PendingOf(b.pending, t.symbol) + [Lot(t.qty, t.price, t.date)]
    ensures t.side == Buy || t.side == Other ==> ApplyTrade(b, t) == b.(pending := ApplyTrade(b, t).pending)
    ensures t.side == Other ==> ApplyTrade(b, t) == b
  {
    hide SellFrom, HoldsFrom, TakesFront, HoldsAt;
    n, at := SaleTakesFront(PendingOf(b.pending, t.symbol), t.qty, t.price, t.date);
  }

  // ------------------------------------------------------------- conservation over all trades

  function Bought(trades: seq<Trade>, symbol: nat): real {
    if trades == [] then 0.0
    else
      var t := trades[|trades| - 1];
      Bought(trades[..|trades| - 1], symbol) + (if t.side.Buy? && t.symbol == symbol then t.qty else 0.0)
  }

  /** What the last trade's sale did, if it was a sale of `symbol`. */
  function LastSale(trades: seq<Trade>, symbol: nat): Sale
    requires trades != []
  {
    var t := trades[|trades| - 1];
    if t.side.Sell? && t.symbol == symbol
    then SellFrom(PendingOf(BookAfter(trades[..|trades| - 1]).pending, symbol), t.qty, t.price)
    else Sale([], [], 0.0, 0.0)
  }

  function Matched(trades: seq<Trade>, symbol: nat): real {
    if trades == [] then 0.0 else Matched(trades[..|trades| - 1], symbol) + LastSale(trades, symbol).matched
  }

  function Dropped(trades: seq<Trade>, symbol: nat): real {
    if trades == [] then 0.0 else Dropped(trades[..|trades| - 1], symbol) + LastSale(trades, symbol).dust
  }

  lemma {:induction false} TotalOfAppend(lots: seq<Lot>, lot: Lot)
    ensures Total(lots + [lot]) == Total(lots) + lot.qty
  {
    if lots == [] {
      assert lots + [lot] == [lot];
    } else {
      TotalOfAppend(lots[1..], lot);
      assert (lots + [lot])[1..] == lots[1..] + [lot];
    }
  }

  /** Per symbol, over any trades: bought = matched + still pending + dropped dust. */
  lemma {:induction false} TradesConserve(trades: seq<Trade>, symbol: nat)
    ensures Bought(trades, symbol)
         == Matched(trades, symbol) + Total(PendingOf(BookAfter(trades).pending, symbol)) + Dropped(trades, symbol)
  {
    if trades == [] {
    } else {
      var front, t := trades[..|trades| - 1], trades[|trades| - 1];
      TradesConserve(front, symbol);
      var before := PendingOf(BookAfter(front).pending, symbol);
      if t.symbol == symbol {
        TotalOfAppend(before, LotOf(t));
        SaleConserves(before, t.qty, t.price);
      }
    }
  }

  // -------------------------------------------------------------------- the share-by-share queue

  predicate Whole(x: real) {
    x >= 0.0 && x == x.Floor as real
  }

  predicate AllWhole(lots: seq<Lot>) {
    forall i :: 0 <= i < |lots| ==> Whole(lots[i].qty)
  }

  /** n shares bought at one price. */
  function Block(price: real, n: nat): seq<real> {
    if n == 0 then [] else [price] + Block(price, n - 1)
  }

  /** One entry per share, holding its price. */
  function Shares(lots: seq<Lot>): seq<real> {
    if lots == [] then []
    else Block(lots[0].price, if lots[0].qty >= 0.0 then lots[0].qty.Floor else 0) + Shares(lots[1..])
  }

  /** Selling n shares one at a time from the front. */
  function ShareProfit(queue: seq<real>, n: nat, price: real): real {
    if n == 0 || queue == [] then 0.0 else (price - queue[0]) + ShareProfit(queue[1..], n - 1, price)
  }

  function SharesLeft(queue: seq<real>, n: nat): seq<real> {
    if n == 0 || queue == [] then queue else SharesLeft(queue[1..], n - 1)
  }

  function Scaled(x: real, n: nat): real {
    x * n as real
  }

  lemma ScaledStep(x: real, n: nat)
    requires n > 0
    ensures Scaled(x, n) == Scaled(x, n - 1) + x
    ensures Scaled(x, 0) == 0.0
  {
  }

  /** Selling within the front block, and selling past it. */
  lemma {:induction false} SellBlock(p: real, a: nat, tail: seq<real>, n: nat, price: real)
    ensures var queue := Block(p, a) + tail;
      && (n <= a ==> ShareProfit(queue, n, price) == Scaled(price - p, n) && SharesLeft(queue, n) == Block(p, a - n) + tail)
      && (n >= a ==> ShareProfit(queue, n, price) == Scaled(price - p, a) + ShareProfit(tail, n - a, price)
                     && SharesLeft(queue, n) == SharesLeft(tail, n - a))
  {
    hide Scaled;
    var queue := Block(p, a) + tail;
    ScaledStep(price - p, 1);
    if a == 0 {
      assert queue == tail;
    } else if n > 0 {
      SellBlock(p, a - 1, tail, n - 1, price);
      assert queue[1..] == Block(p, a - 1) + tail;
      ScaledStep(price - p, n);
      ScaledStep(price - p, a);
    }
  }

  lemma WholeDifference(a: real, b: real)
    requires Whole(a) && Whole(b) && b <= a
    ensures Whole(a - b) && (a - b).Floor == a.Floor - b.Floor
    ensures a - b <= DUST <==> a == b
  {
    assert a - b == (a.Floor - b.Floor) as real;
  }

  lemma ProfitIsScaled(lot: Lot, price: real, qty: real)
    requires Whole(qty)
    ensures Profit(lot, price, qty) == Scaled(price - lot.price, qty.Floor)
  {
  }

  lemma NoSharesSold(lots: seq<Lot>, qty: real, price: real)
    requires Whole(qty) && (qty <= 0.0 || lots == [])
    ensures SharesLeft(Shares(lots), qty.Floor) == Shares(lots) && ShareProfit(Shares(lots), qty.Floor, price) == 0.0
  {
  }

  /** Lot matching is share-by-share matching, for whole quantities. */
  lemma NoProfits()
    ensures Sum([]) == 0.0
  {
  }

  lemma {:induction false} SaleIsShareByShare(lots: seq<Lot>, qty: real, price: real)
    requires AllWhole(lots) && Whole(qty)
    ensures var s := SellFrom(lots, qty, price);
      && AllWhole(s.lots)
      && Shares(s.lots) == SharesLeft(Shares(lots), qty.Floor)
      && Sum(s.pnls) == ShareProfit(Shares(lots), qty.Floor, price)
    decreases |lots|
  {
    hide Scaled, Profit, Block, ShareProfit, SharesLeft, Sum;
    NoProfits();
    if qty <= 0.0 || lots == [] {
      NoSharesSold(lots, qty, price);
    } else {
      var lot, rest := lots[0], lots[1..];
      SellBlock(lot.price, lot.qty.Floor, Shares(rest), qty.Floor, price);
      var m := Least(qty, lot.qty);
      WholeDifference(lot.qty, m);
      WholeDifference(qty, m);
      ProfitIsScaled(lot, price, m);
      if lot.qty - m <= DUST {
        SaleIsShareByShare(rest, qty - m, price);
        SumOfCons(Profit(lot, price, m), SellFrom(rest, qty - m, price).pnls);
      } else {
        SumOfCons(Profit(lot, price, m), []);
        assert [Profit(lot, price, m)] + [] == [Profit(lot, price, m)];
        assert ([lot.(qty := lot.qty - m)] + rest)[1..] == rest;
      }
    }
  }

  datatype Queues = Queues(pending: map<nat, seq<real>>, profit: real)

  function QueueOf(pending: map<nat, seq<real>>, symbol: nat): seq<real> {
    if symbol in pending then pending[symbol] else []
  }

  /** The same trade, share by share. */
  function ApplyToQueues(q: Queues, t: Trade): Queues {
    var queue, n := QueueOf(q.pending, t.symbol), if t.qty >= 0.0 then t.qty.Floor else 0;
    match t.side
    case Buy => q.(pending := q.pending[t.symbol := queue + Block(t.price, n)])
    case Sell => Queues(q.pending[t.symbol := SharesLeft(queue, n)], q.profit + ShareProfit(queue, n, t.price))
    case Other => q
  }

  function QueuesAfter(trades: seq<Trade>): Queues {
    if trades == [] then Queues(map[], 0.0)
    else ApplyToQueues(QueuesAfter(trades[..|trades| - 1]), trades[|trades| - 1])
  }

  lemma {:induction false} SharesOfAppend(lots: seq<Lot>, lot: Lot)
    requires Whole(lot.qty)
    ensures Shares(lots + [lot]) == Shares(lots) + Block(lot.price, lot.qty.Floor)
  {
    hide Block;
    if lots == [] {
      assert lots + [lot] == [lot];
    } else {
      SharesOfAppend(lots[1..], lot);
      assert (lots + [lot])[1..] == lots[1..] + [lot];
    }
  }

  ghost predicate WholeTrades(trades: seq<Trade>) {
    forall i :: 0 <= i < |trades| ==> Whole(trades[i].qty)
  }

  /** The lots of one symbol are the shares of its queue. */
  ghost predicate SameShares(b: Book, q: Queues, symbol: nat) {
    && AllWhole(PendingOf(b.pending, symbol))
    && Shares(PendingOf(b.pending, symbol)) == QueueOf(q.pending, symbol)
  }

  lemma TradeKeepsShares(b: Book, q: Queues, t: Trade, symbol: nat)
    requires Whole(t.qty) && SameShares(b, q, symbol)
    ensures SameShares(ApplyTrade(b, t), ApplyToQueues(q, t), symbol)
  {
    hide SellFrom, ShareProfit, SharesLeft, Shares, Block;
    var before := PendingOf(b.pending, symbol);
    if t.symbol == symbol {
      SharesOfAppend(before, LotOf(t));
      SaleIsShareByShare(before, t.qty, t.price);
    }
  }

  lemma TradeKeepsProfit(b: Book, q: Queues, t: Trade)
    requires Whole(t.qty) && SameShares(b, q, t.symbol) && Sum(b.pnls) == q.profit
    ensures Sum(ApplyTrade(b, t).pnls) == ApplyToQueues(q, t).profit
  {
    hide SellFrom, ShareProfit, SharesLeft, Shares, Block, Sum;
    var before := PendingOf(b.pending, t.symbol);
    SaleIsShareByShare(before, t.qty, t.price);
    SumOfConcat(b.pnls, SellFrom(before, t.qty, t.price).pnls);
  }

  /**
   For whole quantities the lot book and the share queues agree after any trades: the same total
   profit, and for every symbol the same shares left in the same order.
   */
  lemma {:induction false} LotsRefineShares(trades: seq<Trade>)
    requires WholeTrades(trades)
    ensures Sum(BookAfter(trades).pnls) == QueuesAfter(trades).profit
    ensures forall symbol :: SameShares(BookAfter(trades), QueuesAfter(trades), symbol)
  {
    if trades == [] {
    } else {
      var front, t := trades[..|trades| - 1], trades[|trades| - 1];
      LotsRefineShares(front);
      TradeKeepsProfit(BookAfter(front), QueuesAfter(front), t);
      forall symbol ensures SameShares(BookAfter(trades), QueuesAfter(trades), symbol) {
        TradeKeepsShares(BookAfter(front), QueuesAfter(front), t, symbol);
      }
    }
  }

  // -------------------------------------------------------------------------- recording order

  /** `t` after every trade recorded no later. */
  function InsertTrade(ordered: seq<Trade>, t: Trade): seq<Trade> {
    if ordered == [] || ordered[|ordered| - 1].recorded <= t.recorded then ordered + [t]
    else InsertTrade(ordered[..|ordered| - 1], t) + [ordered[|ordered| - 1]]
  }

  /** Sorted by recording time, trades of the same time in the order given. */
  function InOrder(trades: seq<Trade>): seq<Trade> {
    if trades == [] then [] else InsertTrade(InOrder(trades[..|trades| - 1]), trades[|trades| - 1])
  }

  predicate Ordered(trades: seq<Trade>) {
    forall i, j :: 0 <= i < j < |trades| ==> trades[i].recorded <= trades[j].recorded
  }

  /** The trades recorded at one time, in order. */
  function RecordedAt(trades: seq<Trade>, time: int): seq<Trade> {
    if trades == [] then []
    else
      var t := trades[|trades| - 1];
      RecordedAt(trades[..|trades| - 1], time) + (if t.recorded == time then [t] else [])
  }

  lemma RecordedGrows(trades: seq<Trade>, t: Trade, time: int)
    ensures RecordedAt(trades + [t], time) == RecordedAt(trades, time) + (if t.recorded == time then [t] else [])
  {
    assert (trades + [t])[..|trades|] == trades;
  }

  lemma InsertedIsBelow(front: seq<Trade>, t: Trade, last: Trade)
    requires multiset(InsertTrade(front, t)) == multiset(front) + multiset{t}
    requires t.recorded <= last.recorded && forall x :: x in front ==> x.recorded <= last.recorded
    ensures forall x :: x in InsertTrade(front, t) ==> x.recorded <= last.recorded
  {
    var inner := InsertTrade(front, t);
    forall x | x in inner ensures x.recorded <= last.recorded {
      assert x in multiset(inner);
      assert x in multiset(front) || x == t;
    }
  }

  lemma LastIsLatest(ordered: seq<Trade>)
    requires Ordered(ordered)
    ensures ordered != [] ==>
              && Ordered(ordered[..|ordered| - 1])
              && forall x :: x in ordered ==> x.recorded <= ordered[|ordered| - 1].recorded
  {
  }

  lemma OrderedGrows(ordered: seq<Trade>, t: Trade)
    requires Ordered(ordered) && forall x :: x in ordered ==> x.recorded <= t.recorded
    ensures Ordered(ordered + [t])
  {
  }

  lemma {:induction false} InsertKeepsOrder(ordered: seq<Trade>, t: Trade)
    requires Ordered(ordered)
    ensures Ordered(InsertTrade(ordered, t)) && multiset(InsertTrade(ordered, t)) == multiset(ordered) + multiset{t}
  {
    hide Ordered;
    if ordered == [] || ordered[|ordered| - 1].recorded <= t.recorded {
      LastIsLatest(ordered);
      OrderedGrows(ordered, t);
    } else {
      var front, last := ordered[..|ordered| - 1], ordered[|ordered| - 1];
      LastIsLatest(ordered);
      InsertKeepsOrder(front, t);
      assert ordered == front + [last];
      InsertedIsBelow(front, t, last);
      OrderedGrows(InsertTrade(front, t), last);
    }
  }

  lemma {:induction false} InsertKeepsTimes(ordered: seq<Trade>, t: Trade, time: int)
    ensures RecordedAt(InsertTrade(ordered, t), time) == RecordedAt(ordered + [t], time)
  {
    hide RecordedAt;
    if ordered != [] && ordered[|ordered| - 1].recorded > t.recorded {
      var front, last := ordered[..|ordered| - 1], ordered[|ordered| - 1];
      InsertKeepsTimes(front, t, time);
      RecordedGrows(InsertTrade(front, t), last, time);
      RecordedGrows(front, t, time);
      RecordedGrows(front, last, time);
      RecordedGrows(ordered, t, time);
      assert ordered == front + [last];
    }
  }

  lemma NothingIsOrdered()
    ensures Ordered([])
  {
  }

  /** Sorting is what a stable sort is: ordered, the same trades, and each time's trades as given. */
  lemma {:induction false} InOrderIsStableSort(trades: seq<Trade>, time: int)
    ensures Ordered(InOrder(trades)) && multiset(InOrder(trades)) == multiset(trades)
    ensures RecordedAt(InOrder(trades), time) == RecordedAt(trades, time)
  {
    hide Ordered, InsertTrade;
    if trades == [] {
      NothingIsOrdered();
    } else {
      var front, last := trades[..|trades| - 1], trades[|trades| - 1];
      InOrderIsStableSort(front, time);
      InsertKeepsOrder(InOrder(front), last);
      InsertKeepsTimes(InOrder(front), last, time);
      RecordedGrows(InOrder(front), last, time);
      RecordedGrows(front, last, time);
      assert trades == front + [last];
    }
  }

  predicate DatedNoLater(a: Option<int>, b: Option<int>) {
    a.Some? && b.Some? ==> a.value <= b.value
  }

  /** Whatever is recorded later is not dated earlier. */
  ghost predicate DatesFollowTimes(trades: seq<Trade>) {
    forall i, j :: 0 <= i < |trades| && 0 <= j < |trades| && trades[i].recorded <= trades[j].recorded
      ==> DatedNoLater(trades[i].date, trades[j].date)
  }

  /** Every lot was dated by one of these trades. */
  ghost predicate Dated(trades: seq<Trade>, date: Option<int>) {
    exists i :: 0 <= i < |trades| && trades[i].date == date
  }

  ghost predicate DatedBy(lots: seq<Lot>, trades: seq<Trade>) {
    forall k :: 0 <= k < |lots| ==> Dated(trades, lots[k].date)
  }

  ghost predicate LotsDatedBy(b: Book, trades: seq<Trade>) {
    forall symbol :: DatedBy(PendingOf(b.pending, symbol), trades)
  }

  lemma DatedByMore(lots: seq<Lot>, trades: seq<Trade>, t: Trade)
    requires DatedBy(lots, trades)
    ensures DatedBy(lots, trades + [t]) && DatedBy(lots + [LotOf(t)], trades + [t])
  {
    var more := trades + [t];
    forall k | 0 <= k < |lots| ensures Dated(more, lots[k].date) {
      assert Dated(trades, lots[k].date);
      var i :| 0 <= i < |trades| && trades[i].date == lots[k].date;
      assert more[i] == trades[i];
    }
    assert more[|trades|].date == LotOf(t).date;
  }

  /** A sale matches the lots in front and leaves the others, dated as they were. */
  lemma {:induction false} SaleKeepsDates(lots: seq<Lot>, qty: real, price: real, trades: seq<Trade>)
    requires DatedBy(lots, trades)
    ensures DatedBy(SellFrom(lots, qty, price).lots, trades)
    decreases |lots|
  {
    hide Profit;
    if qty > 0.0 && lots != [] {
      var m := Least(qty, lots[0].qty);
      if lots[0].qty - m <= DUST {
        SaleKeepsDates(lots[1..], qty - m, price, trades);
      } else {
        var left := [lots[0].(qty := lots[0].qty - m)] + lots[1..];
        assert forall k :: 0 <= k < |lots| ==> left[k].date == lots[k].date;
      }
    }
  }

  lemma {:induction false} SaleHolds(lots: seq<Lot>, qty: real, sold: Option<int>)
    requires forall k :: 0 <= k < |lots| ==> DatedNoLater(lots[k].date, sold)
    ensures forall h :: h in HoldsFrom(lots, qty, sold) ==> h >= 0
    decreases |lots|
  {
    if qty > 0.0 && lots != [] {
      var m := Least(qty, lots[0].qty);
      assert DatedNoLater(lots[0].date, sold);
      if lots[0].qty - m <= DUST {
        SaleHolds(lots[1..], qty - m, sold);
      }
    }
  }

  lemma NoneDatedLater(lots: seq<Lot>, front: seq<Trade>, sold: Option<int>)
    requires DatedBy(lots, front) && forall i :: 0 <= i < |front| ==> DatedNoLater(front[i].date, sold)
    ensures forall k :: 0 <= k < |lots| ==> DatedNoLater(lots[k].date, sold)
  {
    forall k | 0 <= k < |lots| ensures DatedNoLater(lots[k].date, sold) {
      assert Dated(front, lots[k].date);
      var i :| 0 <= i < |front| && front[i].date == lots[k].date;
    }
  }

  lemma TradeKeepsHolds(b: Book, front: seq<Trade>, t: Trade)
    requires LotsDatedBy(b, front) && forall h :: h in b.holds ==> h >= 0
    requires forall i :: 0 <= i < |front| ==> DatedNoLater(front[i].date, t.date)
    ensures LotsDatedBy(ApplyTrade(b, t), front + [t]) && forall h :: h in ApplyTrade(b, t).holds ==> h >= 0
  {
    hide SellFrom, HoldsFrom, DatedBy;
    var lots := PendingOf(b.pending, t.symbol);
    NoneDatedLater(lots, front, t.date);
    SaleHolds(lots, t.qty, t.date);
    SaleKeepsDates(lots, t.qty, t.price, front);
    var after := ApplyTrade(b, t);
    forall symbol ensures DatedBy(PendingOf(after.pending, symbol), front + [t]) {
      DatedByMore(PendingOf(b.pending, symbol), front, t);
      DatedByMore(SellFrom(lots, t.qty, t.price).lots, front, t);
    }
  }

  /** In recording order no match has a negative holding time. */
  lemma {:induction false} HoldsAreNonNegative(trades: seq<Trade>)
    requires Ordered(trades) && DatesFollowTimes(trades)
    ensures forall h :: h in BookAfter(trades).holds ==> h >= 0
    ensures LotsDatedBy(BookAfter(trades), trades)
  {
    if trades == [] {
    } else {
      var front, t := trades[..|trades| - 1], trades[|trades| - 1];
      HoldsAreNonNegative(front);
      TradeKeepsHolds(BookAfter(front), front, t);
    }
  }

  /** The statistics never average a negative holding time, in whatever order the trades come. */
  lemma HoldsOfSortedTrades(trades: seq<Trade>)
    requires DatesFollowTimes(trades)
    ensures forall h :: h in BookAfter(InOrder(trades)).holds ==> h >= 0
  {
    hide BookAfter, InOrder;
    InOrderIsStableSort(trades, 0);
    var ordered := InOrder(trades);
    forall i | 0 <= i < |ordered| ensures ordered[i] in trades {
      assert ordered[i] in multiset(ordered);
    }
    assert DatesFollowTimes(ordered);
    HoldsAreNonNegative(ordered);
  }

  // ---------------------------------------------------------------------------- the statistics

  datatype ProfitFactor = Undefined | Infinite | Ratio(value: real)

  datatype Stats = NoPairs | Stats(winning: nat, losing: nat, winRate: real, avgHold: Option<real>, avgWin: Option<real>,
                                   avgLoss: Option<real>, profitFactor: ProfitFactor)

  function SumDays(days: seq<int>): int {
    if days == [] then 0 else SumDays(days[..|days| - 1]) + days[|days| - 1]
  }

  function NumWinning(pnls: seq<real>): nat {
    if pnls == [] then 0 else NumWinning(pnls[..|pnls| - 1]) + (if pnls[|pnls| - 1] > 0.0 then 1 else 0)
  }

  /** Sum of the profits, and of the rest. */
  function Gross(pnls: seq<real>, profits: bool): real {
    if pnls == [] then 0.0
    else
      var p := pnls[|pnls| - 1];
      Gross(pnls[..|pnls| - 1], profits) + (if (p > 0.0) == profits then p else 0.0)
  }

  lemma {:induction false} GrossSplits(pnls: seq<real>)
    ensures Sum(pnls) == Gross(pnls, true) + Gross(pnls, false)
    ensures Gross(pnls, true) >= 0.0 && Gross(pnls, false) <= 0.0
    ensures NumWinning(pnls) <= |pnls|
    ensures NumWinning(pnls) > 0 <==> Gross(pnls, true) > 0.0
  {
    if pnls == [] {
    } else {
      GrossSplits(pnls[..|pnls| - 1]);
    }
  }

  /** Each pair's profit or nothing, and each pair's loss or nothing. */
  function Profits(pnls: seq<real>): seq<real> {
    seq(|pnls|, i requires 0 <= i < |pnls| => if pnls[i] > 0.0 then pnls[i] else 0.0)
  }

  function Losses(pnls: seq<real>): seq<real> {
    seq(|pnls|, i requires 0 <= i < |pnls| => if pnls[i] > 0.0 then 0.0 else pnls[i])
  }

  function WinningAt(pnls: seq<real>): set<nat> {
    set i: nat | i < |pnls| && pnls[i] > 0.0
  }

  lemma {:induction false} WinningAreProfits(pnls: seq<real>)
    ensures NumWinning(pnls) == |WinningAt(pnls)|
  {
    if pnls == [] {
      assert WinningAt(pnls) == {};
    } else {
      var n: nat := |pnls| - 1;
      WinningAreProfits(pnls[..n]);
      assert WinningAt(pnls) == if pnls[n] > 0.0 then WinningAt(pnls[..n]) + {n} else WinningAt(pnls[..n]);
    }
  }

  lemma {:induction false} GrossAreSums(pnls: seq<real>)
    ensures Gross(pnls, true) == Sum(Profits(pnls)) && Gross(pnls, false) == Sum(Losses(pnls))
  {
    if pnls == [] {
    } else {
      var n := |pnls| - 1;
      GrossAreSums(pnls[..n]);
      assert Profits(pnls)[..n] == Profits(pnls[..n]);
      assert Losses(pnls)[..n] == Losses(pnls[..n]);
    }
  }

  /** Winning pairs are those that made money, and the gross figures add up each side's pairs. */
  lemma TallyIs(pnls: seq<real>)
    ensures NumWinning(pnls) == |WinningAt(pnls)|
    ensures Gross(pnls, true) == Sum(Profits(pnls)) && Gross(pnls, false) == Sum(Losses(pnls))
  {
    hide NumWinning, Gross, Profits, Losses;
    WinningAreProfits(pnls);
    GrossAreSums(pnls);
  }

  lemma {:induction false} SumDaysAddsUp(a: seq<int>, b: seq<int>)
    ensures SumDays(a + b) == SumDays(a) + SumDays(b)
    ensures |a| == 1 ==> SumDays(a) == a[0]
  {
    if |a| == 1 {
      assert a[..0] == [];
    }
    if b == [] {
      assert a + b == a;
    } else {
      SumDaysAddsUp(a, b[..|b| - 1]);
      assert (a + b)[..|a + b| - 1] == a + b[..|b| - 1];
    }
  }

  /** Match every trade in order; the profits and holding days of all matches. */
  method MatchTrades(trades: seq<Trade>) returns (pnls: seq<real>, holds: seq<int>)
    ensures pnls == BookAfter(trades).pnls && holds == BookAfter(trades).holds
  {
    var pending: map<nat, seq<Lot>>;
    pending, pnls, holds := map[], [], [];
    for i := 0 to |trades|
      invariant Book(pending, pnls, holds) == BookAfter(trades[..i])
    {
      assert trades[..i + 1][..i] == trades[..i];
      var t := trades[i];
      match t.side {
        case Buy => pending := pending[t.symbol := PendingOf(pending, t.symbol) + [LotOf(t)]];
        case Sell =>
          var matched, days, left := MatchSale(PendingOf(pending, t.symbol), t.qty, t.price, t.date);
          pending, pnls, holds := pending[t.symbol := left], pnls + matched, holds + days;
        case Other =>
      }
    }
    assert trades[..|trades|] == trades;
  }

  method Tally(pnls: seq<real>) returns (winning: nat, profit: real, loss: real)
    ensures winning == NumWinning(pnls) && profit == Gross(pnls, true) && loss == Gross(pnls, false)
  {
    winning, profit, loss := 0, 0.0, 0.0;
    for i := 0 to |pnls|
      invariant winning == NumWinning(pnls[..i])
      invariant profit == Gross(pnls[..i], true) && loss == Gross(pnls[..i], false)
    {
      assert pnls[..i + 1][..i] == pnls[..i];
      if pnls[i] > 0.0 {
        winning, profit := winning + 1, profit + pnls[i];
      } else {
        loss := loss + pnls[i];
      }
    }
    assert pnls[..|pnls|] == pnls;
  }

  method TotalDays(days: seq<int>) returns (total: int)
    ensures total == SumDays(days)
  {
    total := 0;
    for i := 0 to |days|
      invariant total == SumDays(days[..i])
    {
      assert days[..i + 1][..i] == days[..i];
      total := total + days[i];
    }
    assert days[..|days|] == days;
  }

  /** The mean of n figures, or none of none. */
  method Mean(total: real, n: nat) returns (mean: Option<real>)
    ensures mean.Some? <==> n > 0
    ensures mean.Some? ==> mean.value * n as real == total
  {
    mean := if n > 0 then Some(total / n as real) else None;
  }

  method FactorOf(profit: real, loss: real) returns (factor: ProfitFactor)
    requires profit >= 0.0 >= loss
    ensures factor.Undefined? <==> profit == 0.0 && loss == 0.0
    ensures factor.Infinite? <==> profit > 0.0 && loss == 0.0
    ensures factor.Ratio? ==> factor.value * -loss == profit
  {
    factor := if -loss > 0.0 then Ratio(profit / -loss) else if profit > 0.0 then Infinite else Undefined;
  }

  /** Pair statistics over the trades in recording order; a break-even pair counts as a loss. */
  method TradeStats(trades: seq<Trade>) returns (stats: Stats)
    ensures var book := BookAfter(InOrder(trades));
      var pnls, holds := book.pnls, book.holds;
      && (stats.NoPairs? <==> pnls == [])
      && (stats.Stats? ==>
            && stats.winning == NumWinning(pnls) && stats.winning + stats.losing == |pnls|
            && stats.winRate * |pnls| as real == stats.winning as real
            && (stats.avgHold.Some? <==> holds != [])
            && (stats.avgHold.Some? ==> stats.avgHold.value * |holds| as real == SumDays(holds) as real)
            && (stats.avgWin.Some? <==> stats.winning > 0) && (stats.avgLoss.Some? <==> stats.losing > 0)
            && (stats.avgWin.Some? ==> stats.avgWin.value * stats.winning as real == Gross(pnls, true))
            && (stats.avgLoss.Some? ==> stats.avgLoss.value * stats.losing as real == Gross(pnls, false))
            && (stats.profitFactor.Undefined? <==> Gross(pnls, true) == 0.0 && Gross(pnls, false) == 0.0)
            && (stats.profitFactor.Infinite? <==> Gross(pnls, true) > 0.0 && Gross(pnls, false) == 0.0)
            && (stats.profitFactor.Ratio? ==> stats.profitFactor.value * -Gross(pnls, false) == Gross(pnls, true)))
  {
    hide BookAfter, Gross, NumWinning, InOrder, SumDays;
    var pnls, holds := MatchTrades(InOrder(trades));
    if pnls == [] {
      return NoPairs;
    }
    var winning, profit, loss := Tally(pnls);
    GrossSplits(pnls);
    var losing := |pnls| - winning;
    var winRate := Mean(winning as real, |pnls|);
    var days := TotalDays(holds);
    var avgHold := Mean(days as real, |holds|);
    var avgWin := Mean(profit, winning);
    var avgLoss := Mean(loss, losing);
    var factor := FactorOf(profit, loss);
    stats := Stats(winning, losing, winRate.value, avgHold, avgWin, avgLoss, factor);
  }

  lemma FactorAboveOne(factor: real, profit: real, loss: real)
    requires loss > 0.0 && factor * loss == profit
    ensures factor > 1.0 <==> profit > loss
  {
    var over := factor - 1.0;
    assert factor * loss == loss + over * loss;
    if over > 0.0 {
      assert over * loss > 0.0;
    } else {
      assert -over * loss >= 0.0;
    }
  }

  /** The profit factor exceeds one exactly when the pairs made money in total. */
  lemma ProfitFactorMeansProfit(pnls: seq<real>, factor: real)
    requires Gross(pnls, false) < 0.0 && factor * -Gross(pnls, false) == Gross(pnls, true)
    ensures factor > 1.0 <==> Sum(pnls) > 0.0
  {
    GrossSplits(pnls);
    FactorAboveOne(factor, Gross(pnls, true), -Gross(pnls, false));
  }
}
