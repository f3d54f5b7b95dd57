/**
 The submit outbox under crashes: attempt committed, broker called, outcome recorded, audit rows
 committed, with any number of submitters interleaved and a crash possible after every step.
 */
module Outbox {
  import opened OrderedDict
  import opened EventStoreSpec

  /** The broker's answer.  A refusal or an exception may still have left an order behind. */
  datatype Answer = Accepted(brokerId: nat) | Refused(delivered: bool) | Failed(delivered: bool)

  /**
   How far a submitter has come with the attempt at position `row`; `stamp` is the time of its
   result, taken after the outcome is stored and carried by the trade written later.
   */
  datatype Progress =
    | AttemptCommitted(row: nat)
    | Answered(row: nat, answer: Answer)
    | OutcomeStored(row: nat, answer: Answer, stamp: Option<int>)

  /**
   `clock` is the wall clock in whole seconds, `owners` the attempt behind each order id the
   broker has handed out, and `delivered` the attempts whose order exists at the broker.
   */
  datatype World = World(db: Tables, clock: int, procs: map<nat, Progress>, owners: map<nat, nat>, delivered: set<nat>)

  const FRESH := World(EMPTY, 0, map[], map[], {})

  datatype Step =
    | Tick(seconds: nat)
    | Start(proc: nat, clientId: nat, strategy: Option<nat>, symbol: nat, side: nat)
    | Respond(proc: nat, answer: Answer)
    | StoreOutcome(proc: nat)
    | BuildResult(proc: nat)
    | Record(proc: nat, explanation: Explanation)
    | Crash(proc: nat)
    | BacktestTrade(explanation: Explanation, trade: Trade)

  function StatusOf(answer: Answer): AttemptStatus {
    match answer
    case Accepted(_) => Submitted
    case Refused(_) => Rejected
    case Failed(_) => Errored
  }

  function BrokerIdOf(answer: Answer): Option<nat> {
    if answer.Accepted? then Some(answer.brokerId) else None
  }

  predicate Reached(answer: Answer) {
    answer.Accepted? || (answer.Refused? && answer.delivered) || (answer.Failed? && answer.delivered)
  }

  /** The trade row a recorded answer leaves behind. */
  function TradeFor(a: Attempt, answer: Answer, stamp: int): Trade {
    Trade(0, stamp, if answer.Accepted? then TradeSubmitted else TradeRejected, Paper, a.strategy, a.symbol, a.side,
          BrokerIdOf(answer))
  }

  function Next(w: World, step: Step): World {
    match step
    case Tick(seconds) => w.(clock := w.clock + seconds)
    case Start(proc, clientId, strategy, symbol, side) =>
      if proc in w.procs || HasClientId(w.db.attempts, clientId) then w
      else
        var a := Attempt(clientId, strategy, symbol, side, w.clock, Pending, None);
        w.(db := AppendAttempt(w.db, a), procs := w.procs[proc := AttemptCommitted(|w.db.attempts|)])
    case Respond(proc, answer) =>
      if proc !in w.procs || !w.procs[proc].AttemptCommitted? || (answer.Accepted? && answer.brokerId in w.owners) then w
      else
        var row := w.procs[proc].row;
        World(w.db, w.clock, w.procs[proc := Answered(row, answer)],
              if answer.Accepted? then w.owners[answer.brokerId := row] else w.owners,
              if Reached(answer) then w.delivered + {row} else w.delivered)
    case StoreOutcome(proc) =>
      if proc !in w.procs || !w.procs[proc].Answered? || w.procs[proc].row >= |w.db.attempts| then w
      else
        var row, answer := w.procs[proc].row, w.procs[proc].answer;
        w.(db := FinalizeAttempt(w.db, w.db.attempts[row].clientId, StatusOf(answer), BrokerIdOf(answer)),
           procs := if answer.Failed? then w.procs - {proc} else w.procs[proc := OutcomeStored(row, answer, None)])
    case BuildResult(proc) =>
      if proc !in w.procs || !w.procs[proc].OutcomeStored? || w.procs[proc].stamp.Some? then w
      else w.(procs := w.procs[proc := w.procs[proc].(stamp := Some(w.clock))])
    case Record(proc, explanation) =>
      if proc !in w.procs || !w.procs[proc].OutcomeStored? || w.procs[proc].stamp.None?
         || w.procs[proc].row >= |w.db.attempts| then w
      else
        var row, answer, stamp := w.procs[proc].row, w.procs[proc].answer, w.procs[proc].stamp.value;
        w.(db := AppendExplanationAndTrade(w.db, explanation, TradeFor(w.db.attempts[row], answer, stamp)),
           procs := w.procs - {proc})
    case Crash(proc) => w.(procs := w.procs - {proc})
    case BacktestTrade(explanation, trade) => w.(db := AppendExplanationAndTrade(w.db, explanation, trade.(source := Backtest)))
  }

  function Run(steps: seq<Step>): World {
    if steps == [] then FRESH else Next(Run(steps[..|steps| - 1]), steps[|steps| - 1])
  }

  // ------------------------------------------------------------------------- the invariant

  predicate PaperSubmitted(t: Trade) {
    t.status.TradeSubmitted? && t.source.Paper?
  }

  /** An attempt carries a broker id exactly once the broker's acceptance is stored, and it is its own. */
  predicate AttemptOk(a: Attempt, row: nat, owners: map<nat, nat>) {
    && (a.status.Submitted? <==> a.brokerId.Some?)
    && (a.brokerId.Some? ==> a.brokerId.value in owners && owners[a.brokerId.value] == row)
  }

  /** The trade records this attempt's order, no earlier than the attempt. */
  predicate Matches(a: Attempt, t: Trade) {
    && t.brokerId.Some? && a.brokerId == t.brokerId
    && a.symbol == t.symbol && a.side == t.side && a.strategy == t.strategy && a.createdAt <= t.recordedAt
  }

  /** A submitted paper trade belongs to the attempt whose order it records, and is not older. */
  predicate TradeOk(t: Trade, attempts: seq<Attempt>, owners: map<nat, nat>) {
    PaperSubmitted(t) ==>
      && t.brokerId.Some? && t.brokerId.value in owners && owners[t.brokerId.value] < |attempts|
      && Matches(attempts[owners[t.brokerId.value]], t)
  }

  predicate ProgressOk(pr: Progress, db: Tables, owners: map<nat, nat>) {
    && pr.row < |db.attempts|
    && match pr
       case AttemptCommitted(row) => db.attempts[row].status.Pending?
       case Answered(row, answer) =>
         && db.attempts[row].status.Pending?
         && (answer.Accepted? ==> answer.brokerId in owners && owners[answer.brokerId] == row)
       case OutcomeStored(row, answer, stamp) =>
         && (stamp.Some? ==> db.attempts[row].createdAt <= stamp.value)
         && db.attempts[row].status == StatusOf(answer)
         && db.attempts[row].brokerId == BrokerIdOf(answer)
         && !IsRecorded(db.trades, BrokerIdOf(answer))
  }

  ghost predicate AttemptsOk(attempts: seq<Attempt>, owners: map<nat, nat>, clock: int) {
    forall i :: 0 <= i < |attempts| ==> AttemptOk(attempts[i], i, owners) && attempts[i].createdAt <= clock
  }

  ghost predicate TradesOk(trades: seq<Trade>, attempts: seq<Attempt>, owners: map<nat, nat>) {
    && (forall i :: 0 <= i < |trades| ==> TradeOk(trades[i], attempts, owners))
    && (forall i, j :: 0 <= i < j < |trades| && PaperSubmitted(trades[i]) && PaperSubmitted(trades[j])
          ==> trades[i].brokerId != trades[j].brokerId)
  }

  /** Order ids the broker has handed out belong to committed attempts. */
  ghost predicate OwnersOk(owners: map<nat, nat>, n: nat) {
    forall b :: b in owners ==> owners[b] < n
  }

  ghost predicate ProcsOk(procs: map<nat, Progress>, db: Tables, owners: map<nat, nat>) {
    && (forall p :: p in procs ==> ProgressOk(procs[p], db, owners))
    && (forall p, q :: p in procs && q in procs && p != q ==> procs[p].row != procs[q].row)
  }

  ghost predicate Inv(w: World) {
    && UniqueClients(w.db.attempts)
    && AttemptsOk(w.db.attempts, w.owners, w.clock)
    && OwnersOk(w.owners, |w.db.attempts|)
    && TradesOk(w.db.trades, w.db.attempts, w.owners)
    && ProcsOk(w.procs, w.db, w.owners)
  }

  /** With unique ids, finalizing a pending attempt changes its row and no other. */
  lemma FinalizeIsOneRow(db: Tables, row: nat, status: AttemptStatus, brokerId: Option<nat>)
    requires UniqueClients(db.attempts) && row < |db.attempts| && db.attempts[row].status.Pending?
    ensures FinalizeAttempt(db, db.attempts[row].clientId, status, brokerId)
         == db.(attempts := db.attempts[row := db.attempts[row].(status := status, brokerId := brokerId)])
  {
  }

  lemma StartKeepsInv(w: World, step: Step)
    requires Inv(w) && step.Start?
    ensures Inv(Next(w, step))
  {
    var after := Next(w, step);
    if after != w {
      assert forall i :: 0 <= i < |w.db.attempts| ==> after.db.attempts[i] == w.db.attempts[i];
      assert forall i :: 0 <= i < |w.db.trades| ==> TradeOk(w.db.trades[i], w.db.attempts, w.owners);
    }
  }

  lemma RespondKeepsInv(w: World, step: Step)
    requires Inv(w) && step.Respond?
    ensures Inv(Next(w, step))
  {
  }

  /** An order id that its attempt does not carry yet appears on no trade. */
  lemma NotYetRecorded(w: World, row: nat, answer: Answer)
    requires Inv(w) && row < |w.db.attempts| && w.db.attempts[row].status.Pending?
    requires answer.Accepted? ==> answer.brokerId in w.owners && w.owners[answer.brokerId] == row
    ensures !IsRecorded(w.db.trades, BrokerIdOf(answer))
  {
    if answer.Accepted? {
      forall i | 0 <= i < |w.db.trades| && PaperSubmitted(w.db.trades[i])
        ensures w.db.trades[i].brokerId != Some(answer.brokerId)
      {
        assert TradeOk(w.db.trades[i], w.db.attempts, w.owners);
        assert AttemptOk(w.db.attempts[row], row, w.owners);
      }
    }
  }

  lemma StoreOutcomeKeepsInv(w: World, step: Step)
    requires Inv(w) && step.StoreOutcome?
    ensures Inv(Next(w, step))
  {
    var after := Next(w, step);
    if after != w {
      var pr := w.procs[step.proc];
      FinalizeIsOneRow(w.db, pr.row, StatusOf(pr.answer), BrokerIdOf(pr.answer));
      NotYetRecorded(w, pr.row, pr.answer);
      assert forall i :: 0 <= i < |w.db.attempts| && i != pr.row ==> after.db.attempts[i] == w.db.attempts[i];
      forall i | 0 <= i < |w.db.trades| ensures TradeOk(w.db.trades[i], after.db.attempts, w.owners) {
        assert TradeOk(w.db.trades[i], w.db.attempts, w.owners);
      }
    }
  }

  lemma BuildResultKeepsInv(w: World, step: Step)
    requires Inv(w) && step.BuildResult?
    ensures Inv(Next(w, step))
  {
    var after := Next(w, step);
    forall p | p in after.procs ensures ProgressOk(after.procs[p], after.db, w.owners) {
      assert ProgressOk(w.procs[p], w.db, w.owners);
    }
  }

  lemma AppendTradeKeepsInv(w: World, e: Explanation, t: Trade, row: nat)
    requires Inv(w) && row < |w.db.attempts| && HasAncestor(e)
    requires PaperSubmitted(t) ==> !IsRecorded(w.db.trades, t.brokerId) && Matches(w.db.attempts[row], t)
    ensures var db := AppendExplanationAndTrade(w.db, e, t); TradesOk(db.trades, db.attempts, w.owners)
  {
    var db := AppendExplanationAndTrade(w.db, e, t);
    var n := |w.db.trades|;
    assert forall i :: 0 <= i < n ==> db.trades[i] == w.db.trades[i];
    assert AttemptOk(w.db.attempts[row], row, w.owners);
    forall i | 0 <= i < |db.trades| ensures TradeOk(db.trades[i], db.attempts, w.owners) {
      if i < n {
        assert TradeOk(w.db.trades[i], w.db.attempts, w.owners);
      }
    }
    forall i | 0 <= i < n && PaperSubmitted(db.trades[i]) && PaperSubmitted(db.trades[n])
      ensures db.trades[i].brokerId != db.trades[n].brokerId
    {
      assert PaperSubmitted(w.db.trades[i]);
    }
  }

  /** Another submitter's order is still unrecorded after this one has recorded its own. */
  lemma StillUnrecorded(w: World, p: nat, q: nat, trades: seq<Trade>)
    requires Inv(w) && p in w.procs && q in w.procs && p != q && w.procs[q].OutcomeStored?
    requires |trades| == |w.db.trades| + 1 && trades[..|w.db.trades|] == w.db.trades
    requires trades[|w.db.trades|].brokerId == BrokerIdOf(w.procs[q].answer)
    ensures w.procs[p].OutcomeStored? ==> !IsRecorded(trades, BrokerIdOf(w.procs[p].answer))
  {
    if w.procs[p].OutcomeStored? {
      assert ProgressOk(w.procs[p], w.db, w.owners) && ProgressOk(w.procs[q], w.db, w.owners);
      assert AttemptOk(w.db.attempts[w.procs[p].row], w.procs[p].row, w.owners);
      assert AttemptOk(w.db.attempts[w.procs[q].row], w.procs[q].row, w.owners);
      var n := |w.db.trades|;
      forall i | 0 <= i < |trades| && PaperSubmitted(trades[i]) && BrokerIdOf(w.procs[p].answer).Some?
        ensures trades[i].brokerId != BrokerIdOf(w.procs[p].answer)
      {
        if i < n {
          assert trades[i] == trades[..n][i] == w.db.trades[i];
        }
      }
    }
  }

  lemma RecordKeepsInv(w: World, step: Step)
    requires Inv(w) && step.Record?
    ensures Inv(Next(w, step))
  {
    var after := Next(w, step);
    if step.proc in w.procs && w.procs[step.proc].OutcomeStored? && w.procs[step.proc].stamp.Some? {
      var pr := w.procs[step.proc];
      var t := TradeFor(w.db.attempts[pr.row], pr.answer, pr.stamp.value);
      if HasAncestor(step.explanation) {
        AppendTradeKeepsInv(w, step.explanation, t, pr.row);
        forall p | p in after.procs ensures ProgressOk(after.procs[p], after.db, w.owners) {
          assert ProgressOk(w.procs[p], w.db, w.owners);
          StillUnrecorded(w, p, step.proc, after.db.trades);
        }
      }
    }
  }

  lemma BacktestKeepsInv(w: World, step: Step)
    requires Inv(w) && step.BacktestTrade?
    ensures Inv(Next(w, step))
  {
    var t := step.trade.(source := Backtest);
    var after := Next(w, step);
    if HasAncestor(step.explanation) {
      var n := |w.db.trades|;
      assert forall i :: 0 <= i < n ==> after.db.trades[i] == w.db.trades[i];
      forall i | 0 <= i < |after.db.trades| ensures TradeOk(after.db.trades[i], after.db.attempts, w.owners) {
        if i < n {
          assert TradeOk(w.db.trades[i], w.db.attempts, w.owners);
        }
      }
      forall p | p in w.procs ensures ProgressOk(w.procs[p], after.db, w.owners) {
        assert ProgressOk(w.procs[p], w.db, w.owners);
      }
    }
  }

  lemma NextKeepsInv(w: World, step: Step)
    requires Inv(w)
    ensures Inv(Next(w, step))
  {
    match step
    case Tick(_) =>
    case Start(_, _, _, _, _) => StartKeepsInv(w, step);
    case Respond(_, _) => RespondKeepsInv(w, step);
    case StoreOutcome(_) => StoreOutcomeKeepsInv(w, step);
    case BuildResult(_) => BuildResultKeepsInv(w, step);
    case Record(_, _) => RecordKeepsInv(w, step);
    case Crash(_) =>
    case BacktestTrade(_, _) => BacktestKeepsInv(w, step);
  }

  lemma {:induction false} RunKeepsInv(steps: seq<Step>)
    ensures Inv(Run(steps))
  {
    if steps == [] {
    } else {
      RunKeepsInv(steps[..|steps| - 1]);
      NextKeepsInv(Run(steps[..|steps| - 1]), steps[|steps| - 1]);
    }
  }

  // ----------------------------------------------------------- nothing delivered is invisible

  predicate InWindow(a: Attempt, symbol: nat, side: nat, since: int, scope: Scope) {
    a.symbol == symbol && a.side == side && a.createdAt >= since && InScope(scope, a.strategy)
  }

  lemma OneCounts<T>(rows: seq<T>, p: T -> bool, k: nat)
    requires k < |rows| && p(rows[k])
    ensures Count(rows, p) >= 1
  {
    CountZero(rows, p);
  }

  /** Every attempt in the window that was not rejected keeps the duplicate count at one or more. */
  lemma UnrejectedAttemptCounts(w: World, row: nat, since: int, scope: Scope)
    requires Inv(w) && row < |w.db.attempts|
    requires InWindow(w.db.attempts[row], w.db.attempts[row].symbol, w.db.attempts[row].side, since, scope)
    requires !w.db.attempts[row].status.Rejected?
    ensures CountRecentSubmitted(w.db, w.db.attempts[row].symbol, w.db.attempts[row].side, since, scope) >= 1
  {
    var db, a := w.db, w.db.attempts[row];
    var tradeCounts := (t: Trade) => TradeCounts(t, a.symbol, a.side, since, scope);
    var attemptCounts := (x: Attempt) => AttemptCounts(db.trades, x, a.symbol, a.side, since, scope);
    if IsRecorded(db.trades, a.brokerId) {
      var i :| 0 <= i < |db.trades| && db.trades[i].brokerId == a.brokerId && PaperSubmitted(db.trades[i]);
      assert TradeOk(db.trades[i], db.attempts, w.owners) && AttemptOk(a, row, w.owners);
      OneCounts(db.trades, tradeCounts, i);
    } else {
      OneCounts(db.attempts, attemptCounts, row);
    }
  }

  /** The broker refuses only what it did not deliver. */
  predicate Truthful(step: Step) {
    step.Respond? && step.answer.Refused? ==> !step.answer.delivered
  }

  /** Delivered orders belong to committed attempts, none of them rejected. */
  ghost predicate DeliveredOk(w: World) {
    && (forall row :: row in w.delivered ==> row < |w.db.attempts| && !w.db.attempts[row].status.Rejected?)
    && (forall p :: p in w.procs && w.procs[p].Answered? && w.procs[p].answer.Refused? ==> w.procs[p].row !in w.delivered)
    && (forall p :: p in w.procs && w.procs[p].AttemptCommitted? ==> w.procs[p].row !in w.delivered)
  }

  lemma NextKeepsDelivered(w: World, step: Step)
    requires Inv(w) && DeliveredOk(w) && Truthful(step)
    ensures DeliveredOk(Next(w, step))
  {
    if step.StoreOutcome? && Next(w, step) != w {
      var pr := w.procs[step.proc];
      FinalizeIsOneRow(w.db, pr.row, StatusOf(pr.answer), BrokerIdOf(pr.answer));
    }
  }

  lemma {:induction false} RunKeepsDelivered(steps: seq<Step>)
    requires forall i :: 0 <= i < |steps| ==> Truthful(steps[i])
    ensures DeliveredOk(Run(steps))
  {
    if steps == [] {
    } else {
      RunKeepsDelivered(steps[..|steps| - 1]);
      RunKeepsInv(steps[..|steps| - 1]);
      NextKeepsDelivered(Run(steps[..|steps| - 1]), steps[|steps| - 1]);
    }
  }

  /**
   Crash safety.  After every interleaving with crashes anywhere, provided refusals are truthful:
   an order that exists at the broker is seen by the duplicate count of its symbol, side and
   strategy for as long as its attempt is inside the window.
   */
  lemma DeliveredOrdersAreCounted(steps: seq<Step>, row: nat, since: int, scope: Scope)
    requires forall i :: 0 <= i < |steps| ==> Truthful(steps[i])
    requires row in Run(steps).delivered && row < |Run(steps).db.attempts|
    requires var a := Run(steps).db.attempts[row]; InWindow(a, a.symbol, a.side, since, scope)
    ensures var a := Run(steps).db.attempts[row]; CountRecentSubmitted(Run(steps).db, a.symbol, a.side, since, scope) >= 1
  {
    RunKeepsInv(steps);
    RunKeepsDelivered(steps);
    UnrejectedAttemptCounts(Run(steps), row, since, scope);
  }

  /** A refusal that had in fact delivered the order leaves it invisible to the count. */
  function LyingRefusal(): seq<Step> {
    [Start(1, 100, Some(5), 2, 0), Respond(1, Refused(true)), StoreOutcome(1)]
  }

  lemma RunNext(steps: seq<Step>, k: nat)
    requires k < |steps|
    ensures Run(steps[..0]) == FRESH
    ensures Run(steps[..k + 1]) == Next(Run(steps[..k]), steps[k])
    ensures Run(steps[..|steps|]) == Run(steps)
  {
    assert steps[..k + 1][..k] == steps[..k];
    assert steps[..|steps|] == steps;
  }

  lemma LyingRefusalRuns()
    ensures Run(LyingRefusal()).db == EMPTY.(attempts := [Attempt(100, Some(5), 2, 0, 0, Rejected, None)])
    ensures Run(LyingRefusal()).delivered == {0}
  {
    hide Run, FinalizeAttempt;
    var s, a := LyingRefusal(), Attempt(100, Some(5), 2, 0, 0, Pending, None);
    RunNext(s, 0);
    assert Run(s[..1]) == FRESH.(db := EMPTY.(attempts := [a]), procs := map[1 := AttemptCommitted(0)]);
    RunNext(s, 1);
    assert Run(s[..2]) == Run(s[..1]).(procs := map[1 := Answered(0, Refused(true))], delivered := {0});
    RunNext(s, 2);
    FinalizeIsOneRow(Run(s[..2]).db, 0, Rejected, None);
    assert [a][0 := a.(status := Rejected)] == [a.(status := Rejected)];
  }

  lemma LyingRefusalIsInvisible(scope: Scope)
    ensures var w := Run(LyingRefusal());
      0 in w.delivered && CountRecentSubmitted(w.db, 2, 0, 0, scope) == 0
  {
    hide Run;
    LyingRefusalRuns();
    var db := Run(LyingRefusal()).db;
    CountZero(db.attempts, (x: Attempt) => AttemptCounts(db.trades, x, 2, 0, 0, scope));
  }

  // ----------------------------------------------------------------- each order counts once

  /** The trade that records the attempt's order was written at or after `since`. */
  predicate RecordedSince(trades: seq<Trade>, brokerId: Option<nat>, since: int) {
    brokerId.Some? && exists i :: 0 <= i < |trades| && trades[i].brokerId == brokerId && PaperSubmitted(trades[i])
                                  && trades[i].recordedAt >= since
  }

  /** What one attempt adds: once recorded, its trade's date decides; before that, its own. */
  predicate Contributes(trades: seq<Trade>, a: Attempt, symbol: nat, side: nat, since: int, scope: Scope) {
    && a.symbol == symbol && a.side == side && InScope(scope, a.strategy)
    && if IsRecorded(trades, a.brokerId) then RecordedSince(trades, a.brokerId, since)
       else !a.status.Rejected? && a.createdAt >= since
  }

  /** An attempt inside the window contributes exactly when it was not rejected, delivered or not. */
  lemma ContributesIffUnrejected(w: World, row: nat, since: int, scope: Scope)
    requires Inv(w) && row < |w.db.attempts|
    requires InWindow(w.db.attempts[row], w.db.attempts[row].symbol, w.db.attempts[row].side, since, scope)
    ensures var a := w.db.attempts[row];
      Contributes(w.db.trades, a, a.symbol, a.side, since, scope) <==> !a.status.Rejected?
  {
    var a := w.db.attempts[row];
    assert AttemptOk(a, row, w.owners);
    if IsRecorded(w.db.trades, a.brokerId) {
      var i :| 0 <= i < |w.db.trades| && w.db.trades[i].brokerId == a.brokerId && PaperSubmitted(w.db.trades[i]);
      assert TradeOk(w.db.trades[i], w.db.attempts, w.owners);
    }
  }

  /** The recorded half of Contributes. */
  predicate ContributesByTrade(trades: seq<Trade>, a: Attempt, symbol: nat, side: nat, since: int, scope: Scope) {
    a.symbol == symbol && a.side == side && InScope(scope, a.strategy) && RecordedSince(trades, a.brokerId, since)
  }

  lemma {:induction false} CountOneMore<T>(rows: seq<T>, p: T -> bool, q: T -> bool, k: nat)
    requires k < |rows| && !p(rows[k]) && q(rows[k])
    requires forall i :: 0 <= i < |rows| && i != k ==> p(rows[i]) == q(rows[i])
    ensures Count(rows, q) == Count(rows, p) + 1
  {
    if k == |rows| - 1 {
      CountSame(rows[..k], p, q);
    } else {
      CountOneMore(rows[..|rows| - 1], p, q, k);
    }
  }

  lemma {:induction false} CountSplit<T>(rows: seq<T>, p: T -> bool, q: T -> bool, either: T -> bool)
    requires forall i :: 0 <= i < |rows| ==> !(p(rows[i]) && q(rows[i])) && (either(rows[i]) <==> p(rows[i]) || q(rows[i]))
    ensures Count(rows, p) + Count(rows, q) == Count(rows, either)
  {
    if rows == [] {
    } else {
      CountSplit(rows[..|rows| - 1], p, q, either);
    }
  }

  /** Counted trades are as many as the attempts they record. */
  lemma {:induction false} TradesMatchAttempts(trades: seq<Trade>, attempts: seq<Attempt>, owners: map<nat, nat>,
                                               symbol: nat, side: nat, since: int, scope: Scope)
    requires TradesOk(trades, attempts, owners)
    requires forall i :: 0 <= i < |attempts| ==> AttemptOk(attempts[i], i, owners)
    ensures Count(trades, (t: Trade) => TradeCounts(t, symbol, side, since, scope))
         == Count(attempts, (a: Attempt) => ContributesByTrade(trades, a, symbol, side, since, scope))
  {
    var byTrade := (a: Attempt) => ContributesByTrade(trades, a, symbol, side, since, scope);
    if trades == [] {
      CountZero(attempts, byTrade);
    } else {
      var front, t := trades[..|trades| - 1], trades[|trades| - 1];
      var before := (a: Attempt) => ContributesByTrade(front, a, symbol, side, since, scope);
      assert TradesOk(front, attempts, owners);
      TradesMatchAttempts(front, attempts, owners, symbol, side, since, scope);
      forall i | 0 <= i < |attempts|
        ensures byTrade(attempts[i])
           <==> (before(attempts[i])
                 || (attempts[i].brokerId.Some? && t.brokerId == attempts[i].brokerId
                     && TradeCounts(t, symbol, side, since, scope)))
      {
        assert TradeOk(t, attempts, owners) && AttemptOk(attempts[i], i, owners);
      }
      if TradeCounts(t, symbol, side, since, scope) {
        assert TradeOk(t, attempts, owners);
        var k := owners[t.brokerId.value];
        forall i | 0 <= i < |attempts| && i != k ensures attempts[i].brokerId != t.brokerId {
          assert AttemptOk(attempts[i], i, owners);
        }
        assert !RecordedSince(front, t.brokerId, since);
        CountOneMore(attempts, before, byTrade, k);
      } else {
        CountSame(attempts, before, byTrade);
      }
    }
  }

  /**
   The duplicate count is a count of attempts: each contributes at most one, and a fully recorded
   submit exactly one while its trade is in the window.
   */
  lemma CountIsPerAttempt(w: World, symbol: nat, side: nat, since: int, scope: Scope)
    requires Inv(w)
    ensures CountRecentSubmitted(w.db, symbol, side, since, scope)
         == Count(w.db.attempts, (a: Attempt) => Contributes(w.db.trades, a, symbol, side, since, scope))
  {
    var db := w.db;
    var byTrade := (a: Attempt) => ContributesByTrade(db.trades, a, symbol, side, since, scope);
    var unrecorded := (a: Attempt) => AttemptCounts(db.trades, a, symbol, side, since, scope);
    var contributes := (a: Attempt) => Contributes(db.trades, a, symbol, side, since, scope);
    TradesMatchAttempts(db.trades, db.attempts, w.owners, symbol, side, since, scope);
    CountSplit(db.attempts, byTrade, unrecorded, contributes);
  }

  // ---------------------------------------------------------------------- the rows that count

  predicate OfScope(strategy: Option<nat>, scope: Scope) {
    match scope
    case Unscoped => true
    case Scoped(name) => strategy == name
  }

  /** A paper order on record as submitted, in the window and of the scope. */
  predicate OnRecord(t: Trade, symbol: nat, side: nat, since: int, scope: Scope) {
    && t.symbol == symbol && t.side == side && t.status == TradeSubmitted && t.source == Paper
    && t.recordedAt >= since && OfScope(t.strategy, scope)
  }

  /** An attempt whose delivery is unknown: not rejected, and no submitted paper trade carries its broker id. */
  ghost predicate MayBeLive(trades: seq<Trade>, a: Attempt, symbol: nat, side: nat, since: int, scope: Scope) {
    && a.symbol == symbol && a.side == side && (a.status == Pending || a.status == Submitted || a.status == Errored)
    && a.createdAt >= since && OfScope(a.strategy, scope)
    && forall i :: 0 <= i < |trades| && trades[i].status == TradeSubmitted && trades[i].source == Paper
         ==> a.brokerId.None? || trades[i].brokerId != a.brokerId
  }

  /** The duplicate count is the number of orders on record plus the number of attempts that may be live. */
  lemma CountIsOrders(db: Tables, symbol: nat, side: nat, since: int, scope: Scope)
    ensures CountRecentSubmitted(db, symbol, side, since, scope)
         == |set i: nat | i < |db.trades| && OnRecord(db.trades[i], symbol, side, since, scope)|
            + |set i: nat | i < |db.attempts| && MayBeLive(db.trades, db.attempts[i], symbol, side, since, scope)|
  {
    var recorded := (t: Trade) => TradeCounts(t, symbol, side, since, scope);
    var live := (a: Attempt) => AttemptCounts(db.trades, a, symbol, side, since, scope);
    CountIsRows(db.trades, recorded);
    CountIsRows(db.attempts, live);
    assert RowsWhere(db.trades, recorded)
        == set i: nat | i < |db.trades| && OnRecord(db.trades[i], symbol, side, since, scope);
    assert RowsWhere(db.attempts, live)
        == set i: nat | i < |db.attempts| && MayBeLive(db.trades, db.attempts[i], symbol, side, since, scope);
  }

  // --------------------------------------------------------------------- what a submit leaves behind

  /** A submit first commits a pending attempt, stamped with the time, and only under an unused client id. */
  lemma StartCommits(w: World, proc: nat, clientId: nat, strategy: Option<nat>, symbol: nat, side: nat)
    requires proc !in w.procs
    ensures var after := Next(w, Start(proc, clientId, strategy, symbol, side));
      if forall i :: 0 <= i < |w.db.attempts| ==> w.db.attempts[i].clientId != clientId then
        && after.db == w.db.(attempts := w.db.attempts + [Attempt(clientId, strategy, symbol, side, w.clock, Pending, None)])
        && after == w.(db := after.db, procs := w.procs[proc := AttemptCommitted(|w.db.attempts|)])
      else after == w
  {
  }

  /** The order exists at the broker once it is accepted, or despite a refusal or an exception. */
  lemma RespondDelivers(w: World, proc: nat, answer: Answer)
    requires proc in w.procs && w.procs[proc].AttemptCommitted? && (answer.Accepted? ==> answer.brokerId !in w.owners)
    ensures var row, after := w.procs[proc].row, Next(w, Respond(proc, answer));
      && after.db == w.db && after.procs == w.procs[proc := Answered(row, answer)]
      && after.owners == (if answer.Accepted? then w.owners[answer.brokerId := row] else w.owners)
      && after.delivered == w.delivered + match answer
           case Accepted(_) => {row}
           case Refused(delivered) => if delivered then {row} else {}
           case Failed(delivered) => if delivered then {row} else {}
  {
  }

  /** Storing the outcome touches the one attempt; only an acceptance leaves a broker id, and an exception ends there. */
  lemma OutcomeIsStored(w: World, proc: nat)
    requires Inv(w) && proc in w.procs && w.procs[proc].Answered?
    ensures var row, answer, after := w.procs[proc].row, w.procs[proc].answer, Next(w, StoreOutcome(proc));
      && row < |w.db.attempts|
      && after.db == w.db.(attempts := w.db.attempts[row :=
           match answer
           case Accepted(id) => w.db.attempts[row].(status := Submitted, brokerId := Some(id))
           case Refused(_) => w.db.attempts[row].(status := Rejected, brokerId := None)
           case Failed(_) => w.db.attempts[row].(status := Errored, brokerId := None)])
      && after.procs == if answer.Failed? then w.procs - {proc} else w.procs[proc := OutcomeStored(row, answer, None)]
  {
    assert ProgressOk(w.procs[proc], w.db, w.owners);
    FinalizeIsOneRow(w.db, w.procs[proc].row, StatusOf(w.procs[proc].answer), BrokerIdOf(w.procs[proc].answer));
  }

  /** The result carries the time it is built at, not the attempt's. */
  lemma ResultIsStamped(w: World, proc: nat, row: nat, answer: Answer)
    requires proc in w.procs && w.procs[proc] == OutcomeStored(row, answer, None)
    ensures Next(w, BuildResult(proc)) == w.(procs := w.procs[proc := OutcomeStored(row, answer, Some(w.clock))])
  {
  }

  /** The paper trade of an attempt: submitted under the broker's id if it was accepted, else rejected without one. */
  predicate Mirrors(t: Trade, a: Attempt, answer: Answer, explanation: nat, at: int) {
    && t.explanation == explanation && t.recordedAt == at && t.source == Paper
    && t.strategy == a.strategy && t.symbol == a.symbol && t.side == a.side
    && (answer.Accepted? ==> t.status == TradeSubmitted && t.brokerId == Some(answer.brokerId))
    && (!answer.Accepted? ==> t.status == TradeRejected && t.brokerId == None)
  }

  /** Recording appends the explanation and one paper trade that points at it and mirrors the attempt. */
  lemma OutcomeIsRecorded(w: World, proc: nat, e: Explanation)
    requires Inv(w) && proc in w.procs && w.procs[proc].OutcomeStored? && w.procs[proc].stamp.Some?
    requires e.byStrategyRun ==> e.session.Some? || e.backtestRun.Some?
    ensures var row, answer, after := w.procs[proc].row, w.procs[proc].answer, Next(w, Record(proc, e));
      && row < |w.db.attempts| && after.procs == w.procs - {proc}
      && after.db == w.db.(explanations := w.db.explanations + [e], trades := after.db.trades)
      && |after.db.trades| == |w.db.trades| + 1 && after.db.trades[..|w.db.trades|] == w.db.trades
      && Mirrors(after.db.trades[|w.db.trades|], w.db.attempts[row], answer, |w.db.explanations|, w.procs[proc].stamp.value)
  {
    assert ProgressOk(w.procs[proc], w.db, w.owners);
  }

  // --------------------------------------------------------------------- scopes partition

  function CountNamed(db: Tables, symbol: nat, side: nat, since: int, names: seq<nat>): nat {
    if names == [] then 0
    else CountNamed(db, symbol, side, since, names[..|names| - 1])
         + CountRecentSubmitted(db, symbol, side, since, Scoped(Some(names[|names| - 1])))
  }

  /** Every strategy that wrote a row is listed. */
  ghost predicate Covers(db: Tables, names: seq<nat>) {
    && (forall i :: 0 <= i < |db.trades| && db.trades[i].strategy.Some? ==> db.trades[i].strategy.value in names)
    && (forall i :: 0 <= i < |db.attempts| && db.attempts[i].strategy.Some? ==> db.attempts[i].strategy.value in names)
  }

  /** Rows counted for one of the strategies in `names`. */
  predicate Among(names: seq<nat>, strategy: Option<nat>) {
    strategy.Some? && strategy.value in names
  }

  lemma {:induction false} CountNamedSplits(db: Tables, symbol: nat, side: nat, since: int, names: seq<nat>)
    requires Distinct(names)
    ensures CountNamed(db, symbol, side, since, names)
         == Count(db.trades, (t: Trade) => TradeCounts(t, symbol, side, since, Unscoped) && Among(names, t.strategy))
            + Count(db.attempts, (a: Attempt) => AttemptCounts(db.trades, a, symbol, side, since, Unscoped)
                                                 && Among(names, a.strategy))
  {
    var ts := (t: Trade) => TradeCounts(t, symbol, side, since, Unscoped) && Among(names, t.strategy);
    var xs := (a: Attempt) => AttemptCounts(db.trades, a, symbol, side, since, Unscoped) && Among(names, a.strategy);
    if names == [] {
      CountZero(db.trades, ts);
      CountZero(db.attempts, xs);
    } else {
      var front, name := names[..|names| - 1], names[|names| - 1];
      CountNamedSplits(db, symbol, side, since, front);
      assert names == front + [name] && name !in front;
      CountSplit(db.trades, (t: Trade) => TradeCounts(t, symbol, side, since, Unscoped) && Among(front, t.strategy),
                 (t: Trade) => TradeCounts(t, symbol, side, since, Scoped(Some(name))), ts);
      CountSplit(db.attempts,
                 (a: Attempt) => AttemptCounts(db.trades, a, symbol, side, since, Unscoped) && Among(front, a.strategy),
                 (a: Attempt) => AttemptCounts(db.trades, a, symbol, side, since, Scoped(Some(name))), xs);
    }
  }

  /** The account-wide count is the sum of the per-strategy counts plus the strategy-less count. */
  lemma ScopesPartitionTheCount(db: Tables, symbol: nat, side: nat, since: int, names: seq<nat>)
    requires Distinct(names) && Covers(db, names)
    ensures CountRecentSubmitted(db, symbol, side, since, Unscoped)
         == CountNamed(db, symbol, side, since, names) + CountRecentSubmitted(db, symbol, side, since, Scoped(None))
  {
    CountNamedSplits(db, symbol, side, since, names);
    CountSplit(db.trades, (t: Trade) => TradeCounts(t, symbol, side, since, Unscoped) && Among(names, t.strategy),
               (t: Trade) => TradeCounts(t, symbol, side, since, Scoped(None)),
               (t: Trade) => TradeCounts(t, symbol, side, since, Unscoped));
    CountSplit(db.attempts,
               (a: Attempt) => AttemptCounts(db.trades, a, symbol, side, since, Unscoped) && Among(names, a.strategy),
               (a: Attempt) => AttemptCounts(db.trades, a, symbol, side, since, Scoped(None)),
               (a: Attempt) => AttemptCounts(db.trades, a, symbol, side, since, Unscoped));
  }
}
