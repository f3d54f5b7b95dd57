/**
 The event-store tables that queue-at-open and the submit outbox share, and each transaction on
 them as one function from tables to tables.  Row ids are positions: rows are never deleted.
 */
module EventStoreSpec {
  import opened OrderedDict

  datatype IntentStatus = Queued | Consumed | Expired | Obsolete | Dropped

  datatype Intent = Intent(
    key: nat, strategy: Option<nat>, session: Option<nat>, configPath: Option<nat>, configHash: Option<nat>,
    symbol: Option<nat>, side: Option<nat>, intentClass: Option<nat>, expires: Option<int>,
    status: IntentStatus, consumedAt: Option<int>, consumedBy: Option<nat>)

  datatype ExitReason = ControlledStop | Interrupted | Crashed | KillSwitch | OrphanRecovered

  datatype StrategyRun = StrategyRun(session: nat, strategy: nat, endedAt: Option<int>, exit: Option<ExitReason>)

  datatype AttemptStatus = Pending | Submitted | Rejected | Errored

  datatype Attempt = Attempt(
    clientId: nat, strategy: Option<nat>, symbol: nat, side: nat, createdAt: int,
    status: AttemptStatus, brokerId: Option<nat>)

  datatype TradeStatus = TradeSubmitted | TradeRejected | TradeBlocked | TradePreview | TradeCancelled

  datatype Source = Paper | Backtest

  datatype Trade = Trade(
    explanation: nat, recordedAt: int, status: TradeStatus, source: Source, strategy: Option<nat>,
    symbol: nat, side: nat, brokerId: Option<nat>)

  /** An explanation row, down to what its ancestor rule reads. */
  datatype Explanation = Explanation(byStrategyRun: bool, session: Option<nat>, backtestRun: Option<nat>)

  datatype Tables = Tables(intents: seq<Intent>, runs: seq<StrategyRun>, attempts: seq<Attempt>,
                           explanations: seq<Explanation>, trades: seq<Trade>)

  /** The hash of the configuration on disk at a path, or none when it cannot be computed. */
  type Disk = nat -> Option<nat>

  const EMPTY := Tables([], [], [], [], [])

  // ------------------------------------------------------------------- the rows of a table

  function Filter<T>(rows: seq<T>, p: T -> bool): seq<T> {
    if rows == [] then []
    else Filter(rows[..|rows| - 1], p) + (if p(rows[|rows| - 1]) then [rows[|rows| - 1]] else [])
  }

  function Count<T>(rows: seq<T>, p: T -> bool): nat {
    if rows == [] then 0 else Count(rows[..|rows| - 1], p) + (if p(rows[|rows| - 1]) then 1 else 0)
  }

  /** UPDATE ... WHERE: every row that satisfies `p` becomes `f` of it, the others stay. */
  function Update<T>(rows: seq<T>, p: T -> bool, f: T -> T): seq<T> {
    seq(|rows|, i requires 0 <= i < |rows| => if p(rows[i]) then f(rows[i]) else rows[i])
  }

  ghost predicate Distinct(ids: seq<nat>) {
    forall i, j :: 0 <= i < j < |ids| ==> ids[i] != ids[j]
  }

  ghost predicate UniqueClients(attempts: seq<Attempt>) {
    forall i, j :: 0 <= i < j < |attempts| ==> attempts[i].clientId != attempts[j].clientId
  }

  // ------------------------------------------------------------------------ queued intents

  predicate HasKey(intents: seq<Intent>, key: nat) {
    exists i :: 0 <= i < |intents| && intents[i].key == key
  }

  /** A row that expires at no known time neither drains nor is swept. */
  predicate Unexpired(q: Intent, now: int) {
    q.expires.Some? && q.expires.value > now
  }

  predicate StoppedCleanly(runs: seq<StrategyRun>, session: nat) {
    exists i :: 0 <= i < |runs| && runs[i].session == session && runs[i].exit == Some(ControlledStop)
  }

  /** Queued by the running session, or by a session whose run ended in a controlled stop. */
  predicate CleanHandoff(runs: seq<StrategyRun>, q: Intent, running: Option<nat>) {
    q.session.Some? && (q.session == running || StoppedCleanly(runs, q.session.value))
  }

  /** The frozen hash equals the hash of what is on disk now. */
  predicate ConfigMatches(q: Intent, disk: Disk) {
    q.configHash.Some? && q.configPath.Some? && disk(q.configPath.value) == q.configHash
  }

  predicate Drainable(runs: seq<StrategyRun>, q: Intent, now: int, running: Option<nat>) {
    q.status.Queued? && Unexpired(q, now) && CleanHandoff(runs, q, running)
  }

  predicate IsActive(db: Tables, q: Intent, strategy: nat, now: int, running: nat, disk: Disk) {
    q.strategy == Some(strategy) && Drainable(db.runs, q, now, Some(running)) && ConfigMatches(q, disk)
  }

  /** What a runner of `strategy` may drain, in id order. */
  function ActiveIntents(db: Tables, strategy: nat, now: int, running: nat, disk: Disk): seq<Intent> {
    Filter(db.intents, (q: Intent) => IsActive(db, q, strategy, now, running, disk))
  }

  /** A key is unique: appending it twice fails and changes nothing. */
  function AppendIntent(db: Tables, q: Intent): Tables {
    if HasKey(db.intents, q.key) then db else db.(intents := db.intents + [q])
  }

  predicate Claimable(db: Tables, q: Intent, key: nat, now: int, running: Option<nat>) {
    q.key == key && Drainable(db.runs, q, now, running)
  }

  function Claimed(q: Intent, consumer: nat, at: int): Intent {
    q.(status := Consumed, consumedAt := Some(at), consumedBy := Some(consumer))
  }

  /** How many rows the compare-and-swap would flip. */
  function ClaimCount(db: Tables, key: nat, now: int, running: Option<nat>): nat {
    Count(db.intents, (q: Intent) => Claimable(db, q, key, now, running))
  }

  function ClaimRows(db: Tables, key: nat, now: int, running: Option<nat>, consumer: nat, at: int): seq<Intent> {
    Update(db.intents, (q: Intent) => Claimable(db, q, key, now, running), (q: Intent) => Claimed(q, consumer, at))
  }

  predicate HasClientId(attempts: seq<Attempt>, clientId: nat) {
    exists i :: 0 <= i < |attempts| && attempts[i].clientId == clientId
  }

  /** A reused client order id fails the insert. */
  function AppendAttempt(db: Tables, a: Attempt): Tables {
    if HasClientId(db.attempts, a.clientId) then db else db.(attempts := db.attempts + [a])
  }

  /** The flip and the outbox insert commit together or not at all. */
  function ClaimAndAppend(db: Tables, key: nat, a: Attempt, now: int, running: Option<nat>, consumer: nat, at: int): Tables {
    if ClaimCount(db, key, now, running) != 1 then db.(intents := ClaimRows(db, key, now, running, consumer, at))
    else if HasClientId(db.attempts, a.clientId) then db
    else db.(intents := ClaimRows(db, key, now, running, consumer, at), attempts := db.attempts + [a])
  }

  predicate Stale(q: Intent, now: int) {
    q.status.Queued? && q.expires.Some? && q.expires.value <= now
  }

  function ExpireStale(db: Tables, now: int): Tables {
    db.(intents := Update(db.intents, (q: Intent) => Stale(q, now), (q: Intent) => q.(status := Expired)))
  }

  /** Set one row's status whatever it was; an unknown id changes nothing. */
  function MarkIntent(db: Tables, id: nat, status: IntentStatus): Tables {
    if id < |db.intents| then db.(intents := db.intents[id := db.intents[id].(status := status)]) else db
  }

  predicate Superseded(q: Intent, strategy: nat, symbol: nat, side: nat, intentClass: nat, keep: nat) {
    && q.strategy == Some(strategy) && q.symbol == Some(symbol) && q.side == Some(side)
    && q.intentClass == Some(intentClass) && q.status.Queued? && q.key != keep
  }

  function SupersedeIntents(db: Tables, strategy: nat, symbol: nat, side: nat, intentClass: nat, keep: nat): Tables {
    db.(intents := Update(db.intents, (q: Intent) => Superseded(q, strategy, symbol, side, intentClass, keep),
                          (q: Intent) => q.(status := Obsolete)))
  }

  // ------------------------------------------------------------------------- strategy runs

  function AppendRun(db: Tables, run: StrategyRun): Tables {
    db.(runs := db.runs + [run])
  }

  predicate IsOpenRun(run: StrategyRun, session: nat) {
    run.session == session && run.endedAt.None?
  }

  /** Close the latest open row of a session. */
  function EndRunRows(runs: seq<StrategyRun>, session: nat, at: int, exit: ExitReason): seq<StrategyRun> {
    if runs == [] then []
    else
      var front, last := runs[..|runs| - 1], runs[|runs| - 1];
      if IsOpenRun(last, session) then front + [last.(endedAt := Some(at), exit := Some(exit))]
      else EndRunRows(front, session, at, exit) + [last]
  }

  function EndRun(db: Tables, session: nat, at: int, exit: ExitReason): Tables {
    db.(runs := EndRunRows(db.runs, session, at, exit))
  }

  /** Close every open row of a strategy that died without closing its own. */
  function ReconcileOrphans(db: Tables, strategy: nat, at: int, exit: ExitReason): Tables {
    db.(runs := Update(db.runs, (run: StrategyRun) => run.strategy == strategy && run.endedAt.None?,
                       (run: StrategyRun) => run.(endedAt := Some(at), exit := Some(exit))))
  }

  // --------------------------------------------------------------------------- the outbox

  predicate IsPending(a: Attempt, clientId: nat) {
    a.clientId == clientId && a.status.Pending?
  }

  /** Record the broker's outcome on a pending attempt; anything else is refused. */
  function FinalizeAttempt(db: Tables, clientId: nat, status: AttemptStatus, brokerId: Option<nat>): Tables {
    db.(attempts := Update(db.attempts, (a: Attempt) => IsPending(a, clientId),
                           (a: Attempt) => a.(status := status, brokerId := brokerId)))
  }

  /** A row written for a strategy run must name the session or the backtest it belongs to. */
  predicate HasAncestor(e: Explanation) {
    e.byStrategyRun ==> e.session.Some? || e.backtestRun.Some?
  }

  /** The explanation and its trade commit together; the trade points at its explanation. */
  function AppendExplanationAndTrade(db: Tables, e: Explanation, t: Trade): Tables {
    if !HasAncestor(e) then db
    else db.(explanations := db.explanations + [e], trades := db.trades + [t.(explanation := |db.explanations|)])
  }

  /** Whose rows a duplicate count looks at. */
  datatype Scope = Unscoped | Scoped(strategy: Option<nat>)

  predicate InScope(scope: Scope, strategy: Option<nat>) {
    scope.Unscoped? || scope.strategy == strategy
  }

  predicate IsRecorded(trades: seq<Trade>, brokerId: Option<nat>) {
    brokerId.Some? && exists i :: 0 <= i < |trades| && trades[i].brokerId == brokerId
                                  && trades[i].status.TradeSubmitted? && trades[i].source.Paper?
  }

  predicate TradeCounts(t: Trade, symbol: nat, side: nat, since: int, scope: Scope) {
    && t.symbol == symbol && t.side == side && t.status.TradeSubmitted? && t.source.Paper?
    && t.recordedAt >= since && InScope(scope, t.strategy)
  }

  predicate AttemptCounts(trades: seq<Trade>, a: Attempt, symbol: nat, side: nat, since: int, scope: Scope) {
    && a.symbol == symbol && a.side == side && !a.status.Rejected?
    && a.createdAt >= since && InScope(scope, a.strategy) && !IsRecorded(trades, a.brokerId)
  }

  /** Orders on `symbol` and `side` since `since` that may exist at the broker. */
  function CountRecentSubmitted(db: Tables, symbol: nat, side: nat, since: int, scope: Scope): nat {
    Count(db.trades, (t: Trade) => TradeCounts(t, symbol, side, since, scope))
    + Count(db.attempts, (a: Attempt) => AttemptCounts(db.trades, a, symbol, side, since, scope))
  }

  // ------------------------------------------------------------------------- table lemmas

  lemma {:induction false} CountZero<T>(rows: seq<T>, p: T -> bool)
    ensures Count(rows, p) == 0 <==> forall i :: 0 <= i < |rows| ==> !p(rows[i])
  {
    if rows == [] {
    } else {
      CountZero(rows[..|rows| - 1], p);
    }
  }

  /** Positions of the rows that satisfy `p`. */
  ghost function RowsWhere<T>(rows: seq<T>, p: T -> bool): set<nat> {
    set i: nat | i < |rows| && p(rows[i])
  }

  lemma {:induction false} CountIsRows<T>(rows: seq<T>, p: T -> bool)
    ensures Count(rows, p) == |RowsWhere(rows, p)|
  {
    if rows == [] {
      assert RowsWhere(rows, p) == {};
    } else {
      var n: nat := |rows| - 1;
      var before := RowsWhere(rows[..n], p);
      CountIsRows(rows[..n], p);
      assert RowsWhere(rows, p) == if p(rows[n]) then before + {n} else before;
    }
  }

  /** If at most one row satisfies `p`, the count says whether one does. */
  lemma {:induction false} CountUnique<T>(rows: seq<T>, p: T -> bool, k: nat)
    requires k < |rows| && forall i :: 0 <= i < |rows| && p(rows[i]) ==> i == k
    ensures Count(rows, p) == if p(rows[k]) then 1 else 0
  {
    var front := rows[..|rows| - 1];
    if k == |rows| - 1 {
      CountZero(front, p);
    } else {
      CountUnique(front, p, k);
    }
  }

  lemma {:induction false} CountSame<T>(rows: seq<T>, p: T -> bool, q: T -> bool)
    requires forall i :: 0 <= i < |rows| ==> p(rows[i]) == q(rows[i])
    ensures Count(rows, p) == Count(rows, q)
    ensures Filter(rows, p) == Filter(rows, q)
  {
    if rows == [] {
    } else {
      CountSame(rows[..|rows| - 1], p, q);
    }
  }

  lemma {:induction false} FilterHolds<T>(rows: seq<T>, p: T -> bool, x: T)
    ensures x in Filter(rows, p) <==> x in rows && p(x)
  {
    if rows == [] {
    } else {
      FilterHolds(rows[..|rows| - 1], p, x);
      assert rows == rows[..|rows| - 1] + [rows[|rows| - 1]];
    }
  }
}
