/**
 The event store as an object: each method is one transaction on the tables, and the in-memory
 explanation buffer sits beside them.
 */
module EventStore {
  import opened OrderedDict
  import opened EventStoreSpec
  import QueuedIntents
  import DrainFence
  import Outbox

  /** UPDATE ... WHERE, row by row; also how many rows it touched. */
  method UpdateRows<T>(rows: seq<T>, p: T -> bool, f: T -> T) returns (after: seq<T>, touched: nat)
    ensures after == Update(rows, p, f) && touched == Count(rows, p)
  {
    after, touched := [], 0;
    for i := 0 to |rows|
      invariant after == Update(rows[..i], p, f) && touched == Count(rows[..i], p)
    {
      assert rows[..i + 1][..i] == rows[..i];
      if p(rows[i]) {
        after, touched := after + [f(rows[i])], touched + 1;
      } else {
        after := after + [rows[i]];
      }
    }
    assert rows[..|rows|] == rows;
  }

  /** SELECT ... WHERE, in id order. */
  method SelectRows<T>(rows: seq<T>, p: T -> bool) returns (found: seq<T>)
    ensures found == Filter(rows, p)
  {
    found := [];
    for i := 0 to |rows|
      invariant found == Filter(rows[..i], p)
    {
      assert rows[..i + 1][..i] == rows[..i];
      if p(rows[i]) {
        found := found + [rows[i]];
      }
    }
    assert rows[..|rows|] == rows;
  }

  method CountRows<T>(rows: seq<T>, p: T -> bool) returns (n: nat)
    ensures n == Count(rows, p)
  {
    n := 0;
    for i := 0 to |rows|
      invariant n == Count(rows[..i], p)
    {
      assert rows[..i + 1][..i] == rows[..i];
      if p(rows[i]) {
        n := n + 1;
      }
    }
    assert rows[..|rows|] == rows;
  }

  ghost predicate IsLatestOpen(runs: seq<StrategyRun>, session: nat, latest: Option<nat>) {
    && (latest.Some? ==> latest.value < |runs| && IsOpenRun(runs[latest.value], session))
    && forall j :: 0 <= j < |runs| && IsOpenRun(runs[j], session) ==> latest.Some? && j <= latest.value
  }

  method LatestOpenRun(runs: seq<StrategyRun>, session: nat) returns (latest: Option<nat>)
    ensures IsLatestOpen(runs, session, latest)
  {
    latest := None;
    for i := 0 to |runs|
      invariant IsLatestOpen(runs[..i], session, latest)
    {
      if IsOpenRun(runs[i], session) {
        latest := Some(i);
      }
    }
    assert runs[..|runs|] == runs;
  }

  lemma {:induction false} EndsLatest(runs: seq<StrategyRun>, session: nat, at: int, exit: ExitReason, latest: Option<nat>)
    requires IsLatestOpen(runs, session, latest)
    ensures EndRunRows(runs, session, at, exit)
         == if latest.None? then runs
            else runs[latest.value := runs[latest.value].(endedAt := Some(at), exit := Some(exit))]
  {
    if runs != [] && !IsOpenRun(runs[|runs| - 1], session) {
      EndsLatest(runs[..|runs| - 1], session, at, exit, latest);
    }
  }

  datatype ConsumeResult = Won | Lost | DuplicateClientId

  datatype AppendResult = Stored(id: nat) | Buffered | Refused

  lemma {:induction false} FilterTwice<T>(rows: seq<T>, p: T -> bool, q: T -> bool, both: T -> bool)
    requires forall i :: 0 <= i < |rows| ==> (both(rows[i]) <==> p(rows[i]) && q(rows[i]))
    ensures Filter(Filter(rows, p), q) == Filter(rows, both)
  {
    if rows == [] {
    } else {
      var front, last := rows[..|rows| - 1], rows[|rows| - 1];
      FilterTwice(front, p, q, both);
      if p(last) {
        assert (Filter(front, p) + [last])[..|Filter(front, p)|] == Filter(front, p);
      } else {
        assert Filter(rows, p) == Filter(front, p);
      }
    }
  }

  class EventStore {
    var intents: seq<Intent>
    var runs: seq<StrategyRun>
    var attempts: seq<Attempt>
    var explanations: seq<Explanation>
    var trades: seq<Trade>
    var buffer: Option<seq<Explanation>>
    var batchDepth: nat

    function View(): Tables
      reads this
    {
      Tables(intents, runs, attempts, explanations, trades)
    }

    /** Idempotency keys are unique, and a buffer exists exactly while a batch is open. */
    ghost predicate Valid()
      reads this
    {
      QueuedIntents.UniqueKeys(intents) && (buffer.Some? <==> batchDepth > 0)
    }

    constructor ()
      ensures Valid() && View() == EMPTY && batchDepth == 0
    {
      intents, runs, attempts, explanations, trades, buffer, batchDepth := [], [], [], [], [], None, 0;
    }

    method AppendQueuedIntent(q: Intent) returns (id: Option<nat>)
      requires Valid()
      modifies this`intents
      ensures Valid()
      ensures View() == AppendIntent(old(View()), q)
      ensures id == if HasKey(old(intents), q.key) then None else Some(|old(intents)|)
      ensures id.Some? <==> forall i :: 0 <= i < |old(intents)| ==> old(intents)[i].key != q.key
      ensures intents == if id.Some? then old(intents) + [q] else old(intents)
    {
      var same := CountRows(intents, (r: Intent) => r.key == q.key);
      CountZero(intents, (r: Intent) => r.key == q.key);
      if same > 0 {
        return None;
      }
      id := Some(|intents|);
      intents := intents + [q];
    }

    /** The sole drain authority: the SQL fence first, then the configuration guard row by row. */
    method GetActiveQueuedIntents(strategy: nat, now: int, running: nat, disk: Disk) returns (active: seq<Intent>)
      ensures active == ActiveIntents(View(), strategy, now, running, disk)
      ensures forall q :: q in active <==>
        && q in intents && q.strategy == Some(strategy)
        && DrainFence.Fenced(runs, q, now, Some(running)) && DrainFence.SameConfig(q, disk)
    {
      var db := View();
      forall q ensures q in ActiveIntents(db, strategy, now, running, disk) <==>
          q in intents && IsActive(db, q, strategy, now, running, disk) {
        FilterHolds(intents, (r: Intent) => IsActive(db, r, strategy, now, running, disk), q);
      }
      var fence := (q: Intent) => q.strategy == Some(strategy) && Drainable(db.runs, q, now, Some(running));
      var guard := (q: Intent) => ConfigMatches(q, disk);
      var rows := SelectRows(intents, fence);
      active := SelectRows(rows, guard);
      FilterTwice(intents, fence, guard, (q: Intent) => IsActive(db, q, strategy, now, running, disk));
    }

    /**
     Verify the configuration, flip the row if it is still drainable, and insert the attempt:
     all of it, or none.
     */
    method ConsumeQueuedIntentAndAppendAttempt(key: nat, attempt: Attempt, now: int, running: Option<nat>,
                                               consumer: nat, at: int, disk: Disk)
      returns (r: ConsumeResult)
      requires Valid()
      modifies this`intents, this`attempts
      ensures Valid()
      ensures var db := old(View());
        var verified := QueuedIntents.Verified(db, key, disk).Some?;
        && (r.Won? <==> verified && QueuedIntents.Wins(db, key, attempt, now, running))
        && (r.DuplicateClientId? ==> HasClientId(db.attempts, attempt.clientId))
        && View() == if verified then ClaimAndAppend(db, key, attempt, now, running, consumer, at) else db
      ensures r.Won? <==> exists k :: DrainFence.Consumable(old(View()), k, key, attempt, now, running, disk)
      ensures r.Won? ==> exists k :: DrainFence.Consumable(old(View()), k, key, attempt, now, running, disk)
                                     && DrainFence.ConsumedInto(old(View()), k, attempt, consumer, at, View())
      ensures !r.Won? ==> View() == old(View())
    {
      hide DrainFence.Consumable, DrainFence.ConsumedInto, QueuedIntents.Verified;
      var db := View();
      DrainFence.ConsumesIff(db, key, attempt, now, running, consumer, at, disk);
      QueuedIntents.ClaimIsAtomic(db, key, attempt, now, running, consumer, at);
      QueuedIntents.ClaimIsOneRow(db, key, now, running);
      if QueuedIntents.Verified(db, key, disk).None? {
        return Lost;
      }
      var flipped, touched := UpdateRows(intents, (q: Intent) => Claimable(db, q, key, now, running),
                                         (q: Intent) => Claimed(q, consumer, at));
      if touched == 1 {
        var same := CountRows(attempts, (a: Attempt) => a.clientId == attempt.clientId);
        CountZero(attempts, (a: Attempt) => a.clientId == attempt.clientId);
        if same > 0 {
          return DuplicateClientId;
        }
        attempts := attempts + [attempt];
      }
      intents := flipped;
      r := if touched == 1 then Won else Lost;
    }

    /** Flip the rows that expired by `now`; returns exactly the rows flipped. */
    method ExpireStaleQueuedIntents(now: int) returns (swept: seq<Intent>)
      requires Valid()
      modifies this`intents
      ensures Valid()
      ensures View() == ExpireStale(old(View()), now)
      ensures |intents| == |old(intents)|
      ensures forall i :: 0 <= i < |intents| ==>
        var q := old(intents)[i];
        intents[i] == if q.status == Queued && q.expires.Some? && q.expires.value <= now then q.(status := Expired) else q
      ensures |swept| == Count(old(intents), (q: Intent) => Stale(q, now))
      ensures forall q :: q in swept ==> q.status.Expired? && q.expires.Some? && q.expires.value <= now
    {
      var stale := SelectRows(intents, (q: Intent) => Stale(q, now));
      swept := [];
      ghost var before := intents;
      var after, touched := UpdateRows(intents, (q: Intent) => Stale(q, now), (q: Intent) => q.(status := Expired));
      FilterCount(before, (q: Intent) => Stale(q, now));
      intents := after;
      for i := 0 to |stale|
        invariant |swept| == i && intents == after
        invariant forall q :: q in swept ==> q.status.Expired? && q.expires.Some? && q.expires.value <= now
      {
        FilterHolds(before, (q: Intent) => Stale(q, now), stale[i]);
        swept := swept + [stale[i].(status := Expired)];
      }
    }

    method MarkQueuedIntentExpired(id: nat)
      requires Valid()
      modifies this`intents
      ensures Valid()
      ensures View() == MarkIntent(old(View()), id, Expired)
      ensures intents == if id < |old(intents)| then old(intents)[id := old(intents)[id].(status := Expired)] else old(intents)
    {
      if id < |intents| {
        intents := intents[id := intents[id].(status := Expired)];
      }
    }

    method MarkQueuedIntentObsolete(id: nat)
      requires Valid()
      modifies this`intents
      ensures Valid()
      ensures View() == MarkIntent(old(View()), id, Obsolete)
      ensures intents == if id < |old(intents)| then old(intents)[id := old(intents)[id].(status := Obsolete)] else old(intents)
    {
      if id < |intents| {
        intents := intents[id := intents[id].(status := Obsolete)];
      }
    }

    method MarkQueuedIntentDropped(id: nat)
      requires Valid()
      modifies this`intents
      ensures Valid()
      ensures View() == MarkIntent(old(View()), id, Dropped)
      ensures intents == if id < |old(intents)| then old(intents)[id := old(intents)[id].(status := Dropped)] else old(intents)
    {
      if id < |intents| {
        intents := intents[id := intents[id].(status := Dropped)];
      }
    }

    /** Retire older queued rows of the same logical intent; returns how many. */
    method SupersedeQueuedIntents(strategy: nat, symbol: nat, side: nat, intentClass: nat, keep: nat)
      returns (touched: nat)
      requires Valid()
      modifies this`intents
      ensures Valid()
      ensures View() == SupersedeIntents(old(View()), strategy, symbol, side, intentClass, keep)
      ensures |intents| == |old(intents)|
      ensures forall i :: 0 <= i < |intents| ==>
        var q := old(intents)[i];
        var same := q.strategy == Some(strategy) && q.symbol == Some(symbol) && q.side == Some(side)
                    && q.intentClass == Some(intentClass);
        intents[i] == if same && q.status == Queued && q.key != keep then q.(status := Obsolete) else q
      ensures touched == Count(old(intents), (q: Intent) => Superseded(q, strategy, symbol, side, intentClass, keep))
    {
      intents, touched := UpdateRows(intents, (q: Intent) => Superseded(q, strategy, symbol, side, intentClass, keep),
                                     (q: Intent) => q.(status := Obsolete));
    }

    method AppendStrategyRun(run: StrategyRun)
      modifies this`runs
      ensures View() == AppendRun(old(View()), run)
    {
      runs := runs + [run];
    }

    /** Close the session's latest open run, if it has one. */
    method UpdateStrategyRunEnd(session: nat, at: int, exit: ExitReason)
      modifies this`runs
      ensures View() == EndRun(old(View()), session, at, exit)
      ensures exists latest ::
        && IsLatestOpen(old(runs), session, latest)
        && runs == if latest.None? then old(runs)
                   else old(runs)[latest.value := old(runs)[latest.value].(endedAt := Some(at), exit := Some(exit))]
    {
      var latest := LatestOpenRun(runs, session);
      EndsLatest(runs, session, at, exit, latest);
      if latest.Some? {
        runs := runs[latest.value := runs[latest.value].(endedAt := Some(at), exit := Some(exit))];
      }
    }

    method ReconcileOrphanStrategyRuns(strategy: nat, at: int, exit: ExitReason) returns (touched: nat)
      modifies this`runs
      ensures View() == ReconcileOrphans(old(View()), strategy, at, exit)
      ensures |runs| == |old(runs)|
      ensures forall i :: 0 <= i < |runs| ==>
        var run := old(runs)[i];
        runs[i] == if run.strategy == strategy && run.endedAt.None? then run.(endedAt := Some(at), exit := Some(exit))
                   else run
      ensures touched == Count(old(runs), (run: StrategyRun) => run.strategy == strategy && run.endedAt.None?)
    {
      runs, touched := UpdateRows(runs, (run: StrategyRun) => run.strategy == strategy && run.endedAt.None?,
                                  (run: StrategyRun) => run.(endedAt := Some(at), exit := Some(exit)));
    }

    /** The pre-submit outbox row. */
    method AppendExecutionAttempt(a: Attempt) returns (id: Option<nat>)
      modifies this`attempts
      ensures View() == AppendAttempt(old(View()), a)
      ensures id == if HasClientId(old(attempts), a.clientId) then None else Some(|old(attempts)|)
      ensures id.Some? <==> forall i :: 0 <= i < |old(attempts)| ==> old(attempts)[i].clientId != a.clientId
      ensures attempts == if id.Some? then old(attempts) + [a] else old(attempts)
    {
      var same := CountRows(attempts, (x: Attempt) => x.clientId == a.clientId);
      CountZero(attempts, (x: Attempt) => x.clientId == a.clientId);
      if same > 0 {
        return None;
      }
      id := Some(|attempts|);
      attempts := attempts + [a];
    }

    /** Record the broker's outcome; refused unless exactly one pending row carries the id. */
    method FinalizeExecutionAttempt(clientId: nat, status: AttemptStatus, brokerId: Option<nat>) returns (ok: bool)
      modifies this`attempts
      ensures status.Pending? ==> !ok && View() == old(View())
      ensures !status.Pending? ==> View() == FinalizeAttempt(old(View()), clientId, status, brokerId)
      ensures !status.Pending? ==>
        && |attempts| == |old(attempts)|
        && forall i :: 0 <= i < |attempts| ==>
             var a := old(attempts)[i];
             attempts[i] == if a.clientId == clientId && a.status == Pending then a.(status := status, brokerId := brokerId)
                            else a
      ensures !status.Pending? ==> (ok <==> Count(old(attempts), (a: Attempt) => IsPending(a, clientId)) == 1)
    {
      if status.Pending? {
        return false;
      }
      var touched;
      attempts, touched := UpdateRows(attempts, (a: Attempt) => IsPending(a, clientId),
                                      (a: Attempt) => a.(status := status, brokerId := brokerId));
      ok := touched == 1;
    }

    /** One transaction for an explanation and its trade. */
    method AppendExplanationAndTrade(e: Explanation, t: Trade) returns (ids: Option<(nat, nat)>)
      modifies this`explanations, this`trades
      ensures View() == EventStoreSpec.AppendExplanationAndTrade(old(View()), e, t)
      ensures ids == if HasAncestor(e) then Some((|old(explanations)|, |old(trades)|)) else None
      ensures ids.None? <==> e.byStrategyRun && e.session.None? && e.backtestRun.None?
      ensures ids.None? ==> explanations == old(explanations) && trades == old(trades)
      ensures ids.Some? ==>
        explanations == old(explanations) + [e] && trades == old(trades) + [t.(explanation := |old(explanations)|)]
    {
      if !HasAncestor(e) {
        return None;
      }
      ids := Some((|explanations|, |trades|));
      trades := trades + [t.(explanation := |explanations|)];
      explanations := explanations + [e];
    }

    method CountRecentSubmittedOrders(symbol: nat, side: nat, since: int, scope: Scope) returns (n: nat)
      ensures n == CountRecentSubmitted(View(), symbol, side, since, scope)
      ensures n == |set i: nat | i < |trades| && Outbox.OnRecord(trades[i], symbol, side, since, scope)|
                   + |set i: nat | i < |attempts| && Outbox.MayBeLive(trades, attempts[i], symbol, side, since, scope)|
    {
      Outbox.CountIsOrders(View(), symbol, side, since, scope);
      var db := View();
      var recorded := CountRows(trades, (t: Trade) => TradeCounts(t, symbol, side, since, scope));
      var unresolved := CountRows(attempts, (a: Attempt) => AttemptCounts(db.trades, a, symbol, side, since, scope));
      n := recorded + unresolved;
    }

    // ---------------------------------------------------------------- the explanation buffer

    /** Everything accepted so far: stored rows, then the rows a batch still holds back. */
    function Accepted(): seq<Explanation>
      reads this
    {
      explanations + (if buffer.Some? then buffer.value else [])
    }

    /** Stored at once, unless a bufferable row falls inside a batch. */
    method AppendExplanation(e: Explanation, bufferable: bool) returns (r: AppendResult)
      requires Valid()
      modifies this`explanations, this`buffer
      ensures Valid()
      ensures r.Refused? <==> !HasAncestor(e)
      ensures r.Refused? ==> explanations == old(explanations) && buffer == old(buffer)
      ensures r.Buffered? <==> HasAncestor(e) && bufferable && batchDepth > 0
      ensures r.Buffered? ==> explanations == old(explanations) && buffer == Some(old(buffer).value + [e])
      ensures r.Stored? ==>
                explanations == old(explanations) + [e] && buffer == old(buffer) && r.id == |old(explanations)|
      ensures multiset(Accepted())
           == multiset(old(Accepted())) + (if r.Refused? then multiset{} else multiset{e})
    {
      if !HasAncestor(e) {
        return Refused;
      }
      if bufferable && buffer.Some? {
        buffer := Some(buffer.value + [e]);
        assert Accepted() == old(Accepted()) + [e];
        return Buffered;
      }
      r := Stored(|explanations|);
      ghost var held := if buffer.Some? then buffer.value else [];
      explanations := explanations + [e];
      assert multiset(Accepted()) == multiset(old(explanations)) + multiset{e} + multiset(held);
    }

    method EnterBatch()
      requires Valid()
      modifies this`buffer, this`batchDepth
      ensures Valid() && batchDepth == old(batchDepth) + 1
      ensures Accepted() == old(Accepted())
    {
      batchDepth := batchDepth + 1;
      if batchDepth == 1 {
        buffer := Some([]);
      }
    }

    /** Leaving the outermost batch stores every buffered row, in order, and loses none. */
    method ExitBatch()
      requires Valid() && batchDepth > 0
      modifies this`explanations, this`buffer, this`batchDepth
      ensures Valid() && batchDepth == old(batchDepth) - 1
      ensures Accepted() == old(Accepted())
      ensures batchDepth == 0 ==> explanations == old(explanations) + old(buffer).value
      ensures batchDepth > 0 ==> explanations == old(explanations) && buffer == old(buffer)
    {
      if batchDepth > 1 {
        batchDepth := batchDepth - 1;
        return;
      }
      var buffered := buffer.value;
      buffer, batchDepth := None, 0;
      ghost var stored := explanations;
      for i := 0 to |buffered|
        invariant explanations == stored + buffered[..i] && buffer == None && batchDepth == 0
      {
        explanations := explanations + [buffered[i]];
      }
      assert buffered[..|buffered|] == buffered;
    }
  }

  lemma {:induction false} FilterCount<T>(rows: seq<T>, p: T -> bool)
    ensures |Filter(rows, p)| == Count(rows, p)
  {
    if rows == [] {
    } else {
      FilterCount(rows[..|rows| - 1], p);
    }
  }
}
