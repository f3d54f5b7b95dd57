/**
 Queue-at-open under any interleaving of runners and crashes: a queued intent is claimed at
 most once, and exactly the claims that win leave an attempt row.
 */
module QueuedIntents {
  import opened OrderedDict
  import opened EventStoreSpec

  /** A runner between its configuration check and its claim: the key, and the hash it computed. */
  datatype Check = Check(key: nat, hash: nat)

  /** How an attempt row came about: a direct submit, or the claim of a queued intent. */
  datatype Origin = Direct | ClaimOf(id: nat)

  /**
   The shared tables, each runner's private progress, the origin of each attempt row, and the
   ids of the rows swept so far.
   */
  datatype World = World(db: Tables, checks: map<nat, Check>, origins: seq<Origin>, swept: seq<nat>)

  const FRESH := World(EMPTY, map[], [], [])

  /** One committed transaction, one private read, or a crash. */
  datatype Step =
    | Append(intent: Intent)
    | Verify(runner: nat, key: nat, disk: Disk)
    | Claim(runner: nat, attempt: Attempt, now: int, running: Option<nat>, consumer: nat, at: int)
    | Crash(runner: nat)
    | Sweep(now: int)
    | Supersede(strategy: nat, symbol: nat, side: nat, intentClass: nat, keep: nat)
    | MarkExpired(id: nat)
    | MarkObsolete(id: nat)
    | MarkDropped(id: nat)
    | StartRun(run: StrategyRun)
    | StopRun(session: nat, at: int, exit: ExitReason)
    | Reconcile(strategy: nat, at: int, exit: ExitReason)
    | Submit(attempt: Attempt)
    | Finalize(clientId: nat, status: AttemptStatus, brokerId: Option<nat>)
    | Record(explanation: Explanation, trade: Trade)

  /** The position of a key's row. */
  function RowOf(intents: seq<Intent>, key: nat): Option<nat> {
    if intents == [] then None
    else if intents[|intents| - 1].key == key then Some(|intents| - 1)
    else RowOf(intents[..|intents| - 1], key)
  }

  /** The configuration check of a consume, and the hash it computed. */
  function Verified(db: Tables, key: nat, disk: Disk): Option<Check> {
    if RowOf(db.intents, key).Some? && RowOf(db.intents, key).value < |db.intents| then
      var q := db.intents[RowOf(db.intents, key).value];
      if q.status.Queued? && ConfigMatches(q, disk) then Some(Check(key, q.configHash.value)) else None
    else None
  }

  /** The claim flips its row and the attempt is inserted. */
  predicate Wins(db: Tables, key: nat, attempt: Attempt, now: int, running: Option<nat>) {
    ClaimCount(db, key, now, running) == 1 && !HasClientId(db.attempts, attempt.clientId)
  }

  function StaleIds(intents: seq<Intent>, now: int): seq<nat> {
    if intents == [] then []
    else StaleIds(intents[..|intents| - 1], now)
         + (if Stale(intents[|intents| - 1], now) then [|intents| - 1] else [])
  }

  function ClaimStep(w: World, key: nat, attempt: Attempt, now: int, running: Option<nat>, consumer: nat, at: int): World {
    var db := ClaimAndAppend(w.db, key, attempt, now, running, consumer, at);
    if Wins(w.db, key, attempt, now, running) && RowOf(w.db.intents, key).Some?
    then w.(db := db, origins := w.origins + [ClaimOf(RowOf(w.db.intents, key).value)])
    else w.(db := db)
  }

  function Next(w: World, step: Step): World {
    match step
    case Append(intent) => w.(db := AppendIntent(w.db, intent))
    case Verify(runner, key, disk) =>
      var check := Verified(w.db, key, disk);
      w.(checks := if check.Some? then w.checks[runner := check.value] else w.checks - {runner})
    case Claim(runner, attempt, now, running, consumer, at) =>
      if runner !in w.checks then w
      else ClaimStep(w, w.checks[runner].key, attempt, now, running, consumer, at).(checks := w.checks - {runner})
    case Crash(runner) => w.(checks := w.checks - {runner})
    case Sweep(now) => w.(db := ExpireStale(w.db, now), swept := w.swept + StaleIds(w.db.intents, now))
    case Supersede(strategy, symbol, side, intentClass, keep) =>
      w.(db := SupersedeIntents(w.db, strategy, symbol, side, intentClass, keep))
    case MarkExpired(id) => w.(db := MarkIntent(w.db, id, Expired))
    case MarkObsolete(id) => w.(db := MarkIntent(w.db, id, Obsolete))
    case MarkDropped(id) => w.(db := MarkIntent(w.db, id, Dropped))
    case StartRun(run) => w.(db := AppendRun(w.db, run))
    case StopRun(session, at, exit) => w.(db := EndRun(w.db, session, at, exit))
    case Reconcile(strategy, at, exit) => w.(db := ReconcileOrphans(w.db, strategy, at, exit))
    case Submit(attempt) =>
      if HasClientId(w.db.attempts, attempt.clientId) then w
      else w.(db := AppendAttempt(w.db, attempt), origins := w.origins + [Direct])
    case Finalize(clientId, status, brokerId) => w.(db := FinalizeAttempt(w.db, clientId, status, brokerId))
    case Record(explanation, trade) => w.(db := AppendExplanationAndTrade(w.db, explanation, trade))
  }

  function Run(steps: seq<Step>): World {
    if steps == [] then FRESH else Next(Run(steps[..|steps| - 1]), steps[|steps| - 1])
  }

  // -------------------------------------------------------------------------- row histories

  ghost predicate UniqueKeys(intents: seq<Intent>) {
    forall i, j :: 0 <= i < j < |intents| ==> intents[i].key != intents[j].key
  }

  predicate SameIdentity(q: Intent, r: Intent) {
    r == q.(status := r.status, consumedAt := r.consumedAt, consumedBy := r.consumedBy)
  }

  /** Rows keep their place and identity, and none returns to the queue. */
  ghost predicate Evolved(before: seq<Intent>, after: seq<Intent>) {
    && |before| <= |after|
    && forall i :: 0 <= i < |before| ==>
         SameIdentity(before[i], after[i]) && (after[i].status.Queued? ==> before[i].status.Queued?)
  }

  /** The row has left the queue. */
  predicate Settled(intents: seq<Intent>, id: nat) {
    id < |intents| && !intents[id].status.Queued?
  }

  /** No row is claimed twice, swept twice, or both; each such row has left the queue for good. */
  ghost predicate OnceEach(intents: seq<Intent>, origins: seq<Origin>, swept: seq<nat>) {
    && (forall i :: 0 <= i < |origins| && origins[i].ClaimOf? ==>
          Settled(intents, origins[i].id) && origins[i].id !in swept)
    && (forall i, j :: 0 <= i < j < |origins| && origins[i].ClaimOf? ==> origins[i] != origins[j])
    && (forall id :: id in swept ==> Settled(intents, id))
    && Distinct(swept)
  }

  /** A runner holding a check computed exactly the hash frozen in its row. */
  ghost predicate ChecksHold(intents: seq<Intent>, checks: map<nat, Check>) {
    forall r :: r in checks ==>
      exists k :: 0 <= k < |intents| && intents[k].key == checks[r].key && intents[k].configHash == Some(checks[r].hash)
  }

  /** Every consumed row has its attempt. */
  ghost predicate ConsumedHaveAttempts(intents: seq<Intent>, origins: seq<Origin>) {
    forall id :: 0 <= id < |intents| && intents[id].status.Consumed? ==> ClaimOf(id) in origins
  }

  ghost predicate Inv(w: World) {
    && UniqueKeys(w.db.intents)
    && UniqueClients(w.db.attempts)
    && |w.origins| == |w.db.attempts|
    && OnceEach(w.db.intents, w.origins, w.swept)
    && ChecksHold(w.db.intents, w.checks)
    && ConsumedHaveAttempts(w.db.intents, w.origins)
  }

  // ------------------------------------------------------------- what each step does to rows

  lemma {:induction false} RowOfFinds(intents: seq<Intent>, key: nat)
    ensures RowOf(intents, key).Some? <==> HasKey(intents, key)
    ensures RowOf(intents, key).Some? ==>
              RowOf(intents, key).value < |intents| && intents[RowOf(intents, key).value].key == key
  {
    if intents == [] {
    } else {
      RowOfFinds(intents[..|intents| - 1], key);
    }
  }

  /** With unique keys the compare-and-swap flips the key's row or none. */
  lemma ClaimIsOneRow(db: Tables, key: nat, now: int, running: Option<nat>)
    requires UniqueKeys(db.intents)
    ensures ClaimCount(db, key, now, running) <= 1
    ensures ClaimCount(db, key, now, running) == 1
       <==> RowOf(db.intents, key).Some? && RowOf(db.intents, key).value < |db.intents|
            && Drainable(db.runs, db.intents[RowOf(db.intents, key).value], now, running)
  {
    var p := (q: Intent) => Claimable(db, q, key, now, running);
    RowOfFinds(db.intents, key);
    match RowOf(db.intents, key)
    case None => CountZero(db.intents, p);
    case Some(k) => CountUnique(db.intents, p, k);
  }

  lemma ClaimRowsFlip(db: Tables, key: nat, now: int, running: Option<nat>, consumer: nat, at: int)
    requires UniqueKeys(db.intents)
    ensures var rows := ClaimRows(db, key, now, running, consumer, at);
      if ClaimCount(db, key, now, running) == 1 && RowOf(db.intents, key).Some?
      then RowOf(db.intents, key).value < |db.intents|
        && rows == db.intents[RowOf(db.intents, key).value := Claimed(db.intents[RowOf(db.intents, key).value], consumer, at)]
        && db.intents[RowOf(db.intents, key).value].status.Queued?
      else rows == db.intents
  {
    ClaimIsOneRow(db, key, now, running);
    RowOfFinds(db.intents, key);
    if ClaimCount(db, key, now, running) == 0 {
      CountZero(db.intents, (q: Intent) => Claimable(db, q, key, now, running));
    }
  }

  /** A claim either wins (its row flips and its attempt is appended) or changes nothing at all. */
  lemma ClaimIsAtomic(db: Tables, key: nat, a: Attempt, now: int, running: Option<nat>, consumer: nat, at: int)
    requires UniqueKeys(db.intents)
    ensures var after := ClaimAndAppend(db, key, a, now, running, consumer, at);
      if Wins(db, key, a, now, running)
      then RowOf(db.intents, key).Some?
        && var k := RowOf(db.intents, key).value;
           k < |db.intents| && db.intents[k].status.Queued?
           && after == db.(intents := db.intents[k := Claimed(db.intents[k], consumer, at)], attempts := db.attempts + [a])
      else after == db
  {
    ClaimIsOneRow(db, key, now, running);
    ClaimRowsFlip(db, key, now, running, consumer, at);
  }

  lemma {:induction false} StaleIdsAreStale(intents: seq<Intent>, now: int)
    ensures forall id: nat :: id in StaleIds(intents, now) <==> id < |intents| && Stale(intents[id], now)
    ensures Distinct(StaleIds(intents, now))
  {
    if intents == [] {
    } else {
      var front := intents[..|intents| - 1];
      StaleIdsAreStale(front, now);
      var before, ids := StaleIds(front, now), StaleIds(intents, now);
      forall id: nat ensures id in ids <==> id < |intents| && Stale(intents[id], now) {
        if id < |front| {
          assert front[id] == intents[id];
        }
      }
      forall i, j | 0 <= i < j < |ids| ensures ids[i] != ids[j] {
        assert ids[i] in before;
      }
    }
  }

  // ------------------------------------------------------------------------- the invariant

  /** Steps that leave the attempts alone and only move rows forward keep the invariant. */
  lemma QuietStep(w: World, after: World)
    requires Inv(w) && Evolved(w.db.intents, after.db.intents) && UniqueKeys(after.db.intents)
    requires after.origins == w.origins && after.swept == w.swept && after.checks == w.checks
    requires |after.db.attempts| == |w.db.attempts| && UniqueClients(after.db.attempts)
    requires ConsumedHaveAttempts(after.db.intents, after.origins)
    ensures Inv(after)
  {
  }

  lemma AppendKeepsInv(w: World, q: Intent)
    requires Inv(w) && q.status.Queued?
    ensures Inv(Next(w, Append(q)))
  {
    QuietStep(w, Next(w, Append(q)));
  }

  lemma VerifyKeepsInv(w: World, runner: nat, key: nat, disk: Disk)
    requires Inv(w)
    ensures Inv(Next(w, Verify(runner, key, disk)))
  {
    RowOfFinds(w.db.intents, key);
    var after := Next(w, Verify(runner, key, disk));
    forall r | r in after.checks
      ensures exists k :: 0 <= k < |w.db.intents| && w.db.intents[k].key == after.checks[r].key
                          && w.db.intents[k].configHash == Some(after.checks[r].hash)
    {
      if r in w.checks && after.checks[r] == w.checks[r] {
        var k :| 0 <= k < |w.db.intents| && w.db.intents[k].key == w.checks[r].key
                 && w.db.intents[k].configHash == Some(w.checks[r].hash);
      } else {
        var k := RowOf(w.db.intents, key).value;
        assert w.db.intents[k].key == after.checks[r].key && w.db.intents[k].configHash == Some(after.checks[r].hash);
      }
    }
  }

  lemma WinKeepsOnce(before: seq<Intent>, after: seq<Intent>, origins: seq<Origin>, swept: seq<nat>, id: nat)
    requires Evolved(before, after) && OnceEach(before, origins, swept)
    requires id < |before| && before[id].status.Queued? && Settled(after, id)
    ensures OnceEach(after, origins + [ClaimOf(id)], swept)
  {
    var more := origins + [ClaimOf(id)];
    forall i | 0 <= i < |more| && more[i].ClaimOf? ensures Settled(after, more[i].id) && more[i].id !in swept {
      if i < |origins| {
        assert origins[i].ClaimOf? && Settled(before, origins[i].id);
      }
    }
    forall i, j | 0 <= i < j < |more| && more[i].ClaimOf? ensures more[i] != more[j] {
      assert origins[i].ClaimOf? && Settled(before, origins[i].id);
    }
  }

  lemma ClaimKeepsInv(w: World, key: nat, a: Attempt, now: int, running: Option<nat>, consumer: nat, at: int)
    requires Inv(w)
    ensures Inv(ClaimStep(w, key, a, now, running, consumer, at))
  {
    hide ClaimAndAppend, RowOf;
    var after := ClaimStep(w, key, a, now, running, consumer, at);
    ClaimIsAtomic(w.db, key, a, now, running, consumer, at);
    if Wins(w.db, key, a, now, running) {
      var k := RowOf(w.db.intents, key).value;
      assert after.db.intents == w.db.intents[k := Claimed(w.db.intents[k], consumer, at)];
      assert Evolved(w.db.intents, after.db.intents);
      WinKeepsOnce(w.db.intents, after.db.intents, w.origins, w.swept, k);
      assert after.origins[|w.origins|] == ClaimOf(k);
      forall id | 0 <= id < |after.db.intents| && after.db.intents[id].status.Consumed? ensures ClaimOf(id) in after.origins {
        assert id == k || ClaimOf(id) in w.origins;
      }
    }
  }

  lemma SubmitKeepsInv(w: World, a: Attempt)
    requires Inv(w)
    ensures Inv(Next(w, Submit(a)))
  {
  }

  lemma SweepKeepsInv(w: World, now: int)
    requires Inv(w)
    ensures Inv(Next(w, Sweep(now)))
  {
    var after := Next(w, Sweep(now));
    StaleIdsAreStale(w.db.intents, now);
    var ids := StaleIds(w.db.intents, now);
    assert Evolved(w.db.intents, after.db.intents);
    forall i, j | 0 <= i < j < |after.swept| ensures after.swept[i] != after.swept[j] {
      if i < |w.swept| <= j {
        assert w.swept[i] in w.swept && ids[j - |w.swept|] in ids;
      }
    }
  }

  /** A step that carries no consumed row into the table, as every caller of the append does. */
  predicate Proper(step: Step) {
    step.Append? ==> step.intent.status.Queued?
  }

  lemma MarkKeepsInv(w: World, id: nat, status: IntentStatus)
    requires Inv(w) && (status.Expired? || status.Obsolete? || status.Dropped?)
    ensures Inv(w.(db := MarkIntent(w.db, id, status)))
  {
    QuietStep(w, w.(db := MarkIntent(w.db, id, status)));
  }

  lemma SupersedeKeepsInv(w: World, step: Step)
    requires Inv(w) && step.Supersede?
    ensures Inv(Next(w, step))
  {
    QuietStep(w, Next(w, step));
  }

  /** Steps that touch no queued intent and no attempt's identity. */
  lemma OtherTablesKeepInv(w: World, step: Step)
    requires Inv(w)
    requires step.StartRun? || step.StopRun? || step.Reconcile? || step.Finalize? || step.Record?
    ensures Inv(Next(w, step))
  {
    var after := Next(w, step);
    assert after.db.intents == w.db.intents;
    assert |after.db.attempts| == |w.db.attempts|;
    assert forall i :: 0 <= i < |w.db.attempts| ==> after.db.attempts[i].clientId == w.db.attempts[i].clientId;
    QuietStep(w, after);
  }

  lemma NextKeepsInv(w: World, step: Step)
    requires Inv(w) && Proper(step)
    ensures Inv(Next(w, step))
  {
    hide OnceEach, UniqueKeys, ConsumedHaveAttempts;
    match step
    case Append(intent) => AppendKeepsInv(w, intent);
    case Verify(runner, key, disk) => VerifyKeepsInv(w, runner, key, disk);
    case Claim(runner, attempt, now, running, consumer, at) =>
      if runner in w.checks {
        ClaimKeepsInv(w, w.checks[runner].key, attempt, now, running, consumer, at);
        var claimed := ClaimStep(w, w.checks[runner].key, attempt, now, running, consumer, at);
      }
    case Crash(runner) =>
    case Sweep(now) => SweepKeepsInv(w, now);
    case Supersede(_, _, _, _, _) => SupersedeKeepsInv(w, step);
    case MarkExpired(id) => MarkKeepsInv(w, id, Expired);
    case MarkObsolete(id) => MarkKeepsInv(w, id, Obsolete);
    case MarkDropped(id) => MarkKeepsInv(w, id, Dropped);
    case Submit(attempt) => SubmitKeepsInv(w, attempt);
    case _ => OtherTablesKeepInv(w, step);
  }

  /**
   Exactly-once.  After every interleaving of any runners' transactions, with crashes anywhere:
   no row is claimed twice, no row is swept twice, none is both claimed and swept, every
   consumed row has its attempt, and client order ids stay unique.
   */
  lemma {:induction false} RunKeepsInv(steps: seq<Step>)
    requires forall i :: 0 <= i < |steps| ==> Proper(steps[i])
    ensures Inv(Run(steps))
  {
    if steps == [] {
    } else {
      RunKeepsInv(steps[..|steps| - 1]);
      NextKeepsInv(Run(steps[..|steps| - 1]), steps[|steps| - 1]);
    }
  }

  // ------------------------------------------------------- claiming agrees with enumerating

  /**
   On one snapshot, verify-then-claim wins exactly for the rows a runner would enumerate, except
   that a row without a strategy is never enumerated and yet can be claimed.
   */
  lemma ClaimAgreesWithActive(db: Tables, k: nat, a: Attempt, now: int, running: nat, disk: Disk)
    requires UniqueKeys(db.intents) && k < |db.intents| && !HasClientId(db.attempts, a.clientId)
    ensures var q := db.intents[k];
      var wins := Verified(db, q.key, disk).Some? && Wins(db, q.key, a, now, Some(running));
      && (wins <==> Drainable(db.runs, q, now, Some(running)) && ConfigMatches(q, disk))
      && (wins && q.strategy.Some? <==> exists s :: q in ActiveIntents(db, s, now, running, disk))
  {
    var q := db.intents[k];
    RowOfFinds(db.intents, q.key);
    assert HasKey(db.intents, q.key);
    assert RowOf(db.intents, q.key) == Some(k);
    ClaimIsOneRow(db, q.key, now, Some(running));
    forall s ensures q in ActiveIntents(db, s, now, running, disk) <==> IsActive(db, q, s, now, running, disk) {
      FilterHolds(db.intents, (r: Intent) => IsActive(db, r, s, now, running, disk), q);
    }
    if q.strategy.Some? {
      assert IsActive(db, q, q.strategy.value, now, running, disk)
        <==> Drainable(db.runs, q, now, Some(running)) && ConfigMatches(q, disk);
    }
  }

  /** A row with no strategy: claimable, though no strategy ever enumerates it. */
  lemma OrphanRowIsClaimable(a: Attempt)
    ensures var q := Intent(7, None, Some(1), Some(0), Some(5), None, None, None, Some(10), Queued, None, None);
      var db := EMPTY.(intents := [q]);
      var disk: Disk := path => Some(5);
      && Verified(db, 7, disk).Some? && Wins(db, 7, a, 0, Some(1))
      && forall s :: ActiveIntents(db, s, 0, 1, disk) == []
  {
    var q := Intent(7, None, Some(1), Some(0), Some(5), None, None, None, Some(10), Queued, None, None);
    var db := EMPTY.(intents := [q]);
    var disk: Disk := path => Some(5);
    assert db.intents[0] == q;
    ClaimAgreesWithActive(db, 0, a, 0, 1, disk);
    forall s ensures ActiveIntents(db, s, 0, 1, disk) == [] {
      if ActiveIntents(db, s, 0, 1, disk) != [] {
        var r := ActiveIntents(db, s, 0, 1, disk)[0];
        FilterHolds(db.intents, (x: Intent) => IsActive(db, x, s, 0, 1, disk), r);
      }
    }
  }

  /** A runner that wins on world `w` flips a drainable row whose hash it has verified. */
  ghost predicate WinsVerifiedRow(w: World, runner: nat, now: int, running: Option<nat>)
    requires runner in w.checks
  {
    var k := RowOf(w.db.intents, w.checks[runner].key);
    && k.Some? && k.value < |w.db.intents|
    && w.db.intents[k.value].configHash == Some(w.checks[runner].hash)
    && Drainable(w.db.runs, w.db.intents[k.value], now, running)
  }

  lemma WinnerHoldsCheck(w: World, runner: nat, a: Attempt, now: int, running: Option<nat>)
    requires UniqueKeys(w.db.intents) && ChecksHold(w.db.intents, w.checks)
    requires runner in w.checks && Wins(w.db, w.checks[runner].key, a, now, running)
    ensures WinsVerifiedRow(w, runner, now, running)
  {
    ClaimIsOneRow(w.db, w.checks[runner].key, now, running);
    RowOfFinds(w.db.intents, w.checks[runner].key);
  }

  /**
   The check and the claim may be far apart: whatever ran in between, a winning claim flips a
   row whose frozen hash is the one the runner computed from disk when it checked.
   */
  lemma WinnerCheckedItsConfig(steps: seq<Step>, runner: nat, a: Attempt, now: int, running: Option<nat>)
    requires forall i :: 0 <= i < |steps| ==> Proper(steps[i])
    requires runner in Run(steps).checks && Wins(Run(steps).db, Run(steps).checks[runner].key, a, now, running)
    ensures WinsVerifiedRow(Run(steps), runner, now, running)
  {
    hide Run;
    RunKeepsInv(steps);
    WinnerHoldsCheck(Run(steps), runner, a, now, running);
  }

  // --------------------------------------------------------------- the sweep is housekeeping

  lemma {:induction false} FilterAfterSweep(intents: seq<Intent>, now: int, p: Intent -> bool)
    requires forall q :: p(q) ==> q.status.Queued?
    ensures var sweptRows := Update(intents, (q: Intent) => Stale(q, now), (q: Intent) => q.(status := Expired));
      Filter(sweptRows, p) == Filter(intents, (q: Intent) => p(q) && !Stale(q, now))
  {
    var stale, expire := (q: Intent) => Stale(q, now), (q: Intent) => q.(status := Expired);
    if intents == [] {
    } else {
      FilterAfterSweep(intents[..|intents| - 1], now, p);
      assert Update(intents, stale, expire)[..|intents| - 1] == Update(intents[..|intents| - 1], stale, expire);
    }
  }

  /**
   Sweeping at `now` removes from what is drainable at `t` exactly the rows expiring by `now`:
   nothing at all for any `t` at or after `now`.
   */
  lemma SweepKeepsActive(db: Tables, now: int, strategy: nat, t: int, running: nat, disk: Disk)
    ensures ActiveIntents(ExpireStale(db, now), strategy, t, running, disk)
         == Filter(db.intents, (q: Intent) => IsActive(db, q, strategy, t, running, disk) && !Stale(q, now))
    ensures t >= now ==>
              ActiveIntents(ExpireStale(db, now), strategy, t, running, disk) == ActiveIntents(db, strategy, t, running, disk)
  {
    var after := ExpireStale(db, now);
    var p := (q: Intent) => IsActive(db, q, strategy, t, running, disk);
    var p2 := (q: Intent) => IsActive(after, q, strategy, t, running, disk);
    var kept := (q: Intent) => IsActive(db, q, strategy, t, running, disk) && !Stale(q, now);
    CountSame(after.intents, p, p2);
    FilterAfterSweep(db.intents, now, p);
    CountSame(db.intents, kept, (q: Intent) => p(q) && !Stale(q, now));
    if t >= now {
      CountSame(db.intents, p, kept);
    }
  }
}
