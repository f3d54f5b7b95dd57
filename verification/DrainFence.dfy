/**
 The clean-handoff fence over whole runs, said from the steps themselves: which exits the runs of a
 session were closed with, which queued rows a runner is shown, and what a claim changes.
 */
module DrainFence {
  import opened OrderedDict
  import opened EventStoreSpec
  import opened QueuedIntents
  import opened SortedTimes

  // ----------------------------------------------------------------- the exits a run recorded

  predicate IsOpen(runs: seq<StrategyRun>, i: nat, session: nat) {
    i < |runs| && runs[i].session == session && runs[i].endedAt.None?
  }

  /** On these run rows the step writes `exit` into row i, a run of `session`. */
  ghost predicate Writes(runs: seq<StrategyRun>, step: Step, i: nat, session: nat, exit: Option<ExitReason>) {
    match step
    case StartRun(run) => i == |runs| && run.session == session && run.exit == exit
    case StopRun(stopped, at, reason) =>
      && stopped == session && exit == Some(reason)
      && IsOpen(runs, i, session) && forall j :: i < j < |runs| ==> !IsOpen(runs, j, session)
    case Reconcile(strategy, at, reason) =>
      exit == Some(reason) && IsOpen(runs, i, session) && runs[i].strategy == strategy
    case _ => false
  }

  ghost predicate Wrote(steps: seq<Step>, n: nat, i: nat, session: nat, exit: Option<ExitReason>) {
    n < |steps| && Writes(Run(steps[..n]).db.runs, steps[n], i, session, exit)
  }

  /** The n-th step is the last one to write row i. */
  ghost predicate WroteLast(steps: seq<Step>, n: nat, i: nat, session: nat, exit: Option<ExitReason>) {
    && Wrote(steps, n, i, session, exit)
    && forall m: nat, s, e :: n < m < |steps| ==> !Wrote(steps, m, i, s, e)
  }

  /** The last exit some step recorded for one of the session's runs is a controlled stop. */
  ghost predicate StoppedInControl(steps: seq<Step>, session: nat) {
    exists n, i :: WroteLast(steps, n, i, session, Some(ControlledStop))
  }

  lemma {:induction false} EndRunWrites(runs: seq<StrategyRun>, session: nat, at: int, reason: ExitReason, i: nat)
    ensures var after := EndRunRows(runs, session, at, reason);
      && |after| == |runs|
      && (i < |runs| ==>
            after[i].session == runs[i].session
            && after[i].exit == if IsOpen(runs, i, session) && forall j :: i < j < |runs| ==> !IsOpen(runs, j, session)
                                then Some(reason) else runs[i].exit)
  {
    if runs == [] {
    } else {
      var n := |runs| - 1;
      var front := runs[..n];
      EndRunWrites(front, session, at, reason, i);
      if IsOpen(runs, n, session) {
      } else if i < n {
        assert (forall j :: i < j < |runs| ==> !IsOpen(runs, j, session))
          <==> forall j :: i < j < |front| ==> !IsOpen(front, j, session) by {
          assert forall j: nat :: j < n ==> (IsOpen(front, j, session) <==> IsOpen(runs, j, session));
        }
      }
    }
  }

  lemma ClaimKeepsRuns(w: World, step: Step)
    requires step.Claim?
    ensures Next(w, step).db.runs == w.db.runs
  {
  }

  /** A run row keeps its session, and keeps its exit unless the step writes it. */
  lemma StepWrites(w: World, step: Step, i: nat)
    ensures var before, after := w.db.runs, Next(w, step).db.runs;
      && |before| <= |after|
      && (forall s, e :: Writes(before, step, i, s, e) ==> i < |after| && after[i].session == s && after[i].exit == e)
      && (i < |after| && (forall s, e :: !Writes(before, step, i, s, e)) ==>
            i < |before| && after[i].session == before[i].session && after[i].exit == before[i].exit)
  {
    hide ClaimStep;
    var before, after := w.db.runs, Next(w, step).db.runs;
    match step {
      case StartRun(run) =>
        assert i == |before| ==> Writes(before, step, i, run.session, run.exit);
      case StopRun(session, at, reason) =>
        EndRunWrites(before, session, at, reason, i);
        assert i < |before| && after[i].exit != before[i].exit ==> Writes(before, step, i, session, Some(reason));
      case Reconcile(strategy, at, reason) =>
        assert i < |before| && after[i].exit != before[i].exit ==>
            Writes(before, step, i, before[i].session, Some(reason));
      case Claim(runner, a, now, running, consumer, at) => ClaimKeepsRuns(w, step);
      case _ =>
    }
  }

  lemma WroteEarlier(steps: seq<Step>, n: nat, i: nat, session: nat, exit: Option<ExitReason>)
    requires n < |steps| - 1
    ensures Wrote(steps, n, i, session, exit) <==> Wrote(steps[..|steps| - 1], n, i, session, exit)
  {
    hide Run, Writes;
    assert steps[..|steps| - 1][..n] == steps[..n];
  }

  ghost predicate IsWritten(steps: seq<Step>, i: nat) {
    var runs := Run(steps).db.runs;
    && (i < |runs| ==> exists n :: WroteLast(steps, n, i, runs[i].session, runs[i].exit))
    && (forall n, s, e :: WroteLast(steps, n, i, s, e) ==> i < |runs| && runs[i].session == s && runs[i].exit == e)
  }

  lemma NewlyWritten(steps: seq<Step>, i: nat, session: nat, exit: Option<ExitReason>)
    requires steps != [] && Wrote(steps, |steps| - 1, i, session, exit)
    ensures IsWritten(steps, i)
  {
    hide Next, Writes;
    var last: nat := |steps| - 1;
    StepWrites(Run(steps[..last]), steps[last], i);
    assert WroteLast(steps, last, i, session, exit);
    forall n: nat, s, e | WroteLast(steps, n, i, s, e) ensures n == last {
      assert n < last ==> !Wrote(steps, last, i, session, exit);
    }
  }

  lemma LastWrote(steps: seq<Step>, i: nat, session: nat, exit: Option<ExitReason>)
    requires steps != []
    ensures Wrote(steps, |steps| - 1, i, session, exit)
       <==> Writes(Run(steps[..|steps| - 1]).db.runs, steps[|steps| - 1], i, session, exit)
  {
  }

  lemma NoStepThere(steps: seq<Step>)
    ensures forall m: nat, i, s, e :: |steps| <= m ==> !Wrote(steps, m, i, s, e)
  {
  }

  lemma EarlierIsLast(steps: seq<Step>, last: nat, n: nat, i: nat, session: nat, exit: Option<ExitReason>)
    requires last == |steps| - 1 && forall s, e :: !Wrote(steps, last, i, s, e)
    ensures WroteLast(steps, n, i, session, exit) <==> WroteLast(steps[..last], n, i, session, exit)
  {
    hide Wrote;
    var front := steps[..last];
    forall m: nat, s, e | m < last ensures Wrote(steps, m, i, s, e) <==> Wrote(front, m, i, s, e) {
      WroteEarlier(steps, m, i, s, e);
    }
    assert forall m: nat, s, e :: last <= m ==> !Wrote(front, m, i, s, e) by {
      NoStepThere(front);
    }
    assert forall m: nat, s, e :: last < m ==> !Wrote(steps, m, i, s, e) by {
      NoStepThere(steps);
    }
  }

  lemma StillWritten(steps: seq<Step>, last: nat, i: nat)
    requires last == |steps| - 1 && IsWritten(steps[..last], i)
    requires forall s, e :: !Wrote(steps, last, i, s, e)
    ensures IsWritten(steps, i)
  {
    hide Next, Writes, Wrote;
    var front := steps[..last];
    forall s, e ensures !Writes(Run(front).db.runs, steps[last], i, s, e) {
      assert Wrote(steps, last, i, s, e) <==> Writes(Run(front).db.runs, steps[last], i, s, e) by {
        LastWrote(steps, i, s, e);
      }
    }
    StepWrites(Run(front), steps[last], i);
    forall n: nat, s, e ensures WroteLast(steps, n, i, s, e) <==> WroteLast(front, n, i, s, e) {
      EarlierIsLast(steps, last, n, i, s, e);
    }
  }

  lemma NothingWritten(i: nat)
    ensures IsWritten([], i)
  {
  }

  /** Every run row holds exactly the session and the exit that were written to it last. */
  lemma {:induction false} RowsAreWritten(steps: seq<Step>, i: nat)
    ensures IsWritten(steps, i)
  {
    hide IsWritten, Wrote, WroteLast, Next;
    if steps == [] {
      NothingWritten(i);
    } else {
      var last: nat := |steps| - 1;
      RowsAreWritten(steps[..last], i);
      if s, e :| Wrote(steps, last, i, s, e) {
        NewlyWritten(steps, i, s, e);
      } else {
        StillWritten(steps, last, i);
      }
    }
  }

  ghost predicate EndedInControl(runs: seq<StrategyRun>, session: nat) {
    exists i :: 0 <= i < |runs| && runs[i].session == session && runs[i].exit == Some(ControlledStop)
  }

  /** A session has a run row closed by a controlled stop exactly when that is what was recorded last for it. */
  lemma StopsAreRecorded(steps: seq<Step>, session: nat)
    ensures EndedInControl(Run(steps).db.runs, session) <==> StoppedInControl(steps, session)
  {
    hide WroteLast, Next;
    var runs := Run(steps).db.runs;
    if EndedInControl(runs, session) {
      var i: nat :| i < |runs| && runs[i].session == session && runs[i].exit == Some(ControlledStop);
      RowsAreWritten(steps, i);
      var n :| WroteLast(steps, n, i, session, Some(ControlledStop));
    }
    if StoppedInControl(steps, session) {
      var n: nat, i: nat :| WroteLast(steps, n, i, session, Some(ControlledStop));
      RowsAreWritten(steps, i);
      assert i < |runs| && runs[i].session == session && runs[i].exit == Some(ControlledStop);
    }
  }

  // ------------------------------------------------------------------------- what may be drained

  /**
   The row is still queued, expires strictly after `now`, and was queued by the running session or
   by one whose last recorded exit is a controlled stop.
   */
  ghost predicate MayDrain(steps: seq<Step>, q: Intent, now: int, running: Option<nat>) {
    && q.status == Queued
    && q.expires.Some? && now < q.expires.value
    && q.session.Some? && (q.session == running || StoppedInControl(steps, q.session.value))
  }

  /** The configuration on disk hashes to what was frozen when the row was queued. */
  predicate SameConfig(q: Intent, disk: Disk) {
    match (q.configPath, q.configHash)
    case (Some(path), Some(hash)) => disk(path) == Some(hash)
    case _ => false
  }

  lemma DrainableIff(steps: seq<Step>, q: Intent, now: int, running: Option<nat>)
    ensures Drainable(Run(steps).db.runs, q, now, running) <==> MayDrain(steps, q, now, running)
  {
    hide Run, StoppedInControl;
    if q.session.Some? {
      StopsAreRecorded(steps, q.session.value);
    }
  }

  /** `rows` are, in id order, the rows of the table at the places `at`. */
  ghost predicate ListsRows(rows: seq<Intent>, intents: seq<Intent>, at: seq<nat>) {
    && StrictlyAscending(at) && |at| == |rows|
    && forall i :: 0 <= i < |at| ==> at[i] < |intents| && rows[i] == intents[at[i]]
  }

  ghost predicate ListsExactly(rows: seq<Intent>, intents: seq<Intent>, p: Intent -> bool, at: seq<nat>) {
    && ListsRows(rows, intents, at)
    && forall j: nat :: j < |intents| ==> (j in at <==> p(intents[j]))
  }

  lemma ListsOneMore(rows: seq<Intent>, intents: seq<Intent>, p: Intent -> bool, at: seq<nat>)
    requires intents != [] && ListsExactly(rows, intents[..|intents| - 1], p, at)
    ensures var n := |intents| - 1;
      if p(intents[n]) then ListsExactly(rows + [intents[n]], intents, p, at + [n]) else ListsExactly(rows, intents, p, at)
  {
    var n: nat := |intents| - 1;
    assert forall j: nat :: j < n ==> intents[j] == intents[..n][j];
    if p(intents[n]) {
      assert forall x :: x in SetOf(at) ==> x < n;
      AscendingGrows(at, n);
    }
  }

  lemma {:induction false} FilterLists(intents: seq<Intent>, p: Intent -> bool) returns (at: seq<nat>)
    ensures ListsExactly(Filter(intents, p), intents, p, at)
  {
    at := [];
    if intents == [] {
    } else {
      hide ListsExactly;
      var n: nat := |intents| - 1;
      at := FilterLists(intents[..n], p);
      ListsOneMore(Filter(intents[..n], p), intents, p, at);
      at := if p(intents[n]) then at + [n] else at;
    }
  }

  /**
   The enumeration, over every run: in id order, exactly the rows of the strategy that may be drained
   and whose configuration on disk is the one they were queued under.
   */
  lemma EnumeratedIff(steps: seq<Step>, strategy: nat, now: int, running: nat, disk: Disk) returns (at: seq<nat>)
    ensures var db := Run(steps).db;
      && ListsRows(ActiveIntents(db, strategy, now, running, disk), db.intents, at)
      && forall j: nat :: j < |db.intents| ==>
           var q := db.intents[j];
           j in at <==> q.strategy == Some(strategy) && MayDrain(steps, q, now, Some(running)) && SameConfig(q, disk)
  {
    hide Run, MayDrain, Drainable;
    var db := Run(steps).db;
    at := FilterLists(db.intents, (q: Intent) => IsActive(db, q, strategy, now, running, disk));
    forall j: nat | j < |db.intents|
      ensures var q := db.intents[j];
        j in at <==> q.strategy == Some(strategy) && MayDrain(steps, q, now, Some(running)) && SameConfig(q, disk)
    {
      DrainableIff(steps, db.intents[j], now, Some(running));
    }
  }

  /** The row of a key that may be drained, and a client id not used before. */
  ghost predicate CanClaim(steps: seq<Step>, k: nat, key: nat, a: Attempt, now: int, running: Option<nat>) {
    var db := Run(steps).db;
    && k < |db.intents| && db.intents[k].key == key && MayDrain(steps, db.intents[k], now, running)
    && forall i :: 0 <= i < |db.attempts| ==> db.attempts[i].clientId != a.clientId
  }

  /** What a claim does: its one row is consumed and its attempt appended, or nothing happens. */
  ghost predicate ClaimedRow(before: World, after: World, k: nat, a: Attempt, consumer: nat, at: int) {
    && k < |before.db.intents|
    && after.db.attempts == before.db.attempts + [a] && after.origins == before.origins + [ClaimOf(k)]
    && after.db == before.db.(intents := after.db.intents, attempts := after.db.attempts)
    && |after.db.intents| == |before.db.intents|
    && (forall i :: 0 <= i < |before.db.intents| && i != k ==> after.db.intents[i] == before.db.intents[i])
    && after.db.intents[k]
    == before.db.intents[k].(status := Consumed, consumedAt := Some(at), consumedBy := Some(consumer))
  }

  lemma WinsIff(steps: seq<Step>, key: nat, a: Attempt, now: int, running: Option<nat>)
    requires UniqueKeys(Run(steps).db.intents)
    ensures var db := Run(steps).db;
      && (Wins(db, key, a, now, running) <==> exists k :: CanClaim(steps, k, key, a, now, running))
      && (Wins(db, key, a, now, running) ==>
            RowOf(db.intents, key).Some? && CanClaim(steps, RowOf(db.intents, key).value, key, a, now, running))
  {
    hide MayDrain, Drainable, RowOf, ClaimCount, Next;
    var db := Run(steps).db;
    ClaimIsOneRow(db, key, now, running);
    RowOfFinds(db.intents, key);
    if Wins(db, key, a, now, running) {
      DrainableIff(steps, db.intents[RowOf(db.intents, key).value], now, running);
      assert CanClaim(steps, RowOf(db.intents, key).value, key, a, now, running);
    }
    if k: nat :| CanClaim(steps, k, key, a, now, running) {
      DrainableIff(steps, db.intents[k], now, running);
      assert RowOf(db.intents, key) == Some(k);
    }
  }

  lemma ClaimFlips(w: World, runner: nat, a: Attempt, now: int, running: Option<nat>, consumer: nat, at: int)
    requires UniqueKeys(w.db.intents) && runner in w.checks
    ensures var key, after := w.checks[runner].key, Next(w, Claim(runner, a, now, running, consumer, at));
      && after.checks == w.checks - {runner}
      && if Wins(w.db, key, a, now, running)
         then RowOf(w.db.intents, key).Some? && ClaimedRow(w, after, RowOf(w.db.intents, key).value, a, consumer, at)
         else after.db == w.db && after.origins == w.origins
  {
    hide RowOf, ClaimCount, ClaimAndAppend;
    ClaimIsAtomic(w.db, w.checks[runner].key, a, now, running, consumer, at);
  }

  /**
   The claim, over every run of proper steps: a runner that holds a check for a key consumes its row
   exactly when the row may be drained, and otherwise changes no table.
   */
  lemma ClaimsIff(steps: seq<Step>, runner: nat, a: Attempt, now: int, running: Option<nat>, consumer: nat, at: int)
    requires forall i :: 0 <= i < |steps| ==> Proper(steps[i])
    requires runner in Run(steps).checks
    ensures var w := Run(steps);
      var after := Next(w, Claim(runner, a, now, running, consumer, at));
      && after.checks == w.checks - {runner}
      && if exists k :: CanClaim(steps, k, w.checks[runner].key, a, now, running)
         then exists k :: CanClaim(steps, k, w.checks[runner].key, a, now, running) && ClaimedRow(w, after, k, a, consumer, at)
         else after.db == w.db && after.origins == w.origins
  {
    hide CanClaim, ClaimedRow, Wins, RowOf, Next;
    RunKeepsInv(steps);
    WinsIff(steps, Run(steps).checks[runner].key, a, now, running);
    ClaimFlips(Run(steps), runner, a, now, running, consumer, at);
  }

  /**
   No order crosses an unclean handoff: a row of another session none of whose runs ended in a
   controlled stop, as they ended otherwise, are still open or do not exist, is never enumerated
   and no claim changes it.
   */
  lemma NeverAcrossUncleanExit(steps: seq<Step>, k: nat, strategy: nat, runner: nat, a: Attempt, now: int, running: nat,
                               consumer: nat, at: int, disk: Disk)
    requires forall i :: 0 <= i < |steps| ==> Proper(steps[i])
    requires k < |Run(steps).db.intents| && Run(steps).db.intents[k].session != Some(running)
    requires var db := Run(steps).db;
      forall i :: 0 <= i < |db.runs| && Some(db.runs[i].session) == db.intents[k].session ==>
        db.runs[i].exit != Some(ControlledStop)
    ensures Run(steps).db.intents[k] !in ActiveIntents(Run(steps).db, strategy, now, running, disk)
    ensures var after := Next(Run(steps), Claim(runner, a, now, Some(running), consumer, at)).db.intents;
      k < |after| && after[k] == Run(steps).db.intents[k]
  {
    hide Run, ClaimStep, StoppedInControl;
    var w := Run(steps);
    var q := w.db.intents[k];
    if q.session.Some? {
      StopsAreRecorded(steps, q.session.value);
    }
    assert !MayDrain(steps, q, now, Some(running));
    var places := EnumeratedIff(steps, strategy, now, running, disk);
    RunKeepsInv(steps);
    if runner in w.checks {
      ClaimsIff(steps, runner, a, now, Some(running), consumer, at);
    }
  }

  /** A check is held exactly for a queued row whose configuration is unchanged, and names its hash. */
  lemma VerifiesIff(steps: seq<Step>, runner: nat, key: nat, disk: Disk)
    requires forall i :: 0 <= i < |steps| ==> Proper(steps[i])
    ensures var w := Run(steps);
      var after := Next(w, Verify(runner, key, disk));
      && after.db == w.db && after.checks - {runner} == w.checks - {runner}
      && (runner in after.checks <==>
            exists q :: q in w.db.intents && q.key == key && q.status == Queued && SameConfig(q, disk))
      && (forall q :: runner in after.checks && q in w.db.intents && q.key == key ==>
            q.configHash == Some(after.checks[runner].hash) && after.checks[runner].key == key)
  {
    hide Run, RowOf, OnceEach, ChecksHold, ConsumedHaveAttempts;
    RunKeepsInv(steps);
    var w := Run(steps);
    RowOfFinds(w.db.intents, key);
    forall q | q in w.db.intents && q.key == key
      ensures RowOf(w.db.intents, key).Some? && q == w.db.intents[RowOf(w.db.intents, key).value]
    {
      var j: nat :| j < |w.db.intents| && w.db.intents[j] == q;
      assert HasKey(w.db.intents, key);
    }
  }

  /** The sweep expires exactly the queued rows whose expiry has come, and remembers which. */
  lemma SweepsExactly(w: World, now: int)
    ensures var after := Next(w, Sweep(now));
      && after == w.(db := w.db.(intents := after.db.intents), swept := after.swept)
      && |after.db.intents| == |w.db.intents|
      && (forall i :: 0 <= i < |w.db.intents| ==>
            var q := w.db.intents[i];
            after.db.intents[i] == if q.status == Queued && q.expires.Some? && q.expires.value <= now
                                   then q.(status := Expired) else q)
      && |after.swept| >= |w.swept| && after.swept[..|w.swept|] == w.swept
      && (forall i: nat :: i in after.swept[|w.swept|..] <==>
            && i < |w.db.intents| && w.db.intents[i].status == Queued
            && w.db.intents[i].expires.Some? && w.db.intents[i].expires.value <= now)
  {
    StaleIdsAreStale(w.db.intents, now);
    var after := Next(w, Sweep(now));
    assert after.swept[|w.swept|..] == StaleIds(w.db.intents, now);
  }

  /** Superseding retires the other queued rows of the same strategy, symbol, side and class. */
  lemma SupersedesExactly(w: World, strategy: nat, symbol: nat, side: nat, intentClass: nat, keep: nat)
    ensures var after := Next(w, Supersede(strategy, symbol, side, intentClass, keep));
      && after == w.(db := w.db.(intents := after.db.intents))
      && |after.db.intents| == |w.db.intents|
      && forall i :: 0 <= i < |w.db.intents| ==>
           var q := w.db.intents[i];
           var same := q.strategy == Some(strategy) && q.symbol == Some(symbol) && q.side == Some(side)
                       && q.intentClass == Some(intentClass);
           after.db.intents[i] == if same && q.status == Queued && q.key != keep then q.(status := Obsolete) else q
  {
  }

  /** Marking writes the one row's status, whatever it was; an unknown id changes nothing. */
  lemma MarksExactly(w: World, id: nat)
    ensures Next(w, MarkExpired(id)).db.intents
         == if id < |w.db.intents| then w.db.intents[id := w.db.intents[id].(status := Expired)] else w.db.intents
    ensures Next(w, MarkObsolete(id)).db.intents
         == if id < |w.db.intents| then w.db.intents[id := w.db.intents[id].(status := Obsolete)] else w.db.intents
    ensures Next(w, MarkDropped(id)).db.intents
         == if id < |w.db.intents| then w.db.intents[id := w.db.intents[id].(status := Dropped)] else w.db.intents
  {
  }

  // --------------------------------------------------------------------- one claim on the tables

  /** The fence on the tables themselves. */
  ghost predicate Fenced(runs: seq<StrategyRun>, q: Intent, now: int, running: Option<nat>) {
    && q.status == Queued
    && q.expires.Some? && now < q.expires.value
    && q.session.Some? && (q.session == running || EndedInControl(runs, q.session.value))
  }

  /** Row k can be consumed now by an attempt with a fresh client id. */
  ghost predicate Consumable(db: Tables, k: nat, key: nat, a: Attempt, now: int, running: Option<nat>, disk: Disk) {
    && k < |db.intents| && db.intents[k].key == key
    && Fenced(db.runs, db.intents[k], now, running) && SameConfig(db.intents[k], disk)
    && forall i :: 0 <= i < |db.attempts| ==> db.attempts[i].clientId != a.clientId
  }

  /** The row, and no other, is consumed, and its attempt is appended. */
  predicate ConsumedInto(before: Tables, k: nat, a: Attempt, consumer: nat, at: int, after: Tables) {
    && k < |before.intents|
    && after.intents
    == before.intents[k := before.intents[k].(status := Consumed, consumedAt := Some(at), consumedBy := Some(consumer))]
    && after.attempts == before.attempts + [a]
    && after == before.(intents := after.intents, attempts := after.attempts)
  }

  lemma ConsumesIff(db: Tables, key: nat, a: Attempt, now: int, running: Option<nat>, consumer: nat, at: int, disk: Disk)
    requires UniqueKeys(db.intents)
    ensures var wins := Verified(db, key, disk).Some? && Wins(db, key, a, now, running);
      var after := ClaimAndAppend(db, key, a, now, running, consumer, at);
      && (wins <==> exists k :: Consumable(db, k, key, a, now, running, disk))
      && (wins ==> exists k :: Consumable(db, k, key, a, now, running, disk) && ConsumedInto(db, k, a, consumer, at, after))
      && (!Wins(db, key, a, now, running) ==> after == db)
  {
    hide RowOf, ClaimCount, ClaimAndAppend;
    ClaimIsAtomic(db, key, a, now, running, consumer, at);
    ClaimIsOneRow(db, key, now, running);
    RowOfFinds(db.intents, key);
    if Verified(db, key, disk).Some? && Wins(db, key, a, now, running) {
      var k := RowOf(db.intents, key).value;
      assert Consumable(db, k, key, a, now, running, disk);
    }
    if k: nat :| Consumable(db, k, key, a, now, running, disk) {
      assert RowOf(db.intents, key) == Some(k);
    }
  }
}
