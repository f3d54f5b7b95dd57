/**
 Schema migrations applied by any number of concurrently constructing stores, each statement a
 step of its own and a failure or crash possible between any two.
 */
module Migrations {
  import opened OrderedDict

  datatype Migration = Migration(version: nat, statements: seq<nat>)

  /** What is committed: the statements executed so far, in order, and the version table's rows. */
  datatype Database = Database(schema: seq<nat>, versions: seq<nat>)

  function Larger(a: nat, b: nat): nat {
    if a < b then b else a
  }

  /** The recorded version: the largest row, or 0 when there is none. */
  function VersionOf(rows: seq<nat>): nat {
    if rows == [] then 0 else Larger(VersionOf(rows[..|rows| - 1]), rows[|rows| - 1])
  }

  lemma SingleVersion(v: nat)
    ensures VersionOf([v]) == v
  {
    assert [v][..0] == [];
  }

  /** The version after offering `list` to a database at `start`. */
  function TopVersion(list: seq<Migration>, start: nat): nat {
    if list == [] then start else Larger(TopVersion(list[..|list| - 1], start), list[|list| - 1].version)
  }

  /** What offering `list` executes: a migration runs only if it is newer than all before it. */
  function Script(list: seq<Migration>, start: nat): seq<nat> {
    if list == [] then []
    else
      var front, last := list[..|list| - 1], list[|list| - 1];
      Script(front, start) + (if last.version > TopVersion(front, start) then last.statements else [])
  }

  // ------------------------------------------------------------------------ one constructor

  datatype Outcome = Applied | Raised

  class SchemaStore {
    var schema: seq<nat>
    var versions: seq<nat>

    function CurrentVersion(): nat
      reads this
    {
      VersionOf(versions)
    }

    /** One migration in its own transaction; `breaks` says which statement fails, if any. */
    method ApplyOne(m: Migration, breaks: Option<nat>) returns (r: Outcome)
      modifies this
      ensures r.Raised? <==> breaks.Some? && breaks.value < |m.statements|
      ensures r.Raised? ==> schema == old(schema) && versions == old(versions)
      ensures r.Applied? ==> schema == old(schema) + m.statements && versions == [m.version]
    {
      var saved, savedVersions := schema, versions;
      for k := 0 to |m.statements|
        invariant schema == saved + m.statements[..k] && versions == savedVersions
        invariant breaks.Some? ==> k <= breaks.value
      {
        if breaks == Some(k) {
          schema, versions := saved, savedVersions;
          return Raised;
        }
        schema := schema + [m.statements[k]];
      }
      assert m.statements[..|m.statements|] == m.statements;
      versions := [];
      versions := versions + [m.version];
      r := Applied;
    }

    /**
     Offer every migration in order, skipping those not newer than the recorded version; the
     first failure stops the construction with everything before it committed.
     */
    method ApplyMigrations(list: seq<Migration>, breaks: seq<Option<nat>>) returns (r: Outcome, reached: nat)
      requires |breaks| == |list|
      modifies this
      ensures reached <= |list| && (r.Applied? ==> reached == |list|)
      ensures r.Raised? ==> reached < |list| && breaks[reached].Some?
      ensures schema == old(schema) + Script(list[..reached], old(CurrentVersion()))
      ensures CurrentVersion() == TopVersion(list[..reached], old(CurrentVersion()))
    {
      ghost var base, start := schema, CurrentVersion();
      reached := 0;
      while reached < |list|
        invariant reached <= |list|
        invariant schema == base + Script(list[..reached], start)
        invariant CurrentVersion() == TopVersion(list[..reached], start)
      {
        var m := list[reached];
        assert list[..reached + 1][..reached] == list[..reached];
        if m.version > CurrentVersion() {
          var one := ApplyOne(m, breaks[reached]);
          if one.Raised? {
            return Raised, reached;
          }
          SingleVersion(m.version);
        }
        reached := reached + 1;
      }
      r := Applied;
    }
  }

  // --------------------------------------------------------------- concurrent constructors

  /**
   Where a constructor stands: about to look at its `next` migration, waiting for the exclusive
   lock, inside the transaction with `done` statements executed, returned, or raised.
   */
  datatype Phase =
    | Checking(next: nat)
    | Waiting(next: nat)
    | InTransaction(next: nat, done: nat, work: Database)
    | Returned

  /** `release` is how many of the shipped migrations this constructor's code knows. */
  datatype Process = Process(release: nat, phase: Phase)

  datatype World = World(db: Database, procs: map<nat, Process>)

  datatype Step =
    | Construct(proc: nat, release: nat)
    | PreCheck(proc: nat)
    | Begin(proc: nat)
    | Execute(proc: nat)
    | Commit(proc: nat)
    | Abort(proc: nat)

  const FRESH := World(Database([], []), map[])

  /** Someone holds the exclusive lock. */
  predicate Locked(procs: map<nat, Process>) {
    exists p :: p in procs && procs[p].phase.InTransaction?
  }

  /** One statement further: the migration's own, then clearing and writing the version row. */
  function ExecuteNext(m: Migration, done: nat, work: Database): Database {
    if done < |m.statements| then work.(schema := work.schema + [m.statements[done]])
    else if done == |m.statements| then work.(versions := [])
    else work.(versions := work.versions + [m.version])
  }

  function Moved(w: World, p: nat, phase: Phase): World
    requires p in w.procs
  {
    w.(procs := w.procs[p := w.procs[p].(phase := phase)])
  }

  function Next(shipped: seq<Migration>, w: World, step: Step): World {
    match step
    case Construct(p, release) =>
      if p in w.procs || release > |shipped| then w else w.(procs := w.procs[p := Process(release, Checking(0))])
    case PreCheck(p) =>
      if p !in w.procs || !w.procs[p].phase.Checking? then w
      else
        var i := w.procs[p].phase.next;
        if i >= w.procs[p].release || i >= |shipped| then Moved(w, p, Returned)
        else if shipped[i].version <= VersionOf(w.db.versions) then Moved(w, p, Checking(i + 1))
        else Moved(w, p, Waiting(i))
    case Begin(p) =>
      if p !in w.procs || !w.procs[p].phase.Waiting? || Locked(w.procs) || w.procs[p].phase.next >= |shipped| then w
      else
        var i := w.procs[p].phase.next;
        if shipped[i].version <= VersionOf(w.db.versions) then Moved(w, p, Checking(i + 1))
        else Moved(w, p, InTransaction(i, 0, w.db))
    case Execute(p) =>
      if p !in w.procs || !w.procs[p].phase.InTransaction? || w.procs[p].phase.next >= |shipped| then w
      else
        var t := w.procs[p].phase;
        var m := shipped[t.next];
        if t.done >= |m.statements| + 2 then w
        else Moved(w, p, InTransaction(t.next, t.done + 1, ExecuteNext(m, t.done, t.work)))
    case Commit(p) =>
      if p !in w.procs || !w.procs[p].phase.InTransaction? || w.procs[p].phase.next >= |shipped| then w
      else
        var t := w.procs[p].phase;
        if t.done != |shipped[t.next].statements| + 2 then w
        else Moved(w, p, Checking(t.next + 1)).(db := t.work)
    case Abort(p) => w.(procs := w.procs - {p})
  }

  function Run(shipped: seq<Migration>, steps: seq<Step>): World {
    if steps == [] then FRESH else Next(shipped, Run(shipped, steps[..|steps| - 1]), steps[|steps| - 1])
  }

  /** The committed database is what offering the first `n` shipped migrations once, in order, gives. */
  ghost predicate BuiltFrom(shipped: seq<Migration>, n: nat, db: Database) {
    && n <= |shipped|
    && db.schema == Script(shipped[..n], 0)
    && VersionOf(db.versions) == TopVersion(shipped[..n], 0)
  }

  ghost predicate Consistent(shipped: seq<Migration>, db: Database) {
    exists n :: BuiltFrom(shipped, n, db)
  }

  /** A transaction holds exactly the first `done` statements on top of what is committed. */
  predicate TransactionOk(m: Migration, t: Phase, db: Database)
    requires t.InTransaction?
  {
    && t.done <= |m.statements| + 2
    && m.version > VersionOf(db.versions)
    && t.work.schema == db.schema + m.statements[..if t.done < |m.statements| then t.done else |m.statements|]
    && t.work.versions == (if t.done <= |m.statements| then db.versions
                           else if t.done == |m.statements| + 1 then [] else [m.version])
  }

  predicate ProcessOk(shipped: seq<Migration>, pr: Process, db: Database) {
    && pr.release <= |shipped|
    && match pr.phase
       case Checking(i) => i <= pr.release && VersionOf(db.versions) >= TopVersion(shipped[..i], 0)
       case Waiting(i) => i < pr.release && VersionOf(db.versions) >= TopVersion(shipped[..i], 0)
       case InTransaction(i, _, _) =>
         i < pr.release && VersionOf(db.versions) >= TopVersion(shipped[..i], 0)
         && TransactionOk(shipped[i], pr.phase, db)
       case Returned => VersionOf(db.versions) >= TopVersion(shipped[..pr.release], 0)
  }

  ghost predicate Inv(shipped: seq<Migration>, w: World) {
    && Consistent(shipped, w.db)
    && (forall p :: p in w.procs ==> ProcessOk(shipped, w.procs[p], w.db))
    && (forall p, q :: p in w.procs && q in w.procs ==>
          w.procs[p].phase.InTransaction? && w.procs[q].phase.InTransaction? ==> p == q)
  }

  lemma {:induction false} TopVersionMonotone(list: seq<Migration>, i: nat, j: nat)
    requires i <= j <= |list|
    ensures TopVersion(list[..i], 0) <= TopVersion(list[..j], 0)
    ensures forall k :: i <= k < j ==> list[k].version <= TopVersion(list[..j], 0)
  {
    if i < j {
      TopVersionMonotone(list, i, j - 1);
      assert list[..j][..j - 1] == list[..j - 1];
    }
  }

  /** Between two points with the same version nothing is executed. */
  lemma {:induction false} NothingNewBetween(list: seq<Migration>, i: nat, j: nat)
    requires i <= j <= |list| && TopVersion(list[..i], 0) == TopVersion(list[..j], 0)
    ensures Script(list[..i], 0) == Script(list[..j], 0)
  {
    if i < j {
      assert list[..j][..j - 1] == list[..j - 1];
      TopVersionMonotone(list, i, j - 1);
      TopVersionMonotone(list, j - 1, j);
      NothingNewBetween(list, i, j - 1);
    }
  }

  /** Running the next migration on a consistent, caught-up database extends the same sequence. */
  lemma MigrationExtends(shipped: seq<Migration>, i: nat, db: Database, after: Database)
    requires Consistent(shipped, db) && i < |shipped|
    requires VersionOf(db.versions) >= TopVersion(shipped[..i], 0) && shipped[i].version > VersionOf(db.versions)
    requires after.schema == db.schema + shipped[i].statements && after.versions == [shipped[i].version]
    ensures BuiltFrom(shipped, i + 1, after) && VersionOf(after.versions) == shipped[i].version
  {
    var n: nat :| BuiltFrom(shipped, n, db);
    if i < n {
      TopVersionMonotone(shipped, i, n);
      assert false;
    }
    TopVersionMonotone(shipped, n, i);
    NothingNewBetween(shipped, n, i);
    assert shipped[..i + 1][..i] == shipped[..i];
    SingleVersion(shipped[i].version);
  }

  lemma CommitKeepsInv(shipped: seq<Migration>, w: World, p: nat)
    requires Inv(shipped, w) && p in w.procs && w.procs[p].phase.InTransaction?
    requires w.procs[p].phase.next < |shipped|
    requires w.procs[p].phase.done == |shipped[w.procs[p].phase.next].statements| + 2
    ensures Inv(shipped, Next(shipped, w, Commit(p)))
    ensures VersionOf(Next(shipped, w, Commit(p)).db.versions) > VersionOf(w.db.versions)
  {
    var t := w.procs[p].phase;
    var m := shipped[t.next];
    assert ProcessOk(shipped, w.procs[p], w.db);
    assert m.statements[..|m.statements|] == m.statements;
    MigrationExtends(shipped, t.next, w.db, t.work);
    var after := Next(shipped, w, Commit(p));
    assert shipped[..t.next + 1][..t.next] == shipped[..t.next];
    forall q | q in after.procs ensures ProcessOk(shipped, after.procs[q], after.db) {
      assert ProcessOk(shipped, w.procs[q], w.db);
    }
  }

  lemma ExecuteKeepsInv(shipped: seq<Migration>, w: World, p: nat)
    requires Inv(shipped, w)
    ensures Inv(shipped, Next(shipped, w, Execute(p)))
  {
    var after := Next(shipped, w, Execute(p));
    if after != w {
      var t := w.procs[p].phase;
      var m := shipped[t.next];
      assert ProcessOk(shipped, w.procs[p], w.db);
      if t.done < |m.statements| {
        assert m.statements[..t.done + 1] == m.statements[..t.done] + [m.statements[t.done]];
      }
      assert ProcessOk(shipped, after.procs[p], after.db);
    }
  }

  lemma CheckKeepsInv(shipped: seq<Migration>, w: World, step: Step)
    requires Inv(shipped, w) && (step.PreCheck? || step.Begin?)
    ensures Inv(shipped, Next(shipped, w, step))
  {
    hide Consistent, Script, VersionOf;
    var after := Next(shipped, w, step);
    if after != w {
      var p := step.proc;
      assert ProcessOk(shipped, w.procs[p], w.db);
      var i := w.procs[p].phase.next;
      if i < |shipped| {
        assert shipped[..i + 1][..i] == shipped[..i];
        assert shipped[i].statements[..0] == [];
      }
      assert ProcessOk(shipped, after.procs[p], after.db);
    }
  }

  lemma NextKeepsInv(shipped: seq<Migration>, w: World, step: Step)
    requires Inv(shipped, w)
    ensures Inv(shipped, Next(shipped, w, step))
    ensures VersionOf(Next(shipped, w, step).db.versions) >= VersionOf(w.db.versions)
  {
    match step
    case Construct(_, _) =>
    case PreCheck(_) => CheckKeepsInv(shipped, w, step);
    case Begin(_) => CheckKeepsInv(shipped, w, step);
    case Execute(p) => ExecuteKeepsInv(shipped, w, p);
    case Commit(p) =>
      if Next(shipped, w, step) != w {
        CommitKeepsInv(shipped, w, p);
      }
    case Abort(_) =>
  }

  /**
   Exactly-once migrations.  After every interleaving, with failures and crashes anywhere, the
   committed schema is the result of offering a prefix of the shipped migrations once each in
   order, and the recorded version is the one of that prefix.
   */
  lemma {:induction false} RunKeepsInv(shipped: seq<Migration>, steps: seq<Step>)
    ensures Inv(shipped, Run(shipped, steps))
  {
    if steps == [] {
      assert BuiltFrom(shipped, 0, FRESH.db);
    } else {
      RunKeepsInv(shipped, steps[..|steps| - 1]);
      NextKeepsInv(shipped, Run(shipped, steps[..|steps| - 1]), steps[|steps| - 1]);
    }
  }

  /** The version never decreases as a run goes on. */
  lemma {:induction false} VersionNeverDecreases(shipped: seq<Migration>, steps: seq<Step>, k: nat)
    requires k <= |steps|
    ensures VersionOf(Run(shipped, steps[..k]).db.versions) <= VersionOf(Run(shipped, steps).db.versions)
  {
    if k == |steps| {
      assert steps[..k] == steps;
    } else {
      var front := steps[..|steps| - 1];
      VersionNeverDecreases(shipped, front, k);
      assert front[..k] == steps[..k];
      RunKeepsInv(shipped, front);
      NextKeepsInv(shipped, Run(shipped, front), steps[|steps| - 1]);
    }
  }

  /** A constructor that returned finds its own last migration, and every earlier one, accounted for. */
  lemma ReturnedSeesItsMigrations(shipped: seq<Migration>, steps: seq<Step>, p: nat, k: nat)
    requires p in Run(shipped, steps).procs && Run(shipped, steps).procs[p].phase.Returned?
    requires k < Run(shipped, steps).procs[p].release
    ensures k < |shipped| && VersionOf(Run(shipped, steps).db.versions) >= shipped[k].version
  {
    RunKeepsInv(shipped, steps);
    var w := Run(shipped, steps);
    assert ProcessOk(shipped, w.procs[p], w.db);
    TopVersionMonotone(shipped, k, w.procs[p].release);
  }

  // ------------------------------------------------------------ a constructor left to itself

  lemma RunOneMore(shipped: seq<Migration>, steps: seq<Step>, step: Step)
    ensures Run(shipped, steps + [step]) == Next(shipped, Run(shipped, steps), step)
  {
    assert (steps + [step])[..|steps|] == steps;
  }

  /** Inside its transaction a constructor can execute every statement; nothing is committed yet. */
  lemma ExecutesAll(shipped: seq<Migration>, steps: seq<Step>, p: nat, i: nat) returns (more: seq<Step>)
    requires i < |shipped|
    requires var w := Run(shipped, steps); p in w.procs && w.procs[p].phase == InTransaction(i, 0, w.db)
    ensures var w, m, after := Run(shipped, steps), shipped[i], Run(shipped, steps + more);
      after == w.(procs := w.procs[p := w.procs[p].(phase :=
        InTransaction(i, |m.statements| + 2, Database(w.db.schema + m.statements, [m.version])))])
  {
    hide Run;
    var w, m := Run(shipped, steps), shipped[i];
    more := [];
    assert steps + [] == steps;
    for k := 0 to |m.statements| + 2
      invariant p in Run(shipped, steps + more).procs
      invariant var phase := Run(shipped, steps + more).procs[p].phase;
        && phase.InTransaction? && phase.next == i && phase.done == k
        && Run(shipped, steps + more) == w.(procs := w.procs[p := w.procs[p].(phase := phase)])
    {
      RunOneMore(shipped, steps + more, Execute(p));
      assert steps + more + [Execute(p)] == steps + (more + [Execute(p)]);
      more := more + [Execute(p)];
    }
    RunKeepsInv(shipped, steps + more);
    assert ProcessOk(shipped, Run(shipped, steps + more).procs[p], w.db);
    assert m.statements[..|m.statements|] == m.statements;
  }

  /** With nobody in a transaction a constructor can get past its next migration: applied if newer, skipped if not. */
  lemma AppliesNext(shipped: seq<Migration>, steps: seq<Step>, p: nat, i: nat) returns (more: seq<Step>)
    requires var w := Run(shipped, steps);
      p in w.procs && w.procs[p].phase == Checking(i) && i < w.procs[p].release && i < |shipped| && !Locked(w.procs)
    ensures var w, m, after := Run(shipped, steps), shipped[i], Run(shipped, steps + more);
      && after.procs == w.procs[p := w.procs[p].(phase := Checking(i + 1))]
      && after.db == if m.version > VersionOf(w.db.versions) then Database(w.db.schema + m.statements, [m.version]) else w.db
  {
    hide Run;
    var w, m := Run(shipped, steps), shipped[i];
    RunOneMore(shipped, steps, PreCheck(p));
    more := [PreCheck(p)];
    if m.version > VersionOf(w.db.versions) {
      RunOneMore(shipped, steps + more, Begin(p));
      assert !Locked(Run(shipped, steps + more).procs);
      assert steps + more + [Begin(p)] == steps + [PreCheck(p), Begin(p)];
      more := [PreCheck(p), Begin(p)];
      var rest := ExecutesAll(shipped, steps + more, p, i);
      RunOneMore(shipped, steps + more + rest, Commit(p));
      assert steps + more + rest + [Commit(p)] == steps + (more + rest + [Commit(p)]);
      more := more + rest + [Commit(p)];
    }
  }

  lemma ReturnsAtTheEnd(shipped: seq<Migration>, steps: seq<Step>, p: nat, i: nat)
    requires var w := Run(shipped, steps); p in w.procs && w.procs[p].phase == Checking(i) && i >= w.procs[p].release
    ensures var w := Run(shipped, steps);
      Run(shipped, steps + [PreCheck(p)]) == w.(procs := w.procs[p := w.procs[p].(phase := Returned)])
  {
    hide Run;
    RunOneMore(shipped, steps, PreCheck(p));
  }

  lemma OffersOneMore(list: seq<Migration>, i: nat, j: nat, start: nat)
    requires i <= j < |list|
    ensures var top := TopVersion(list[i..j], start);
      && Script(list[i..j + 1], start) == Script(list[i..j], start) + (if list[j].version > top then list[j].statements else [])
      && TopVersion(list[i..j + 1], start) == if list[j].version > top then list[j].version else top
  {
    assert list[i..j + 1][..j - i] == list[i..j];
  }

  /** From `w` on, constructor p alone has dealt with migrations i to j. */
  ghost predicate GotTo(shipped: seq<Migration>, w: World, p: nat, i: nat, j: nat, at: World) {
    && p in w.procs && i <= j <= |shipped|
    && at.procs == w.procs[p := w.procs[p].(phase := Checking(j))]
    && at.db.schema == w.db.schema + Script(shipped[i..j], VersionOf(w.db.versions))
    && VersionOf(at.db.versions) == TopVersion(shipped[i..j], VersionOf(w.db.versions))
  }

  lemma GetsFurther(shipped: seq<Migration>, w: World, p: nat, i: nat, j: nat, at: World, next: World)
    requires GotTo(shipped, w, p, i, j, at) && j < |shipped|
    requires next.procs == at.procs[p := at.procs[p].(phase := Checking(j + 1))]
    requires var m := shipped[j];
      next.db == if m.version > VersionOf(at.db.versions) then Database(at.db.schema + m.statements, [m.version]) else at.db
    ensures GotTo(shipped, w, p, i, j + 1, next)
  {
    OffersOneMore(shipped, i, j, VersionOf(w.db.versions));
    SingleVersion(shipped[j].version);
  }

  lemma StartsThere(shipped: seq<Migration>, w: World, p: nat, i: nat)
    requires p in w.procs && w.procs[p].phase == Checking(i) && i <= |shipped|
    ensures GotTo(shipped, w, p, i, i, w)
  {
    assert shipped[i..i] == [];
  }

  lemma StillUnlocked(shipped: seq<Migration>, w: World, p: nat, i: nat, j: nat, at: World)
    requires GotTo(shipped, w, p, i, j, at) && !Locked(w.procs)
    ensures p in at.procs && at.procs[p] == Process(w.procs[p].release, Checking(j)) && !Locked(at.procs)
  {
    forall q | q in at.procs ensures !at.procs[q].phase.InTransaction? {
      assert q != p ==> at.procs[q] == w.procs[q];
    }
  }

  lemma HasGotThere(shipped: seq<Migration>, w: World, p: nat, i: nat, j: nat, at: World)
    requires GotTo(shipped, w, p, i, j, at)
    ensures var start := VersionOf(w.db.versions);
      && at.procs == w.procs[p := w.procs[p].(phase := Checking(j))]
      && at.db.schema == w.db.schema + Script(shipped[i..j], start)
      && VersionOf(at.db.versions) == TopVersion(shipped[i..j], start)
  {
  }

  /**
   A constructor always can finish.  From any reachable state in which nobody is in a transaction,
   some run of its own steps returns, having executed exactly what offering its remaining
   migrations to the recorded version executes, as a single construction does.
   */
  lemma ConstructorFinishes(shipped: seq<Migration>, steps: seq<Step>, p: nat, i: nat) returns (more: seq<Step>)
    requires var w := Run(shipped, steps);
      && p in w.procs && w.procs[p].phase == Checking(i) && i <= w.procs[p].release <= |shipped| && !Locked(w.procs)
    ensures var w, after := Run(shipped, steps), Run(shipped, steps + more);
      var offered := shipped[i..w.procs[p].release];
      && after.procs == w.procs[p := w.procs[p].(phase := Returned)]
      && after.db.schema == w.db.schema + Script(offered, VersionOf(w.db.versions))
      && VersionOf(after.db.versions) == TopVersion(offered, VersionOf(w.db.versions))
  {
    hide Run, Next, GotTo, Locked;
    var w := Run(shipped, steps);
    more := [];
    assert steps + [] == steps;
    StartsThere(shipped, w, p, i);
    for j := i to w.procs[p].release
      invariant GotTo(shipped, w, p, i, j, Run(shipped, steps + more))
    {
      var at := Run(shipped, steps + more);
      StillUnlocked(shipped, w, p, i, j, at);
      var rest := AppliesNext(shipped, steps + more, p, j);
      assert steps + more + rest == steps + (more + rest);
      GetsFurther(shipped, w, p, i, j, at, Run(shipped, steps + (more + rest)));
      more := more + rest;
    }
    StillUnlocked(shipped, w, p, i, w.procs[p].release, Run(shipped, steps + more));
    ReturnsAtTheEnd(shipped, steps + more, p, w.procs[p].release);
    assert steps + more + [PreCheck(p)] == steps + (more + [PreCheck(p)]);
    HasGotThere(shipped, w, p, i, w.procs[p].release, Run(shipped, steps + more));
    more := more + [PreCheck(p)];
  }

  // ------------------------------------------------------------------- ascending migrations

  ghost predicate AscendingVersions(list: seq<Migration>) {
    && (forall i, j :: 0 <= i < j < |list| ==> list[i].version < list[j].version)
    && (forall i :: 0 <= i < |list| ==> 0 < list[i].version)
  }

  /** Every statement of every migration, in order. */
  function AllStatements(list: seq<Migration>): seq<nat> {
    if list == [] then [] else AllStatements(list[..|list| - 1]) + list[|list| - 1].statements
  }

  /** With strictly ascending versions nothing is skipped: the schema is every migration, once. */
  lemma {:induction false} AscendingRunsAll(list: seq<Migration>)
    requires AscendingVersions(list)
    ensures Script(list, 0) == AllStatements(list)
    ensures TopVersion(list, 0) == if list == [] then 0 else list[|list| - 1].version
  {
    if list == [] {
    } else {
      AscendingRunsAll(list[..|list| - 1]);
    }
  }

  /**
   For ascending migrations the committed version identifies the prefix: exactly the migrations
   up to the recorded version have been executed, each once and in order.
   */
  lemma CommittedSchemaIsAscendingPrefix(shipped: seq<Migration>, steps: seq<Step>) returns (n: nat)
    requires AscendingVersions(shipped)
    ensures n <= |shipped| && Run(shipped, steps).db.schema == AllStatements(shipped[..n])
    ensures forall k :: 0 <= k < |shipped| ==>
              (k < n <==> shipped[k].version <= VersionOf(Run(shipped, steps).db.versions))
  {
    RunKeepsInv(shipped, steps);
    n :| BuiltFrom(shipped, n, Run(shipped, steps).db);
    AscendingRunsAll(shipped[..n]);
  }
}
