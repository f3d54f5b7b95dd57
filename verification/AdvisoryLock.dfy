/**
 The advisory lock file: a protocol of reads, unlinks, exclusive creates and writes by many
 processes that may die at any point, and the lock object that runs it.
 */
module AdvisoryLock {
  import opened OrderedDict

  /** A file just created is unreadable as a holder record until its pid has been written. */
  datatype Content = Unreadable | Holder(pid: nat, startedAt: int)

  /** `inode` and `owner` identify the file and the process that created it. */
  datatype File = File(inode: nat, owner: nat, content: Content, mtime: int)

  const MAX_AGE := 12 * 60 * 60

  /** Slack between a process's start time and the record it wrote, in seconds. */
  const PID_REUSE_GRACE := 1

  /** How far a process has come in acquire or release. */
  datatype Phase =
    | Idle
    | HasRead(existing: Option<(nat, nat)>)
    | Reclaiming(inode: nat)
    | Creating
    | Writing(inode: nat)
    | Releasing(mine: bool)

  datatype Proc = Proc(pid: nat, start: int, phase: Phase, held: bool)

  /** Live processes by an identity that is never reused, unlike their pids. */
  datatype World = World(file: Option<File>, clock: int, procs: map<nat, Proc>, nextInode: nat, nextProc: nat)

  const FRESH := World(None, 0, map[], 0, 0)

  datatype Step =
    | Spawn(pid: nat)
    | Die(p: nat)
    | Tick(seconds: nat)
    | Read(p: nat)
    | Judge(p: nat)
    | Unlink(p: nat)
    | Create(p: nat)
    | Write(p: nat)
    | WriteFails(p: nat)
    | Refresh(p: nat)
    | ReleaseRead(p: nat, readable: bool)
    | ReleaseDone(p: nat)

  predicate NamesPid(c: Content, pid: nat) {
    c.Holder? && c.pid == pid
  }

  predicate PidLive(procs: map<nat, Proc>, pid: nat) {
    exists p :: p in procs && procs[p].pid == pid
  }

  function LivePids(procs: map<nat, Proc>): set<nat> {
    set p | p in procs :: procs[p].pid
  }

  function HolderIn(file: Option<File>): Option<(nat, nat)> {
    if file.Some? && file.value.content.Holder? then Some((file.value.content.pid, file.value.inode)) else None
  }

  predicate PastMaxAge(file: Option<File>, clock: int) {
    file.Some? && clock - file.value.mtime > MAX_AGE
  }

  predicate At(w: World, p: nat, phase: Phase) {
    p in w.procs && w.procs[p].phase == phase
  }

  function Moved(w: World, p: nat, phase: Phase): World
    requires p in w.procs
  {
    w.(procs := w.procs[p := w.procs[p].(phase := phase)])
  }

  function Next(w: World, step: Step): World {
    match step
    case Spawn(pid) =>
      if PidLive(w.procs, pid) then w
      else w.(procs := w.procs[w.nextProc := Proc(pid, w.clock, Idle, false)], nextProc := w.nextProc + 1)
    case Die(p) => w.(procs := w.procs - {p})
    case Tick(seconds) => w.(clock := w.clock + seconds)
    case Read(p) =>
      if !At(w, p, Idle) || w.procs[p].held then w else Moved(w, p, HasRead(HolderIn(w.file)))
    case Judge(p) =>
      if p !in w.procs || !w.procs[p].phase.HasRead? then w
      else
        var existing := w.procs[p].phase.existing;
        if existing.None? then Moved(w, p, Creating)
        else if PidLive(w.procs, existing.value.0) && !PastMaxAge(w.file, w.clock) then Moved(w, p, Idle)
        else Moved(w, p, Reclaiming(existing.value.1))
    case Unlink(p) =>
      if p !in w.procs || !w.procs[p].phase.Reclaiming? then w else Moved(w, p, Creating).(file := None)
    case Create(p) =>
      if !At(w, p, Creating) then w
      else if w.file.Some? then Moved(w, p, Idle)
      else Moved(w, p, Writing(w.nextInode)).(file := Some(File(w.nextInode, p, Unreadable, w.clock)),
                                              nextInode := w.nextInode + 1)
    case Write(p) =>
      if p !in w.procs || !w.procs[p].phase.Writing? then w
      else
        var done := w.(procs := w.procs[p := w.procs[p].(phase := Idle, held := true)]);
        if w.file.Some? && w.file.value.inode == w.procs[p].phase.inode
        then done.(file := Some(w.file.value.(content := Holder(w.procs[p].pid, w.clock), mtime := w.clock)))
        else done
    case WriteFails(p) =>
      if p !in w.procs || !w.procs[p].phase.Writing? then w else Moved(w, p, Idle).(file := None)
    case Refresh(p) =>
      if p !in w.procs || !w.procs[p].held || w.file.None? then w
      else w.(file := Some(w.file.value.(mtime := w.clock)))
    case ReleaseRead(p, readable) =>
      if !At(w, p, Idle) || !w.procs[p].held then w
      else Moved(w, p, Releasing(readable && w.file.Some? && NamesPid(w.file.value.content, w.procs[p].pid)))
    case ReleaseDone(p) =>
      if p !in w.procs || !w.procs[p].phase.Releasing? then w
      else
        var done := w.(procs := w.procs[p := w.procs[p].(phase := Idle, held := false)]);
        if w.procs[p].phase.mine then done.(file := None) else done
  }

  function Run(w: World, steps: seq<Step>): World {
    if steps == [] then w else Next(Run(w, steps[..|steps| - 1]), steps[|steps| - 1])
  }

  predicate Holds(w: World, p: nat) {
    p in w.procs && w.procs[p].held
  }

  // ----------------------------------------------------------------------- mutual exclusion

  /** Time never passes the age limit under a live holder: it refreshes in time. */
  ghost predicate HoldersRefresh(w: World, step: Step) {
    step.Tick? && w.file.Some? ==> forall p :: Holds(w, p) ==> w.clock + step.seconds - w.file.value.mtime <= MAX_AGE
  }

  /** The file's creator is alive and either holds the lock or is still writing its record. */
  predicate OwnerActive(w: World, f: File) {
    f.owner in w.procs && (w.procs[f.owner].held || w.procs[f.owner].phase == Writing(f.inode))
  }

  /** A reclaim does not unlink the file of an active owner. */
  predicate ReclaimSparesOwner(w: World, step: Step) {
    step.Unlink? && step.p in w.procs && w.procs[step.p].phase.Reclaiming? ==>
      w.file.None? || !OwnerActive(w, w.file.value)
  }

  ghost predicate Safe(w: World, step: Step) {
    HoldersRefresh(w, step) && ReclaimSparesOwner(w, step)
  }

  ghost predicate AllSafe(w: World, steps: seq<Step>) {
    steps == [] || (var front := steps[..|steps| - 1];
                    AllSafe(w, front) && Safe(Run(w, front), steps[|steps| - 1]))
  }

  /** A reclaim removes the very file it judged stale, if that is still there. */
  predicate ReclaimsWhatItRead(w: World, step: Step) {
    step.Unlink? && step.p in w.procs && w.procs[step.p].phase.Reclaiming? ==>
      w.file.None? || w.file.value.inode == w.procs[step.p].phase.inode
  }

  /** What each process can see to by itself: refresh in time, and unlink only what it judged. */
  ghost predicate Disciplined(w: World, steps: seq<Step>) {
    steps == [] || (var front := steps[..|steps| - 1];
                    && Disciplined(w, front)
                    && HoldersRefresh(Run(w, front), steps[|steps| - 1])
                    && ReclaimsWhatItRead(Run(w, front), steps[|steps| - 1]))
  }

  predicate FileOk(w: World, f: File) {
    && f.inode < w.nextInode && f.owner < w.nextProc
    && (f.content.Holder? && f.owner in w.procs ==>
          && w.procs[f.owner].pid == f.content.pid && w.procs[f.owner].phase != Writing(f.inode)
          && w.procs[f.owner].start <= f.content.startedAt)
    && (f.content.Holder? ==>
          && f.content.startedAt <= w.clock
          && forall q :: q in w.procs && q != f.owner && w.procs[q].pid == f.content.pid ==>
               f.content.startedAt <= w.procs[q].start)
  }

  predicate ProcOk(w: World, p: nat)
    requires p in w.procs
  {
    var pr := w.procs[p];
    && p < w.nextProc && pr.start <= w.clock
    && (pr.held ==>
          && w.file.Some? && w.file.value.owner == p && NamesPid(w.file.value.content, pr.pid)
          && w.clock - w.file.value.mtime <= MAX_AGE
          && (pr.phase.Idle? || pr.phase.Releasing?))
    && match pr.phase
       case Idle => true
       case HasRead(existing) =>
         existing.Some? ==>
           existing.value.1 < w.nextInode
           && (w.file.Some? && w.file.value.inode == existing.value.1 ==> NamesPid(w.file.value.content, existing.value.0))
       case Reclaiming(inode) =>
         inode < w.nextInode
         && (w.file.Some? && w.file.value.inode == inode ==>
               w.file.value.content.Holder? && !OwnerActive(w, w.file.value))
       case Creating => true
       case Writing(inode) =>
         w.file.Some? && w.file.value.inode == inode && w.file.value.owner == p && w.file.value.content.Unreadable?
       case Releasing(_) => pr.held
  }

  ghost predicate Inv(w: World) {
    && (w.file.Some? ==> FileOk(w, w.file.value))
    && (forall p :: p in w.procs ==> ProcOk(w, p))
    && (forall p, q :: p in w.procs && q in w.procs && p != q ==> w.procs[p].pid != w.procs[q].pid)
  }

  lemma OthersKeep(w: World, after: World, p: nat)
    requires Inv(w) && p in w.procs && after == w.(procs := after.procs, file := after.file)
    requires after.procs.Keys == w.procs.Keys && forall q :: q in w.procs && q != p ==> after.procs[q] == w.procs[q]
    requires after.file == w.file && after.procs[p] == w.procs[p].(phase := after.procs[p].phase)
    requires !w.procs[p].phase.Writing? && !after.procs[p].phase.Writing?
    requires ProcOk(after, p)
    ensures Inv(after)
  {
    forall q | q in after.procs ensures ProcOk(after, q) {
      assert ProcOk(w, q);
    }
  }

  lemma JudgeKeepsInv(w: World, p: nat)
    requires Inv(w)
    ensures Inv(Next(w, Judge(p)))
  {
    var after := Next(w, Judge(p));
    if after != w {
      assert ProcOk(w, p);
      if w.file.Some? && w.file.value.owner in w.procs {
        assert ProcOk(w, w.file.value.owner);
      }
      OthersKeep(w, after, p);
    }
  }

  /** Once its creator is out of the way, removing the file disturbs nobody. */
  lemma RemovalKeepsInv(w: World, after: World, p: nat)
    requires Inv(w) && p in w.procs && after == w.(procs := after.procs, file := None)
    requires after.procs.Keys == w.procs.Keys && forall q :: q in w.procs && q != p ==> after.procs[q] == w.procs[q]
    requires w.file.Some? && OwnerActive(w, w.file.value) ==> w.file.value.owner == p
    requires after.procs[p] == w.procs[p].(phase := after.procs[p].phase, held := false)
    requires after.procs[p].phase.Idle? || after.procs[p].phase.Creating?
    ensures Inv(after)
  {
    forall q | q in after.procs ensures ProcOk(after, q) {
      assert ProcOk(w, q);
    }
  }

  lemma UnlinkKeepsInv(w: World, p: nat)
    requires Inv(w) && ReclaimSparesOwner(w, Unlink(p))
    ensures Inv(Next(w, Unlink(p)))
  {
    if p in w.procs && w.procs[p].phase.Reclaiming? {
      assert ProcOk(w, p);
      RemovalKeepsInv(w, Next(w, Unlink(p)), p);
    }
  }

  lemma CreateKeepsInv(w: World, p: nat)
    requires Inv(w)
    ensures Inv(Next(w, Create(p)))
  {
    var after := Next(w, Create(p));
    if At(w, p, Creating) {
      assert ProcOk(w, p);
      forall q | q in after.procs ensures ProcOk(after, q) {
        assert ProcOk(w, q);
      }
    }
  }

  lemma WriteKeepsInv(w: World, step: Step)
    requires Inv(w) && (step.Write? || step.WriteFails?)
    ensures Inv(Next(w, step))
  {
    var after := Next(w, step);
    if step.p in w.procs && w.procs[step.p].phase.Writing? {
      assert ProcOk(w, step.p);
      if step.WriteFails? {
        RemovalKeepsInv(w, after, step.p);
      } else {
        forall q | q in after.procs ensures ProcOk(after, q) {
          assert ProcOk(w, q);
        }
      }
    }
  }

  lemma ReleaseKeepsInv(w: World, step: Step)
    requires Inv(w) && (step.ReleaseRead? || step.ReleaseDone?)
    ensures Inv(Next(w, step))
  {
    var after := Next(w, step);
    if step.p in w.procs {
      assert ProcOk(w, step.p);
      forall q | q in after.procs ensures ProcOk(after, q) {
        assert ProcOk(w, q);
      }
    }
  }

  lemma OutsideKeepsInv(w: World, step: Step)
    requires Inv(w) && HoldersRefresh(w, step)
    requires step.Spawn? || step.Die? || step.Tick? || step.Read? || step.Refresh?
    ensures Inv(Next(w, step))
  {
    var after := Next(w, step);
    forall q | q in after.procs ensures ProcOk(after, q) {
      if q in w.procs {
        assert ProcOk(w, q);
        assert Holds(w, q) <==> w.procs[q].held;
      }
    }
  }

  lemma NextKeepsInv(w: World, step: Step)
    requires Inv(w) && Safe(w, step)
    ensures Inv(Next(w, step))
  {
    hide ProcOk, FileOk;
    match step
    case Judge(p) => JudgeKeepsInv(w, p);
    case Unlink(p) => UnlinkKeepsInv(w, p);
    case Create(p) => CreateKeepsInv(w, p);
    case Write(_) => WriteKeepsInv(w, step);
    case WriteFails(_) => WriteKeepsInv(w, step);
    case ReleaseRead(_, _) => ReleaseKeepsInv(w, step);
    case ReleaseDone(_) => ReleaseKeepsInv(w, step);
    case _ => OutsideKeepsInv(w, step);
  }

  lemma {:induction false} RunKeepsInv(w: World, steps: seq<Step>)
    requires Inv(w) && AllSafe(w, steps)
    ensures Inv(Run(w, steps))
  {
    hide Safe;
    if steps == [] {
    } else {
      RunKeepsInv(w, steps[..|steps| - 1]);
      NextKeepsInv(Run(w, steps[..|steps| - 1]), steps[|steps| - 1]);
    }
  }

  /** A reclaim that finds the very file it judged is safe. */
  lemma JudgedFileIsSpared(w: World, step: Step)
    requires Inv(w) && ReclaimsWhatItRead(w, step)
    ensures ReclaimSparesOwner(w, step)
  {
    if step.Unlink? && step.p in w.procs {
      assert ProcOk(w, step.p);
    }
  }

  lemma {:induction false} DisciplineIsSafe(w: World, steps: seq<Step>)
    requires Inv(w) && Disciplined(w, steps)
    ensures AllSafe(w, steps)
  {
    if steps == [] {
    } else {
      DisciplineIsSafe(w, steps[..|steps| - 1]);
      RunKeepsInv(w, steps[..|steps| - 1]);
      JudgedFileIsSpared(Run(w, steps[..|steps| - 1]), steps[|steps| - 1]);
    }
  }

  /**
   Mutual exclusion over every interleaving of acquires, refreshes, releases and deaths: at most
   one live process holds, provided live holders refresh within the age limit and each reclaim
   unlinks the file it judged.
   */
  lemma AtMostOneHolder(steps: seq<Step>, p: nat, q: nat)
    requires Disciplined(FRESH, steps) && Holds(Run(FRESH, steps), p) && Holds(Run(FRESH, steps), q)
    ensures p == q
  {
    DisciplineIsSafe(FRESH, steps);
    RunKeepsInv(FRESH, steps);
  }

  // ------------------------------------------------------------- exactly when exclusion is lost

  /** Even though everyone behaves from here on, two live processes can come to hold. */
  ghost predicate TwoCanHold(w: World) {
    exists steps, p, q :: p != q && Disciplined(w, steps) && Holds(Run(w, steps), p) && Holds(Run(w, steps), q)
  }

  lemma NeverTwo(w: World)
    requires Inv(w)
    ensures !TwoCanHold(w)
  {
    if TwoCanHold(w) {
      var steps, p, q :| p != q && Disciplined(w, steps) && Holds(Run(w, steps), p) && Holds(Run(w, steps), q);
      DisciplineIsSafe(w, steps);
      RunKeepsInv(w, steps);
    }
  }

  lemma Extend(w: World, steps: seq<Step>, step: Step)
    requires Disciplined(w, steps) && HoldersRefresh(Run(w, steps), step) && ReclaimsWhatItRead(Run(w, steps), step)
    ensures Disciplined(w, steps + [step]) && Run(w, steps + [step]) == Next(Run(w, steps), step)
  {
    assert (steps + [step])[..|steps|] == steps;
  }

  lemma RunOfNone(w: World)
    ensures Run(w, []) == w && Disciplined(w, [])
  {
  }

  lemma TwoHoldNow(w: World, p: nat, q: nat)
    requires p != q && Holds(w, p) && Holds(w, q)
    ensures TwoCanHold(w)
  {
    RunOfNone(w);
    assert Disciplined(w, []) && Holds(Run(w, []), p) && Holds(Run(w, []), q);
  }

  lemma {:induction false} Prepend(w: World, step: Step, steps: seq<Step>)
    requires HoldersRefresh(w, step) && ReclaimsWhatItRead(w, step) && Disciplined(Next(w, step), steps)
    ensures Disciplined(w, [step] + steps) && Run(w, [step] + steps) == Run(Next(w, step), steps)
  {
    hide Next;
    if steps == [] {
      Extend(w, [], step);
      assert [step] + steps == [] + [step];
    } else {
      var front, last := steps[..|steps| - 1], steps[|steps| - 1];
      Prepend(w, step, front);
      Extend(w, [step] + front, last);
      assert [step] + front + [last] == [step] + steps;
    }
  }

  lemma TwoCanStillHold(w: World, step: Step)
    requires HoldersRefresh(w, step) && ReclaimsWhatItRead(w, step) && TwoCanHold(Next(w, step))
    ensures TwoCanHold(w)
  {
    hide Next, Run, Disciplined, Holds;
    var steps, p, q :| p != q && Disciplined(Next(w, step), steps)
                       && Holds(Run(Next(w, step), steps), p) && Holds(Run(Next(w, step), steps), q);
    Prepend(w, step, steps);
    assert Disciplined(w, [step] + steps) && Holds(Run(w, [step] + steps), p) && Holds(Run(w, [step] + steps), q);
  }

  lemma OwnerIsNoReclaimer(w: World, p: nat)
    requires Inv(w) && p in w.procs && w.procs[p].phase.Reclaiming?
    requires w.file.Some? && OwnerActive(w, w.file.value)
    ensures w.file.value.owner != p
  {
    assert ProcOk(w, p);
  }

  /** The reclaimer goes on to acquire; the owner it robbed still holds, or finishes its write. */
  lemma RobbedOwnerHolds(w: World, p: nat)
    requires Inv(w) && p in w.procs && w.procs[p].phase.Reclaiming?
    requires w.file.Some? && OwnerActive(w, w.file.value)
    ensures TwoCanHold(Next(w, Unlink(p)))
  {
    hide TwoCanHold, Inv;
    var o, gone := w.file.value.owner, Next(w, Unlink(p));
    OwnerIsNoReclaimer(w, p);
    var created := Next(gone, Create(p));
    var robbed := Next(created, Write(p));
    assert Holds(robbed, p) && robbed.procs[o] == w.procs[o];
    TwoHoldNow(Next(robbed, Write(o)), p, o);
    TwoCanStillHold(robbed, Write(o));
    TwoCanStillHold(created, Write(p));
    TwoCanStillHold(gone, Create(p));
  }

  lemma Bound(pids: set<nat>) returns (b: nat)
    ensures forall pid :: pid in pids ==> pid < b
    decreases pids
  {
    if pids == {} {
      b := 0;
    } else {
      var pid :| pid in pids;
      var rest := Bound(pids - {pid});
      b := if pid < rest then rest else pid + 1;
      assert forall other :: other in pids ==> other == pid || other in pids - {pid};
    }
  }

  lemma UnusedPid(w: World) returns (pid: nat)
    ensures !PidLive(w.procs, pid)
  {
    pid := Bound(LivePids(w.procs));
    assert forall p :: p in w.procs ==> w.procs[p].pid in LivePids(w.procs);
  }

  /** A newcomer has read the record past the age limit; it reclaims and holds beside the holder. */
  lemma NewcomerRobs(w: World, o: nat, n: nat)
    requires Holds(w, o) && PastMaxAge(w.file, w.clock)
    requires n in w.procs && n != o && !w.procs[n].held
    requires exists pid: nat :: w.procs[n].phase == HasRead(Some((pid, w.file.value.inode)))
    ensures TwoCanHold(w)
  {
    hide TwoCanHold;
    var judged := Next(w, Judge(n));
    assert judged == Moved(w, n, Reclaiming(w.file.value.inode));
    var unlinked := Next(judged, Unlink(n));
    var created := Next(unlinked, Create(n));
    TwoHoldNow(Next(created, Write(n)), n, o);
    TwoCanStillHold(created, Write(n));
    TwoCanStillHold(unlinked, Create(n));
    TwoCanStillHold(judged, Unlink(n));
    TwoCanStillHold(w, Judge(n));
  }

  lemma LapsedHolderIsExposed(w: World, o: nat)
    requires Holds(w, o) && PastMaxAge(w.file, w.clock) && w.file.value.content.Holder? && w.nextProc !in w.procs
    ensures TwoCanHold(w)
  {
    var n := w.nextProc;
    var pid := UnusedPid(w);
    var born := Next(w, Spawn(pid));
    var read := Next(born, Read(n));
    assert read.procs[n].phase == HasRead(Some((w.file.value.content.pid, w.file.value.inode)));
    NewcomerRobs(read, o, n);
    TwoCanStillHold(born, Read(n));
    TwoCanStillHold(w, Spawn(pid));
  }

  lemma LapseExposes(w: World, step: Step, o: nat)
    requires Inv(w) && step.Tick? && Holds(w, o) && w.file.Some?
    requires w.clock + step.seconds - w.file.value.mtime > MAX_AGE
    ensures TwoCanHold(Next(w, step))
  {
    hide TwoCanHold;
    assert ProcOk(w, o);
    forall p | p in w.procs ensures p < w.nextProc {
      assert ProcOk(w, p);
    }
    LapsedHolderIsExposed(Next(w, step), o);
  }

  /**
   From a sound state a step of any kind opens the way to two holders exactly when it is a tick
   past a live holder's age limit, or a reclaim that unlinks an active owner's file.
   */
  lemma ExposedIffUnsafe(w: World, step: Step)
    requires Inv(w)
    ensures TwoCanHold(Next(w, step)) <==> !Safe(w, step)
  {
    hide TwoCanHold, ProcOk, FileOk, OwnerActive, Next;
    if Safe(w, step) {
      NextKeepsInv(w, step);
      NeverTwo(Next(w, step));
    } else if !ReclaimSparesOwner(w, step) {
      RobbedOwnerHolds(w, step.p);
    } else {
      var o :| Holds(w, o) && w.clock + step.seconds - w.file.value.mtime > MAX_AGE;
      LapseExposes(w, step, o);
    }
  }

  lemma FreshIsOk()
    ensures Inv(FRESH)
  {
  }

  /**
   Over every run: at no point can well-behaved processes go on to become two holders, exactly
   when every step was safe.
   */
  lemma {:induction false} ExclusionIff(steps: seq<Step>)
    ensures AllSafe(FRESH, steps) <==> forall k :: 0 <= k <= |steps| ==> !TwoCanHold(Run(FRESH, steps[..k]))
  {
    hide TwoCanHold, Safe, Inv;
    assert Inv(FRESH) by { FreshIsOk(); }
    if steps == [] {
      NeverTwo(FRESH);
      RunOfNone(FRESH);
      assert forall k :: 0 <= k <= 0 ==> steps[..k] == [];
    } else {
      var front, last := steps[..|steps| - 1], steps[|steps| - 1];
      ExclusionIff(front);
      assert steps[..|steps|] == steps;
      assert forall k :: 0 <= k <= |front| ==> steps[..k] == front[..k];
      if AllSafe(FRESH, front) {
        RunKeepsInv(FRESH, front);
        ExposedIffUnsafe(Run(FRESH, front), last);
      }
    }
  }

  // ------------------------------------------------------------- what happens without the discipline

  lemma RunNext(w: World, steps: seq<Step>, k: nat)
    requires k < |steps|
    ensures Run(w, steps[..0]) == w
    ensures Run(w, steps[..k + 1]) == Next(Run(w, steps[..k]), steps[k])
    ensures Run(w, steps[..|steps|]) == Run(w, steps)
  {
    assert steps[..k + 1][..k] == steps[..k];
    assert steps[..|steps|] == steps;
  }

  /** Process 0 acquires and dies without releasing. */
  const LEFT_BEHIND := [Spawn(70), Read(0), Judge(0), Create(0), Write(0), Die(0)]

  /** Two processes read the dead holder's file; the slower one unlinks the faster one's new file. */
  const TWO_RECLAIMS := [
    Spawn(71), Spawn(72), Read(1), Read(2), Judge(1), Judge(2),
    Unlink(1), Create(1), Write(1), Unlink(2), Create(2), Write(2)]

  const STALE := File(0, 0, Holder(70, 0), 0)

  lemma LeftBehind()
    ensures Run(FRESH, LEFT_BEHIND) == World(Some(STALE), 0, map[], 1, 1)
  {
    hide Run;
    var s, idle := LEFT_BEHIND, Proc(70, 0, Idle, false);
    RunNext(FRESH, s, 0);
    assert Run(FRESH, s[..1]) == World(None, 0, map[0 := idle], 0, 1);
    RunNext(FRESH, s, 1);
    assert Run(FRESH, s[..2]) == World(None, 0, map[0 := idle.(phase := HasRead(None))], 0, 1);
    RunNext(FRESH, s, 2);
    assert Run(FRESH, s[..3]) == World(None, 0, map[0 := idle.(phase := Creating)], 0, 1);
    RunNext(FRESH, s, 3);
    assert Run(FRESH, s[..4]) == World(Some(File(0, 0, Unreadable, 0)), 0, map[0 := idle.(phase := Writing(0))], 1, 1);
    RunNext(FRESH, s, 4);
    assert Run(FRESH, s[..5]) == World(Some(STALE), 0, map[0 := idle.(held := true)], 1, 1);
    RunNext(FRESH, s, 5);
    assert Run(FRESH, s).procs == map[];
  }

  const DEAD_HOLDER := World(Some(STALE), 0, map[], 1, 1)

  lemma BothRead()
    ensures var seen := HasRead(Some((70, 0)));
      Run(DEAD_HOLDER, TWO_RECLAIMS[..4])
      == World(Some(STALE), 0, map[1 := Proc(71, 0, seen, false), 2 := Proc(72, 0, seen, false)], 1, 3)
  {
    hide Run;
    var w, s, seen := DEAD_HOLDER, TWO_RECLAIMS, HasRead(Some((70, 0)));
    var a, b := Proc(71, 0, Idle, false), Proc(72, 0, Idle, false);
    RunNext(w, s, 0);
    assert Run(w, s[..1]) == World(Some(STALE), 0, map[1 := a], 1, 2);
    RunNext(w, s, 1);
    assert Run(w, s[..2]) == World(Some(STALE), 0, map[1 := a, 2 := b], 1, 3);
    RunNext(w, s, 2);
    assert Run(w, s[..3]) == World(Some(STALE), 0, map[1 := a.(phase := seen), 2 := b], 1, 3);
    RunNext(w, s, 3);
  }

  lemma BothJudgedStale()
    ensures Run(DEAD_HOLDER, TWO_RECLAIMS[..6])
         == World(Some(STALE), 0, map[1 := Proc(71, 0, Reclaiming(0), false), 2 := Proc(72, 0, Reclaiming(0), false)], 1, 3)
  {
    hide Run;
    BothRead();
    var w, s := DEAD_HOLDER, TWO_RECLAIMS;
    RunNext(w, s, 4);
    assert Run(w, s[..5]).procs == map[1 := Proc(71, 0, Reclaiming(0), false), 2 := Proc(72, 0, HasRead(Some((70, 0))), false)];
    RunNext(w, s, 5);
  }

  /** Interleaved reclaims break mutual exclusion: two live processes hold at once. */
  lemma InterleavedReclaimsBreakExclusion()
    ensures var w := Run(Run(FRESH, LEFT_BEHIND), TWO_RECLAIMS);
      Holds(w, 1) && Holds(w, 2)
  {
    hide Run;
    LeftBehind();
    BothJudgedStale();
    var w, s := DEAD_HOLDER, TWO_RECLAIMS;
    var a, b := Proc(71, 0, Reclaiming(0), false), Proc(72, 0, Reclaiming(0), false);
    RunNext(w, s, 6);
    assert Run(w, s[..7]) == World(None, 0, map[1 := a.(phase := Creating), 2 := b], 1, 3);
    RunNext(w, s, 7);
    assert Run(w, s[..8]).procs == map[1 := a.(phase := Writing(1)), 2 := b];
    RunNext(w, s, 8);
    assert Run(w, s[..9]).procs == map[1 := a.(phase := Idle, held := true), 2 := b];
    RunNext(w, s, 9);
    assert Run(w, s[..10]) == World(None, 0, map[1 := a.(phase := Idle, held := true), 2 := b.(phase := Creating)], 2, 3);
    RunNext(w, s, 10);
    assert Run(w, s[..11]).procs == map[1 := a.(phase := Idle, held := true), 2 := b.(phase := Writing(2))];
    RunNext(w, s, 11);
  }

  /** A holder that lets the age limit pass without refreshing. */
  const LAPSES := [
    Spawn(70), Read(0), Judge(0), Create(0), Write(0), Tick(43201), Spawn(71), Read(1), Judge(1), Unlink(1), Create(1),
    Write(1)]

  lemma HolderLapses()
    ensures Run(FRESH, LAPSES[..8])
         == World(Some(STALE), 43201, map[0 := Proc(70, 0, Idle, true),
                                          1 := Proc(71, 43201, HasRead(Some((70, 0))), false)], 1, 2)
  {
    hide Run;
    var s, idle, young := LAPSES, Proc(70, 0, Idle, false), Proc(71, 43201, Idle, false);
    RunNext(FRESH, s, 0);
    assert Run(FRESH, s[..1]) == World(None, 0, map[0 := idle], 0, 1);
    RunNext(FRESH, s, 1);
    assert Run(FRESH, s[..2]) == World(None, 0, map[0 := idle.(phase := HasRead(None))], 0, 1);
    RunNext(FRESH, s, 2);
    assert Run(FRESH, s[..3]) == World(None, 0, map[0 := idle.(phase := Creating)], 0, 1);
    RunNext(FRESH, s, 3);
    assert Run(FRESH, s[..4]) == World(Some(File(0, 0, Unreadable, 0)), 0, map[0 := idle.(phase := Writing(0))], 1, 1);
    RunNext(FRESH, s, 4);
    assert Run(FRESH, s[..5]) == World(Some(STALE), 0, map[0 := idle.(held := true)], 1, 1);
    RunNext(FRESH, s, 5);
    RunNext(FRESH, s, 6);
    assert Run(FRESH, s[..7]) == World(Some(STALE), 43201, map[0 := idle.(held := true), 1 := young], 1, 2);
    RunNext(FRESH, s, 7);
  }

  /** Without refreshing in time a live holder is robbed: two live processes hold at once. */
  lemma LapsedHolderIsRobbed()
    ensures var w := Run(FRESH, LAPSES); Holds(w, 0) && Holds(w, 1)
  {
    hide Run;
    HolderLapses();
    var s, a, b := LAPSES, Proc(70, 0, Idle, true), Proc(71, 43201, Idle, false);
    RunNext(FRESH, s, 8);
    assert Run(FRESH, s[..9]) == World(Some(STALE), 43201, map[0 := a, 1 := b.(phase := Reclaiming(0))], 1, 2);
    RunNext(FRESH, s, 9);
    assert Run(FRESH, s[..10]) == World(None, 43201, map[0 := a, 1 := b.(phase := Creating)], 1, 2);
    RunNext(FRESH, s, 10);
    assert Run(FRESH, s[..11]).procs == map[0 := a, 1 := b.(phase := Writing(1))];
    RunNext(FRESH, s, 11);
  }

  // ------------------------------------------------------------------- the file left half-written

  /** The creator died between the exclusive create and the write. */
  predicate Wedged(w: World) {
    && w.file.Some? && w.file.value.content.Unreadable? && w.file.value.owner !in w.procs
  }

  lemma NobodyHoldsWedged(w: World)
    requires Inv(w) && Wedged(w)
    ensures forall p :: !Holds(w, p)
  {
    forall p | p in w.procs ensures !w.procs[p].held {
      assert ProcOk(w, p);
    }
  }

  /** Somebody has read a holder record and has not judged or unlinked yet. */
  predicate ReclaimUnderWay(w: World) {
    exists p :: p in w.procs && (w.procs[p].phase.Reclaiming?
                                 || (w.procs[p].phase.HasRead? && w.procs[p].phase.existing.Some?))
  }

  lemma WedgedStep(w: World, step: Step)
    requires Inv(w) && Wedged(w) && !ReclaimUnderWay(w)
    ensures Safe(w, step)
    ensures Wedged(Next(w, step)) && Next(w, step).file == w.file && !ReclaimUnderWay(Next(w, step))
  {
    NobodyHoldsWedged(w);
    match step
    case Write(p) =>
      if p in w.procs {
        assert ProcOk(w, p);
      }
    case WriteFails(p) =>
      if p in w.procs {
        assert ProcOk(w, p);
      }
    case Refresh(p) => assert !Holds(w, p);
    case ReleaseDone(p) =>
      if p in w.procs {
        assert ProcOk(w, p) && !Holds(w, p);
      }
    case _ =>
  }

  /** A wedged lock refuses every acquire for good: the file is never unlinked and nobody holds. */
  lemma {:induction false} WedgedForever(w: World, steps: seq<Step>)
    requires Inv(w) && Wedged(w) && !ReclaimUnderWay(w)
    ensures var after := Run(w, steps);
      && Inv(after) && Wedged(after) && !ReclaimUnderWay(after)
      && after.file == w.file && forall p :: !Holds(after, p)
  {
    hide Inv, Wedged, ReclaimUnderWay, Safe;
    if steps == [] {
      NobodyHoldsWedged(w);
    } else {
      var before := Run(w, steps[..|steps| - 1]);
      WedgedForever(w, steps[..|steps| - 1]);
      WedgedStep(before, steps[|steps| - 1]);
      NextKeepsInv(before, steps[|steps| - 1]);
      NobodyHoldsWedged(Next(before, steps[|steps| - 1]));
    }
  }

  lemma RunOfOne(w: World, step: Step)
    ensures Run(w, [step]) == Next(w, step)
  {
    assert [step][..0] == [];
  }

  lemma RunOfThree(w: World, a: Step, b: Step, c: Step)
    ensures Run(w, [a, b, c]) == Next(Next(Next(w, a), b), c)
  {
    RunNext(w, [a, b, c], 0);
    RunNext(w, [a, b, c], 1);
    RunNext(w, [a, b, c], 2);
  }

  /** What can still lift a wedge is a process that read an earlier record: it unlinks the wrong file. */
  lemma WedgeLiftsIff(w: World)
    requires Inv(w) && Wedged(w)
    ensures (exists steps :: Run(w, steps).file != w.file) <==> ReclaimUnderWay(w)
  {
    hide Run, Inv;
    if !ReclaimUnderWay(w) {
      forall steps ensures Run(w, steps).file == w.file {
        WedgedForever(w, steps);
      }
    } else {
      var p :| p in w.procs && (w.procs[p].phase.Reclaiming?
                                || (w.procs[p].phase.HasRead? && w.procs[p].phase.existing.Some?));
      var age := w.clock - w.file.value.mtime;
      var d: nat := if age > MAX_AGE then 0 else MAX_AGE + 1 - age;
      if w.procs[p].phase.Reclaiming? {
        RunOfOne(w, Unlink(p));
        assert Run(w, [Unlink(p)]).file == None;
      } else {
        RunOfThree(w, Tick(d), Judge(p), Unlink(p));
        assert Run(w, [Tick(d), Judge(p), Unlink(p)]).file == None;
      }
    }
  }

  /** Five ordinary steps reach a wedged lock. */
  const DIES_BEFORE_WRITE := [Spawn(70), Read(0), Judge(0), Create(0), Die(0)]

  lemma RunToCreated()
    ensures var s := DIES_BEFORE_WRITE;
      && Run(FRESH, s[..4]).file == Some(File(0, 0, Unreadable, 0)) && Run(FRESH, s[..4]).procs.Keys == {0}
      && Run(FRESH, s) == Next(Run(FRESH, s[..4]), Die(0))
  {
    hide Run;
    var s, idle := DIES_BEFORE_WRITE, Proc(70, 0, Idle, false);
    RunNext(FRESH, s, 0);
    assert Run(FRESH, s[..1]) == World(None, 0, map[0 := idle], 0, 1);
    RunNext(FRESH, s, 1);
    assert Run(FRESH, s[..2]) == World(None, 0, map[0 := idle.(phase := HasRead(None))], 0, 1);
    RunNext(FRESH, s, 2);
    assert Run(FRESH, s[..3]) == World(None, 0, map[0 := idle.(phase := Creating)], 0, 1);
    RunNext(FRESH, s, 3);
    RunNext(FRESH, s, 4);
  }

  lemma CrashBeforeWriteWedges()
    ensures var w := Run(FRESH, DIES_BEFORE_WRITE); Wedged(w) && !ReclaimUnderWay(w)
  {
    RunToCreated();
  }

  // ---------------------------------------------------------------------- an undisturbed acquire

  /** One acquire with nobody else moving; steps that do not apply change nothing. */
  function Attempt(w: World, p: nat): World {
    Next(Next(Next(Next(Next(w, Read(p)), Judge(p)), Unlink(p)), Create(p)), Write(p))
  }

  /** No file, or one whose holder is provably gone or silent past the age limit. */
  predicate Free(file: Option<File>, clock: int, pids: set<nat>) {
    file.None? || (file.value.content.Holder? && (file.value.content.pid !in pids || PastMaxAge(file, clock)))
  }

  /** Undisturbed, an acquire succeeds exactly when the lock is free, and otherwise changes no file. */
  lemma QuietAcquire(w: World, p: nat)
    requires Inv(w) && At(w, p, Idle) && !w.procs[p].held
    ensures Holds(Attempt(w, p), p) <==> Free(w.file, w.clock, LivePids(w.procs))
    ensures Holds(Attempt(w, p), p) ==>
              Attempt(w, p).file == Some(File(w.nextInode, p, Holder(w.procs[p].pid, w.clock), w.clock))
    ensures !Holds(Attempt(w, p), p) ==> Attempt(w, p).file == w.file
  {
    var r := Next(w, Read(p));
    assert r.procs[p].phase == HasRead(HolderIn(w.file));
    if HolderIn(w.file).Some? {
      var pid := w.file.value.content.pid;
      assert PidLive(r.procs, pid) <==> pid in LivePids(w.procs) by {
        if q :| q in r.procs && r.procs[q].pid == pid {
          assert q in w.procs && w.procs[q].pid == pid;
        }
        if q :| q in w.procs && w.procs[q].pid == pid {
          assert q in r.procs && r.procs[q].pid == pid;
        }
      }
    }
  }

  /**
   What undisturbed means for the next acquire, in numbers: it succeeds without a file, or over a
   written record whose pid is not running or whose file is untouched for more than twelve hours.
   */
  lemma QuietAcquireIff(w: World, p: nat)
    requires Inv(w) && At(w, p, Idle) && !w.procs[p].held
    ensures Holds(Attempt(w, p), p)
       <==> match w.file
            case None => true
            case Some(f) =>
              f.content.Holder?
              && ((forall q :: q in w.procs ==> w.procs[q].pid != f.content.pid) || w.clock - f.mtime > 43_200)
  {
    hide Attempt, Inv;
    QuietAcquire(w, p);
  }

  /** A refresh touches nothing but the file's time, and no holder lapses in the twelve hours after it. */
  lemma RefreshBuysTwelveHours(w: World, p: nat, seconds: nat)
    requires Inv(w) && Holds(w, p) && seconds <= 43_200
    ensures w.file.Some? && Next(w, Refresh(p)) == w.(file := Some(w.file.value.(mtime := w.clock)))
    ensures HoldersRefresh(Next(w, Refresh(p)), Tick(seconds))
  {
    assert ProcOk(w, p);
  }

  /** Undisturbed, a release unlinks its own file if it can read it, and lets go either way. */
  lemma QuietRelease(w: World, p: nat, readable: bool)
    requires Inv(w) && At(w, p, Idle) && Holds(w, p)
    ensures var after := Next(Next(w, ReleaseRead(p, readable)), ReleaseDone(p));
      && after.file == (if readable then None else w.file)
      && after == w.(file := after.file, procs := w.procs[p := w.procs[p].(held := false)])
  {
    assert ProcOk(w, p);
    var mine := readable && w.file.Some? && NamesPid(w.file.value.content, w.procs[p].pid);
    var reading := Next(w, ReleaseRead(p, readable));
    assert reading.procs[p := w.procs[p].(held := false)] == w.procs[p := w.procs[p].(held := false)];
  }

  /**
   A dead creator blocks for good if and only if it never wrote its record: a written record is
   reclaimed at the latest once it is past the age limit, an unwritten one never.
   */
  lemma SelfHealsIffWritten(w: World, p: nat)
    requires Inv(w) && At(w, p, Idle) && !w.procs[p].held
    requires w.file.Some? && w.file.value.owner !in w.procs
    ensures (exists d: nat :: Holds(Attempt(Next(w, Tick(d)), p), p)) <==> w.file.value.content.Holder?
  {
    forall q | q in w.procs ensures !w.procs[q].held {
      assert ProcOk(w, q);
    }
    forall d: nat
      ensures Holds(Attempt(Next(w, Tick(d)), p), p)
         <==> Free(w.file, w.clock + d, LivePids(w.procs))
    {
      assert HoldersRefresh(w, Tick(d));
      OutsideKeepsInv(w, Tick(d));
      QuietAcquire(Next(w, Tick(d)), p);
    }
    var age := w.clock - w.file.value.mtime;
    var d: nat := if age > MAX_AGE then 0 else MAX_AGE + 1 - age;
    assert PastMaxAge(w.file, w.clock + d);
    assert Holds(Attempt(Next(w, Tick(d)), p), p) <==> w.file.value.content.Holder?;
  }

  // ------------------------------------------------------------------------ identity of a holder

  /** Process p has the recorded pid, and started at most the grace period after the record. */
  predicate Passes(w: World, f: File, p: nat)
    requires f.content.Holder?
  {
    p in w.procs && w.procs[p].pid == f.content.pid && w.procs[p].start <= f.content.startedAt + PID_REUSE_GRACE
  }

  /**
   Observers' liveness test: the pid exists and did not start after the record was written; bare
   existence counts where the platform cannot report start times.
   */
  predicate HolderIsLive(w: World, f: File, startsKnown: bool) {
    && f.content.Holder?
    && if startsKnown then exists p :: p in w.procs && Passes(w, f, p) else PidLive(w.procs, f.content.pid)
  }

  /** Process q got the pid at most the grace period after the record was written. */
  predicate RecycledWithinGrace(w: World, f: File, q: nat)
    requires f.content.Holder?
  {
    && q in w.procs && w.procs[q].pid == f.content.pid
    && f.content.startedAt <= w.procs[q].start <= f.content.startedAt + PID_REUSE_GRACE
  }

  /**
   A live creator always passes.  For a dead one the test is wrong exactly when its pid was
   recycled within the grace period; without start times, when it was recycled at all.
   */
  lemma LivenessIsIdentity(w: World, startsKnown: bool)
    requires Inv(w) && w.file.Some? && w.file.value.content.Holder?
    ensures var f := w.file.value;
      && (f.owner in w.procs ==> HolderIsLive(w, f, startsKnown))
      && (f.owner !in w.procs && startsKnown ==>
            (HolderIsLive(w, f, startsKnown) <==> exists q :: RecycledWithinGrace(w, f, q)))
      && (f.owner !in w.procs && !startsKnown ==>
            (HolderIsLive(w, f, startsKnown)
             <==> exists q :: q in w.procs && w.procs[q].pid == f.content.pid && w.procs[q].start >= f.content.startedAt))
  {
    var f := w.file.value;
    if f.owner in w.procs {
      assert Passes(w, f, f.owner);
    } else if startsKnown {
      if p :| Passes(w, f, p) {
        assert RecycledWithinGrace(w, f, p);
      }
      if q :| RecycledWithinGrace(w, f, q) {
        assert Passes(w, f, q);
      }
    }
  }

  lemma DeadStaysDeadStep(w: World, step: Step)
    requires Inv(w) && Safe(w, step) && w.file.Some? && w.file.value.content.Holder? && w.file.value.owner !in w.procs
    requires w.clock > w.file.value.content.startedAt + PID_REUSE_GRACE
    requires !HolderIsLive(w, w.file.value, true)
    requires Next(w, step).file.Some? && Next(w, step).file.value.inode == w.file.value.inode
    ensures var after := Next(w, step);
      && after.file.value.content == w.file.value.content && after.file.value.owner == w.file.value.owner
      && after.file.value.owner !in after.procs && after.clock >= w.clock
      && !HolderIsLive(after, after.file.value, true)
  {
    var after, f := Next(w, step), w.file.value;
    if step.Write? && step.p in w.procs {
      assert ProcOk(w, step.p);
    }
    forall p | p in after.procs ensures !Passes(after, f, p) {
      assert p in w.procs ==> !Passes(w, f, p);
    }
  }

  lemma InodeIsUsed(w: World)
    requires Inv(w) && w.file.Some?
    ensures w.file.value.inode < w.nextInode
  {
  }

  /**
   Once a record is older than the grace period and its dead creator is not taken for alive, it
   never is again, whatever pids the system hands out: start times tell.
   */
  lemma {:induction false} DeadStaysDead(w: World, steps: seq<Step>)
    requires Inv(w) && AllSafe(w, steps) && w.file.Some? && w.file.value.owner !in w.procs
    requires w.file.value.content.Holder? && w.clock > w.file.value.content.startedAt + PID_REUSE_GRACE
    requires !HolderIsLive(w, w.file.value, true)
    ensures Run(w, steps).nextInode > w.file.value.inode
    ensures var after := Run(w, steps);
      after.file.Some? && after.file.value.inode == w.file.value.inode ==>
        && after.file.value.content == w.file.value.content && after.file.value.owner == w.file.value.owner
        && after.file.value.owner !in after.procs && after.clock >= w.clock
        && !HolderIsLive(after, after.file.value, true)
  {
    hide HolderIsLive, Safe, Inv;
    if steps == [] {
      InodeIsUsed(w);
    } else {
      var before, step := Run(w, steps[..|steps| - 1]), steps[|steps| - 1];
      DeadStaysDead(w, steps[..|steps| - 1]);
      RunKeepsInv(w, steps[..|steps| - 1]);
      if Next(before, step).file.Some? && Next(before, step).file.value.inode == w.file.value.inode {
        DeadStaysDeadStep(before, step);
      }
    }
  }

  // -------------------------------------------------------------------------------- the object

  /** The lock file's directory, as every process sees it. */
  class LockDirectory {
    var file: Option<File>
    var nextInode: nat
    var clock: int

    constructor ()
      ensures file == None
    {
      file, nextInode, clock := None, 0, 0;
    }

    /** Exclusive create: fails on any existing file, readable or not. */
    method OpenExclusive(owner: nat) returns (inode: Option<nat>)
      modifies this`file, this`nextInode
      ensures inode.None? <==> old(file).Some?
      ensures inode.None? ==> file == old(file) && nextInode == old(nextInode)
      ensures inode.Some? ==>
        && inode.value == old(nextInode) && nextInode == old(nextInode) + 1
        && file == Some(File(inode.value, owner, Unreadable, clock))
    {
      if file.Some? {
        return None;
      }
      inode := Some(nextInode);
      file, nextInode := Some(File(nextInode, owner, Unreadable, clock)), nextInode + 1;
    }
  }

  datatype AcquireResult = Acquired(holder: Content) | HeldBy(pid: nat) | LostRace | TimedOut

  /** What other processes left behind before one attempt: the file, the time, the live pids. */
  datatype Surroundings = Surroundings(file: Option<File>, clock: int, pids: set<nat>)

  class Lock {
    const me: nat
    const pid: nat
    const dir: LockDirectory
    var held: bool

    constructor (me: nat, pid: nat, dir: LockDirectory)
      ensures this.me == me && this.pid == pid && this.dir == dir && !held
    {
      this.me, this.pid, this.dir, held := me, pid, dir, false;
    }

    /** Refuse a live, fresh holder; unlink a dead or silent one; then create and write. */
    method Acquire(pids: set<nat>) returns (r: AcquireResult)
      modifies this`held, dir`file, dir`nextInode
      ensures r.Acquired? <==> Free(old(dir.file), dir.clock, pids)
      ensures r.HeldBy? <==>
        && old(dir.file).Some? && old(dir.file).value.content.Holder?
        && old(dir.file).value.content.pid in pids && dir.clock - old(dir.file).value.mtime <= 43_200
      ensures r.HeldBy? ==> r.pid == old(dir.file).value.content.pid
      ensures r.LostRace? <==> old(dir.file).Some? && old(dir.file).value.content.Unreadable?
      ensures r.Acquired? ==>
                held && r.holder == Holder(pid, dir.clock)
                && dir.file == Some(File(old(dir.nextInode), me, r.holder, dir.clock))
      ensures !r.Acquired? ==> held == old(held) && dir.file == old(dir.file) && !r.TimedOut?
    {
      var existing := HolderIn(dir.file);
      if existing.Some? {
        if existing.value.0 in pids && !PastMaxAge(dir.file, dir.clock) {
          return HeldBy(existing.value.0);
        }
        dir.file := None;
      }
      var inode := dir.OpenExclusive(me);
      if inode.None? {
        return LostRace;
      }
      var record := Holder(pid, dir.clock);
      dir.file := Some(dir.file.value.(content := record, mtime := dir.clock));
      held := true;
      r := Acquired(record);
    }

    /**
     Poll until acquired or out of time; `others` says what the other processes have made of the
     directory before each attempt.  Returns holding the lock or declined, never in between.
     */
    method AcquireBlocking(timeout: nat, poll: nat, others: nat -> Surroundings)
      returns (r: AcquireResult, attempts: nat, waited: nat)
      requires poll > 0
      modifies this`held, dir
      ensures r.Acquired? || r.TimedOut?
      ensures r.Acquired? ==> held && dir.file.Some? && dir.file.value.owner == me && dir.file.value.content == r.holder
      ensures waited == attempts * poll && (attempts > 0 ==> waited - poll < timeout)
      ensures r.TimedOut? ==> held == old(held) && waited >= timeout
      ensures forall k :: 0 <= k < attempts ==> !Free(others(k).file, others(k).clock, others(k).pids)
      ensures r.Acquired? <==> Free(others(attempts).file, others(attempts).clock, others(attempts).pids)
    {
      attempts, waited := 0, 0;
      while true
        invariant waited == attempts * poll && held == old(held) && (attempts > 0 ==> waited - poll < timeout)
        invariant forall k :: 0 <= k < attempts ==> !Free(others(k).file, others(k).clock, others(k).pids)
        decreases timeout + poll - waited
      {
        var now := others(attempts);
        dir.file, dir.clock := now.file, now.clock;
        r := Acquire(now.pids);
        if r.Acquired? {
          return;
        }
        if waited >= timeout {
          r := TimedOut;
          return;
        }
        attempts, waited := attempts + 1, waited + poll;
      }
    }

    /** Heartbeat: a held lock's file is touched; without a file or the lock, nothing happens. */
    method Refresh()
      modifies dir`file
      ensures dir.file == if old(held && dir.file.Some?) then Some(old(dir.file).value.(mtime := dir.clock)) else old(dir.file)
    {
      if held && dir.file.Some? {
        dir.file := Some(dir.file.value.(mtime := dir.clock));
      }
    }

    /** Unlink only a file that names this process, then stop holding. */
    method Release()
      modifies this`held, dir`file
      ensures !held
      ensures dir.file == if old(held && dir.file.Some? && NamesPid(dir.file.value.content, pid)) then None else old(dir.file)
    {
      if held {
        if dir.file.Some? && NamesPid(dir.file.value.content, pid) {
          dir.file := None;
        }
        held := false;
      }
    }

    method CurrentHolder() returns (holder: Option<nat>)
      ensures holder.Some? <==> dir.file.Some? && dir.file.value.content.Holder?
      ensures holder.Some? ==> holder.value == dir.file.value.content.pid
    {
      var existing := HolderIn(dir.file);
      holder := if existing.Some? then Some(existing.value.0) else None;
    }
  }
}
