/** Auto-assignment never gives two disks the same swift-id, whether or not all of them can be read. */
module Distinctness {
  import opened Names
  import opened Tables
  import opened Kernels
  import opened KernelFacts
  import opened Machine
  import opened MountCache
  import opened Devices
  import DeviceFacts
  import opened Drives
  import opened Commands
  import opened Convergers
  import opened DriveFacts
  import opened Fleets
  import opened Exclusivity
  import opened Safety
  import opened Runs
  import opened AssignSteps
  import opened Assignments
  import Repetition

  /** The disk carries this id, and it is one that only one disk may have. */
  ghost predicate Carries(k: Kernel, n: string, id: string) {
    Branded(k, n, id) && id != "" && id != "spare"
  }

  /** Two managed disks that carry the same id afterwards both carried it before. */
  ghost predicate NoNewTwins(k: Kernel, k': Kernel, drives: seq<Drive>) {
    forall d, e, id :: (d in drives && e in drives && DiskOf(d) != DiskOf(e)
                        && Carries(k', DiskOf(d), id) && Carries(k', DiskOf(e), id)) ==>
      Carries(k, DiskOf(d), id) && Carries(k, DiskOf(e), id)
  }

  /** No disk has gained an id. */
  ghost predicate NoNewIds(k: Kernel, k': Kernel) {
    forall n, id :: Carries(k', n, id) ==> Carries(k, n, id)
  }

  lemma EffectNoIds(k: Kernel, e: Entry, at: Loc, id: string)
    requires Legal(k, e) && !e.cmd.WriteId? && HoldsId(After(k, e), at, id) && id != ""
    ensures HoldsId(k, at, id)
  {
    hide WithContent;
    if e.ok && e.cmd.Mkfs? {
      WrittenNoIds(k, e.cmd.dev, Xfs(""), at, id);
    } else if e.ok && e.cmd.LuksFormat? {
      WrittenNoIds(k, e.cmd.dev, Luks(e.cmd.key, Blank), at, id);
    }
  }

  /** Formatting a blank device creates no id. */
  lemma WrittenNoIds(k: Kernel, dev: DevPath, x: Content, at: Loc, id: string)
    requires ContentAt(k, dev) == Some(Blank) && (x == Xfs("") || (x.Luks? && x.inner.Blank?)) && id != ""
    requires HoldsId(WithContent(k, dev, x), at, id)
    ensures HoldsId(k, at, id)
  {
    var loc := LocOf(k, dev).value;
    if at.disk == loc.disk {
      GraftNoIds(k.disks[loc.disk], loc.depth, x, at.depth, id);
    }
  }

  lemma {:induction false} GraftNoIds(c: Content, depth: nat, x: Content, i: nat, id: string)
    requires Peel(c, depth) == Some(Blank) && (x == Xfs("") || (x.Luks? && x.inner.Blank?)) && id != ""
    requires Peel(Graft(c, depth, x), i) == Some(Xfs(id))
    ensures Peel(c, i) == Some(Xfs(id))
    decreases depth
  {
    if depth > 0 && i > 0 {
      GraftNoIds(c.inner, depth - 1, x, i - 1, id);
    } else if depth == 0 && x.Luks? && i > 0 {
      BlankHoldsNothing(i - 1, id);
    }
  }

  lemma BlankHoldsNothing(i: nat, id: string)
    ensures Peel(Blank, i) != Some(Xfs(id))
  {
  }

  lemma {:induction false} TraceNoIds(k: Kernel, es: seq<Entry>, k': Kernel, at: Loc, id: string)
    requires Trace(k, es, k') && HoldsId(k', at, id) && id != "" && forall e :: e in es ==> !e.cmd.WriteId?
    ensures HoldsId(k, at, id)
    decreases |es|
  {
    hide After, Legal, HoldsId;
    if es != [] {
      assert es[0] in es;
      assert forall e :: e in es[1..] ==> e in es;
      TraceNoIds(After(k, es[0]), es[1..], k', at, id);
      EffectNoIds(k, es[0], at, id);
    }
  }

  lemma RanNoIds(os: Os, os': Os)
    requires Ran(os, os', Unassigning)
    ensures NoNewIds(os.k, os'.k)
  {
    hide HoldsId, Trace;
    forall n, id | Carries(os'.k, n, id) ensures Carries(os.k, n, id) {
      var depth: nat :| HoldsId(os'.k, Loc(n, depth), id);
      TraceNoIds(os.k, Since(os, os'), os'.k, Loc(n, depth), id);
    }
  }

  lemma NoIdsNoTwins(k: Kernel, k': Kernel, drives: seq<Drive>)
    requires NoNewIds(k, k')
    ensures NoNewTwins(k, k', drives)
  {
    hide Branded;
  }

  // ---- allocation ----

  lemma GrantNoTwins(k: Kernel, k': Kernel, leaf: DevPath, drives: seq<Drive>, i: nat, poolId: string, taken: set<string>)
    requires i < |drives| && Written(k, k', leaf, OnDisk(poolId)) && On(k, leaf, DiskOf(drives[i]))
    requires AllTaken(k, drives, taken) && poolId !in taken
    ensures NoNewTwins(k, k', drives)
  {
    var disk := DiskOf(drives[i]);
    WrittenBrands(k, k', leaf, disk, OnDisk(poolId));
    hide Written, Branded, IsSpareName;
    forall d, e, id | d in drives && e in drives && DiskOf(d) != DiskOf(e) && Carries(k', DiskOf(d), id) && Carries(k', DiskOf(e), id)
      ensures Carries(k, DiskOf(d), id) && Carries(k, DiskOf(e), id)
    {
      if DiskOf(d) != disk {
        BrandElsewhere(k, k', disk, DiskOf(d), id);
      }
      if DiskOf(e) != disk {
        BrandElsewhere(k, k', disk, DiskOf(e), id);
      }
    }
  }

  lemma AllocateOneNoTwins(os: Os, drives: seq<Drive>, taken: set<string>, i: nat, pool: seq<string>)
    requires Allocating(os, drives, taken) && i < |drives|
    ensures NoNewTwins(os.k, AllocateOne(os, drives[i], pool, taken).1.k, drives)
  {
    var d := drives[i];
    var poolId := FirstUnused(pool, taken);
    FirstUnusedFree(pool, taken);
    if Eligible(d) && poolId != "" {
      assert d in drives && Waiting(os, d);
      var path := DriveMountedPath(d).value;
      PendingMountPath(d);
      RunWriteShape(os, d, path, OnDisk(poolId));
      hide Run, FirstUnused, MountPath, Written, OnDisk, Global, Members, Expected, AllTaken, NoNewTwins;
      var (os', ok) := Run(os, WriteId(path, OnDisk(poolId)));
      if ok {
        GrantNoTwins(os.k, os'.k, DeviceFacts.Leaf(d.device.value).value, drives, i, poolId, taken);
      } else {
        SameNoTwins(os.k, os'.k, drives);
      }
    } else {
      SameNoTwins(os.k, os.k, drives);
    }
  }

  lemma SameNoTwins(k: Kernel, k': Kernel, drives: seq<Drive>)
    requires k' == k
    ensures NoNewTwins(k, k', drives)
  {
  }

  lemma TwinsTransitive(a: Kernel, b: Kernel, c: Kernel, drives: seq<Drive>)
    requires NoNewTwins(a, b, drives) && NoNewTwins(b, c, drives)
    ensures NoNewTwins(a, c, drives)
  {
    hide Carries;
  }

  /** Only the disks of the drives matter. */
  lemma TwinsByPath(k: Kernel, k': Kernel, ds: seq<Drive>, es: seq<Drive>)
    requires |ds| == |es| && (forall i :: 0 <= i < |ds| ==> ds[i].path == es[i].path) && NoNewTwins(k, k', ds)
    ensures NoNewTwins(k, k', es)
  {
    hide Carries;
    forall d, e, id | d in es && e in es && DiskOf(d) != DiskOf(e) && Carries(k', DiskOf(d), id) && Carries(k', DiskOf(e), id)
      ensures Carries(k, DiskOf(d), id) && Carries(k, DiskOf(e), id)
    {
      var i :| 0 <= i < |es| && es[i] == d;
      var j :| 0 <= j < |es| && es[j] == e;
      assert ds[i] in ds && ds[j] in ds && DiskOf(ds[i]) == DiskOf(d) && DiskOf(ds[j]) == DiskOf(e);
    }
  }

  lemma AllocateOnePath(os: Os, d: Drive, pool: seq<string>, taken: set<string>)
    ensures AllocateOne(os, d, pool, taken).0.path == d.path
  {
    hide FirstUnused, Run;
  }

  lemma {:induction false} AllocateNoTwins(os: Os, drives: seq<Drive>, i: nat, pool: seq<string>, taken: set<string>)
    requires Allocating(os, drives, taken) && i <= |drives|
    ensures NoNewTwins(os.k, Allocate(os, drives[i..], pool, taken).1.k, drives)
    decreases |drives| - i
  {
    hide AllocateOne, Allocating, NoNewTwins;
    if i == |drives| {
      assert drives[i..] == [];
      SameNoTwins(os.k, os.k, drives);
    } else {
      AllocateAt(os, drives, taken, i, pool);
      AllocateOneNoTwins(os, drives, taken, i, pool);
      AllocateOnePath(os, drives[i], pool, taken);
      var (d, os1, taken1) := AllocateOne(os, drives[i], pool, taken);
      var ds := drives[i := d];
      AllocateNoTwins(os1, ds, i + 1, pool, taken1);
      assert drives[i..][0] == drives[i] && drives[i..][1..] == ds[i + 1..];
      var os2 := Allocate(os1, ds[i + 1..], pool, taken1).1;
      assert Allocate(os, drives[i..], pool, taken).1 == os2;
      TwinsByPath(os1.k, os2.k, ds, drives);
      TwinsTransitive(os.k, os1.k, os2.k, drives);
    }
  }

  lemma RoundNoTwins(os: Os, drives: seq<Drive>, pool: seq<string>)
    requires Fleet(os, drives, []) && forall d :: d in drives ==> Done(os, d)
    ensures NoNewTwins(os.k, UpdateAssignments(os, drives, pool).1.k, drives)
  {
    ReadAllOk(os, drives);
    hide ReadAll, Judged, Allocate, Global, Members, Member, Done, Expected, Taken, ReadingOk, AnyMisplaced, NoNewTwins;
    var (readings, os1) := ReadAll(os, drives);
    LogGlobal(os, os1);
    LogFleet(os, os1, drives);
    var judged := Judged(readings, drives, pool);
    if AnyBroken(drives) || AnyMisplaced(readings, drives) || pool == [] {
      SameNoTwins(os.k, os1.k, drives);
    } else {
      JudgedWaiting(os1, drives, readings, pool);
      ReadTaken(os1.k, drives, readings);
      JudgedTaken(os1.k, drives, readings, pool, Taken(readings));
      JudgedMembers(os1, drives, readings, pool);
      hide Waiting, AllTaken;
      assert Allocating(os1, judged, Taken(readings)) by { LogFleet(os, os1, drives); }
      AllocateNoTwins(os1, judged, 0, pool, Taken(readings));
      assert judged[0..] == judged;
      TwinsByPath(os1.k, Allocate(os1, judged, pool, Taken(readings)).1.k, judged, drives) by { JudgedPaths(readings, drives, pool); }
    }
  }

  lemma JudgedPaths(readings: seq<Reading>, drives: seq<Drive>, pool: seq<string>)
    requires |readings| == |drives|
    ensures forall i :: 0 <= i < |drives| ==> Judged(readings, drives, pool)[i].path == drives[i].path
  {
    hide Verdict;
  }

  /** No step of the converger, whatever fails, gives two managed disks an id that they did not both carry
    before: not when some disks cannot be read, and not when writes fail. */
  lemma StepNoTwins(cfg: Config, run: seq<State>, i: nat)
    requires IsRun(Tame, cfg, run) && Init(run[0]) && 0 < i < |run| && !run[i - 1].phase.Idle?
    ensures NoNewTwins(run[i - 1].os.k, run[i].os.k, run[i].drives)
  {
    hide IsRun, Init, Step, Inv, NoNewTwins, Tame;
    var s, t := run[i - 1], run[i];
    RunNext(cfg, run, i);
    RunInvariant(cfg, run, i - 1);
    if s.phase.Assigning? {
      AssigningNoTwins(s, cfg);
    } else {
      StepUnassigning(s, cfg);
      RanNoIds(s.os, t.os);
      NoIdsNoTwins(s.os.k, t.os.k, t.drives);
    }
  }

  lemma AssigningNoTwins(s: State, cfg: Config)
    requires s.phase.Assigning? && Inv(s) && Step(s, cfg).Some?
    ensures NoNewTwins(s.os.k, Step(s, cfg).value.os.k, Step(s, cfg).value.drives)
  {
    AllDone(s.os, s.drives);
    RoundNoTwins(s.os, s.drives, cfg.pool);
    AssigningIs(s, cfg);
    Repetition.UpdateCaches(s.os, s.drives, cfg.pool);
    hide Step, UpdateAssignments, Fleet, Done, Homed, NoNewTwins;
    TwinsByPath(s.os.k, UpdateAssignments(s.os, s.drives, cfg.pool).1.k, s.drives, UpdateAssignments(s.os, s.drives, cfg.pool).0);
  }

  lemma StepUnassigning(s: State, cfg: Config)
    requires !s.phase.Assigning? && Step(s, cfg).Some?
    ensures Ran(s.os, Step(s, cfg).value.os, Unassigning)
  {
    hide Handle, ConvergeDrive, Ran;
    RanNothing(s.os, s.os, Unassigning);
    match s.phase
    case Handling(events) =>
      if events != [] {
        HandleRan(s.os, s.drives, events[0], cfg);
      }
    case First(i) =>
      if i < |s.drives| {
        ConvergeUnassigning(s.os, s.drives[i]);
      }
    case Second(i) =>
      if i < |s.drives| && !s.drives[i].broken {
        ConvergeUnassigning(s.os, s.drives[i]);
      }
    case Idle =>
  }

  lemma ConvergeUnassigning(os: Os, d: Drive)
    requires d.device.Some?
    ensures Ran(os, ConvergeDrive(os, d).1, Unassigning)
  {
    hide ConvergeDrive, Ran;
    ConvergeRan(os, d);
    RanWider(os, ConvergeDrive(os, d).1, Converging, Unassigning);
  }
}
