/** The converger's own look at the result: mounts below `/srv/node` that no drive accounts for, and
  swift-ids read back from the disks. */
module Audit {
  import opened Names
  import opened Tables
  import opened Kernels
  import opened KernelFacts
  import opened Machine
  import opened MountCache
  import opened Devices
  import opened Drives
  import opened DriveFacts
  import opened Chains
  import opened Convergence
  import opened Fleets
  import opened Convergers
  import opened Exclusivity
  import opened Safety
  import opened Runs
  import opened AssignSteps
  import Allocations
  import Assignments
  import LinuxObject
  import DeviceFacts

  /** The mounts that `CheckForUnexpectedMounts` reports. */
  function Unexpected(drives: seq<Drive>, ms: seq<Mount>): seq<Path> {
    if ms == [] then []
    else
      var rest := Unexpected(drives, ms[1..]);
      if exists d :: d in drives && MountPath(d) == ms[0].path then rest else [ms[0].path] + rest
  }

  lemma NothingToReport(drives: seq<Drive>)
    ensures Unexpected(drives, []) == []
  {
  }

  lemma {:induction false} UnexpectedSnoc(drives: seq<Drive>, ms: seq<Mount>, m: Mount)
    ensures Unexpected(drives, ms + [m])
         == Unexpected(drives, ms) + if exists d :: d in drives && MountPath(d) == m.path then [] else [m.path]
  {
    hide MountPath;
    if ms == [] {
      assert ms + [m] == [m] && [m][1..] == [];
    } else {
      assert (ms + [m])[1..] == ms[1..] + [m];
      UnexpectedSnoc(drives, ms[1..], m);
    }
  }

  /** The place of a drive. */
  predicate AtSomeDrive(drives: seq<Drive>, path: Path) {
    exists d :: d in drives && MountPath(d) == path
  }

  lemma {:induction false} UnexpectedMember(drives: seq<Drive>, ms: seq<Mount>, path: Path)
    ensures path in Unexpected(drives, ms) <==> MountedAt(ms, path) && !AtSomeDrive(drives, path)
    decreases |ms|
  {
    hide MountPath;
    if ms != [] {
      UnexpectedMember(drives, ms[1..], path);
      assert ms == [ms[0]] + ms[1..];
      assert MountedAt(ms, path) <==> ms[0].path == path || MountedAt(ms[1..], path);
    }
  }

  lemma {:induction false} BelowMember(ms: seq<Mount>)
    ensures forall m :: m in LinuxObject.BelowSrvNode(ms) <==> m in ms && UnderSrvNode(m.path)
  {
    if ms != [] {
      var n := |ms| - 1;
      BelowMember(ms[..n]);
      assert ms == ms[..n] + [ms[n]];
    }
  }

  /** Some drive of the fleet manages the disk that this device is on. */
  predicate OnManagedDisk(k: Kernel, drives: seq<Drive>, dev: DevPath) {
    exists d :: d in drives && On(k, dev, DiskOf(d))
  }

  lemma CachedFrom(os: Os, m: Mount) returns (e: Mount)
    requires Agree(os) && WfK(os.k) && m in os.host
    ensures IsEntry(os.k, e) && e.dev == m.dev && e.path == m.path
  {
    OwnedByPairs(os.k.host, os.host);
    assert MountedOn(os.k.host, m.dev, m.path);
    e :| e in os.k.host && e.dev == m.dev && e.path == m.path;
  }

  lemma ManagedAccounted(os: Os, drives: seq<Drive>, m: Mount)
    requires Agree(os) && WfK(os.k) && (forall d :: d in drives ==> Done(os, d)) && m in os.host && OnManagedDisk(os.k, drives, m.dev)
    ensures AtSomeDrive(drives, m.path)
  {
    var e := CachedFrom(os, m);
    hide Agree, WfK, Settled, Cleared, MountPath, On;
    var d :| d in drives && On(os.k, m.dev, DiskOf(d));
    assert Done(os, d);
    DoneThere(os, d, e);
  }

  /** What is mounted below `/srv/node` at a drive's place is of its disk. */
  lemma AccountedManaged(os: Os, drives: seq<Drive>, m: Mount)
    requires Agree(os) && WfK(os.k) && CrossOwned(os.k) && (forall d :: d in drives ==> Done(os, d)) && m in os.host && UnderSrvNode(m.path)
    requires (m.path.Elsewhere? || forall d :: d in drives && d.broken ==> d.assignment.None?) && AtSomeDrive(drives, m.path)
    ensures OnManagedDisk(os.k, drives, m.dev)
  {
    var e := CachedFrom(os, m);
    var d :| d in drives && MountPath(d) == m.path;
    assert Done(os, d);
    var leaf := DeviceFacts.Leaf(d.device.value).value;
    ShownKernel(os, leaf);
    hide Agree, WfK, Shown, MountPath, On;
    var x :| x in os.k.host && x.dev == leaf;
    assert From(os.k, x, DiskOf(d));
  }

  /** Exactly which mounts are reported, once all drives are done: those below `/srv/node` whose device is on no managed
    disk, whoever mounted them, and however deep. */
  lemma ReportedExactly(os: Os, drives: seq<Drive>, m: Mount)
    requires Agree(os) && WfK(os.k) && CrossOwned(os.k) && (forall d :: d in drives ==> Done(os, d)) && m in os.host && UnderSrvNode(m.path)
    requires m.path.Elsewhere? || forall d :: d in drives && d.broken ==> d.assignment.None?
    ensures m.path in Unexpected(drives, LinuxObject.BelowSrvNode(os.host)) <==> !OnManagedDisk(os.k, drives, m.dev)
  {
    BelowMember(os.host);
    hide Agree, WfK, CrossOwned, Done, MountPath, LinuxObject.BelowSrvNode, Unexpected, AtSomeDrive;
    UnexpectedMember(drives, LinuxObject.BelowSrvNode(os.host), m.path);
    assert MountedAt(LinuxObject.BelowSrvNode(os.host), m.path);
    if OnManagedDisk(os.k, drives, m.dev) {
      ManagedAccounted(os, drives, m);
    } else if AtSomeDrive(drives, m.path) {
      AccountedManaged(os, drives, m);
    }
  }

  lemma EntryFrom(k: Kernel, m: Mount)
    requires MountsOk(k) && IsEntry(k, m)
    ensures LocOf(k, m.dev).Some? && From(k, m, LocOf(k, m.dev).value.disk)
  {
  }

  lemma DoneThere(os: Os, d: Drive, m: Mount)
    requires Done(os, d) && From(os.k, m, DiskOf(d))
    ensures m.path == MountPath(d)
  {
  }

  lemma SecondFacts(s: State)
    requires Inv(s) && s.phase.Second? && s.phase.i >= |s.drives|
    ensures Sound(s.os) && WfK(s.os.k) && CrossOwned(s.os.k) && Expected(s.os.k, s.drives, []) && forall d :: d in s.drives ==> Done(s.os, d)
  {
    hide Sound, WfK, LuksOk, Reliable, CrossOwned, Labelled, Members, Expected, Done, Homed, Entitled;
  }

  lemma SomeMember(u: seq<Path>)
    ensures u == [] || exists path :: path in u
  {
    if u != [] {
      assert u[0] in u;
    }
  }

  /** Something of no managed disk is mounted deeper below `/srv/node` than one level. */
  predicate DeepForeign(os: Os, drives: seq<Drive>, path: Path) {
    path.Elsewhere? && UnderSrvNode(path) && exists m :: m in os.host && m.path == path && !OnManagedDisk(os.k, drives, m.dev)
  }

  lemma ReportDeep(s: State, path: Path)
    requires Agree(s.os) && WfK(s.os.k) && CrossOwned(s.os.k) && Expected(s.os.k, s.drives, []) && forall d :: d in s.drives ==> Done(s.os, d)
    ensures path in Unexpected(s.drives, LinuxObject.BelowSrvNode(s.os.host)) <==> DeepForeign(s.os, s.drives, path)
  {
    var ms := LinuxObject.BelowSrvNode(s.os.host);
    BelowMember(s.os.host);
    UnexpectedMember(s.drives, ms, path);
    hide Agree, WfK, CrossOwned, Done, MountPath, LinuxObject.BelowSrvNode, Unexpected, AtSomeDrive, OnManagedDisk;
    if MountedAt(ms, path) {
      var m :| m in ms && m.path == path;
      if path.SrvNode? {
        SrvNodeManaged(s, m);
        ManagedAccounted(s.os, s.drives, m);
      } else {
        forall n | n in s.os.host && n.path == path
          ensures path in Unexpected(s.drives, LinuxObject.BelowSrvNode(s.os.host)) <==> !OnManagedDisk(s.os.k, s.drives, n.dev)
        {
          ReportedExactly(s.os, s.drives, n);
        }
      }
    }
  }

  /** What is mounted one level below `/srv/node` is expected. */
  lemma SrvNodeManaged(s: State, m: Mount)
    requires Agree(s.os) && WfK(s.os.k) && Expected(s.os.k, s.drives, []) && m in s.os.host && m.path.SrvNode?
    ensures OnManagedDisk(s.os.k, s.drives, m.dev)
  {
    var e := CachedFrom(s.os, m);
    Convergence.WfMounts(s.os.k);
    EntryFrom(s.os.k, e);
    hide Agree, WfK;
    assert Owner(s.drives, [], LocOf(s.os.k, e.dev).value.disk);
  }

  /** At the end of the second loop. */
  lemma SecondReports(s: State)
    requires Inv(s) && s.phase.Second? && s.phase.i >= |s.drives|
    ensures forall path :: path in Unexpected(s.drives, LinuxObject.BelowSrvNode(s.os.host)) <==> DeepForeign(s.os, s.drives, path)
  {
    SecondFacts(s);
    SoundAgrees(s.os);
    hide Inv, MountPath, Agree, Sound, WfK, CrossOwned, Done, Unexpected, Expected, LinuxObject.BelowSrvNode, DeepForeign;
    forall path ensures path in Unexpected(s.drives, LinuxObject.BelowSrvNode(s.os.host)) <==> DeepForeign(s.os, s.drives, path) {
      ReportDeep(s, path);
    }
  }

  /** At the end of every iteration of a run in which whatever is mounted one level below `/srv/node` comes from a managed
    disk, the report names exactly the deeper mounts that do not. */
  lemma OnlyForeignReported(cfg: Config, run: seq<State>, i: nat)
    requires IsRun(Tame, cfg, run) && Init(run[0]) && 0 < i < |run|
    requires !run[i - 1].phase.Idle? && run[i].phase.Idle?
    ensures var report := Unexpected(run[i].drives, LinuxObject.BelowSrvNode(run[i].os.host));
      && (forall path :: path in report <==> DeepForeign(run[i].os, run[i].drives, path))
      && (report == [] <==> !exists path :: DeepForeign(run[i].os, run[i].drives, path))
  {
    hide Inv, Init, Step, Tame, Unexpected, LinuxObject.BelowSrvNode, DeepForeign;
    RunNext(cfg, run, i);
    RunInvariant(cfg, run, i - 1);
    LastStep(run[i - 1], cfg);
    SecondReports(run[i - 1]);
    SomeMember(Unexpected(run[i].drives, LinuxObject.BelowSrvNode(run[i].os.host)));
  }
}
