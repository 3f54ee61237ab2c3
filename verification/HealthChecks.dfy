/** What makes a drive break, and what its layers believe about their mounts when something fails. */
module HealthChecks {
  import opened Names
  import opened Tables
  import opened Kernels
  import opened Machine
  import opened MountCache
  import opened Devices
  import opened DeviceFacts
  import opened Drives
  import opened Convergers
  import opened Stability
  import opened Recovery
  import opened KeyRotation
  import opened StartConditions
  import Assignments

  // ---- failed checks break drives ----

  /** `Setup` does nothing to a device that does not pass its check. */
  lemma InvalidFails(os: Os, d: Dev, order: Order)
    requires !Validate(os, d).2
    ensures var (_, os', ok) := Setup(os, d, order); !ok && os' == os.(log := os'.log)
  {
    hide Validate, OpenUp, SetupXfs;
  }

  /** A working drive whose mount is gone, read-only, elsewhere, or missing in one namespace, or whose container is not
    open as recorded, breaks when it converges. */
  lemma DisorderBreaks(os: Os, d: Drive)
    requires d.device.Some? && Whole(d.device.value) && !InOrder(os, d.device.value)
    ensures ConvergeDrive(os, d).0.broken && ConvergeDrive(os, d).0.assignment == if d.broken then d.assignment else None
  {
    ValidateExact(os, d.device.value);
    InvalidFails(os, d.device.value, OrderOf(d));
    hide Setup, Teardown, Validate, InOrder;
  }

  /** Without any key, a drive on a container breaks, even if the container is open. */
  lemma KeylessFails(os: Os, d: Dev, order: Order)
    requires d.LuksDev? && order.keys == []
    ensures var (_, os', ok) := Setup(os, d, order); !ok && os' == os.(log := os'.log)
  {
    hide Validate, Rank;
  }

  lemma KeylessBreaks(os: Os, d: Drive)
    requires d.device.Some? && d.device.value.LuksDev? && d.keys == []
    ensures ConvergeDrive(os, d).0.broken
  {
    KeylessFails(os, d.device.value, OrderOf(d));
    hide Setup, Teardown;
  }

  /** In the second loop a broken drive is not touched again. */
  lemma BrokenSkipped(s: State, cfg: Config)
    requires s.phase.Second? && s.phase.i < |s.drives| && s.drives[s.phase.i].broken
    ensures Step(s, cfg) == Some(s.(phase := Second(s.phase.i + 1)))
  {
    hide ConvergeDrive;
  }

  // ---- what is made of a blank disk ----

  lemma NoFlagAt(os: Os, d: Drive, fromDurable: bool)
    requires d.driveId !in os.k.transient && d.driveId !in os.k.durable
    ensures CheckFlag(os, d, fromDurable).0 == d && CheckFlag(os, d, fromDurable).1 == os.(log := CheckFlag(os, d, fromDurable).1.log)
  {
  }

  /** The first layer of an unflagged blank disk: a container if keys are configured, else a filesystem. */
  lemma BlankObject(os: Os, n: string, driveId: string, keys: seq<string>)
    requires NoFailures(os.fate) && n in os.k.disks && os.k.disks[n].Blank? && driveId !in os.k.transient && driveId !in os.k.durable
    ensures var (d, os') := NewDrive(os, Disk(n), driveId, keys);
      && os' == os.(log := os'.log)
      && d == Drive(Disk(n), driveId, keys, Some(if keys == [] then XfsDev(Disk(n), false, None) else LuksDev(Disk(n), false, None, None)), false, None)
  {
    var (device, os1) := NewDevice(os, Disk(n), keys != []);
    var d0 := Drive(Disk(n), driveId, keys, device, device.None?, None);
    NoFlagAt(os1, d0, false);
    var (d1, os2) := CheckFlag(os1, d0, false);
    NoFlagAt(os2, d1, true);
    hide CheckFlag;
  }

  /** A blank disk becomes an encrypted one exactly if keys are configured, closed with the first of them, and is mounted
    at its temporary place in both namespaces. */
  lemma BlankSetUp(os: Os, n: string, driveId: string, keys: seq<string>)
    requires NoFailures(os.fate) && ShutDown(os, n, driveId) && os.k.disks[n].Blank? && driveId !in os.k.transient && driveId !in os.k.durable
    ensures var (d, os1) := NewDrive(os, Disk(n), driveId, keys);
      d.device.Some? &&
      var (d', os') := ConvergeDrive(os1, d);
      var leaf := if keys == [] then Disk(n) else Mapper(driveId);
      && !d'.broken && os'.k.disks == os.k.disks[n := if keys == [] then Xfs("") else Luks(keys[0], Xfs(""))]
      && MountedOn(os'.k.host, leaf, RunTemp(driveId)) && MountedOn(os'.k.local, leaf, RunTemp(driveId))
  {
    BlankObject(os, n, driveId, keys);
    var (d, os1) := NewDrive(os, Disk(n), driveId, keys);
    SameMounts(os, os1, Disk(n));
    SameMounts(os, os1, Mapper(driveId));
    hide NewDrive, NoFailures, Unmounted, SlotAt, MountedOn;
    if keys == [] {
      BlankBare(os1, n);
      SetupBare(os1, d.device.value, OrderOf(d));
    } else {
      FirstSetup(os1, n, OrderOf(d));
    }
    hide Setup, ShutDown, Teardown, Bare, WithContent;
  }

  lemma BlankBare(os: Os, n: string)
    requires n in os.k.disks && os.k.disks[n].Blank? && Unmounted(os, Disk(n))
    ensures Bare(os, XfsDev(Disk(n), false, None)) && WithContent(os.k, Disk(n), Xfs("")).disks == os.k.disks[n := Xfs("")]
  {
  }

  // ---- recorded mount paths ----

  /** A check forgets the recorded path exactly when a namespace no longer shows the device at all. */
  lemma ValidateForgets(os: Os, d: Dev)
    requires d.XfsDev? && d.mountPath.Some?
    ensures var h, l := MountsOf(os, d.path, Host), MountsOf(os, d.path, Local);
      ValidateXfs(os, d).0.mountPath == if h == [] || (Healthy(h, d.mountPath.value) && l == []) then None else d.mountPath
  {
    hide MountsOf;
    CheckMountsExact(MountsOf(os, d.path, Host), d.mountPath);
    CheckMountsExact(MountsOf(os, d.path, Local), d.mountPath);
  }

  /** One of the caches lists the device there. */
  predicate Listed(os: Os, dev: DevPath, path: Path) {
    MountedOn(os.host, dev, path) || MountedOn(os.local, dev, path)
  }

  /** An umount that fails leaves the entries that were still to go. */
  lemma {:induction false} UnmountThoseStuck(os: Os, ms: seq<Mount>, keep: Option<Path>, scope: Scope, dev: DevPath)
    requires Sound(os) && MountsOf(os, dev, scope) == ms && (forall m :: m in ms ==> Some(m.path) != keep)
    requires Covered(os.k.mode, scope) || ms == []
    requires !UnmountThose(os, ms, keep, scope).1
    ensures MountsOf(UnmountThose(os, ms, keep, scope).0, dev, scope) != []
    decreases |ms|
  {
    hide UnmountDevice, Sound, OnlyMoves, MountsOf, MountedAt, FreeFor, RemoveFirst;
    var m := ms[0];
    assert m in ms && m in MountsOf(os, dev, scope);
    OwnedPath(os, dev, scope, m);
    UnmountEffect(os, m.path, scope, dev);
    var (os1, ok) := UnmountDevice(os, m.path, scope);
    if ok {
      assert [] + [m] + ms[1..] == ms;
      RemoveFirstPast([], m, ms[1..]);
      assert [] + ms[1..] == ms[1..];
      UnmountThoseStuck(os1, ms[1..], keep, scope, dev);
    }
  }

  lemma UnmountBothStuck(os: Os, dev: DevPath, path: Path, keep: Option<Path>)
    requires Sound(os) && OnlyAt(os, dev, path) && keep != Some(path) && !UnmountBoth(os, dev, keep).1
    ensures Listed(UnmountBoth(os, dev, keep).0, dev, path)
  {
    hide UnmountThose, Sound, MountsOf, Covered, MountedOn;
    CoveredHost(os.k.mode);
    var (os1, ok) := UnmountThose(os, MountsOf(os, dev, Host), keep, Host);
    UnmountThoseLeaves(os, MountsOf(os, dev, Host), keep, Host);
    if !ok {
      UnmountThoseStuck(os, MountsOf(os, dev, Host), keep, Host, dev);
      StillListed(os, os1, dev, path, Host);
    } else {
      UnmountThoseEffect(os, [], MountsOf(os, dev, Host), keep, Host, dev);
      UnmountThoseLeaves(os1, MountsOf(os1, dev, Local), keep, Local);
      OnlyAtLess(os, os1, dev, path);
      if !os.k.mode.Separate? {
        assert MountsOf(os1, dev, Host) == Keeping(MountsOf(os, dev, Host), keep) by { assert [] + Keeping(MountsOf(os, dev, Host), keep) == Keeping(MountsOf(os, dev, Host), keep); }
        UnmountLocalIdle(os, dev, keep);
      } else {
        CoveredSeparate(os.k.mode);
        UnmountThoseStuck(os1, MountsOf(os1, dev, Local), keep, Local, dev);
        StillListed(os1, UnmountThose(os1, MountsOf(os1, dev, Local), keep, Local).0, dev, path, Local);
      }
    }
  }

  lemma OnlyAtLess(os: Os, os': Os, dev: DevPath, path: Path)
    requires OnlyAt(os, dev, path) && (forall m :: m in os'.host ==> m in os.host) && (forall m :: m in os'.local ==> m in os.local)
    ensures OnlyAt(os', dev, path)
  {
    OfDeviceMember(os.host, dev);
    OfDeviceMember(os.local, dev);
    OfDeviceMember(os'.host, dev);
    OfDeviceMember(os'.local, dev);
  }

  lemma StillListed(os: Os, os': Os, dev: DevPath, path: Path, scope: Scope)
    requires OnlyAt(os, dev, path) && (forall m :: m in os'.host ==> m in os.host) && (forall m :: m in os'.local ==> m in os.local)
    requires MountsOf(os', dev, scope) != []
    ensures Listed(os', dev, path)
  {
    OnlyAtLess(os, os', dev, path);
    hide MountsOf;
    assert MountsOf(os', dev, scope)[0] in MountsOf(os', dev, scope);
    MountedOnIsListed(os', dev, path, scope);
  }

  lemma MountKeepsListed(os: Os, dev: DevPath, target: Path, path: Path)
    ensures var (os', ok) := MountBoth(os, dev, target); Listed(os, dev, path) || (ok && path == target) ==> Listed(os', dev, path)
  {
    MountListed(os, dev, target, Host, path);
    var os1 := MountDevice(os, dev, target, Host).0;
    MountListed(os1, dev, target, Local, path);
    hide MountDevice, Listed;
  }

  lemma MountListed(os: Os, dev: DevPath, target: Path, scope: Scope, path: Path)
    ensures var (os', ok) := MountDevice(os, dev, target, scope); Listed(os, dev, path) || (ok && path == target) ==> Listed(os', dev, path)
  {
    hide Can, Effect;
    var (os', ok) := MountDevice(os, dev, target, scope);
    var m := Mount(dev, target, false);
    if ok && !MountedOn(Cached(os, scope), dev, target) {
      assert m in Cached(os', scope);
    }
    assert forall e :: e in os.host ==> e in os'.host;
    assert forall e :: e in os.local ==> e in os'.local;
  }

  /** What a filesystem layer that has passed its check knows about its mounts. */
  ghost predicate Consistent(os: Os, d: Dev)
    requires d.XfsDev?
  {
    if d.mountPath.None? then Unmounted(os, d.path)
    else OnlyAt(os, d.path, d.mountPath.value) && MountsOf(os, d.path, Host) != [] && MountsOf(os, d.path, Local) != []
  }

  /** Whatever fails on the way to another place: a path is recorded only if the device is listed there. */
  lemma MoveHonest(os: Os, d: Dev, target: Path)
    requires d.XfsDev? && Sound(os) && Consistent(os, d)
    ensures var (d', os', _) := MoveTo(os, d, target); d'.mountPath.Some? ==> Listed(os', d.path, d'.mountPath.value)
  {
    var (os1, ok) := UnmountBoth(os, d.path, Some(target));
    if d.mountPath.None? {
      MoveBare(os, d, target);
      MountKeepsListed(os, d.path, target, target);
    } else {
      var path := d.mountPath.value;
      if path != target {
        if !ok {
          UnmountBothStuck(os, d.path, path, Some(target));
        }
      } else {
        UnmountBothEffect(os, d.path, Some(target));
        KeepsAll(os, os1, d.path, path);
      }
      MountKeepsListed(os1, d.path, target, target);
    }
    hide UnmountBoth, MountBoth, Sound, MountsOf, Listed, OnlyAt, Unmounted;
  }

  /** Nothing is to be unmounted if all mounts are at the place to be kept. */
  lemma KeepsAll(os: Os, os1: Os, dev: DevPath, path: Path)
    requires OnlyAt(os, dev, path) && MountsOf(os, dev, Host) != [] && os1 == UnmountBoth(os, dev, Some(path)).0
    ensures os1 == os && UnmountBoth(os, dev, Some(path)).1 && Listed(os, dev, path)
  {
    hide MountsOf, UnmountDevice;
    NothingToGo(os, MountsOf(os, dev, Host), path, Host);
    NothingToGo(os, MountsOf(os, dev, Local), path, Local);
    assert MountsOf(os, dev, Host)[0] in MountsOf(os, dev, Host);
    MountedOnIsListed(os, dev, path, Host);
  }

  lemma {:induction false} NothingToGo(os: Os, ms: seq<Mount>, path: Path, scope: Scope)
    requires forall m :: m in ms ==> m.path == path
    ensures UnmountThose(os, ms, Some(path), scope) == (os, true)
    decreases |ms|
  {
    if ms != [] {
      assert ms[0] in ms;
      NothingToGo(os, ms[1..], path, scope);
    }
  }

  // ---- the first failure ends it ----

  /** All commands in between have worked, except that after a failure the last one has not. */
  ghost predicate StopsAtFailure(a: Os, b: Os, ok: bool) {
    && a.log <= b.log
    && (ok ==> forall e :: e in Since(a, b) ==> e.ok)
    && (!ok ==> Since(a, b) != [] && forall i :: 0 <= i < |Since(a, b)| ==> (Since(a, b)[i].ok <==> i < |Since(a, b)| - 1))
  }

  lemma StopsThen(a: Os, b: Os, c: Os, ok: bool)
    requires StopsAtFailure(a, b, true) && StopsAtFailure(b, c, ok)
    ensures StopsAtFailure(a, c, ok)
  {
    assert Since(a, c) == Since(a, b) + Since(b, c);
  }

  lemma StopsNothing(a: Os)
    ensures StopsAtFailure(a, a, true)
  {
    assert Since(a, a) == [];
  }

  lemma RunStops(os: Os, cmd: Cmd, os': Os)
    requires os'.log == Run(os, cmd).0.log
    ensures StopsAtFailure(os, os', Run(os, cmd).1)
  {
    assert Since(os, os') == [Entry(cmd, Run(os, cmd).1)];
  }

  lemma UnmountStops(os: Os, path: Path, scope: Scope)
    ensures var (os', ok) := UnmountDevice(os, path, scope); StopsAtFailure(os, os', ok)
  {
    StopsNothing(os);
    if MountedAt(Cached(os, scope), path) {
      RunStops(os, Umount(path, scope), UnmountDevice(os, path, scope).0);
    }
    hide Run, StopsAtFailure, RemoveFirst;
  }

  lemma MountStops(os: Os, dev: DevPath, path: Path, scope: Scope)
    ensures var (os', ok) := MountDevice(os, dev, path, scope); StopsAtFailure(os, os', ok)
  {
    StopsNothing(os);
    if !MountedOn(Cached(os, scope), dev, path) {
      RunStops(os, MountCmd(dev, path, scope), MountDevice(os, dev, path, scope).0);
    }
    hide Run, StopsAtFailure;
  }

  lemma {:induction false} UnmountThoseStops(os: Os, ms: seq<Mount>, keep: Option<Path>, scope: Scope)
    ensures var (os', ok) := UnmountThose(os, ms, keep, scope); StopsAtFailure(os, os', ok)
    decreases |ms|
  {
    hide UnmountDevice, StopsAtFailure;
    StopsNothing(os);
    if ms != [] {
      if Some(ms[0].path) == keep {
        UnmountThoseStops(os, ms[1..], keep, scope);
      } else {
        UnmountStops(os, ms[0].path, scope);
        var (os1, ok) := UnmountDevice(os, ms[0].path, scope);
        if ok {
          UnmountThoseStops(os1, ms[1..], keep, scope);
          var (os2, ok2) := UnmountThose(os1, ms[1..], keep, scope);
          StopsThen(os, os1, os2, ok2);
        }
      }
    }
  }

  lemma UnmountBothStops(os: Os, dev: DevPath, keep: Option<Path>)
    ensures var (os', ok) := UnmountBoth(os, dev, keep); StopsAtFailure(os, os', ok)
  {
    hide UnmountThose, MountsOf, StopsAtFailure;
    UnmountThoseStops(os, MountsOf(os, dev, Host), keep, Host);
    var (os1, ok) := UnmountThose(os, MountsOf(os, dev, Host), keep, Host);
    if ok {
      UnmountThoseStops(os1, MountsOf(os1, dev, Local), keep, Local);
      var (os2, ok2) := UnmountBoth(os, dev, keep);
      StopsThen(os, os1, os2, ok2);
    }
  }

  lemma MountBothStops(os: Os, dev: DevPath, path: Path)
    ensures var (os', ok) := MountBoth(os, dev, path); StopsAtFailure(os, os', ok)
  {
    hide MountDevice, StopsAtFailure;
    MountStops(os, dev, path, Host);
    var (os1, ok) := MountDevice(os, dev, path, Host);
    if ok {
      MountStops(os1, dev, path, Local);
      var (os2, ok2) := MountDevice(os1, dev, path, Local);
      StopsThen(os, os1, os2, ok2);
    }
  }

  /** Moving to another place ends with the first umount or mount that fails. */
  lemma MoveStops(os: Os, d: Dev, target: Path)
    requires d.XfsDev?
    ensures var (_, os', ok) := MoveTo(os, d, target); StopsAtFailure(os, os', ok)
  {
    hide UnmountBoth, MountBoth, StopsAtFailure;
    UnmountBothStops(os, d.path, Some(target));
    var (os1, ok) := UnmountBoth(os, d.path, Some(target));
    if ok {
      MountBothStops(os1, d.path, target);
      var (os2, ok2) := MountBoth(os1, d.path, target);
      StopsThen(os, os1, os2, ok2);
    }
  }

  /** Tearing down ends with the first umount or close that fails, and reports a failure exactly then. */
  lemma {:induction false} TeardownStops(os: Os, d: Dev)
    ensures var (_, os', ok) := Teardown(os, d); StopsAtFailure(os, os', ok)
    decreases d
  {
    hide UnmountBoth, CloseUp, StopsAtFailure;
    match d
    case XfsDev(path, _, _) =>
      UnmountBothStops(os, path, None);
    case LuksDev(_, _, mapped, _) =>
      if mapped.None? {
        CloseUpStops(os, d);
      } else {
        TeardownStops(os, mapped.value);
        var (m, os1, ok) := Teardown(os, mapped.value);
        if ok {
          var d1 := d.(mapped := None);
          CloseUpStops(os1, d1);
          StopsThen(os, os1, CloseUp(os1, d1).1, CloseUp(os1, d1).2);
        }
      }
  }

  lemma CloseUpStops(os: Os, d: Dev)
    requires d.LuksDev?
    ensures var (_, os', ok) := CloseUp(os, d); StopsAtFailure(os, os', ok)
  {
    StopsNothing(os);
    if d.mappingName.Some? {
      RunStops(os, LuksClose(d.mappingName.value), CloseUp(os, d).1);
    }
    hide Run, StopsAtFailure;
  }
}
