/** Isolation: what one drive's operations do to the mounts of everything else, even when they fail
  midway. */
module Isolation {
  import opened Names
  import opened Tables
  import opened Kernels
  import opened Machine
  import opened MountCache
  import opened Devices
  import opened DeviceFacts
  import opened Drives

  /** The one device whose mounts converging the drive may touch: the innermost one it gets to know. */
  function Touched(os: Os, d: Drive): Option<DevPath>
    requires d.device.Some?
  {
    if d.broken then Leaf(d.device.value) else Leaf(Setup(os, d.device.value, OrderOf(d)).0)
  }

  lemma MarkTables(os: Os, d: Drive)
    ensures SameTables(os, MarkAsBroken(os, d).1)
  {
  }

  lemma MovedNothing(a: Os, b: Os, leaf: Option<DevPath>)
    requires Moved(a, b, None)
    ensures Moved(a, b, leaf)
  {
    MovedSame(a, b, leaf);
  }

  /** Whatever fails, converging a drive leaves every entry of every other device in both kernel tables and
    both caches, in the same order, and the caches stay true to the kernel. The path the drive is heading
    for must be free for it. */
  lemma ConvergeIsolated(os: Os, d: Drive)
    requires d.device.Some? && Sound(os)
    requires !d.broken ==> GoalFree(os, Goal(os, d.device.value, OrderOf(d)))
    ensures var os' := ConvergeDrive(os, d).1;
      Sound(os') && Moved(os, os', Touched(os, d))
  {
    hide Sound, OnlyMoves, Setup, Goal, Teardown, GoalFree, MarkAsBroken, Moved;
    var dev := d.device.value;
    if d.broken {
      TeardownEffect(os, dev);
    } else {
      SetupEffect(os, dev, OrderOf(d));
      var (dev', os1, ok) := Setup(os, dev, OrderOf(d));
      var goal := Goal(os, dev, OrderOf(d));
      if goal.None? {
        MovedNothing(os, os1, Leaf(dev'));
      }
      if !ok {
        var marked := d.(device := Some(dev'));
        MarkTables(os1, marked);
        var os2 := MarkAsBroken(os1, marked).1;
        SoundSame(os1, os2);
        MovedSame(os1, os2, Leaf(dev'));
        MovedTransitive(os, os1, os2, Leaf(dev'));
        TeardownEffect(os2, dev');
        MovedTransitive(os, os2, Teardown(os2, dev').1, Leaf(dev'));
      }
    }
  }

  /** Tearing a drive down is isolated without any condition on paths. */
  lemma TeardownIsolated(os: Os, d: Drive)
    requires d.device.Some? && Sound(os)
    ensures var os' := TeardownDrive(os, d).1;
      Sound(os') && Moved(os, os', Leaf(d.device.value))
  {
    hide Sound, OnlyMoves, Teardown;
    TeardownEffect(os, d.device.value);
  }

  /** The condition on paths is needed: a mount at a path that another device has is unmounted in that
    device's place. Here `umount` takes the topmost mount, which is of `other`, although the entry listed
    was of `dev`. */
  lemma SharedPathNotIsolated(os: Os, dev: DevPath, other: DevPath, path: Path)
    requires dev != other && os.k.mode == OneNamespace && os.fate(|os.log|, Umount(path, Host))
    requires os.k.host == [Mount(dev, path, false), Mount(other, path, false)] == os.host
    requires os.k.local == os.k.host && os.local == os.host
    ensures var os' := UnmountDevice(os, path, Host).0;
      OfDevice(os'.k.host, other) != OfDevice(os.k.host, other) && OfDevice(os'.host, other) == OfDevice(os.host, other)
  {
    var d, o := Mount(dev, path, false), Mount(other, path, false);
    assert os.host[0] in os.host && os.k.host[0] in os.k.host;
    assert MountedAt(Cached(os, Host), path) && MountedAt(Table(os.k, Host), path);
    var os' := UnmountDevice(os, path, Host).0;
    assert os'.k.host == RemoveLast([d, o], path) && os'.host == RemoveFirst([d, o], path);
    assert [d, o][..1] == [d] && [d, o][1..] == [o];
    OfDeviceCons(d, [o], other);
    OfDeviceCons(o, [], other);
    OfDeviceCons(d, [], other);
    assert [o] + [] == [o] && [d] + [] == [d];
  }

  // ---- exactly whom an umount spares ----

  /** The device of the first entry at `path`: the one the autopilot takes off its own list. */
  function FirstListedAt(ms: seq<Mount>, path: Path): Option<DevPath> {
    if ms == [] then None else if ms[0].path == path then Some(ms[0].dev) else FirstListedAt(ms[1..], path)
  }

  lemma {:induction false} RemoveFirstSpares(ms: seq<Mount>, path: Path, dev: DevPath)
    ensures OfDevice(RemoveFirst(ms, path), dev) == OfDevice(ms, dev) <==> FirstListedAt(ms, path) != Some(dev)
    decreases |ms|
  {
    if ms != [] {
      var m, rest := ms[0], ms[1..];
      assert ms == [m] + rest;
      OfDeviceCons(m, rest, dev);
      if m.path == path {
        assert m.dev == dev ==> |OfDevice(ms, dev)| == |OfDevice(rest, dev)| + 1;
      } else {
        RemoveFirstSpares(rest, path, dev);
        OfDeviceCons(m, RemoveFirst(rest, path), dev);
        SameHead(m, OfDevice(RemoveFirst(rest, path), dev), OfDevice(rest, dev));
      }
    }
  }

  lemma SameHead(m: Mount, a: seq<Mount>, b: seq<Mount>)
    ensures [m] + a == [m] + b <==> a == b
  {
    assert ([m] + a)[1..] == a && ([m] + b)[1..] == b;
  }

  lemma SameTail(m: Mount, a: seq<Mount>, b: seq<Mount>)
    ensures a + [m] == b + [m] <==> a == b
  {
    assert (a + [m])[..|a|] == a && (b + [m])[..|b|] == b;
  }

  lemma {:induction false} RemoveLastSpares(ms: seq<Mount>, path: Path, dev: DevPath)
    ensures OfDevice(RemoveLast(ms, path), dev) == OfDevice(ms, dev) <==> TopAt(ms, path) != Some(dev)
    decreases |ms|
  {
    if ms != [] {
      var n := |ms| - 1;
      var rest, m := ms[..n], ms[n];
      assert ms == rest + [m];
      OfDeviceSnoc(rest, m, dev);
      if m.path == path {
        assert m.dev == dev ==> |OfDevice(ms, dev)| == |OfDevice(rest, dev)| + 1;
      } else {
        RemoveLastSpares(rest, path, dev);
        OfDeviceSnoc(RemoveLast(rest, path), m, dev);
        SameTail(m, OfDevice(RemoveLast(rest, path), dev), OfDevice(rest, dev));
      }
    }
  }

  /** The entries of a device, in both caches and both kernel tables, are the same and in the same order. */
  ghost predicate Spared(os: Os, os': Os, dev: DevPath) {
    && OfDevice(os'.host, dev) == OfDevice(os.host, dev) && OfDevice(os'.local, dev) == OfDevice(os.local, dev)
    && OfDevice(os'.k.host, dev) == OfDevice(os.k.host, dev) && OfDevice(os'.k.local, dev) == OfDevice(os.k.local, dev)
  }

  /** The call will run a command, and the command will work. */
  predicate WillUnmount(os: Os, path: Path, scope: Scope) {
    MountedAt(Cached(os, scope), path) && MountedAt(Table(os.k, scope), path) && os.fate(|os.log|, Umount(path, scope))
  }

  /** In a namespace that the command reaches, the device is on top at the path; or on a list that records the
    command, it comes first there. */
  predicate InTheWay(os: Os, path: Path, scope: Scope, seen: Scope, dev: DevPath) {
    || (Reaches(os.k.mode, scope, seen) && TopAt(Table(os.k, seen), path) == Some(dev))
    || (Recorded(os.k.mode, scope, seen) && FirstListedAt(Cached(os, seen), path) == Some(dev))
  }

  /** Exactly when an umount leaves the entries of a device alone, whether or not it shares the path: in any mode,
    if and only if nothing will be unmounted, or the device is in nobody's way at that path. */
  lemma UmountSpares(os: Os, path: Path, scope: Scope, dev: DevPath)
    ensures Spared(os, UnmountDevice(os, path, scope).0, dev)
      <==> !WillUnmount(os, path, scope) || (!InTheWay(os, path, scope, Host, dev) && !InTheWay(os, path, scope, Local, dev))
  {
    RunUmount(os, path, scope);
    RemoveLastSpares(os.k.host, path, dev);
    RemoveLastSpares(os.k.local, path, dev);
    RemoveFirstSpares(os.host, path, dev);
    RemoveFirstSpares(os.local, path, dev);
    hide OfDevice, RemoveFirst, RemoveLast, TopAt, FirstListedAt, MountedAt, Effect;
  }

  /** A mount leaves the entries of every other device alone, even one that is mounted at the same path. */
  lemma MountSpares(os: Os, dev: DevPath, path: Path, scope: Scope, other: DevPath)
    requires other != dev
    ensures Spared(os, MountDevice(os, dev, path, scope).0, other)
  {
    RunMount(os, dev, path, scope);
    var m := Mount(dev, path, false);
    OfDeviceSnoc(os.host, m, other);
    OfDeviceSnoc(os.local, m, other);
    OfDeviceSnoc(os.k.host, m, other);
    OfDeviceSnoc(os.k.local, m, other);
    hide OfDevice, MountedOn, Effect, Can;
  }
}
