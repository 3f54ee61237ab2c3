/** `os.Linux` as the object it is: caches edited in place around the commands it runs. Each method is
  tied to the function of module `Machine` that specifies it. */
module LinuxObject {
  import opened Names
  import opened Tables
  import opened Kernels
  import opened Machine
  import Convergers

  class Linux {
    var activeMountPoints: map<Scope, seq<Mount>>
    var activeLuksMappings: map<DevPath, DevPath>

    /** What the commands act upon, which of them meet an outside failure, and what was run so far. */
    var kernel: Kernel
    const fate: (nat, Cmd) -> bool
    var log: seq<Entry>

    constructor (kernel: Kernel, fate: (nat, Cmd) -> bool)
      ensures View() == Os(kernel, [], [], map[], fate, [])
    {
      this.kernel, this.fate, log := kernel, fate, [];
      activeMountPoints, activeLuksMappings := map[], map[];
    }

    /** A scope that was never refreshed has no entries. */
    function Active(scope: Scope): seq<Mount>
      reads this
    {
      if scope in activeMountPoints then activeMountPoints[scope] else []
    }

    function View(): Os
      reads this
    {
      Os(kernel, Active(Host), Active(Local), activeLuksMappings, fate, log)
    }

    /** The propagation mode was detected at startup, rightly. */
    predicate MountScopesAreSeparate()
      reads this
    {
      kernel.mode.Separate?
    }

    method Execute(cmd: Cmd) returns (ok: bool)
      modifies this
      ensures (View(), ok) == Run(old(View()), cmd)
    {
      ok := fate(|log|, cmd) && Can(kernel, cmd);
      if ok {
        kernel := Effect(kernel, cmd);
      }
      log := log + [Entry(cmd, ok)];
    }

    method ClassifyDevice(dev: DevPath) returns (kind: Kind)
      modifies this
      ensures (kind, View()) == Machine.ClassifyDevice(old(View()), dev)
    {
      var ok := Execute(Classify(dev));
      if !ok {
        return Unreadable;
      }
      match ContentAt(kernel, dev).value
      case Blank => kind := Unknown;
      case Luks(_, _) => kind := LuksKind;
      case Xfs(_) => kind := Filesystem;
    }

    // ---- mounts ----

    method MountDevice(dev: DevPath, path: Path, scope: Scope) returns (ok: bool)
      modifies this
      ensures (View(), ok) == Machine.MountDevice(old(View()), dev, path, scope)
    {
      hide Run;
      var ms := Active(scope);
      for i := 0 to |ms|
        invariant forall j :: 0 <= j < i ==> !(ms[j].dev == dev && ms[j].path == path)
      {
        if ms[i].dev == dev && ms[i].path == path {
          assert ms[i] in Cached(View(), scope);
          return true;
        }
      }
      assert !MountedOn(Cached(View(), scope), dev, path);
      ok := Execute(MountCmd(dev, path, scope));
      RunKeepsCaches(old(View()), MountCmd(dev, path, scope));
      if !ok {
        return;
      }
      var m := Mount(dev, path, false);
      if MountScopesAreSeparate() {
        activeMountPoints := activeMountPoints[scope := Active(scope) + [m]];
      } else {
        activeMountPoints := activeMountPoints[Host := Active(Host) + [m]];
        activeMountPoints := activeMountPoints[Local := Active(Local) + [m]];
      }
    }

    method UnmountDevice(path: Path, scope: Scope) returns (ok: bool)
      modifies this
      ensures (View(), ok) == Machine.UnmountDevice(old(View()), path, scope)
    {
      hide Run, RemoveFirst;
      var ms := Active(scope);
      var mounted := false;
      for i := 0 to |ms|
        invariant !mounted && forall j :: 0 <= j < i ==> ms[j].path != path
      {
        if ms[i].path == path {
          mounted := true;
          assert ms[i] in Cached(View(), scope);
          break;
        }
      }
      assert mounted <==> MountedAt(Cached(View(), scope), path);
      if !mounted {
        return true;
      }
      ok := Execute(Umount(path, scope));
      RunKeepsCaches(old(View()), Umount(path, scope));
      if !ok {
        return;
      }
      if MountScopesAreSeparate() {
        var rest := RemoveMountPoint(Active(scope), path);
        activeMountPoints := activeMountPoints[scope := rest];
      } else {
        var host := RemoveMountPoint(Active(Host), path);
        activeMountPoints := activeMountPoints[Host := host];
        var local := RemoveMountPoint(Active(Local), path);
        activeMountPoints := activeMountPoints[Local := local];
      }
    }

    static method RemoveMountPoint(ms: seq<Mount>, path: Path) returns (r: seq<Mount>)
      ensures r == RemoveFirst(ms, path)
    {
      for i := 0 to |ms|
        invariant forall j :: 0 <= j < i ==> ms[j].path != path
      {
        if ms[i].path == path {
          assert ms == ms[..i] + [ms[i]] + ms[i + 1..];
          RemoveFirstPast(ms[..i], ms[i], ms[i + 1..]);
          return ms[..i] + ms[i + 1..];
        }
      }
      RemoveFirstAbsent(ms, path);
      return ms;
    }

    method GetMountPointsOf(dev: DevPath, scope: Scope) returns (r: seq<Mount>)
      ensures r == MountsOf(View(), dev, scope)
    {
      r := [];
      var ms := Active(scope);
      for i := 0 to |ms|
        invariant r == OfDevice(ms[..i], dev)
      {
        assert ms[..i + 1] == ms[..i] + [ms[i]];
        OfDeviceSnoc(ms[..i], ms[i], dev);
        if ms[i].dev == dev {
          r := r + [ms[i]];
        }
      }
      assert ms[..|ms|] == ms;
    }

    /** The entries below `/srv/node`, in order: the only prefix the autopilot asks for. */
    method GetMountPointsBelowSrvNode(scope: Scope) returns (r: seq<Mount>)
      ensures r == BelowSrvNode(Cached(View(), scope))
    {
      r := [];
      var ms := Active(scope);
      for i := 0 to |ms|
        invariant r == BelowSrvNode(ms[..i])
      {
        assert ms[..i + 1][..i] == ms[..i];
        if UnderSrvNode(ms[i].path) {
          r := r + [ms[i]];
        }
      }
      assert ms[..|ms|] == ms;
    }

    /** Outside separate mode, one listing serves for both scopes. */
    method RefreshMountPoints()
      modifies this
      ensures View() == RefreshMounts(old(View()))
    {
      activeMountPoints := map[Local := kernel.local];
      if MountScopesAreSeparate() {
        activeMountPoints := activeMountPoints[Host := kernel.host];
      } else {
        activeMountPoints := activeMountPoints[Host := activeMountPoints[Local]];
      }
    }

    // ---- LUKS ----

    method OpenLuksContainer(dev: DevPath, name: string, keys: seq<string>) returns (ok: bool)
      modifies this
      ensures (View(), ok) == OpenContainer(old(View()), dev, name, keys)
    {
      hide Run;
      for i := 0 to |keys|
        invariant OpenContainer(View(), dev, name, keys[i..]) == OpenContainer(old(View()), dev, name, keys)
      {
        ghost var before := View();
        ok := Execute(LuksOpen(dev, name, keys[i]));
        RunKeepsCaches(before, LuksOpen(dev, name, keys[i]));
        assert keys[i..][1..] == keys[i + 1..];
        if ok {
          activeLuksMappings := activeLuksMappings[dev := Mapper(name)];
          return;
        }
      }
      return false;
    }

    /** The entry for the closed mapping stays in the cache until the next refresh. */
    method CloseLuksContainer(name: string) returns (ok: bool)
      modifies this
      ensures (View(), ok) == Run(old(View()), LuksClose(name))
    {
      ok := Execute(LuksClose(name));
    }

    /** `names` is the listing of all open mappings, in whatever order. When no two of them have the same
      backing device, the order does not matter. */
    method RefreshLuksMappings(names: seq<string>)
      requires forall m :: m in names <==> m in kernel.slots
      modifies this
      ensures View() == old(View()).(luks := activeLuksMappings)
      ensures activeLuksMappings.Keys == Convergers.Backings(kernel)
      ensures forall p :: p in activeLuksMappings ==>
        exists m :: m in kernel.slots && kernel.slots[m].backing == p && activeLuksMappings[p] == Mapper(m)
      ensures (forall m, n :: m in kernel.slots && n in kernel.slots && kernel.slots[m].backing == kernel.slots[n].backing ==> m == n)
        ==> activeLuksMappings == Convergers.OpenMappings(kernel)
    {
      activeLuksMappings := map[];
      for i := 0 to |names|
        invariant View() == old(View()).(luks := activeLuksMappings)
        invariant forall j :: 0 <= j < i ==> kernel.slots[names[j]].backing in activeLuksMappings
        invariant forall p :: p in activeLuksMappings ==>
          exists m :: m in kernel.slots && kernel.slots[m].backing == p && activeLuksMappings[p] == Mapper(m)
      {
        var name := names[i];
        activeLuksMappings := activeLuksMappings[kernel.slots[name].backing := Mapper(name)];
      }
      ghost var k := kernel;
      forall p | p in Convergers.Backings(k) ensures p in activeLuksMappings {
        var m :| m in k.slots && k.slots[m].backing == p;
        assert m in names;
        var j :| 0 <= j < |names| && names[j] == m;
      }
    }

    method GetLuksMappingOf(dev: DevPath) returns (r: Option<DevPath>)
      ensures r == if dev in View().luks then Some(View().luks[dev]) else None
    {
      if dev in activeLuksMappings {
        return Some(activeLuksMappings[dev]);
      }
      return None;
    }

    // ---- swift-id files ----

    method ReadSwiftId(path: Path) returns (id: Option<string>)
      modifies this
      ensures var (os', ok) := Run(old(View()), ReadId(path));
        View() == os' && id == if ok then Some(IdAt(old(kernel), path)) else None
    {
      var ok := Execute(ReadId(path));
      if !ok {
        return None;
      }
      return Some(IdAt(kernel, path));
    }

    method WriteSwiftId(path: Path, id: string) returns (ok: bool)
      modifies this
      ensures (View(), ok) == Run(old(View()), WriteId(path, id))
    {
      ok := Execute(WriteId(path, id));
    }
  }

  function BelowSrvNode(ms: seq<Mount>): seq<Mount> {
    if ms == [] then []
    else
      var n := |ms| - 1;
      BelowSrvNode(ms[..n]) + if UnderSrvNode(ms[n].path) then [ms[n]] else []
  }

  lemma RunKeepsCaches(os: Os, cmd: Cmd)
    ensures var (os', ok) := Run(os, cmd);
      os' == os.(k := os'.k, log := os'.log) && os'.k.mode == os.k.mode
  {
  }
}
