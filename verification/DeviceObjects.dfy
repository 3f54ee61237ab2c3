/** The device layers as objects that keep their own state (`XFSDevice`, `LUKSDevice`), each method tied to
  the function of module `Devices` that specifies it.

  A LUKS layer owns the layer inside it; `repr` is the set of objects of the whole chain.
 */
module DeviceObjects {
  import opened Names
  import opened Tables
  import opened Kernels
  import opened Machine
  import opened MountCache
  import opened Devices
  import opened LinuxObject

  /** The `Device` interface: an XFS layer, a LUKS layer, or nil. */
  datatype Device = NoDevice | XfsLayer(x: XfsDevice) | LuksLayer(l: LuksDevice)

  class XfsDevice {
    const path: DevPath
    var formatted: bool
    var mountPath: Option<Path>

    constructor (path: DevPath, formatted: bool)
      ensures View() == XfsDev(path, formatted, None)
    {
      this.path, this.formatted, mountPath := path, formatted, None;
    }

    function View(): (d: Dev)
      reads this
      ensures d.XfsDev?
    {
      XfsDev(path, formatted, mountPath)
    }

    /** One scope: a recorded mount that is gone is forgotten and reported, a mount seen for the first time
      is recorded, and anything read-only or elsewhere is an error. */
    method ValidateScope(os: Linux, scope: Scope) returns (ok: bool)
      modifies `mountPath
      ensures (mountPath, ok) == CheckScope(MountsOf(os.View(), path, scope), old(mountPath))
    {
      var ms := os.GetMountPointsOf(path, scope);
      if ms == [] {
        if mountPath == None {
          return true;
        }
        mountPath := None;
        CheckScopeLost(old(mountPath));
        return false;
      }
      for i := 0 to |ms|
        invariant CheckMounts(ms[i..], mountPath) == CheckMounts(ms, old(mountPath))
      {
        assert ms[i..][1..] == ms[i + 1..];
        if ms[i].ro {
          return false;
        }
        if mountPath == None {
          mountPath := Some(ms[i].path);
        } else if Some(ms[i].path) != mountPath {
          return false;
        }
      }
      return true;
    }

    method Validate(os: Linux) returns (ok: bool)
      modifies `mountPath
      ensures (View(), ok) == ValidateXfs(os.View(), old(View()))
    {
      hide CheckScope, MountsOf;
      ok := ValidateScope(os, Host);
      if ok {
        ok := ValidateScope(os, Local);
      }
    }

    method Format(os: Linux) returns (ok: bool)
      modifies `formatted, os
      ensures (View(), os.View(), ok) == FormatFirst(old(os.View()), old(View()), Mkfs(path))
    {
      hide Run, Machine.ClassifyDevice;
      if formatted {
        return true;
      }
      var kind := os.ClassifyDevice(path);
      if !kind.Unknown? {
        return false;
      }
      ok := os.Execute(Mkfs(path));
      if ok {
        formatted := true;
      }
    }

    method Setup(os: Linux, order: Order) returns (ok: bool)
      modifies this, os
      ensures (View(), os.View(), ok) == Devices.Setup(old(os.View()), old(View()), order)
    {
      hide ValidateXfs, FormatFirst, UnmountBoth, MountBoth, Target;
      ok := Validate(os);
      if !ok {
        return;
      }
      ok := Format(os);
      if !ok {
        return;
      }
      var target := Target(mountPath, order);
      ok := UnmountAll(os, path, Some(target));
      if !ok {
        return;
      }
      if mountPath != Some(target) {
        mountPath := None;
      }
      ok := MountAll(os, path, target);
      if ok {
        mountPath := Some(target);
      }
    }

    method Teardown(os: Linux) returns (ok: bool)
      modifies this, os
      ensures (View(), os.View(), ok) == Devices.Teardown(old(os.View()), old(View()))
    {
      ok := UnmountAll(os, path, None);
      if ok {
        mountPath := None;
      }
    }
  }

  lemma CheckScopeLost(mp: Option<Path>)
    ensures CheckScope([], mp) == (None, mp.None?)
  {
  }

  /** Lists the mounts of `dev` in one scope and unmounts those not at `keep`. The table shrinks while the
    loop goes through the listing made before. */
  method UnmountScope(os: Linux, dev: DevPath, keep: Option<Path>, scope: Scope) returns (ok: bool)
    modifies os
    ensures (os.View(), ok) == UnmountThose(old(os.View()), MountsOf(old(os.View()), dev, scope), keep, scope)
  {
    hide UnmountDevice, MountsOf;
    var ms := os.GetMountPointsOf(dev, scope);
    for i := 0 to |ms|
      invariant UnmountThose(os.View(), ms[i..], keep, scope) == UnmountThose(old(os.View()), ms, keep, scope)
    {
      assert ms[i..][1..] == ms[i + 1..];
      if Some(ms[i].path) != keep {
        ok := os.UnmountDevice(ms[i].path, scope);
        if !ok {
          return;
        }
      }
    }
    return true;
  }

  method UnmountAll(os: Linux, dev: DevPath, keep: Option<Path>) returns (ok: bool)
    modifies os
    ensures (os.View(), ok) == UnmountBoth(old(os.View()), dev, keep)
  {
    hide UnmountThose, MountsOf;
    ok := UnmountScope(os, dev, keep, Host);
    if ok {
      ok := UnmountScope(os, dev, keep, Local);
    }
  }

  method MountAll(os: Linux, dev: DevPath, path: Path) returns (ok: bool)
    modifies os
    ensures (os.View(), ok) == MountBoth(old(os.View()), dev, path)
  {
    hide Machine.MountDevice;
    ok := os.MountDevice(dev, path, Host);
    if ok {
      ok := os.MountDevice(dev, path, Local);
    }
  }

  // ---- LUKS ----

  class LuksDevice {
    const path: DevPath
    var formatted: bool
    var mapped: Device
    var mappingName: Option<string>
    ghost var repr: set<object>

    ghost predicate Valid()
      reads this, repr
      decreases repr
    {
      && this in repr
      && match mapped
         case NoDevice => true
         case XfsLayer(x) => x in repr && x as object != this
         case LuksLayer(l) => l in repr && l.repr <= repr && this !in l.repr && l.Valid()
    }

    function View(): (d: Dev)
      requires Valid()
      reads this, repr
      ensures d.LuksDev? && d.path == path
      decreases repr
    {
      var inner :=
        match mapped
        case NoDevice => None
        case XfsLayer(x) => Some(x.View())
        case LuksLayer(l) => Some(l.View());
      LuksDev(path, formatted, inner, mappingName)
    }

    constructor (path: DevPath, formatted: bool)
      ensures Valid() && fresh(repr) && View() == LuksDev(path, formatted, None, None)
    {
      this.path, this.formatted, mapped, mappingName := path, formatted, NoDevice, None;
      repr := {this};
    }

    /** Compares the mapping on record with the one in the cache, and records one seen for the first time. */
    method Discover(os: Linux) returns (ok: bool)
      requires Valid() && os !in repr
      modifies this, os
      ensures Valid() && os !in repr && fresh(repr - old(repr))
      ensures (View(), os.View(), ok) == Devices.Discover(old(os.View()), old(View()))
    {
      hide Devices.NewDevice, MountsOf;
      var actual := os.GetLuksMappingOf(path);
      if actual == None {
        if mapped != NoDevice {
          return false;
        }
      } else if mapped == NoDevice {
        mapped := MakeDevice(os, actual.value, false);
        repr := repr + Footprint(mapped);
      } else if actual != Some(DevicePath(mapped)) {
        return false;
      }
      var host := os.GetMountPointsOf(path, Host);
      if host != [] {
        return false;
      }
      var local := os.GetMountPointsOf(path, Local);
      return local == [];
    }

    /** The check on the rank stands for the recursion that would otherwise not end. */
    method Validate(os: Linux) returns (ok: bool)
      requires Valid() && os !in repr
      modifies repr, os
      ensures Valid() && os !in repr && fresh(repr - old(repr))
      ensures (View(), os.View(), ok) == Devices.Validate(old(os.View()), old(View()))
      decreases Rank(os.View().k, View())
    {
      hide Devices.Discover, ValidateXfs, Rank;
      var rank := Rank(os.kernel, View());
      ok := Discover(os);
      if !ok || mapped == NoDevice {
        return;
      }
      if Rank(os.kernel, ViewOf(mapped).value) >= rank {
        return false;
      }
      match mapped {
        case XfsLayer(x) =>
          ok := x.Validate(os);
        case LuksLayer(l) =>
          ok := l.Validate(os);
          repr := repr + l.repr;
      }
    }

    method Format(os: Linux, order: Order) returns (ok: bool)
      requires Valid() && os !in repr && order.keys != []
      modifies `formatted, os
      ensures Valid() && repr == old(repr) && mapped == old(mapped)
      ensures (View(), os.View(), ok) == FormatFirst(old(os.View()), old(View()), LuksFormat(path, order.keys[0]))
    {
      hide Run, Machine.ClassifyDevice;
      if formatted {
        return true;
      }
      var kind := os.ClassifyDevice(path);
      if !kind.Unknown? {
        return false;
      }
      ok := os.Execute(LuksFormat(path, order.keys[0]));
      if ok {
        formatted := true;
      }
    }

    /** Formats on first use, then opens the container unless it is known to be open. */
    method Open(os: Linux, order: Order) returns (ok: bool)
      requires Valid() && os !in repr
      modifies this, os
      ensures Valid() && os !in repr && fresh(repr - old(repr))
      ensures (View(), os.View(), ok) == OpenUp(old(os.View()), old(View()), order)
    {
      hide FormatFirst, OpenContainer, Devices.NewDevice;
      if order.keys == [] {
        return false;
      }
      ok := Format(os, order);
      if !ok || mapped != NoDevice {
        return;
      }
      ok := os.OpenLuksContainer(path, order.driveId, order.keys);
      if !ok {
        return;
      }
      mapped := MakeDevice(os, Mapper(order.driveId), false);
      repr := repr + Footprint(mapped);
      mappingName := Some(order.driveId);
      ok := mapped != NoDevice;
    }

    method Setup(os: Linux, order: Order) returns (ok: bool)
      requires Valid() && os !in repr
      modifies repr, os
      ensures Valid() && os !in repr && fresh(repr - old(repr))
      ensures (View(), os.View(), ok) == Devices.Setup(old(os.View()), old(View()), order)
      decreases Rank(os.View().k, View())
    {
      hide Devices.Validate, OpenUp, SetupXfs, Rank;
      var rank := Rank(os.kernel, View());
      ok := Validate(os);
      if !ok {
        return;
      }
      ok := Open(os, order);
      if !ok || mapped == NoDevice || Rank(os.kernel, ViewOf(mapped).value) >= rank {
        return false;
      }
      match mapped {
        case XfsLayer(x) =>
          ok := x.Setup(os, order);
        case LuksLayer(l) =>
          ok := l.Setup(os, order);
          repr := repr + l.repr;
      }
    }

    /** The layers inside go first; a mapping this layer did not open itself is left open. */
    method Teardown(os: Linux) returns (ok: bool)
      requires Valid() && os !in repr
      modifies repr, os
      ensures Valid() && os !in repr && fresh(repr - old(repr))
      ensures (View(), os.View(), ok) == Devices.Teardown(old(os.View()), old(View()))
      decreases repr
    {
      hide Run, UnmountBoth;
      match mapped {
        case NoDevice =>
        case XfsLayer(x) =>
          ok := x.Teardown(os);
          if !ok {
            return;
          }
        case LuksLayer(l) =>
          ok := l.Teardown(os);
          repr := repr + l.repr;
          if !ok {
            return;
          }
      }
      mapped := NoDevice;
      if mappingName != None {
        ok := os.CloseLuksContainer(mappingName.value);
        if !ok {
          return;
        }
        mappingName := None;
      }
      return true;
    }
  }

  // ---- any layer ----

  ghost function Footprint(d: Device): set<object>
    reads if d.LuksLayer? then {d.l} else {}
  {
    match d
    case NoDevice => {}
    case XfsLayer(x) => {x}
    case LuksLayer(l) => l.repr
  }

  ghost predicate Sane(d: Device)
    reads if d.LuksLayer? then {d.l} + d.l.repr else {}
  {
    d.LuksLayer? ==> d.l.Valid()
  }

  function ViewOf(d: Device): Option<Dev>
    requires Sane(d)
    reads if d.LuksLayer? then {d.l} + d.l.repr else if d.XfsLayer? then {d.x} else {}
  {
    match d
    case NoDevice => None
    case XfsLayer(x) => Some(x.View())
    case LuksLayer(l) => Some(l.View())
  }

  function DevicePath(d: Device): DevPath
    requires d != NoDevice
  {
    match d
    case XfsLayer(x) => x.path
    case LuksLayer(l) => l.path
  }

  method MakeDevice(os: Linux, path: DevPath, preferLuks: bool) returns (d: Device)
    modifies os
    ensures Sane(d) && fresh(Footprint(d))
    ensures (ViewOf(d), os.View()) == Devices.NewDevice(old(os.View()), path, preferLuks)
  {
    hide Machine.ClassifyDevice;
    var kind := os.ClassifyDevice(path);
    match kind {
      case Unreadable =>
        d := NoDevice;
      case Unknown =>
        if preferLuks {
          var l := new LuksDevice(path, false);
          d := LuksLayer(l);
        } else {
          var x := new XfsDevice(path, false);
          d := XfsLayer(x);
        }
      case LuksKind =>
        var l := new LuksDevice(path, true);
        d := LuksLayer(l);
      case Filesystem =>
        var x := new XfsDevice(path, true);
        d := XfsLayer(x);
    }
  }
}
