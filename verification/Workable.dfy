/** When `Setup` works: without failures and outside separate mode, it succeeds on every disk whose containers
  can be opened and whose mounts are writable and in one place. */
module Workable {
  import opened Names
  import opened Tables
  import opened Kernels
  import opened KernelFacts
  import opened Machine
  import opened MountCache
  import opened Devices
  import opened DeviceFacts
  import opened Chains
  import opened DriveFacts
  import opened Fleets
  import opened KeyRotation
  import opened Commands
  import Termination
  import Convergence
  import Moments

  /** Each container on the way is open, or is the last one and can be opened with one of the keys under a
    free name. */
  ghost predicate Openable(k: Kernel, c: Content, at: Loc, name: string, keys: seq<string>)
    decreases c
  {
    match c
    case Blank => true
    case Xfs(_) => true
    case Luks(key, inner) =>
      keys != []
      && if SlotAt(k, Deeper(at)) then Openable(k, inner, Deeper(at), name, keys)
         else key in keys && name !in k.slots && !inner.Luks?
  }

  /** What the object knows is true: it takes a device for blank if and only if it is, and the mount it
    records is there. Containers are made on whole disks only, and only with a key. */
  ghost predicate Honest(os: Os, d: Dev, keys: seq<string>)
    decreases d
  {
    && (d.formatted <==> ContentAt(os.k, d.path) != Some(Blank))
    && match d
       case XfsDev(path, _, mountPath) => mountPath.Some? ==> MountedOn(os.local, path, mountPath.value)
       case LuksDev(path, formatted, mapped, _) =>
         keys != [] && (formatted || path.Disk?) && (mapped.Some? ==> Honest(os, mapped.value, keys))
  }

  /** All mounts of the disk are writable and in one place. */
  ghost predicate Neat(os: Os, n: string, cur: Option<Path>) {
    forall m :: (m in os.host || m in os.local) && On(os.k, m.dev, n) ==> !m.ro && cur == Some(m.path)
  }

  /** The system is quiet: nothing fails, and both scopes show the same. */
  ghost predicate Smooth(os: Os, name: string) {
    && NoFailures(os.fate) && !os.k.mode.Separate? && WfK(os.k) && Sound(os) && LuksOk(os) && Fresh(os, name)
  }

  ghost predicate Fitting(os: Os, d: Dev, at: Loc, name: string, keys: seq<string>, cur: Option<Path>) {
    && ChainOk(os.k, d, at, name) && Openable(os.k, ContentOf(os.k, at).value, at, name, keys)
    && IdKept(os.k, name, at.disk) && Neat(os, at.disk, cur) && Honest(os, d, keys)
  }

  lemma SmoothReliable(os: Os, name: string)
    requires Smooth(os, name)
    ensures Reliable(os.fate) && Agree(os)
  {
    SoundAgrees(os);
    hide WfK, Sound, LuksOk, Agree;
  }

  // ---- Validate ----

  lemma ValidateXfsWorks(os: Os, d: Dev, at: Loc, name: string, keys: seq<string>, cur: Option<Path>)
    requires d.XfsDev? && Smooth(os, name) && Fitting(os, d, at, name, keys, cur)
    ensures ValidateXfs(os, d).1 && Honest(os, ValidateXfs(os, d).0, keys)
  {
    SoundAgrees(os);
    ValidateXfsShape(os, d);
    OfDeviceMember(os.host, d.path);
    OfDeviceMember(os.local, d.path);
    MountedOnIsListed(os, d.path, if d.mountPath.Some? then d.mountPath.value else RunTemp(""), Local);
    hide ValidateXfs, OfDevice, Openable, Sound, WfK, LuksOk, NoFailures, Peel;
    var h, l := MountsOf(os, d.path, Host), MountsOf(os, d.path, Local);
    assert h == l && On(os.k, d.path, at.disk);
    assert forall m :: m in l ==> !m.ro && cur == Some(m.path);
    if d.mountPath.Some? {
      ValidateXfsRecorded(os, d);
    } else {
      ValidateXfsFresh(os, d);
      if l != [] {
        assert l[0] in l;
        MountedOnIsListed(os, d.path, l[0].path, Local);
      }
    }
  }

  lemma NewHonest(os: Os, path: DevPath, at: Loc, preferLuks: bool, name: string, keys: seq<string>)
    requires Reliable(os.fate) && LocOf(os.k, path) == Some(at) && ContentOf(os.k, at).Some?
    requires Openable(os.k, ContentOf(os.k, at).value, at, name, keys) && (preferLuks ==> keys != [] && path.Disk?)
    ensures var (m, os') := NewDevice(os, path, preferLuks);
      m.Some? && Honest(os, m.value, keys) && MountedPath(m.value) == None && (m.value.LuksDev? ==> m.value.mapped.None?)
  {
    hide Peel;
  }

  lemma {:induction false} HonestLog(os: Os, os': Os, d: Dev, keys: seq<string>)
    requires os'.k.disks == os.k.disks && os'.k.slots == os.k.slots && os'.local == os.local && Honest(os, d, keys)
    ensures Honest(os', d, keys)
    decreases d
  {
    if d.LuksDev? && d.mapped.Some? {
      HonestLog(os, os', d.mapped.value, keys);
    }
  }

  lemma FittingInner(os: Os, d: Dev, at: Loc, name: string, keys: seq<string>, cur: Option<Path>)
    requires d.LuksDev? && d.mapped.Some? && WfK(os.k) && Fitting(os, d, at, name, keys, cur)
    ensures Fitting(os, d.mapped.value, Deeper(at), name, keys, cur)
    ensures ContentOf(os.k, at).value.Luks?
  {
    WfSlots(os.k);
    InsideOpen(os.k, d.path, d.mapped.value.path, at);
    hide SlotsOk, MountsOk, Peel, Neat;
    assert SlotAt(os.k, Deeper(at));
  }

  lemma OpenInner(k: Kernel, at: Loc, name: string, keys: seq<string>)
    requires SlotAt(k, Deeper(at)) && ContentOf(k, at).Some? && ContentOf(k, at).value.Luks?
    requires Openable(k, ContentOf(k, at).value, at, name, keys)
    ensures keys != [] && Openable(k, ContentOf(k, at).value.inner, Deeper(at), name, keys)
  {
  }

  lemma SmoothLog(os: Os, os': Os, name: string)
    requires Smooth(os, name) && os' == os.(log := os'.log)
    ensures Smooth(os', name)
  {
    hide WfK, Pairs, Owned;
  }

  lemma FittingLog(os: Os, os': Os, d: Dev, at: Loc, name: string, keys: seq<string>, cur: Option<Path>)
    requires Fitting(os, d, at, name, keys, cur) && os' == os.(log := os'.log)
    ensures Fitting(os', d, at, name, keys, cur)
  {
    HonestLog(os, os', d, keys);
    hide ChainOk, Openable, Honest;
  }

  lemma DiscoverFits(os: Os, d: Dev, at: Loc, name: string, keys: seq<string>, cur: Option<Path>)
    requires d.LuksDev? && Smooth(os, name) && Fitting(os, d, at, name, keys, cur)
    ensures var (d1, os1, ok) := Discover(os, d);
      ok && Smooth(os1, name) && Fitting(os1, d1, at, name, keys, cur)
  {
    SmoothReliable(os, name);
    DiscoverChain(os, d, at, name);
    var (d1, os1, ok) := Discover(os, d);
    WfSlots(os.k);
    SmoothLog(os, os1, name);
    if d.mapped.Some? || d1.mapped.None? {
      FittingLog(os, os1, d1, at, name, keys, cur);
    } else {
      var q := os.luks[d.path];
      assert d1.mapped == NewDevice(os, q, false).0;
      NewDevicePath(os, q);
      hide Discover, NewDevice, Smooth, SlotsOk, MountsOk, Neat, LuksOk, Peel;
      InsideOpen(os.k, d.path, q, at);
      OpenInner(os.k, at, name, keys);
      NewHonest(os, q, Deeper(at), false, name, keys);
      assert Honest(os, d1, keys);
      FittingLog(os, os1, d1, at, name, keys, cur);
    }
  }

  lemma NewDevicePath(os: Os, path: DevPath)
    ensures var m := NewDevice(os, path, false).0; m.Some? ==> m.value.path == path
  {
  }

  /** Validation succeeds, and records only what is true. */
  lemma {:induction false} ValidateWorks(os: Os, d: Dev, at: Loc, name: string, keys: seq<string>, cur: Option<Path>)
    requires Smooth(os, name) && Fitting(os, d, at, name, keys, cur)
    ensures var (d', os', ok) := Validate(os, d);
      ok && Smooth(os', name) && Fitting(os', d', at, name, keys, cur)
    decreases Rank(os.k, d)
  {
    SmoothReliable(os, name);
    SmoothWf(os, name);
    ValidateChain(os, d, at, name);
    if d.XfsDev? {
      ValidateXfsWorks(os, d, at, name, keys, cur);
      hide ChainOk, Openable, Honest, Neat, ValidateXfs, Smooth;
    } else {
      DiscoverFits(os, d, at, name, keys, cur);
      DiscoverChain(os, d, at, name);
      hide Discover, Smooth, Rank, Neat, Openable, ChainOk;
      var (d1, os1, ok) := Discover(os, d);
      if d1.mapped.Some? {
        SmoothWf(os1, name);
        FittingInner(os1, d1, at, name, keys, cur);
        ValidateWorks(os1, d1.mapped.value, Deeper(at), name, keys, cur);
        var (m, os2, _) := Validate(os1, d1.mapped.value);
        FittingLog(os1, os2, d1, at, name, keys, cur);
      }
    }
  }

  lemma SmoothWf(os: Os, name: string)
    requires Smooth(os, name)
    ensures WfK(os.k) && LuksOk(os) && Sound(os) && !os.k.mode.Separate? && NoFailures(os.fate) && Fresh(os, name)
  {
  }

  // ---- opening ----

  lemma CachedEntry(os: Os, m: Mount) returns (e: Mount)
    requires Agree(os) && (m in os.host || m in os.local)
    ensures IsEntry(os.k, e) && e.dev == m.dev && e.path == m.path
  {
    OwnedByPairs(os.k.host, os.host);
    OwnedByPairs(os.k.local, os.local);
    hide Pairs;
    if MountedOn(os.k.host, m.dev, m.path) {
      e :| e in os.k.host && e.dev == m.dev && e.path == m.path;
    } else {
      e :| e in os.k.local && e.dev == m.dev && e.path == m.path;
    }
  }

  lemma NeatWithin(os: Os, os': Os, n: string, cur: Option<Path>)
    requires Agree(os) && MountsOk(os.k) && Neat(os, n, cur) && os'.host == os.host && os'.local == os.local
    requires Moments.SlotsWithin(os.k, os'.k)
    ensures Neat(os', n, cur)
  {
    hide Agree, On, MountsOk, Moments.SlotsWithin;
    forall m | (m in os'.host || m in os'.local) && On(os'.k, m.dev, n) ensures !m.ro && cur == Some(m.path) {
      var e := CachedEntry(os, m);
      OnWithin(os.k, os'.k, e, n);
    }
  }

  lemma OnWithin(k: Kernel, k': Kernel, m: Mount, n: string)
    requires MountsOk(k) && IsEntry(k, m) && Moments.SlotsWithin(k, k')
    ensures On(k', m.dev, n) == On(k, m.dev, n)
  {
    Moments.SameLoc(k, k', m);
  }

  lemma SlotLuks(k: Kernel, name: string)
    requires SlotsOk(k) && name in k.slots
    ensures k.slots[name].at.disk in k.disks && k.disks[k.slots[name].at.disk].Luks?
  {
    assert SlotOk(k, k.slots[name]);
  }

  /** A blank disk holds no open container. */
  lemma BlankFree(k: Kernel, n: string, name: string)
    requires SlotsOk(k) && IdKept(k, name, n) && n in k.disks && k.disks[n] == Blank
    ensures name !in k.slots
  {
    hide SlotsOk;
    if name in k.slots {
      SlotLuks(k, name);
    }
  }

  lemma FormatWorks(os: Os, d: Dev, cmd: Cmd)
    requires NoFailures(os.fate) && (d.formatted <==> ContentAt(os.k, d.path) != Some(Blank))
    requires cmd == Mkfs(d.path) || (cmd.LuksFormat? && cmd.dev == d.path)
    ensures var (d1, os1, ok) := FormatFirst(os, d, cmd);
      && ok && d1 == d.(formatted := true)
      && ContentAt(os1.k, d.path) == (if d.formatted then ContentAt(os.k, d.path) else Some(if cmd.Mkfs? then Xfs("") else Luks(cmd.key, Blank)))
  {
    if !d.formatted {
      WithGiven(os.k, d.path, if cmd.Mkfs? then Xfs("") else Luks(cmd.key, Blank));
    }
    hide WithContent, ContentAt;
  }

  /** A container that can be opened: it has one of the keys, its name is free, and no further container is
    inside. */
  ghost predicate Unlockable(k: Kernel, path: DevPath, at: Loc, name: string, keys: seq<string>) {
    && keys != [] && LocOf(k, path) == Some(at) && ContentOf(k, at).Some? && ContentOf(k, at).value.Luks? && !SlotAt(k, Deeper(at))
    && ContentOf(k, at).value.key in keys && name !in k.slots && !ContentOf(k, at).value.inner.Luks?
  }

  lemma OpenIntoWorks(os: Os, d: Dev, order: Order, at: Loc)
    requires d.LuksDev? && d.mapped.None? && Smooth(os, order.driveId) && Unlockable(os.k, d.path, at, order.driveId, order.keys)
    ensures var (d2, os2, ok) := OpenInto(os, d, order);
      ok && d2.mapped.Some? && Honest(os2, d2.mapped.value, order.keys)
      && ContentOf(os2.k, Deeper(at)) == Some(ContentOf(os.k, at).value.inner) && IdKept(os2.k, order.driveId, at.disk)
  {
    SmoothReliable(os, order.driveId);
    assert NoFailures(os.fate) by { SmoothWf(os, order.driveId); }
    UnlockableHere(os.k, d.path, at, order.driveId, order.keys);
    KeyFound(os, d.path, order.driveId, order.keys);
    OpenOnlyByKey(os, d.path, order.driveId, order.keys);
    var (os1, ok) := OpenContainer(os, d.path, order.driveId, order.keys);
    PeelDeeper(os.k.disks[at.disk], at.depth);
    hide Smooth, OpenContainer, Peel, SlotAt;
    NewHonest(os1, Mapper(order.driveId), Deeper(at), false, order.driveId, order.keys);
    NewDevicePath(os1, Mapper(order.driveId));
    NewDeviceKernel(os1, Mapper(order.driveId));
    var (m, os2) := NewDevice(os1, Mapper(order.driveId), false);
    HonestLog(os1, os2, m.value, order.keys);
    hide NewDevice;
  }

  lemma NewDeviceKernel(os: Os, path: DevPath)
    ensures var os' := NewDevice(os, path, false).1; os' == os.(log := os'.log)
  {
  }

  lemma UnlockableHere(k: Kernel, path: DevPath, at: Loc, name: string, keys: seq<string>)
    requires Unlockable(k, path, at, name, keys)
    ensures ContentAt(k, path) == ContentOf(k, at) && Inside(k, path) == Deeper(at)
  {
  }

  /** What is there to be opened, once the container has been made if need be. */
  lemma MadeUnlockable(os: Os, d: Dev, order: Order, at: Loc, cur: Option<Path>)
    requires d.LuksDev? && d.mapped.None? && Smooth(os, order.driveId) && Fitting(os, d, at, order.driveId, order.keys, cur)
    requires Explored(os.k, d, at)
    ensures order.keys != []
    ensures var (d1, os1, ok) := FormatFirst(os, d, LuksFormat(d.path, order.keys[0]));
      && ok && d1.LuksDev? && d1.mapped.None? && d1.path == d.path && Smooth(os1, order.driveId)
      && Unlockable(os1.k, d.path, at, order.driveId, order.keys)
  {
    var cmd := LuksFormat(d.path, order.keys[0]);
    assert Smooth(os, order.driveId);
    SmoothReliable(os, order.driveId);
    SmoothWf(os, order.driveId);
    WfSlots(os.k);
    FormatWorks(os, d, cmd);
    FormatFirstChain(os, d, cmd, at, order.driveId);
    FormatFirstTables(os, d, cmd);
    var (d1, os1, _) := FormatFirst(os, d, cmd);
    if d.formatted {
      assert os1 == os;
    } else {
      assert at == Loc(at.disk, 0) && os.k.disks[at.disk] == Blank;
      BlankFree(os.k, at.disk, order.driveId);
    }
    hide FormatFirst, WfK, LuksOk, Peel, Sound, Fresh, NoFailures, SlotsOk, Neat;
    SoundSame(os, os1);
    FreshSlots(os, os1, order.driveId);
    assert Smooth(os1, order.driveId);
  }

  lemma OpenUpClosed(os: Os, d: Dev, order: Order, at: Loc, cur: Option<Path>)
    requires d.LuksDev? && d.mapped.None? && Smooth(os, order.driveId) && Fitting(os, d, at, order.driveId, order.keys, cur)
    requires Explored(os.k, d, at)
    ensures var (d2, os2, ok) := OpenUp(os, d, order);
      && ok && d2.mapped.Some? && Honest(os2, d2.mapped.value, order.keys) && IdKept(os2.k, order.driveId, at.disk)
      && ContentOf(os2.k, Deeper(at)).Some? && !ContentOf(os2.k, Deeper(at)).value.Luks?
  {
    MadeUnlockable(os, d, order, at, cur);
    var (d1, os1, _) := FormatFirst(os, d, LuksFormat(d.path, order.keys[0]));
    OpenIntoWorks(os1, d1, order, at);
    hide FormatFirst, OpenInto, Smooth, Fitting, Honest, Explored;
  }

  lemma OpenUpOpen(os: Os, d: Dev, order: Order, at: Loc, cur: Option<Path>)
    requires d.LuksDev? && d.mapped.Some? && WfK(os.k) && Fitting(os, d, at, order.driveId, order.keys, cur)
    ensures OpenUp(os, d, order) == (d, os, true)
    ensures Fitting(os, d.mapped.value, Deeper(at), order.driveId, order.keys, cur)
  {
    FittingInner(os, d, at, order.driveId, order.keys, cur);
    hide WfK, Openable, Neat, OpenInto;
  }

  lemma SmoothAfter(os: Os, os': Os, disk: string, name: string)
    requires Smooth(os, name) && Within(os, os', disk, name) && SameTables(os, os') && Fresh(os', name)
    ensures Smooth(os', name)
  {
    SoundSame(os, os');
    hide WfK, LuksOk, Sound, Fresh, Confined, CacheConfined;
  }

  /** The step into the next layer works, and all is well there. */
  lemma OpenUpWorks(os: Os, d: Dev, order: Order, at: Loc, cur: Option<Path>)
    requires d.LuksDev? && Smooth(os, order.driveId) && Fitting(os, d, at, order.driveId, order.keys, cur)
    requires Explored(os.k, d, at)
    ensures var (d2, os2, ok) := OpenUp(os, d, order);
      && ok && d2.mapped.Some? && Smooth(os2, order.driveId)
      && Fitting(os2, d2.mapped.value, Deeper(at), order.driveId, order.keys, cur)
  {
    SmoothReliable(os, order.driveId);
    SmoothWf(os, order.driveId);
    if d.mapped.Some? {
      OpenUpOpen(os, d, order, at, cur);
      hide OpenUp, Smooth, Fitting;
    } else {
      OpenUpClosed(os, d, order, at, cur);
      OpenUpChain(os, d, order, at);
      OpenUpTables(os, d, order);
      OpenUpRan(os, d, order);
      hide OpenUp, Smooth, WfK, LuksOk, ChainOk, Explored, Fresh, Honest, Neat, Peel, Ran;
      var (d2, os2, _) := OpenUp(os, d, order);
      SmoothAfter(os, os2, at.disk, order.driveId);
      InnerChain(os2.k, d2, at, order.driveId);
      RanWider(os, os2, Preparing, Building);
      SetupSlots(os, os2);
      Convergence.WfMounts(os.k);
      NeatWithin(os, os2, at.disk, cur);
    }
  }

  // ---- mounting ----

  lemma MountBothWorks(os: Os, dev: DevPath, path: Path)
    requires Sound(os) && !os.k.mode.Separate? && NoFailures(os.fate)
    requires ContentAt(os.k, dev).Some? && ContentAt(os.k, dev).value.Xfs?
    ensures MountBoth(os, dev, path).1
  {
    hide Can, Effect, OfDevice, Pairs;
    if !MountedOn(os.host, dev, path) {
      RunMount(os, dev, path, Host);
      assert Run(os, MountCmd(dev, path, Host)).1 by { MountWorks(os, dev, path, Host); }
      var os1 := MountDevice(os, dev, path, Host).0;
      assert Mount(dev, path, false) in os1.host && os1.host == os1.local;
    }
  }

  lemma SetupXfsWorks(os: Os, d: Dev, order: Order, at: Loc, cur: Option<Path>)
    requires d.XfsDev? && Smooth(os, order.driveId) && Fitting(os, d, at, order.driveId, order.keys, cur)
    ensures SetupXfs(os, d, order).2
  {
    SmoothReliable(os, order.driveId);
    SmoothWf(os, order.driveId);
    FormatWorks(os, d, Mkfs(d.path));
    FormatFirstTables(os, d, Mkfs(d.path));
    FormatFirstChain(os, d, Mkfs(d.path), at, order.driveId);
    var (d1, os1, _) := FormatFirst(os, d, Mkfs(d.path));
    SoundSame(os, os1);
    assert ContentAt(os1.k, d.path).Some? && ContentAt(os1.k, d.path).value.Xfs? by { NowXfs(os, d, os1, at, order.driveId); }
    var target := Target(d1.mountPath, order);
    hide FormatFirst, Smooth, Fitting, UnmountBoth, MountBoth, Sound, WfK, LuksOk, Reliable, NoFailures, Confined, CacheConfined;
    UnmountBothWorks(os1, d1.path, Some(target));
    UnmountBothEffect(os1, d1.path, Some(target));
    UnmountBothFate(os1, d1.path, Some(target));
    var os2 := UnmountBoth(os1, d1.path, Some(target)).0;
    ContentByDisks(os1.k, os2.k, d.path);
    MountBothWorks(os2, d1.path, target);
  }

  lemma UnmountBothFate(os: Os, dev: DevPath, keep: Option<Path>)
    requires NoFailures(os.fate)
    ensures NoFailures(UnmountBoth(os, dev, keep).0.fate)
  {
    UnmountBothRan(os, dev, keep, Commands.Tearing);
    hide UnmountBoth;
  }

  lemma NowXfs(os: Os, d: Dev, os1: Os, at: Loc, name: string)
    requires d.XfsDev? && ChainOk(os.k, d, at, name) && (d.formatted <==> ContentAt(os.k, d.path) != Some(Blank))
    requires ContentAt(os1.k, d.path) == if d.formatted then ContentAt(os.k, d.path) else Some(Xfs(""))
    ensures ContentAt(os1.k, d.path).Some? && ContentAt(os1.k, d.path).value.Xfs?
  {
  }

  /** Without failures and outside separate mode, `Setup` succeeds on a disk whose containers can be opened
    and whose mounts are writable and in one place. */
  lemma {:induction false} SetupWorks(os: Os, d: Dev, order: Order, at: Loc, cur: Option<Path>)
    requires Smooth(os, order.driveId) && Fitting(os, d, at, order.driveId, order.keys, cur)
    ensures Setup(os, d, order).2
    decreases Rank(os.k, d)
  {
    SmoothReliable(os, order.driveId);
    SmoothWf(os, order.driveId);
    assert ChainOk(os.k, d, at, order.driveId);
    ValidateChain(os, d, at, order.driveId);
    ValidateWorks(os, d, at, order.driveId, order.keys, cur);
    hide Smooth, Fitting, ChainOk, Validate, OpenUp, SetupXfs, Rank, WfK, LuksOk, Sound, Reliable, Explored;
    var (d1, os1, _) := Validate(os, d);
    if d1.XfsDev? {
      SetupXfsWorks(os1, d1, order, at, cur);
    } else {
      OpenUpWorks(os1, d1, order, at, cur);
      Termination.SetupDescends(os, d, order, at);
      var (d2, os2, _) := OpenUp(os1, d1, order);
      SetupWorks(os2, d2.mapped.value, order, Deeper(at), cur);
    }
  }
}
