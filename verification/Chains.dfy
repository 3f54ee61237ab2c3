/** How a drive's layers correspond to what is open in the kernel, and how far one drive's operations
  reach: never beyond its own disk. */
module Chains {
  import opened Names
  import opened Tables
  import opened Kernels
  import opened KernelFacts
  import opened Machine
  import opened MountCache
  import opened Devices
  import opened DeviceFacts
  import opened Commands
  import opened Preservation

  function Deeper(at: Loc): Loc {
    at.(depth := at.depth + 1)
  }

  /** `q` is the open mapping of the container on `path`. */
  predicate Opens(k: Kernel, path: DevPath, q: DevPath, at: Loc) {
    q.Mapper? && q.name in k.slots && k.slots[q.name] == Slot(path, Deeper(at))
  }

  /** Each layer sits where it says, fits what is there, and each recorded mapping is the open one. */
  ghost predicate ChainOk(k: Kernel, d: Dev, at: Loc, driveId: string)
    decreases d
  {
    && LocOf(k, d.path) == Some(at)
    && ContentOf(k, at).Some?
    && match d
       case XfsDev(_, _, _) => !ContentOf(k, at).value.Luks?
       case LuksDev(path, _, mapped, mappingName) =>
         && !ContentOf(k, at).value.Xfs?
         && (mapped.Some? ==> Opens(k, path, mapped.value.path, at) && ChainOk(k, mapped.value, Deeper(at), driveId))
         && (mappingName.Some? ==> mappingName.value == driveId && Opens(k, path, Mapper(driveId), at))
  }

  /** The chain ends where the open mappings end. */
  ghost predicate Explored(k: Kernel, d: Dev, at: Loc)
    decreases d
  {
    d.XfsDev? || if d.mapped.Some? then Explored(k, d.mapped.value, Deeper(at)) else !SlotAt(k, Deeper(at))
  }

  /** The mapping cache knows every open mapping, and misplaces none. It may still name closed ones. */
  ghost predicate LuksOk(os: Os) {
    && (forall m :: m in os.k.slots ==> os.k.slots[m].backing in os.luks && os.luks[os.k.slots[m].backing] == Mapper(m))
    && (forall p :: p in os.luks ==> os.luks[p].Mapper?)
    && (forall p :: p in os.luks && os.luks[p].name in os.k.slots ==> os.k.slots[os.luks[p].name].backing == p)
  }

  /** The cache holds no closed mapping under this name. */
  ghost predicate Fresh(os: Os, name: string) {
    forall p :: p in os.luks && os.luks[p] == Mapper(name) ==> name in os.k.slots
  }

  /** Device contents, umount and swift-id files can always be read or done. Everything else may fail. */
  ghost predicate Reliable(fate: (nat, Cmd) -> bool) {
    forall i, c: Cmd :: c.Classify? || c.Umount? || c.ReadId? ==> fate(i, c)
  }

  /** Only `disk` and the slots on it differ. */
  ghost predicate Confined(k: Kernel, k': Kernel, disk: string) {
    && (forall n :: n != disk ==> (n in k.disks <==> n in k'.disks))
    && (forall n :: n != disk && n in k.disks ==> k'.disks[n] == k.disks[n])
    && (forall m :: m in k.slots && k.slots[m].at.disk != disk ==> m in k'.slots && k'.slots[m] == k.slots[m])
    && (forall m :: m in k'.slots && k'.slots[m].at.disk != disk ==> m in k.slots && k'.slots[m] == k.slots[m])
  }

  /** The mapping cache gained entries under `name` at most, and the kernel no other slot. */
  ghost predicate CacheConfined(os: Os, os': Os, name: string) {
    && (forall p :: p in os'.luks ==> os'.luks[p] == Mapper(name) || (p in os.luks && os'.luks[p] == os.luks[p]))
    && (forall m :: m in os'.k.slots ==> m == name || m in os.k.slots)
  }

  lemma ConfinedTransitive(a: Kernel, b: Kernel, c: Kernel, disk: string)
    requires Confined(a, b, disk) && Confined(b, c, disk)
    ensures Confined(a, c, disk)
  {
  }

  lemma ConfinedSame(a: Kernel, b: Kernel, disk: string)
    requires a.disks == b.disks && a.slots == b.slots
    ensures Confined(a, b, disk)
  {
  }

  lemma CacheConfinedTransitive(a: Os, b: Os, c: Os, name: string)
    requires CacheConfined(a, b, name) && CacheConfined(b, c, name)
    ensures CacheConfined(a, c, name)
  {
  }

  // ---- a container that is open at most once ----

  lemma SlotBacking(k: Kernel, path: DevPath, at: Loc, m: string)
    requires SlotsOk(k) && LocOf(k, path) == Some(at) && m in k.slots && k.slots[m].at == Deeper(at)
    ensures k.slots[m].backing == path
  {
    assert SlotOk(k, k.slots[m]);
    DeviceAt(k, k.slots[m].backing, path);
  }

  /** The cache answers for the device at `at` exactly when its container is open. */
  lemma CacheTells(os: Os, path: DevPath, at: Loc)
    requires SlotsOk(os.k) && LuksOk(os) && LocOf(os.k, path) == Some(at)
    ensures path !in os.luks ==> !SlotAt(os.k, Deeper(at))
    ensures path in os.luks && os.luks[path].name !in os.k.slots ==> !SlotAt(os.k, Deeper(at))
    ensures path in os.luks && os.luks[path].name in os.k.slots ==> Opens(os.k, path, os.luks[path], at)
    ensures forall q :: Opens(os.k, path, q, at) ==> path in os.luks && os.luks[path] == q
  {
    if SlotAt(os.k, Deeper(at)) {
      var m :| m in os.k.slots && os.k.slots[m].at == Deeper(at);
      SlotBacking(os.k, path, at, m);
    }
    if path in os.luks && os.luks[path].name in os.k.slots {
      var s := os.k.slots[os.luks[path].name];
      assert SlotOk(os.k, s);
      assert Deeper(Below(s.at)) == s.at;
    }
  }

  lemma InsideOpen(k: Kernel, path: DevPath, q: DevPath, at: Loc)
    requires SlotsOk(k) && LocOf(k, path) == Some(at) && Opens(k, path, q, at)
    ensures ContentOf(k, at).Some? && ContentOf(k, at).value.Luks?
    ensures ContentOf(k, Deeper(at)) == Some(ContentOf(k, at).value.inner)
    ensures ContentAt(k, q) == ContentOf(k, Deeper(at)) && LocOf(k, q) == Some(Deeper(at))
  {
    assert SlotOk(k, k.slots[q.name]);
    assert Below(Deeper(at)) == at;
    PeelDeeper(k.disks[at.disk], at.depth);
  }

  /** A device whose content is no filesystem is not mounted. */
  lemma NotMounted(os: Os, path: DevPath)
    requires WfK(os.k) && Agree(os) && ContentAt(os.k, path).Some? && !ContentAt(os.k, path).value.Xfs?
    ensures Unmounted(os, path)
  {
    EntriesOf(os, path, Host);
    EntriesOf(os, path, Local);
    EmptyOrNot(MountsOf(os, path, Host));
    EmptyOrNot(MountsOf(os, path, Local));
  }

  lemma EntriesOf(os: Os, path: DevPath, scope: Scope)
    requires Agree(os)
    ensures forall m :: m in MountsOf(os, path, scope) ==> m in Cached(os, scope) && m.dev == path && MountedOn(Table(os.k, scope), path, m.path)
  {
    OfDeviceMember(Cached(os, scope), path);
    OwnedByPairs(Table(os.k, scope), Cached(os, scope));
  }

  // ---- Validate ----

  lemma NewDeviceOk(os: Os, path: DevPath, at: Loc, driveId: string, preferLuks: bool)
    requires Reliable(os.fate) && LocOf(os.k, path) == Some(at) && ContentOf(os.k, at).Some?
    ensures var (m, os') := NewDevice(os, path, preferLuks);
      m.Some? && m.value.path == path && ChainOk(os.k, m.value, at, driveId) && os' == os.(log := os'.log)
      && (m.value.LuksDev? ==> m.value.mapped.None? && m.value.mappingName.None?)
      && (m.value.LuksDev? && !preferLuks ==> ContentOf(os.k, at).value.Luks?)
  {
  }

  lemma NewDeviceGone(os: Os, path: DevPath, preferLuks: bool)
    requires LocOf(os.k, path).None?
    ensures NewDevice(os, path, preferLuks).0.None?
  {
  }

  lemma DiscoverChain(os: Os, d: Dev, at: Loc, driveId: string)
    requires d.LuksDev? && WfK(os.k) && Agree(os) && LuksOk(os) && Reliable(os.fate) && ChainOk(os.k, d, at, driveId)
    ensures var (d', os', ok) := Discover(os, d);
      && ok && ChainOk(os.k, d', at, driveId) && os' == os.(log := os'.log)
      && (d'.mapped.None? ==> !SlotAt(os.k, Deeper(at)))
      && (d'.mapped.Some? ==> Rank(os.k, d'.mapped.value) < Rank(os.k, d))
  {
    hide ClassifyDevice, Unmounted, LuksOk;
    NotMounted(os, d.path);
    CacheTells(os, d.path, at);
    if d.path in os.luks && d.mapped.None? {
      var q := os.luks[d.path];
      var (m, os') := NewDevice(os, q, false);
      NewDeviceTables(os, q, false);
      UnmountedLog(os, os', d.path);
      assert q.Mapper? by { LuksNames(os, d.path); }
      if q.name in os.k.slots {
        InsideOpen(os.k, d.path, q, at);
        NewDeviceOk(os, q, Deeper(at), driveId, false);
      } else {
        NewDeviceGone(os, q, false);
      }
    }
  }

  lemma LuksNames(os: Os, p: DevPath)
    requires LuksOk(os) && p in os.luks
    ensures os.luks[p].Mapper?
  {
  }

  lemma UnmountedLog(os: Os, os': Os, path: DevPath)
    requires os'.host == os.host && os'.local == os.local
    ensures Unmounted(os, path) == Unmounted(os', path)
  {
  }

  lemma {:induction false} ValidateChain(os: Os, d: Dev, at: Loc, driveId: string)
    requires WfK(os.k) && Agree(os) && LuksOk(os) && Reliable(os.fate) && ChainOk(os.k, d, at, driveId)
    ensures var (d', os', _) := Validate(os, d);
      && ChainOk(os.k, d', at, driveId) && Explored(os.k, d', at) && os' == os.(log := os'.log)
    decreases Rank(os.k, d)
  {
    hide Discover, LuksOk, SlotsOk, MountsOk, ValidateXfs, SlotAt;
    if d.XfsDev? {
      ValidateXfsShape(os, d);
    } else {
      DiscoverChain(os, d, at, driveId);
      var (d1, os1, ok) := Discover(os, d);
      if d1.mapped.Some? {
        LuksOkLog(os, os1);
        ValidateChain(os1, d1.mapped.value, Deeper(at), driveId);
      }
    }
  }

  lemma LuksOkLog(os: Os, os': Os)
    requires os' == os.(log := os'.log)
    ensures LuksOk(os) ==> LuksOk(os')
  {
  }

  lemma ValidateXfsShape(os: Os, d: Dev)
    requires d.XfsDev?
    ensures ValidateXfs(os, d).0 == d.(mountPath := ValidateXfs(os, d).0.mountPath)
  {
  }

  // ---- Setup ----

  /** What one drive's operations on its own chain keep. */
  ghost predicate Within(os: Os, os': Os, disk: string, driveId: string) {
    && WfK(os'.k) && LuksOk(os') && Confined(os.k, os'.k, disk) && CacheConfined(os, os', driveId)
    && os'.fate == os.fate
  }

  lemma WithinTransitive(a: Os, b: Os, c: Os, disk: string, driveId: string)
    requires Within(a, b, disk, driveId) && Within(b, c, disk, driveId)
    ensures Within(a, c, disk, driveId)
  {
    hide WfK, LuksOk;
    ConfinedTransitive(a.k, b.k, c.k, disk);
    CacheConfinedTransitive(a, b, c, driveId);
  }

  /** Nothing but the log and the mount tables has changed. */
  lemma WithinTables(a: Os, b: Os, disk: string, driveId: string)
    requires LuksOk(a) && WfK(b.k) && b.fate == a.fate && b.luks == a.luks
    requires b.k.disks == a.k.disks && b.k.slots == a.k.slots
    ensures Within(a, b, disk, driveId)
    ensures Fresh(a, driveId) ==> Fresh(b, driveId)
  {
  }

  lemma {:induction false} ChainOkSame(k: Kernel, k': Kernel, d: Dev, at: Loc, driveId: string)
    requires k.disks == k'.disks && k.slots == k'.slots && ChainOk(k, d, at, driveId)
    ensures ChainOk(k', d, at, driveId)
    decreases d
  {
    if d.LuksDev? && d.mapped.Some? {
      ChainOkSame(k, k', d.mapped.value, Deeper(at), driveId);
    }
  }

  lemma {:induction false} ExploredSame(k: Kernel, k': Kernel, d: Dev, at: Loc)
    requires k.slots == k'.slots && Explored(k, d, at)
    ensures Explored(k', d, at)
    decreases d
  {
    if d.LuksDev? && d.mapped.Some? {
      ExploredSame(k, k', d.mapped.value, Deeper(at));
    }
  }

  lemma RanWf(a: Os, b: Os, p: Cmd -> bool)
    requires WfK(a.k) && Ran(a, b, p)
    ensures WfK(b.k) && a.fate == b.fate
  {
    hide WfK;
    TraceWf(a.k, Since(a, b), b.k);
  }

  /** A format succeeds only at the end of the chain, where the device is blank. */
  lemma FormattedChain(k: Kernel, d: Dev, d': Dev, x: Content, at: Loc, driveId: string)
    requires SlotsOk(k) && ChainOk(k, d, at, driveId) && Explored(k, d, at) && ContentAt(k, d.path) == Some(Blank)
    requires d' == d.(formatted := true) && (if d.XfsDev? then x.Xfs? else x.Luks?)
    ensures var k' := WithContent(k, d.path, x);
      ChainOk(k', d', at, driveId) && Explored(k', d', at) && Confined(k, k', at.disk)
  {
    var k' := WithContent(k, d.path, x);
    PeelGraft(k.disks[at.disk], at.depth, x);
    assert ContentOf(k', at) == Some(x);
    if d.LuksDev? && d.mapped.Some? {
      InsideOpen(k, d.path, d.mapped.value.path, at);
    }
    if d.LuksDev? && d.mappingName.Some? {
      InsideOpen(k, d.path, Mapper(driveId), at);
    }
  }

  lemma FormatFirstChain(os: Os, d: Dev, cmd: Cmd, at: Loc, driveId: string)
    requires WfK(os.k) && LuksOk(os) && ChainOk(os.k, d, at, driveId) && Explored(os.k, d, at)
    requires if d.XfsDev? then cmd == Mkfs(d.path) else cmd.LuksFormat? && cmd.dev == d.path
    ensures var (d', os', _) := FormatFirst(os, d, cmd);
      && Within(os, os', at.disk, driveId) && ChainOk(os'.k, d', at, driveId) && Explored(os'.k, d', at)
      && os'.luks == os.luks && os'.k.slots == os.k.slots
  {
    FormatFirstShape(os, d, cmd);
    FormatFirstRan(os, d, cmd);
    hide FormatFirst, WfK, ChainOk, Explored, WithContent, Confined, Ran;
    var (d', os', ok) := FormatFirst(os, d, cmd);
    RanWf(os, os', Preparing);
    if d.formatted || !ok {
      ChainOkSame(os.k, os'.k, d, at, driveId);
      ExploredSame(os.k, os'.k, d, at);
      ConfinedSame(os.k, os'.k, at.disk);
    } else {
      WfSlots(os.k);
      FormattedChain(os.k, d, d', if cmd.Mkfs? then Xfs("") else Luks(cmd.key, Blank), at, driveId);
      LuksOkSlots(os, os');
    }
  }

  lemma WfSlots(k: Kernel)
    requires WfK(k)
    ensures SlotsOk(k) && MountsOk(k)
  {
  }

  lemma LuksOkSlots(os: Os, os': Os)
    requires LuksOk(os) && os'.luks == os.luks && os'.k.slots == os.k.slots
    ensures LuksOk(os')
  {
  }

  lemma FormatFirstShape(os: Os, d: Dev, cmd: Cmd)
    requires cmd == Mkfs(d.path) || (cmd.LuksFormat? && cmd.dev == d.path)
    ensures var (d', os', ok) := FormatFirst(os, d, cmd);
      var x := if cmd.Mkfs? then Xfs("") else Luks(cmd.key, Blank);
      && os' == os.(k := os'.k, log := os'.log)
      && (d.formatted || !ok ==> os'.k == os.k && d' == d)
      && (!d.formatted && ok ==> ContentAt(os.k, d.path) == Some(Blank))
      && (!d.formatted && ok ==> d' == d.(formatted := true) && os'.k == WithContent(os.k, d.path, x))
  {
    hide ClassifyDevice, Run, WithContent;
    ClassifyTables(os, d.path);
    ClassifyRan(os, d.path, Building);
    RunFormatShape(ClassifyDevice(os, d.path).1, cmd);
  }

  lemma RunFormatShape(os: Os, cmd: Cmd)
    requires cmd.Mkfs? || cmd.LuksFormat?
    ensures var (os', ok) := Run(os, cmd);
      var x := if cmd.Mkfs? then Xfs("") else Luks(cmd.key, Blank);
      && os' == os.(k := os'.k, log := os'.log)
      && (!ok ==> os'.k == os.k)
      && (ok ==> ContentAt(os.k, cmd.dev).Some? && os'.k == WithContent(os.k, cmd.dev, x))
  {
    hide WithContent;
  }

  // ---- opening ----

  /** The kernel and the cache after the container on `path` has been opened under `name`. */
  ghost predicate Opened(os: Os, os': Os, path: DevPath, at: Loc, name: string) {
    && os'.k == os.k.(slots := os.k.slots[name := Slot(path, Deeper(at))])
    && os'.luks == os.luks[path := Mapper(name)] && os'.fate == os.fate
  }

  /** Opening the container at the end of a chain keeps the cache in step. */
  lemma OpenedCache(os: Os, os': Os, path: DevPath, at: Loc, name: string)
    requires SlotsOk(os.k) && LuksOk(os) && Fresh(os, name) && LocOf(os.k, path) == Some(at)
    requires !SlotAt(os.k, Deeper(at)) && name !in os.k.slots && Opened(os, os', path, at, name)
    ensures LuksOk(os') && Fresh(os', name) && CacheConfined(os, os', name)
  {
    hide Peel, SlotsOk;
    forall m | m in os'.k.slots
      ensures os'.k.slots[m].backing in os'.luks && os'.luks[os'.k.slots[m].backing] == Mapper(m)
    {
      if m != name {
        NotBacked(os.k, path, at, m);
      }
    }
  }

  lemma NotBacked(k: Kernel, path: DevPath, at: Loc, m: string)
    requires SlotsOk(k) && LocOf(k, path) == Some(at) && !SlotAt(k, Deeper(at)) && m in k.slots
    ensures k.slots[m].backing != path
  {
    assert SlotAt(k, k.slots[m].at);
    assert SlotOk(k, k.slots[m]);
    assert Deeper(Below(k.slots[m].at)) == k.slots[m].at;
  }

  lemma LocSlot(k: Kernel, dev: DevPath)
    requires LocOf(k, dev).Some? && LocOf(k, dev).value.depth > 0
    ensures SlotAt(k, LocOf(k, dev).value)
  {
  }

  lemma OpenedChain(os: Os, os': Os, d: Dev, at: Loc, name: string)
    requires SlotsOk(os.k) && ChainOk(os.k, d, at, name)
    requires d.LuksDev? && d.mapped.None? && !SlotAt(os.k, Deeper(at)) && name !in os.k.slots
    requires Opened(os, os', d.path, at, name)
    ensures Opens(os'.k, d.path, Mapper(name), at) && ChainOk(os'.k, d, at, name)
    ensures Confined(os.k, os'.k, at.disk)
  {
    hide Peel;
    assert ContentOf(os'.k, at) == ContentOf(os.k, at);
  }

  /** Nothing is open inside a container that has only just been opened. */
  lemma NothingInside(os: Os, os': Os, path: DevPath, at: Loc, name: string)
    requires SlotsOk(os.k) && !SlotAt(os.k, Deeper(at)) && Opened(os, os', path, at, name)
    ensures !SlotAt(os'.k, Deeper(Deeper(at)))
  {
    hide Peel;
    forall m | m in os'.k.slots ensures os'.k.slots[m].at != Deeper(Deeper(at)) {
      if m != name {
        var s := os.k.slots[m];
        assert SlotOk(os.k, s);
        if s.at.depth > 1 {
          LocSlot(os.k, s.backing);
        }
        assert Deeper(Below(s.at)) == s.at;
      }
    }
  }

  lemma {:induction false} OpenContainerShape(os: Os, dev: DevPath, name: string, keys: seq<string>, at: Loc)
    requires LocOf(os.k, dev) == Some(at)
    ensures var (os', ok) := OpenContainer(os, dev, name, keys);
      && (!ok ==> os' == os.(log := os'.log))
      && (ok ==> os' == os.(log := os'.log, k := os'.k, luks := os'.luks) && Opened(os, os', dev, at, name))
      && (ok ==> name !in os.k.slots && ContentOf(os.k, at).Some? && ContentOf(os.k, at).value.Luks?)
    decreases |keys|
  {
    if keys != [] {
      RunOpenShape(os, dev, name, keys[0], at);
      hide Run, ContentOf;
      var (os', ok) := Run(os, LuksOpen(dev, name, keys[0]));
      if !ok {
        OpenContainerShape(os', dev, name, keys[1..], at);
      }
    }
  }

  lemma RunOpenShape(os: Os, dev: DevPath, name: string, key: string, at: Loc)
    requires LocOf(os.k, dev) == Some(at)
    ensures var (os', ok) := Run(os, LuksOpen(dev, name, key));
      && (!ok ==> os' == os.(log := os'.log))
      && (ok ==> os' == os.(log := os'.log, k := os.k.(slots := os.k.slots[name := Slot(dev, Deeper(at))])))
      && (ok ==> name !in os.k.slots && ContentOf(os.k, at).Some? && ContentOf(os.k, at).value.Luks?)
  {
    hide Peel;
  }

  lemma WithinSelf(os: Os, disk: string, driveId: string)
    requires WfK(os.k) && LuksOk(os)
    ensures Within(os, os, disk, driveId)
  {
  }

  lemma FreshSlots(os: Os, os': Os, name: string)
    requires os'.luks == os.luks && os'.k.slots == os.k.slots && Fresh(os, name)
    ensures Fresh(os', name)
  {
  }

  /** Opening the container, and looking inside. */
  lemma OpenIntoChain(os: Os, d: Dev, order: Order, at: Loc)
    requires d.LuksDev? && d.mapped.None? && WfK(os.k) && LuksOk(os) && Reliable(os.fate) && Fresh(os, order.driveId)
    requires ChainOk(os.k, d, at, order.driveId) && Explored(os.k, d, at)
    ensures var (d', os', ok) := OpenInto(os, d, order);
      && Within(os, os', at.disk, order.driveId) && Fresh(os', order.driveId)
      && ChainOk(os'.k, d', at, order.driveId) && Explored(os'.k, d', at)
      && (ok ==> d'.mapped.Some?)
  {
    var name := order.driveId;
    OpenContainerShape(os, d.path, name, order.keys, at);
    OpenContainerRan(os, d.path, name, order.keys);
    hide OpenContainer, NewDevice, SlotsOk, MountsOk, Ran, Fresh, SlotAt, LuksOk, Confined, CacheConfined, Opened, ContentOf;
    var (os1, ok) := OpenContainer(os, d.path, name, order.keys);
    RanWf(os, os1, Preparing);
    if !ok {
      LogWithin(os, os1, at.disk, name);
      ChainOkSame(os.k, os1.k, d, at, name);
    } else {
      OpenedCache(os, os1, d.path, at, name);
      OpenedChain(os, os1, d, at, name);
      NothingInside(os, os1, d.path, at, name);
      InsideOpen(os1.k, d.path, Mapper(name), at);
      NewDeviceOk(os1, Mapper(name), Deeper(at), name, false);
      var (m, os2) := NewDevice(os1, Mapper(name), false);
      LogWithin(os1, os2, at.disk, name);
      WithinTransitive(os, os1, os2, at.disk, name);
    }
  }

  lemma LogWithin(os: Os, os': Os, disk: string, name: string)
    requires WfK(os.k) && LuksOk(os) && os' == os.(log := os'.log)
    ensures Within(os, os', disk, name) && (Fresh(os, name) ==> Fresh(os', name))
  {
  }

  /** The step from one layer into the next: format, open, look inside. */
  lemma OpenUpChain(os: Os, d: Dev, order: Order, at: Loc)
    requires d.LuksDev? && WfK(os.k) && LuksOk(os) && Reliable(os.fate) && Fresh(os, order.driveId)
    requires ChainOk(os.k, d, at, order.driveId) && Explored(os.k, d, at)
    ensures var (d', os', ok) := OpenUp(os, d, order);
      && Within(os, os', at.disk, order.driveId) && Fresh(os', order.driveId)
      && ChainOk(os'.k, d', at, order.driveId) && Explored(os'.k, d', at)
      && (ok ==> d'.mapped.Some?)
  {
    hide WfK, LuksOk, ChainOk, Explored, FormatFirst, OpenInto, Fresh, Confined, CacheConfined;
    if order.keys == [] {
      WithinSelf(os, at.disk, order.driveId);
    } else {
      var cmd := LuksFormat(d.path, order.keys[0]);
      FormatFirstChain(os, d, cmd, at, order.driveId);
      FreshSlots(os, FormatFirst(os, d, cmd).1, order.driveId);
      var (d1, os1, ok) := FormatFirst(os, d, cmd);
      if ok && d1.mapped.None? {
        OpenIntoChain(os1, d1, order, at);
        var (d2, os2, _) := OpenInto(os1, d1, order);
        WithinTransitive(os, os1, os2, at.disk, order.driveId);
      }
    }
  }

  // ---- mounting leaves slots and contents alone ----

  /** Only mount tables and the log differ. */
  ghost predicate Remounted(a: Os, b: Os) {
    b == a.(k := a.k.(host := b.k.host, local := b.k.local), host := b.host, local := b.local, log := b.log)
  }

  lemma UnmountRemounts(os: Os, path: Path, scope: Scope)
    ensures Remounted(os, UnmountDevice(os, path, scope).0)
  {
    hide Run, MountedAt, RemoveFirst;
    RunUmount(os, path, scope);
  }

  lemma MountRemounts(os: Os, dev: DevPath, path: Path, scope: Scope)
    ensures Remounted(os, MountDevice(os, dev, path, scope).0)
  {
    hide Run, MountedOn;
    RunMount(os, dev, path, scope);
  }

  lemma {:induction false} UnmountThoseRemounts(os: Os, ms: seq<Mount>, keep: Option<Path>, scope: Scope)
    ensures Remounted(os, UnmountThose(os, ms, keep, scope).0)
    decreases |ms|
  {
    hide UnmountDevice;
    if ms != [] {
      UnmountRemounts(os, ms[0].path, scope);
      if Some(ms[0].path) == keep {
        UnmountThoseRemounts(os, ms[1..], keep, scope);
      } else {
        UnmountThoseRemounts(UnmountDevice(os, ms[0].path, scope).0, ms[1..], keep, scope);
      }
    }
  }

  lemma UnmountBothRemounts(os: Os, dev: DevPath, keep: Option<Path>)
    ensures Remounted(os, UnmountBoth(os, dev, keep).0)
  {
    hide UnmountThose;
    UnmountThoseRemounts(os, MountsOf(os, dev, Host), keep, Host);
    var (os1, _) := UnmountThose(os, MountsOf(os, dev, Host), keep, Host);
    UnmountThoseRemounts(os1, MountsOf(os1, dev, Local), keep, Local);
  }

  lemma MoveToRemounts(os: Os, d: Dev, target: Path)
    requires d.XfsDev?
    ensures var (d', os', _) := MoveTo(os, d, target);
      Remounted(os, os') && d'.XfsDev? && d' == d.(mountPath := d'.mountPath)
  {
    hide UnmountBoth, MountDevice;
    UnmountBothRemounts(os, d.path, Some(target));
    var (os1, _) := UnmountBoth(os, d.path, Some(target));
    MountRemounts(os1, d.path, target, Host);
    MountRemounts(MountDevice(os1, d.path, target, Host).0, d.path, target, Local);
  }

  lemma SetupXfsChain(os: Os, d: Dev, order: Order, at: Loc)
    requires d.XfsDev? && WfK(os.k) && LuksOk(os) && Fresh(os, order.driveId)
    requires ChainOk(os.k, d, at, order.driveId)
    ensures var (d', os', ok) := SetupXfs(os, d, order);
      && Within(os, os', at.disk, order.driveId) && Fresh(os', order.driveId)
      && ChainOk(os'.k, d', at, order.driveId) && Explored(os'.k, d', at)
  {
    hide WfK, LuksOk, FormatFirst, MoveTo, Fresh, Confined, CacheConfined, ContentOf, Ran;
    FormatFirstChain(os, d, Mkfs(d.path), at, order.driveId);
    var (d1, os1, ok) := FormatFirst(os, d, Mkfs(d.path));
    FreshSlots(os, os1, order.driveId);
    if ok {
      var target := Target(d1.mountPath, order);
      MoveToRan(os1, d1, target);
      MoveToRemounts(os1, d1, target);
      var (d2, os2, _) := MoveTo(os1, d1, target);
      RanWf(os1, os2, Building);
      WithinTables(os1, os2, at.disk, order.driveId);
      ChainOkSame(os1.k, os2.k, d1, at, order.driveId);
      ChainOkRemount(os2.k, d1, d2, at, order.driveId);
      WithinTransitive(os, os1, os2, at.disk, order.driveId);
    }
  }

  lemma ChainOkRemount(k: Kernel, d: Dev, d': Dev, at: Loc, driveId: string)
    requires d.XfsDev? && d'.XfsDev? && d' == d.(mountPath := d'.mountPath) && ChainOk(k, d, at, driveId)
    ensures ChainOk(k, d', at, driveId) && Explored(k, d', at)
  {
  }

  lemma EffectSlots(k: Kernel, e: Entry)
    requires Legal(k, e) && Building(e.cmd)
    ensures forall m :: m in k.slots ==> m in After(k, e).slots && After(k, e).slots[m] == k.slots[m]
  {
  }

  /** Setting up closes nothing. */
  lemma {:induction false} BuildingSlots(k: Kernel, es: seq<Entry>, k': Kernel)
    requires Trace(k, es, k') && forall e :: e in es ==> Building(e.cmd)
    ensures forall m :: m in k.slots ==> m in k'.slots && k'.slots[m] == k.slots[m]
    decreases |es|
  {
    hide After, Legal, Building;
    if es != [] {
      assert es[0] in es;
      EffectSlots(k, es[0]);
      assert forall e :: e in es[1..] ==> e in es;
      BuildingSlots(After(k, es[0]), es[1..], k');
    }
  }

  /** A layer stays as it is while the layers inside it move on. */
  lemma OuterStays(k: Kernel, k': Kernel, d: Dev, m: Dev, at: Loc, driveId: string)
    requires SlotsOk(k') && d.LuksDev? && d.mapped.Some? && ChainOk(k, d, at, driveId)
    requires forall x :: x in k.slots ==> x in k'.slots && k'.slots[x] == k.slots[x]
    requires m.path == d.mapped.value.path && ChainOk(k', m, Deeper(at), driveId) && Explored(k', m, Deeper(at))
    ensures ChainOk(k', d.(mapped := Some(m)), at, driveId) && Explored(k', d.(mapped := Some(m)), at)
  {
    hide ContentOf;
    InsideOpen(k', d.path, m.path, at);
  }

  /** `Setup` explores its drive's chain to the end and keeps it true to the kernel, touching the contents
    and slots of no other disk, however far it gets. */
  lemma {:induction false} SetupChain(os: Os, d: Dev, order: Order, at: Loc)
    requires WfK(os.k) && Sound(os) && LuksOk(os) && Reliable(os.fate) && Fresh(os, order.driveId)
    requires ChainOk(os.k, d, at, order.driveId)
    ensures var (d', os', ok) := Setup(os, d, order);
      && Within(os, os', at.disk, order.driveId) && Fresh(os', order.driveId)
      && ChainOk(os'.k, d', at, order.driveId) && Explored(os'.k, d', at)
    decreases Rank(os.k, d)
  {
    SoundAgrees(os);
    ValidateChain(os, d, at, order.driveId);
    hide WfK, LuksOk, Validate, SetupXfs, OpenUp, Fresh, Confined, CacheConfined, ContentOf, Sound, Ran, Explored, Opens;
    var (d1, os1, ok) := Validate(os, d);
    LogWithin(os, os1, at.disk, order.driveId);
    if ok {
      if d1.XfsDev? {
        SetupXfsChain(os1, d1, order, at);
        WithinTransitive(os, os1, SetupXfs(os1, d1, order).1, at.disk, order.driveId);
      } else {
        OpenUpChain(os1, d1, order, at);
        OpenUpTables(os1, d1, order);
        var (d2, os2, ok2) := OpenUp(os1, d1, order);
        WithinTransitive(os, os1, os2, at.disk, order.driveId);
        if !(!ok2 || d2.mapped.None? || Rank(os2.k, d2.mapped.value) >= Rank(os.k, d)) {
          SoundSame(os, os2);
          SetupChain(os2, d2.mapped.value, order, Deeper(at));
          SetupRan(os2, d2.mapped.value, order);
          var (m, os3, _) := Setup(os2, d2.mapped.value, order);
          SetupSlots(os2, os3);
          WfSlots(os3.k);
          OuterStays(os2.k, os3.k, d2, m, at, order.driveId);
          WithinTransitive(os, os2, os3, at.disk, order.driveId);
        }
      }
    }
  }

  lemma SoundAgrees(os: Os)
    requires Sound(os)
    ensures Agree(os)
  {
  }

  lemma SetupSlots(os: Os, os': Os)
    requires Ran(os, os', Building)
    ensures forall x :: x in os.k.slots ==> x in os'.k.slots && os'.k.slots[x] == os.k.slots[x]
  {
    BuildingSlots(os.k, Since(os, os'), os'.k);
  }

  // ---- Teardown ----

  lemma RunCloseShape(os: Os, name: string)
    ensures var (os', ok) := Run(os, LuksClose(name));
      os' == os.(log := os'.log, k := if ok then os.k.(slots := os.k.slots - {name}) else os.k)
  {
  }

  /** Closing the innermost open container. */
  lemma ClosedChain(k: Kernel, k': Kernel, d: Dev, at: Loc, driveId: string)
    requires d.LuksDev? && d.mapped.None? && d.mappingName.Some? && ChainOk(k, d, at, driveId)
    requires k' == k.(slots := k.slots - {driveId})
    ensures ChainOk(k', d.(mappingName := None), at, driveId) && Confined(k, k', at.disk)
  {
  }

  lemma ClosedCache(os: Os, os': Os, name: string)
    requires LuksOk(os) && os'.luks == os.luks && os'.k.slots == os.k.slots - {name}
    ensures LuksOk(os') && CacheConfined(os, os', name)
  {
  }

  lemma CloseUpChain(os: Os, d: Dev, at: Loc, driveId: string)
    requires d.LuksDev? && d.mapped.None? && WfK(os.k) && LuksOk(os) && ChainOk(os.k, d, at, driveId)
    ensures var (d', os', _) := CloseUp(os, d);
      Within(os, os', at.disk, driveId) && ChainOk(os'.k, d', at, driveId)
  {
    CloseUpRan(os, d);
    RanWf(os, CloseUp(os, d).1, Tearing);
    if d.mappingName.Some? {
      RunCloseShape(os, driveId);
      hide Run, WfK, ContentOf, LuksOk, Confined, CacheConfined, Opens, Ran;
      var (os', ok) := Run(os, LuksClose(driveId));
      if ok {
        ClosedChain(os.k, os'.k, d, at, driveId);
        ClosedCache(os, os', driveId);
      } else {
        LogWithin(os, os', at.disk, driveId);
      }
    }
  }

  lemma {:induction false} TeardownPath(os: Os, d: Dev)
    ensures Teardown(os, d).0.path == d.path && Teardown(os, d).0.XfsDev? == d.XfsDev?
    decreases d
  {
    hide UnmountBoth, Run;
    if d.LuksDev? && d.mapped.Some? {
      TeardownPath(os, d.mapped.value);
    }
  }

  lemma EffectUnslots(k: Kernel, e: Entry)
    requires Legal(k, e) && Tearing(e.cmd)
    ensures forall m :: m in After(k, e).slots ==> m in k.slots && After(k, e).slots[m] == k.slots[m]
  {
  }

  /** Tearing down opens nothing. */
  lemma {:induction false} TearingSlots(k: Kernel, es: seq<Entry>, k': Kernel)
    requires Trace(k, es, k') && forall e :: e in es ==> Tearing(e.cmd)
    ensures forall m :: m in k'.slots ==> m in k.slots && k'.slots[m] == k.slots[m]
    decreases |es|
  {
    hide After, Legal, Tearing;
    if es != [] {
      assert es[0] in es;
      EffectUnslots(k, es[0]);
      assert forall e :: e in es[1..] ==> e in es;
      TearingSlots(After(k, es[0]), es[1..], k');
    }
  }

  /** A layer stays as it is while the layers inside it are taken down. */
  lemma OuterRemains(k: Kernel, k': Kernel, d: Dev, m: Dev, at: Loc, driveId: string)
    requires SlotsOk(k) && SlotsOk(k') && d.LuksDev? && d.mapped.Some? && ChainOk(k, d, at, driveId)
    requires forall x :: x in k'.slots ==> x in k.slots && k'.slots[x] == k.slots[x]
    requires m.path == d.mapped.value.path && ChainOk(k', m, Deeper(at), driveId)
    ensures ChainOk(k', d.(mapped := Some(m)), at, driveId) && ChainOk(k', d.(mapped := None), at, driveId)
  {
    hide ContentOf;
    var x := m.path.name;
    assert k'.slots[x] == Slot(d.path, Deeper(at));
    assert SlotOk(k', k'.slots[x]);
    assert Below(Deeper(at)) == at;
    InsideOpen(k', d.path, m.path, at);
  }

  /** `Teardown` stays within its drive's disk, and keeps the chain true. */
  lemma {:induction false} TeardownChain(os: Os, d: Dev, at: Loc, driveId: string)
    requires WfK(os.k) && LuksOk(os) && ChainOk(os.k, d, at, driveId)
    ensures var (d', os', _) := Teardown(os, d);
      Within(os, os', at.disk, driveId) && ChainOk(os'.k, d', at, driveId)
    decreases d
  {
    TeardownRan(os, d);
    RanWf(os, Teardown(os, d).1, Tearing);
    hide WfK, LuksOk, UnmountBoth, CloseUp, Confined, CacheConfined, ContentOf, Opens, Ran;
    if d.XfsDev? {
      UnmountBothRemounts(os, d.path, None);
      var (os', ok) := UnmountBoth(os, d.path, None);
      WithinTables(os, os', at.disk, driveId);
      ChainOkSame(os.k, os'.k, d, at, driveId);
      ChainOkRemount(os'.k, d, Teardown(os, d).0, at, driveId);
    } else if d.mapped.None? {
      CloseUpChain(os, d, at, driveId);
    } else {
      var inner := d.mapped.value;
      TeardownChain(os, inner, Deeper(at), driveId);
      TeardownRan(os, inner);
      TeardownPath(os, inner);
      var (m, os1, ok) := Teardown(os, inner);
      TearingRemoves(os, os1);
      WfSlots(os.k);
      WfSlots(os1.k);
      OuterRemains(os.k, os1.k, d, m, at, driveId);
      if ok {
        CloseUpChain(os1, d.(mapped := None), at, driveId);
        WithinTransitive(os, os1, CloseUp(os1, d.(mapped := None)).1, at.disk, driveId);
      }
    }
  }

  lemma TearingRemoves(os: Os, os': Os)
    requires Ran(os, os', Tearing)
    ensures forall x :: x in os'.k.slots ==> x in os.k.slots && os'.k.slots[x] == os.k.slots[x]
  {
    TearingSlots(os.k, Since(os, os'), os'.k);
  }
}
