/** Opening containers: which keys work, what a disk set up under one list of keys does under another, and
  that a container inside a container cannot be opened. */
module KeyRotation {
  import opened Names
  import opened Tables
  import opened Kernels
  import opened Machine
  import opened MountCache
  import opened Devices
  import opened DeviceFacts

  // ---- the key loop ----

  /** Whatever fails: a container is opened only by its own key, under a free name, and a loop that finds
    no key leaves kernel and caches as they were. */
  lemma {:induction false} OpenOnlyByKey(os: Os, dev: DevPath, name: string, keys: seq<string>)
    ensures var (os', ok) := OpenContainer(os, dev, name, keys);
      && os'.fate == os.fate
      && (!ok ==> os' == os.(log := os'.log))
      && (ok ==>
           && ContentAt(os.k, dev).Some? && ContentAt(os.k, dev).value.Luks? && ContentAt(os.k, dev).value.key in keys
           && name !in os.k.slots && !SlotAt(os.k, Inside(os.k, dev))
           && os' == os.(k := os.k.(slots := os.k.slots[name := Slot(dev, Inside(os.k, dev))]),
                         luks := os.luks[dev := Mapper(name)], log := os'.log))
    decreases |keys|
  {
    if keys != [] {
      RunOpen(os, dev, name, keys[0]);
      var (os', ok) := Run(os, LuksOpen(dev, name, keys[0]));
      if !ok {
        hide Run, ContentAt, SlotAt, Inside;
        OpenOnlyByKey(os', dev, name, keys[1..]);
      }
    }
  }

  lemma RunOpen(os: Os, dev: DevPath, name: string, key: string)
    ensures var (os', ok) := Run(os, LuksOpen(dev, name, key));
      && (!ok ==> os' == os.(log := os'.log))
      && (ok ==> Can(os.k, LuksOpen(dev, name, key))
                 && os' == os.(k := os.k.(slots := os.k.slots[name := Slot(dev, Inside(os.k, dev))]), log := os'.log))
  {
  }

  ghost predicate NoFailures(fate: (nat, Cmd) -> bool) {
    forall i, c :: fate(i, c)
  }

  /** With no outside failure the loop succeeds if and only if the key is in the list. */
  lemma {:induction false} KeyFound(os: Os, dev: DevPath, name: string, keys: seq<string>)
    requires NoFailures(os.fate) && ContentAt(os.k, dev).Some? && ContentAt(os.k, dev).value.Luks?
    requires name !in os.k.slots && !SlotAt(os.k, Inside(os.k, dev))
    ensures OpenContainer(os, dev, name, keys).1 <==> ContentAt(os.k, dev).value.key in keys
    decreases |keys|
  {
    if keys != [] {
      RunOpen(os, dev, name, keys[0]);
      var (os', ok) := Run(os, LuksOpen(dev, name, keys[0]));
      assert ok <==> ContentAt(os.k, dev).value.key == keys[0];
      if !ok {
        hide Run, ContentAt, SlotAt, Inside;
        KeyFound(os', dev, name, keys[1..]);
      }
    }
  }

  /** The keys are tried one after the other in the order of the configuration, up to the first that works. */
  lemma {:induction false} KeysInOrder(os: Os, dev: DevPath, name: string, keys: seq<string>)
    ensures var (os', ok) := OpenContainer(os, dev, name, keys);
      && os.log <= os'.log && |Since(os, os')| <= |keys| && (ok ==> Since(os, os') != []) && (!ok ==> |Since(os, os')| == |keys|)
      && forall i :: 0 <= i < |Since(os, os')| ==>
           Since(os, os')[i] == Entry(LuksOpen(dev, name, keys[i]), ok && i == |Since(os, os')| - 1)
    decreases |keys|
  {
    if keys == [] {
      assert Since(os, os) == [];
    } else {
      var cmd := LuksOpen(dev, name, keys[0]);
      var (os1, ok) := Run(os, cmd);
      assert os1.log == os.log + [Entry(cmd, ok)];
      hide Run;
      if !ok {
        KeysInOrder(os1, dev, name, keys[1..]);
        var (os2, _) := OpenContainer(os1, dev, name, keys[1..]);
        assert Since(os, os2) == [Entry(cmd, false)] + Since(os1, os2);
      } else {
        assert Since(os, OpenContainer(os, dev, name, keys).0) == [Entry(cmd, true)];
      }
    }
  }

  // ---- closed containers ----

  /** A device object for a container that is not open, as far as the caches know. */
  ghost predicate Closed(os: Os, d: Dev) {
    && d.LuksDev? && d.mapped.None? && d.path !in os.luks && Unmounted(os, d.path)
  }

  lemma ValidateClosed(os: Os, d: Dev)
    requires Closed(os, d)
    ensures Validate(os, d) == (d, os, true)
  {
    hide MountsOf, Rank;
  }

  /** Whatever fails: without the container's key, `Setup` fails and changes nothing in kernel or caches. */
  lemma LockedOut(os: Os, d: Dev, order: Order)
    requires Closed(os, d) && d.formatted && ContentAt(os.k, d.path).Some? && ContentAt(os.k, d.path).value.Luks?
    requires ContentAt(os.k, d.path).value.key !in order.keys
    ensures var (_, os', ok) := Setup(os, d, order); !ok && os' == os.(log := os'.log)
  {
    ValidateClosed(os, d);
    OpenOnlyByKey(os, d.path, order.driveId, order.keys);
    hide Validate, OpenContainer, ContentAt, Closed, Rank;
  }

  /** A container inside a closed container cannot be opened: both would have to carry the drive's name. So
    `Setup` fails, with any keys. */
  lemma NestedStaysShut(os: Os, d: Dev, order: Order)
    requires Closed(os, d) && d.formatted && ContentAt(os.k, d.path).Some? && ContentAt(os.k, d.path).value.Luks?
    requires ContentAt(os.k, d.path).value.inner.Luks?
    requires Mapper(order.driveId) !in os.luks && Unmounted(os, Mapper(order.driveId))
    ensures !Setup(os, d, order).2
  {
    ValidateClosed(os, d);
    OpenOnlyByKey(os, d.path, order.driveId, order.keys);
    var (os1, ok) := OpenContainer(os, d.path, order.driveId, order.keys);
    if order.keys != [] && ok {
      OpenedContent(os, os1, d.path, order.driveId);
      NestedNew(os1, Mapper(order.driveId));
      var (m, os2) := NewDevice(os1, Mapper(order.driveId), false);
      if m.Some? {
        assert Closed(os2, m.value) by { SameMounts(os, os2, Mapper(order.driveId)); }
        ValidateClosed(os2, m.value);
        OpenOnlyByKey(os2, Mapper(order.driveId), order.driveId, order.keys);
        hide Validate, OpenContainer, ContentAt, Closed, Rank, NewDevice, Unmounted;
        NestedOpenUp(os2, m.value, order);
        assert !Setup(os2, m.value, order).2 by { SetupAfter(os2, m.value, order); }
        OpensInto(os, d, order, m, os2);
        SetupFailsInside(os, d, order);
      } else {
        OpensInto(os, d, order, m, os2);
        hide Validate, OpenContainer, ContentAt, Closed, Rank, NewDevice, Unmounted, OpenUp;
        SetupAfter(os, d, order);
      }
    } else {
      hide Validate, OpenContainer, ContentAt, Closed, Rank, NewDevice, Unmounted;
      SetupAfter(os, d, order);
    }
  }

  lemma SameMounts(a: Os, b: Os, dev: DevPath)
    requires a.host == b.host && a.local == b.local
    ensures Unmounted(a, dev) == Unmounted(b, dev)
  {
  }

  lemma OpenedContent(os: Os, os': Os, dev: DevPath, name: string)
    requires ContentAt(os.k, dev).Some? && ContentAt(os.k, dev).value.Luks? && name !in os.k.slots
    requires os'.k == os.k.(slots := os.k.slots[name := Slot(dev, Inside(os.k, dev))])
    ensures ContentAt(os'.k, Mapper(name)) == Some(ContentAt(os.k, dev).value.inner)
  {
    var loc := LocOf(os.k, dev).value;
    PeelDeeper(os.k.disks[loc.disk], loc.depth);
  }

  lemma NestedNew(os: Os, path: DevPath)
    requires ContentAt(os.k, path).Some? && ContentAt(os.k, path).value.Luks?
    ensures var (m, os') := NewDevice(os, path, false);
      os' == os.(log := os'.log) && (m.Some? ==> m.value == LuksDev(path, true, None, None))
  {
  }

  lemma NestedOpenUp(os: Os, d: Dev, order: Order)
    requires d.LuksDev? && d.formatted && d.mapped.None? && !OpenContainer(os, d.path, order.driveId, order.keys).1
    ensures !OpenUp(os, d, order).2
  {
    hide OpenContainer;
  }

  /** `Setup` of a container fails when opening it does. */
  lemma SetupAfter(os: Os, d: Dev, order: Order)
    requires Validate(os, d) == (d, os, true) && d.LuksDev?
    ensures !OpenUp(os, d, order).2 ==> !Setup(os, d, order).2
  {
    hide Validate, OpenUp, Rank;
  }

  lemma OpensInto(os: Os, d: Dev, order: Order, m: Option<Dev>, os2: Os)
    requires d.LuksDev? && d.formatted && d.mapped.None? && order.keys != []
    requires OpenContainer(os, d.path, order.driveId, order.keys).1
    requires NewDevice(OpenContainer(os, d.path, order.driveId, order.keys).0, Mapper(order.driveId), false) == (m, os2)
    ensures OpenUp(os, d, order) == (d.(mapped := m, mappingName := Some(order.driveId)), os2, m.Some?)
  {
    hide OpenContainer, NewDevice;
  }

  lemma SetupFailsInside(os: Os, d: Dev, order: Order)
    requires Validate(os, d) == (d, os, true) && d.LuksDev? && OpenUp(os, d, order).0.mapped.Some?
    requires var (d2, os2, _) := OpenUp(os, d, order); !Setup(os2, d2.mapped.value, order).2
    ensures !Setup(os, d, order).2
  {
    hide Validate, OpenUp, Rank;
  }

  // ---- the filesystem inside ----

  /** The filesystem layer is all that is missing: nothing is mounted yet, and the device is as the object
    believes it to be. */
  ghost predicate Bare(os: Os, f: Dev) {
    && f.XfsDev? && f.mountPath.None? && Unmounted(os, f.path) && ContentAt(os.k, f.path).Some?
    && if f.formatted then ContentAt(os.k, f.path).value.Xfs? else ContentAt(os.k, f.path).value.Blank?
  }

  function Made(c: Content): Content {
    if c.Blank? then Xfs("") else c
  }

  lemma ValidateBare(os: Os, f: Dev)
    requires Bare(os, f)
    ensures Validate(os, f) == (f, os, true)
  {
    hide MountsOf;
  }

  lemma WithGiven(k: Kernel, dev: DevPath, x: Content)
    requires ContentAt(k, dev).Some?
    ensures ContentAt(WithContent(k, dev, x), dev) == Some(x)
  {
    var loc := LocOf(k, dev).value;
    PeelGraft(k.disks[loc.disk], loc.depth, x);
  }

  lemma FormatBare(os: Os, f: Dev)
    requires NoFailures(os.fate) && Bare(os, f)
    ensures var (f', os', ok) := FormatFirst(os, f, Mkfs(f.path));
      var c := ContentAt(os.k, f.path).value;
      && ok && f' == XfsDev(f.path, true, None) && os'.fate == os.fate && os'.luks == os.luks
      && os'.host == os.host && os'.local == os.local
      && os'.k == (if c.Blank? then WithContent(os.k, f.path, Xfs("")) else os.k)
      && ContentAt(os'.k, f.path) == Some(Made(c))
  {
    if !f.formatted {
      WithGiven(os.k, f.path, Xfs(""));
    }
    hide WithContent, ContentAt;
  }

  /** With no failures, mounting a filesystem in both scopes works. */
  lemma MountBare(os: Os, dev: DevPath, path: Path)
    requires NoFailures(os.fate) && ContentAt(os.k, dev).Some? && ContentAt(os.k, dev).value.Xfs? && Unmounted(os, dev)
    requires !os.k.mode.Separate? ==> os.host == os.local
    ensures var (os', ok) := MountBoth(os, dev, path);
      && ok && os'.k == os.k.(host := os'.k.host, local := os'.k.local)
      && MountedOn(os'.k.local, dev, path) && MountedOn(os'.k.host, dev, path)
  {
    hide Can, Effect, OfDevice;
    NotYetMounted(os, dev, path, Host);
    RunMount(os, dev, path, Host);
    assert Run(os, MountCmd(dev, path, Host)).1 by { MountWorks(os, dev, path, Host); }
    var (os1, ok1) := MountDevice(os, dev, path, Host);
    var m := Mount(dev, path, false);
    assert os1.k.host == os.k.host + [m] && m in os1.k.host;
    if os.k.mode.Separate? {
      NotYetMounted(os, dev, path, Local);
      assert os1.local == os.local;
      RunMount(os1, dev, path, Local);
      assert Run(os1, MountCmd(dev, path, Local)).1 by { MountWorks(os1, dev, path, Local); }
      var os2 := MountDevice(os1, dev, path, Local).0;
      assert os2.k.local == os1.k.local + [m] && m in os2.k.local;
      assert os2.k.host == os1.k.host;
    } else {
      assert os1.local == os.local + [m] && m in os1.local;
      assert os1.k.local == os.k.local + [m] && m in os1.k.local;
    }
  }

  lemma MountWorks(os: Os, dev: DevPath, path: Path, scope: Scope)
    requires NoFailures(os.fate) && ContentAt(os.k, dev).Some? && ContentAt(os.k, dev).value.Xfs?
    ensures Run(os, MountCmd(dev, path, scope)).1
    ensures os.fate == Run(os, MountCmd(dev, path, scope)).0.fate
    ensures ContentAt(Run(os, MountCmd(dev, path, scope)).0.k, dev) == ContentAt(os.k, dev)
  {
  }

  lemma NotYetMounted(os: Os, dev: DevPath, path: Path, scope: Scope)
    requires Unmounted(os, dev)
    ensures !MountedOn(Cached(os, scope), dev, path)
  {
    MountedOnIsListed(os, dev, path, scope);
  }

  lemma MoveBare(os: Os, f: Dev, target: Path)
    requires f.XfsDev? && Unmounted(os, f.path)
    ensures UnmountBoth(os, f.path, Some(target)) == (os, true)
  {
  }

  /** With no failures, `Setup` of a bare filesystem layer mounts it, making the filesystem if there is
    none. */
  lemma SetupBare(os: Os, f: Dev, order: Order)
    requires NoFailures(os.fate) && Bare(os, f) && (!os.k.mode.Separate? ==> os.host == os.local)
    ensures var (f', os', ok) := Setup(os, f, order);
      var c := ContentAt(os.k, f.path).value;
      && ok && os'.k.disks == (if c.Blank? then WithContent(os.k, f.path, Xfs("")) else os.k).disks
      && os'.k.slots == os.k.slots && ContentAt(os'.k, f.path) == Some(Made(c))
      && MountedOn(os'.k.host, f.path, Target(None, order)) && MountedOn(os'.k.local, f.path, Target(None, order))
  {
    ValidateBare(os, f);
    FormatBare(os, f);
    var (f1, os1, _) := FormatFirst(os, f, Mkfs(f.path));
    SameMounts(os, os1, f.path);
    ModeKept(os, f);
    MoveBare(os1, f1, Target(None, order));
    MountBare(os1, f.path, Target(None, order));
    hide Validate, FormatFirst, UnmountBoth, MountBoth, WithContent, Bare, Unmounted, NoFailures;
    assert MoveTo(os1, f1, Target(None, order)).2;
    ContentByDisks(os1.k, Setup(os, f, order).1.k, f.path);
  }

  lemma ContentByDisks(k: Kernel, k': Kernel, dev: DevPath)
    requires k.disks == k'.disks && k.slots == k'.slots
    ensures ContentAt(k, dev) == ContentAt(k', dev)
  {
  }

  lemma ModeKept(os: Os, f: Dev)
    ensures FormatFirst(os, f, Mkfs(f.path)).1.k.mode == os.k.mode
    ensures FormatFirst(os, f, Mkfs(f.path)).1.k.slots == os.k.slots
  {
  }

  // ---- a disk with one container ----

  /** Nothing of this drive is open or mounted, in the kernel or in the caches, as after a reboot. */
  ghost predicate ShutDown(os: Os, n: string, driveId: string) {
    && n in os.k.disks && Disk(n) !in os.luks && Unmounted(os, Disk(n)) && Unmounted(os, Mapper(driveId))
    && driveId !in os.k.slots && !SlotAt(os.k, Loc(n, 1)) && (!os.k.mode.Separate? ==> os.host == os.local)
  }

  lemma NewInner(os: Os, path: DevPath)
    requires NoFailures(os.fate) && ContentAt(os.k, path).Some? && !ContentAt(os.k, path).value.Luks?
    ensures var (m, os') := NewDevice(os, path, false);
      m == Some(XfsDev(path, ContentAt(os.k, path).value.Xfs?, None)) && os' == os.(log := os'.log)
  {
  }

  /** Opening a closed container with one of the configured keys. */
  lemma OpenClosed(os: Os, n: string, d: Dev, order: Order)
    requires NoFailures(os.fate) && ShutDown(os, n, order.driveId) && d == LuksDev(Disk(n), true, None, None)
    requires os.k.disks[n].Luks? && !os.k.disks[n].inner.Luks? && os.k.disks[n].key in order.keys
    ensures var (d2, os2, ok) := OpenUp(os, d, order);
      && ok && d2.mapped.Some? && Bare(os2, d2.mapped.value) && d2.mapped.value.path == Mapper(order.driveId)
      && os2.fate == os.fate && os2.host == os.host && os2.local == os.local
      && os2.k == os.k.(slots := os.k.slots[order.driveId := Slot(Disk(n), Loc(n, 1))])
      && ContentAt(os2.k, Mapper(order.driveId)) == Some(os.k.disks[n].inner)
  {
    OpenOnlyByKey(os, d.path, order.driveId, order.keys);
    KeyFound(os, d.path, order.driveId, order.keys);
    var (os1, ok) := OpenContainer(os, d.path, order.driveId, order.keys);
    OpenedContent(os, os1, d.path, order.driveId);
    NewInner(os1, Mapper(order.driveId));
    var (m, os2) := NewDevice(os1, Mapper(order.driveId), false);
    OpensInto(os, d, order, m, os2);
    SameMounts(os, os2, Mapper(order.driveId));
    hide OpenUp, OpenContainer, NewDevice, Unmounted, SlotAt, NoFailures;
  }

  /** The content of the disk after `Setup` of the layer inside its container. */
  lemma ContainerContent(k: Kernel, n: string, name: string)
    requires n in k.disks && k.disks[n].Luks? && name in k.slots && k.slots[name].at == Loc(n, 1)
    ensures ContentAt(k, Mapper(name)) == Some(k.disks[n].inner)
    ensures WithContent(k, Mapper(name), Xfs("")).disks == k.disks[n := k.disks[n].(inner := Xfs(""))]
  {
    assert Peel(k.disks[n], 1) == Peel(k.disks[n].inner, 0);
    assert Graft(k.disks[n], 1, Xfs("")) == k.disks[n].(inner := Graft(k.disks[n].inner, 0, Xfs("")));
  }

  /** With no failures, a closed container is set up under a list of keys if and only if its own key is in
    the list. Then its content is mounted, unchanged if there was one; otherwise nothing happens at all. */
  lemma Reopen(os: Os, n: string, order: Order)
    requires NoFailures(os.fate) && ShutDown(os, n, order.driveId)
    requires os.k.disks[n].Luks? && !os.k.disks[n].inner.Luks?
    ensures var c := os.k.disks[n];
      var (_, os', ok) := Setup(os, LuksDev(Disk(n), true, None, None), order);
      && (ok <==> c.key in order.keys)
      && (!ok ==> os' == os.(log := os'.log))
      && (ok ==> os'.k.disks == os.k.disks[n := Luks(c.key, Made(c.inner))]
                 && ContentAt(os'.k, Mapper(order.driveId)) == Some(Made(c.inner))
                 && MountedOn(os'.k.host, Mapper(order.driveId), Target(None, order))
                 && MountedOn(os'.k.local, Mapper(order.driveId), Target(None, order)))
  {
    var d := LuksDev(Disk(n), true, None, None);
    if os.k.disks[n].key in order.keys {
      ValidateClosed(os, d);
      OpenClosed(os, n, d, order);
      var (d2, os2, _) := OpenUp(os, d, order);
      SetupBare(os2, d2.mapped.value, order);
      ContainerContent(os2.k, n, order.driveId);
      SetupThrough(os, d, order);
      hide Validate, OpenUp, Setup, Bare, ContentAt, NoFailures, Closed, Unmounted, SlotAt, WithContent, MountedOn, Target;
    } else {
      LockedOut(os, d, order);
    }
  }

  lemma SetupThrough(os: Os, d: Dev, order: Order)
    requires Validate(os, d) == (d, os, true) && d.LuksDev?
    requires var (d2, os2, ok) := OpenUp(os, d, order); ok && d2.mapped.Some? && d2.mapped.value.XfsDev?
    ensures var (d2, os2, _) := OpenUp(os, d, order);
      var (m, os3, ok) := Setup(os2, d2.mapped.value, order);
      Setup(os, d, order) == (d2.(mapped := Some(m)), os3, ok)
  {
    hide Validate, OpenUp, SetupXfs;
  }

  /** The container of a blank disk, made and opened. */
  lemma FirstOpen(os: Os, n: string, order: Order)
    requires NoFailures(os.fate) && ShutDown(os, n, order.driveId) && os.k.disks[n].Blank? && order.keys != []
    ensures var d := LuksDev(Disk(n), false, None, None);
      var (d2, os2, ok) := OpenUp(os, d, order);
      && ok && d2.mapped.Some? && Bare(os2, d2.mapped.value) && d2.mapped.value.path == Mapper(order.driveId)
      && NoFailures(os2.fate) && os2.k.mode == os.k.mode && (!os.k.mode.Separate? ==> os2.host == os2.local)
      && os2.k.disks == os.k.disks[n := Luks(order.keys[0], Blank)]
      && os2.k.slots == os.k.slots[order.driveId := Slot(Disk(n), Loc(n, 1))]
      && ContentAt(os2.k, Mapper(order.driveId)) == Some(Blank)
  {
    var d, d1 := LuksDev(Disk(n), false, None, None), LuksDev(Disk(n), true, None, None);
    FormatBlank(os, n, order);
    var os1 := FormatFirst(os, d, LuksFormat(d.path, order.keys[0])).1;
    assert ShutDown(os1, n, order.driveId) by { SameMounts(os, os1, d.path); SameMounts(os, os1, Mapper(order.driveId)); }
    OpenClosed(os1, n, d1, order);
    OpenUpFormatted(os, d, order);
    hide OpenUp, Bare, ContentAt, NoFailures, Unmounted, SlotAt, FormatFirst;
  }

  /** With no failures, a blank disk is set up with the first key. */
  lemma FirstSetup(os: Os, n: string, order: Order)
    requires NoFailures(os.fate) && ShutDown(os, n, order.driveId) && os.k.disks[n].Blank? && order.keys != []
    ensures var (_, os', ok) := Setup(os, LuksDev(Disk(n), false, None, None), order);
      && ok && os'.k.disks == os.k.disks[n := Luks(order.keys[0], Xfs(""))]
      && ContentAt(os'.k, Mapper(order.driveId)) == Some(Xfs(""))
      && MountedOn(os'.k.host, Mapper(order.driveId), Target(None, order))
      && MountedOn(os'.k.local, Mapper(order.driveId), Target(None, order))
  {
    var d := LuksDev(Disk(n), false, None, None);
    ValidateClosed(os, d);
    FirstOpen(os, n, order);
    hide Validate, OpenUp, Setup, Bare, ContentAt, NoFailures, Closed, ShutDown, WithContent, MountedOn, Target;
    var (d2, os2, _) := OpenUp(os, d, order);
    SetupBare(os2, d2.mapped.value, order);
    ContainerContent(os2.k, n, order.driveId);
    SetupThrough(os, d, order);
  }

  lemma FormatBlank(os: Os, n: string, order: Order)
    requires NoFailures(os.fate) && n in os.k.disks && os.k.disks[n].Blank? && order.keys != []
    ensures var (d', os', ok) := FormatFirst(os, LuksDev(Disk(n), false, None, None), LuksFormat(Disk(n), order.keys[0]));
      && ok && d' == LuksDev(Disk(n), true, None, None)
      && os' == os.(k := os.k.(disks := os.k.disks[n := Luks(order.keys[0], Blank)]), log := os'.log)
  {
  }

  lemma OpenUpFormatted(os: Os, d: Dev, order: Order)
    requires d.LuksDev? && order.keys != [] && FormatFirst(os, d, LuksFormat(d.path, order.keys[0])).2
    ensures var (d1, os1, _) := FormatFirst(os, d, LuksFormat(d.path, order.keys[0]));
      d1.formatted && OpenUp(os, d, order) == OpenUp(os1, d1, order)
  {
    hide OpenInto;
  }

  lemma NewContainer(os: Os, n: string, preferLuks: bool)
    requires NoFailures(os.fate) && n in os.k.disks && os.k.disks[n].Luks?
    ensures var (f, os') := NewDevice(os, Disk(n), preferLuks);
      f == Some(LuksDev(Disk(n), true, None, None)) && os' == os.(log := os'.log)
  {
  }

  /** The container that a first `Setup` has made, with a swift-id written into it later, has the first key. */
  lemma FirstKeyStays(os: Os, n: string, order: Order, later: Os, id: string)
    requires NoFailures(os.fate) && ShutDown(os, n, order.driveId) && os.k.disks[n].Blank? && order.keys != [] && n in later.k.disks
    requires var k1 := Setup(os, LuksDev(Disk(n), false, None, None), order).1.k;
      n in k1.disks && k1.disks[n].Luks? && later.k.disks[n] == k1.disks[n].(inner := Xfs(id))
    ensures later.k.disks[n] == Luks(order.keys[0], Xfs(id))
  {
    FirstSetup(os, n, order);
    hide NoFailures, ShutDown, Setup, MountedOn, Target, ContentAt;
  }

  /** A new object for a closed container leaves it closed. */
  lemma FoundClosed(os: Os, n: string, driveId: string, preferLuks: bool)
    requires NoFailures(os.fate) && ShutDown(os, n, driveId) && os.k.disks[n].Luks?
    ensures var (f, os') := NewDevice(os, Disk(n), preferLuks);
      && f == Some(LuksDev(Disk(n), true, None, None)) && os' == os.(log := os'.log)
      && NoFailures(os'.fate) && ShutDown(os', n, driveId)
  {
    NewContainer(os, n, preferLuks);
    var (f, os') := NewDevice(os, Disk(n), preferLuks);
    SameMounts(os, os', Disk(n));
    SameMounts(os, os', Mapper(driveId));
    hide NewDevice, Unmounted, SlotAt;
  }

  /** `Reopen` of a container with a filesystem in it. */
  lemma ReopenFilled(os: Os, n: string, order: Order, key: string, id: string)
    requires NoFailures(os.fate) && ShutDown(os, n, order.driveId) && os.k.disks[n] == Luks(key, Xfs(id))
    ensures var (_, os', ok) := Setup(os, LuksDev(Disk(n), true, None, None), order);
      && (ok <==> key in order.keys) && os'.k.disks == os.k.disks && (!ok ==> os'.k == os.k)
      && (ok ==> MountedOn(os'.k.local, Mapper(order.driveId), Target(None, order))
                 && ContentAt(os'.k, Mapper(order.driveId)) == Some(Xfs(id)))
  {
    Reopen(os, n, order);
    hide NoFailures, Unmounted, ContentAt, Setup, MountedOn, Target, SlotAt;
  }

  /** Key rotation: a blank disk set up under `keys`, then found closed by a process that is configured
    with `newKeys`, comes up again with the same content if and only if the first of the old keys is still
    among the new ones; otherwise it is left alone. In between, a swift-id may have been written. */
  lemma KeysRotate(os: Os, n: string, driveId: string, keys: seq<string>, want: Option<Path>,
                   later: Os, id: string, newKeys: seq<string>, newWant: Option<Path>)
    requires NoFailures(os.fate) && ShutDown(os, n, driveId) && os.k.disks[n].Blank? && keys != []
    requires NoFailures(later.fate) && ShutDown(later, n, driveId)
    requires var k1 := Setup(os, LuksDev(Disk(n), false, None, None), Order(driveId, keys, want)).1.k;
      n in k1.disks && k1.disks[n].Luks? && later.k.disks[n] == k1.disks[n].(inner := Xfs(id))
    ensures var (f, later1) := NewDevice(later, Disk(n), newKeys != []);
      && f == Some(LuksDev(Disk(n), true, None, None))
      && var (_, later', ok) := Setup(later1, f.value, Order(driveId, newKeys, newWant));
      && (ok <==> keys[0] in newKeys)
      && later'.k.disks == later.k.disks
      && (!ok ==> later'.k == later.k)
      && (ok ==> MountedOn(later'.k.local, Mapper(driveId), Target(None, Order(driveId, newKeys, newWant)))
                 && ContentAt(later'.k, Mapper(driveId)) == Some(Xfs(id)))
  {
    FirstKeyStays(os, n, Order(driveId, keys, want), later, id);
    FoundClosed(later, n, driveId, newKeys != []);
    hide NewDevice, NoFailures, ShutDown, Unmounted, ContentAt, Setup, MountedOn, Target, SlotAt;
    var (_, later1) := NewDevice(later, Disk(n), newKeys != []);
    ReopenFilled(later1, n, Order(driveId, newKeys, newWant), keys[0], id);
  }
}
