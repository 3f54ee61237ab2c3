/** The contract of converging one drive, which isolation, goal states and exclusivity all rest on. */
module Convergence {
  import opened Names
  import opened Tables
  import opened Kernels
  import opened KernelFacts
  import opened Machine
  import opened MountCache
  import opened Devices
  import opened DeviceFacts
  import opened Drives
  import opened Commands
  import opened Chains
  import opened DriveFacts

  /** A mount belongs to `disk`. */
  predicate From(k: Kernel, m: Mount, disk: string) {
    IsEntry(k, m) && On(k, m.dev, disk)
  }

  predicate In(k: Kernel, m: Mount, disk: string, scope: Scope) {
    m in Table(k, scope) && On(k, m.dev, disk)
  }

  /** The mounts of every other disk are the same, in each scope. */
  ghost predicate OthersStay(k: Kernel, k': Kernel, disk: string) {
    forall m, n, s :: n != disk ==> In(k, m, n, s) == In(k', m, n, s)
  }

  lemma OthersFrom(k: Kernel, k': Kernel, disk: string, m: Mount, n: string)
    requires OthersStay(k, k', disk) && n != disk
    ensures From(k, m, n) == From(k', m, n)
  {
    assert In(k, m, n, Host) == In(k', m, n, Host);
    assert In(k, m, n, Local) == In(k', m, n, Local);
  }

  /** The drive's layers are those of `disk`. */
  ghost predicate Fits(os: Os, d: Drive, disk: string) {
    && d.path == Disk(disk) && d.device.Some? && d.device.value.path == d.path
    && ChainOk(os.k, d.device.value, Loc(disk, 0), d.driveId)
    && (!d.broken ==> Fresh(os, d.driveId))
  }

  /** The drive is where it should be: mounted in both scopes at its mount path and nowhere else. */
  ghost predicate Settled(os: Os, d: Drive, disk: string) {
    && d.device.Some? && DriveMountedPath(d) == Some(MountPath(d))
    && (forall m :: From(os.k, m, disk) ==> m.path == MountPath(d))
    && Leaf(d.device.value).Some? && On(os.k, Leaf(d.device.value).value, disk) && Shown(os, Leaf(d.device.value).value)
  }

  ghost predicate FlagsConfined(k: Kernel, k': Kernel, driveId: string) {
    k'.durable == k.durable && k.transient <= k'.transient <= k.transient + {driveId}
  }

  lemma {:induction false} OfDeviceEntry(a: seq<Mount>, b: seq<Mount>, dev: DevPath, m: Mount)
    requires OfDevice(a, dev) == OfDevice(b, dev) && m.dev == dev
    ensures m in a <==> m in b
  {
    OfDeviceMember(a, dev);
    OfDeviceMember(b, dev);
  }

  /** Moving a leaf of `disk` leaves the other disks' mounts in place. */
  lemma MovedOthersStay(a: Os, b: Os, leaf: Option<DevPath>, disk: string)
    requires Moved(a, b, leaf) && Confined(a.k, b.k, disk)
    requires leaf.Some? ==> On(a.k, leaf.value, disk) || On(b.k, leaf.value, disk)
    ensures OthersStay(a.k, b.k, disk)
  {
    forall m, n, s | n != disk ensures In(a.k, m, n, s) == In(b.k, m, n, s) {
      OnElsewhere(a.k, b.k, disk, m.dev, n);
      if leaf.Some? {
        OnElsewhere(a.k, b.k, disk, leaf.value, n);
        if m.dev != leaf.value {
          OfDeviceEntry(a.k.host, b.k.host, m.dev, m);
          OfDeviceEntry(a.k.local, b.k.local, m.dev, m);
        }
      }
    }
  }

  lemma OnElsewhere(k: Kernel, k': Kernel, disk: string, dev: DevPath, n: string)
    requires Confined(k, k', disk) && n != disk
    ensures On(k, dev, n) <==> On(k', dev, n)
  {
  }

  /** The kernel shows a device only where the cache does. */
  lemma EntryListed(os: Os, m: Mount, path: Path)
    requires Agree(os) && IsEntry(os.k, m)
    ensures OnlyAt(os, m.dev, path) ==> m.path == path
    ensures !Unmounted(os, m.dev)
  {
    OwnedByPairs(os.host, os.k.host);
    OwnedByPairs(os.local, os.k.local);
    assert MountedOn(os.host, m.dev, m.path) || MountedOn(os.local, m.dev, m.path);
    MountedOnIsListed(os, m.dev, m.path, Host);
    MountedOnIsListed(os, m.dev, m.path, Local);
  }

  /** Tearing down an accounted drive, with umounts that work, clears its disk. */
  lemma TeardownClears(os: Os, d: Dev, disk: string, driveId: string)
    requires Sound(os) && WfK(os.k) && LuksOk(os) && Reliable(os.fate)
    requires ChainOk(os.k, d, Loc(disk, 0), driveId) && Accounted(os.k, d, disk)
    ensures var (d', os', _) := Teardown(os, d);
      && Sound(os') && Within(os, os', disk, driveId) && OthersStay(os.k, os'.k, disk)
      && ChainOk(os'.k, d', Loc(disk, 0), driveId) && Cleared(os'.k, disk) && MountedPath(d') == None
      && d'.path == d.path
  {
    TeardownChain(os, d, Loc(disk, 0), driveId);
    TeardownEffect(os, d);
    TeardownUnmounts(os, d);
    TeardownRan(os, d);
    TeardownPath(os, d);
    hide Teardown, ChainOk, LuksOk, WfK, Accounted, Ran, Confined, Moved, Unmounted;
    var (d', os', _) := Teardown(os, d);
    TearingRemoves(os, os');
    SoundAgrees(os');
    if Leaf(d).Some? {
      LeafOn(os.k, d, Loc(disk, 0), driveId);
    }
    MovedOthersStay(os, os', Leaf(d), disk);
    ClearedAfter(os, os', d, disk);
  }

  lemma ClearedAfter(os: Os, os': Os, d: Dev, disk: string)
    requires Moved(os, os', Leaf(d)) && Agree(os') && Accounted(os.k, d, disk)
    requires forall x :: x in os'.k.slots ==> x in os.k.slots && os'.k.slots[x] == os.k.slots[x]
    requires Leaf(d).Some? ==> Unmounted(os', Leaf(d).value)
    ensures Cleared(os'.k, disk)
  {
    forall m | IsEntry(os'.k, m) ensures !On(os'.k, m.dev, disk) {
      EntryListed(os', m, m.path);
      if On(os'.k, m.dev, disk) {
        assert On(os.k, m.dev, disk);
        if Leaf(d) != Some(m.dev) {
          if Leaf(d).Some? {
            OfDeviceEntry(os.k.host, os'.k.host, m.dev, m);
            OfDeviceEntry(os.k.local, os'.k.local, m.dev, m);
          }
          assert IsEntry(os.k, m);
        }
      }
    }
  }

  /** What converging drive `d` of `disk` into `d'` does. */
  ghost predicate Converged(os: Os, os': Os, d: Drive, d': Drive, disk: string) {
    && Sound(os') && Within(os, os', disk, d.driveId) && OthersStay(os.k, os'.k, disk)
    && FlagsConfined(os.k, os'.k, d.driveId) && CrossOwned(os'.k)
    && Fits(os', d', disk) && Accounted(os'.k, d'.device.value, disk)
    && d' == d.(device := d'.device, broken := d'.broken, assignment := d'.assignment)
    && (d.broken ==> d'.broken)
    && d'.assignment == (if d'.broken && !d.broken then None else d.assignment)
    && (if d'.broken then Cleared(os'.k, disk) && DriveMountedPath(d') == None else Settled(os', d', disk))
  }

  lemma EffectFlags(k: Kernel, e: Entry)
    requires Legal(k, e) && (e.cmd.SetFlag? ==> false)
    ensures After(k, e).durable == k.durable && After(k, e).transient == k.transient
  {
  }

  lemma {:induction false} TraceFlags(k: Kernel, es: seq<Entry>, k': Kernel)
    requires Trace(k, es, k') && forall e :: e in es ==> !e.cmd.SetFlag?
    ensures k'.durable == k.durable && k'.transient == k.transient
    decreases |es|
  {
    hide After, Legal;
    if es != [] {
      assert es[0] in es;
      EffectFlags(k, es[0]);
      assert forall e :: e in es[1..] ==> e in es;
      TraceFlags(After(k, es[0]), es[1..], k');
    }
  }

  lemma RanFlags(a: Os, b: Os, p: Cmd -> bool)
    requires Ran(a, b, p) && forall c: Cmd :: p(c) ==> !c.SetFlag?
    ensures b.k.durable == a.k.durable && b.k.transient == a.k.transient
  {
    TraceFlags(a.k, Since(a, b), b.k);
  }

  lemma CrossOwnedCleared(k: Kernel, k': Kernel, disk: string)
    requires CrossOwned(k) && OthersStay(k, k', disk) && Cleared(k', disk) && MountsOk(k')
    ensures CrossOwned(k')
  {
    forall m | IsEntry(k', m) ensures IsEntry(k, m) {
      OthersFrom(k, k', disk, m, LocOf(k', m.dev).value.disk);
    }
  }

  lemma WithinWf(os: Os, os': Os, disk: string, driveId: string)
    requires Within(os, os', disk, driveId)
    ensures WfK(os'.k) && LuksOk(os') && Confined(os.k, os'.k, disk) && os'.fate == os.fate
  {
  }

  lemma WfMounts(k: Kernel)
    requires WfK(k)
    ensures MountsOk(k)
  {
  }

  lemma ClearedAccounts(k: Kernel, d: Dev, disk: string)
    requires Cleared(k, disk)
    ensures Accounted(k, d, disk)
  {
  }

  /** Converging a broken drive. */
  lemma ConvergeBroken(os: Os, d: Drive, disk: string)
    requires Sound(os) && WfK(os.k) && LuksOk(os) && Reliable(os.fate) && CrossOwned(os.k)
    requires d.broken && Fits(os, d, disk) && Accounted(os.k, d.device.value, disk)
    ensures var (d', os') := ConvergeDrive(os, d); Converged(os, os', d, d', disk)
  {
    TeardownClears(os, d.device.value, disk, d.driveId);
    TeardownRan(os, d.device.value);
    hide Teardown, Setup, ChainOk, WfK, LuksOk, Ran, Sound, Within, CrossOwned, Fresh, OthersStay, Accounted, Cleared, Confined, MountsOk, Reliable, FlagsConfined;
    var (dev, os', _) := Teardown(os, d.device.value);
    RanFlags(os, os', Tearing);
    FlagsSame(os.k, os'.k, d.driveId);
    WithinWf(os, os', disk, d.driveId);
    WfMounts(os'.k);
    CrossOwnedCleared(os.k, os'.k, disk);
    ClearedAccounts(os'.k, dev, disk);
  }

  lemma FlagsSame(k: Kernel, k': Kernel, driveId: string)
    requires k'.durable == k.durable && k'.transient == k.transient
    ensures FlagsConfined(k, k', driveId)
  {
  }

  /** A leaf that now has its disk's mounts, at a path nobody else was using. */
  lemma CrossOwnedSettled(os: Os, os': Os, disk: string, leaf: DevPath, path: Path)
    requires Agree(os) && CrossOwned(os.k) && OthersStay(os.k, os'.k, disk) && MountsOk(os'.k)
    requires FreeFor(os.host, leaf, path) && FreeFor(os.local, leaf, path) && On(os'.k, leaf, disk)
    requires forall m :: From(os'.k, m, disk) ==> m.dev == leaf && m.path == path
    ensures CrossOwned(os'.k)
  {
    forall m | IsEntry(os'.k, m) && !From(os'.k, m, disk)
      ensures IsEntry(os.k, m) && m.path != path
    {
      OthersFrom(os.k, os'.k, disk, m, LocOf(os'.k, m.dev).value.disk);
      OwnedByPairs(os.host, os.k.host);
      OwnedByPairs(os.local, os.k.local);
      assert MountedOn(os.host, m.dev, m.path) || MountedOn(os.local, m.dev, m.path);
    }
  }

  /** A `Setup` of a drive whose target is free. */
  lemma SetupSettles(os: Os, d: Drive, disk: string)
    requires Sound(os) && WfK(os.k) && LuksOk(os) && Reliable(os.fate) && CrossOwned(os.k)
    requires !d.broken && Fits(os, d, disk) && GoalFree(os, Goal(os, d.device.value, OrderOf(d)))
    ensures var (dev, os', ok) := Setup(os, d.device.value, OrderOf(d));
      var d' := d.(device := Some(dev));
      && Sound(os') && Within(os, os', disk, d.driveId) && OthersStay(os.k, os'.k, disk)
      && FlagsConfined(os.k, os'.k, d.driveId)
      && Fits(os', d', disk) && Accounted(os'.k, dev, disk)
      && (ok ==> Settled(os', d', disk) && CrossOwned(os'.k))
  {
    var dev0, order, at := d.device.value, OrderOf(d), Loc(disk, 0);
    SetupChain(os, dev0, order, at);
    SetupEffect(os, dev0, order);
    SetupRan(os, dev0, order);
    hide Setup, Goal, ChainOk, WfK, LuksOk, Ran, Sound, Within, CrossOwned, Fresh, OthersStay, Accounted, Confined, MountsOk, Reliable, FlagsConfined, Shown, OnlyAt, Moved, FreeFor, Explored, On;
    var (dev, os', ok) := Setup(os, dev0, order);
    RanFlags(os, os', Building);
    FlagsSame(os.k, os'.k, d.driveId);
    WithinWf(os, os', disk, d.driveId);
    ExploredAccounts(os'.k, dev, disk, d.driveId);
    if Leaf(dev).Some? {
      LeafOn(os'.k, dev, at, d.driveId);
    }
    MovedOthersStay(os, os', GoalLeaf(Goal(os, dev0, order)), disk);
    if ok {
      SetupSettled(os, d, disk);
    }
  }

  /** All mounts from the disk of a device are of its leaf, and where that is mounted. */
  lemma AccountedAt(os: Os, d: Dev, disk: string, leaf: DevPath, path: Path)
    requires Agree(os) && Accounted(os.k, d, disk) && Leaf(d) == Some(leaf) && OnlyAt(os, leaf, path)
    ensures forall m :: From(os.k, m, disk) ==> m.dev == leaf && m.path == path
  {
    hide OnlyAt, On, IsEntry;
    forall m | From(os.k, m, disk) ensures m.dev == leaf && m.path == path {
      EntryListed(os, m, path);
    }
  }

  lemma SetupSettled(os: Os, d: Drive, disk: string)
    requires Sound(os) && WfK(os.k) && LuksOk(os) && Reliable(os.fate) && CrossOwned(os.k)
    requires !d.broken && Fits(os, d, disk) && GoalFree(os, Goal(os, d.device.value, OrderOf(d)))
    requires Setup(os, d.device.value, OrderOf(d)).2
    requires var (dev, os', _) := Setup(os, d.device.value, OrderOf(d));
      && OthersStay(os.k, os'.k, disk) && Accounted(os'.k, dev, disk) && WfK(os'.k) && Sound(os')
      && (Leaf(dev).Some? ==> On(os'.k, Leaf(dev).value, disk))
    ensures var (dev, os', _) := Setup(os, d.device.value, OrderOf(d));
      Settled(os', d.(device := Some(dev)), disk) && CrossOwned(os'.k)
  {
    var dev0, order := d.device.value, OrderOf(d);
    SetupEffect(os, dev0, order);
    SoundAgrees(os);
    GoalIs(os, dev0, order, Loc(disk, 0));
    hide Setup, Goal, ChainOk, WfK, LuksOk, Sound, CrossOwned, Fresh, OthersStay, MountsOk, Reliable, Shown, OnlyAt, Moved, FreeFor, On, IsEntry;
    var (dev, os', _) := Setup(os, dev0, order);
    var (leaf, path) := Goal(os, dev0, order).value;
    SoundAgrees(os');
    WfMounts(os'.k);
    AccountedAt(os', dev, disk, leaf, path);
    CrossOwnedSettled(os, os', disk, leaf, path);
  }

  lemma OthersStayTransitive(a: Kernel, b: Kernel, c: Kernel, disk: string)
    requires OthersStay(a, b, disk) && OthersStay(b, c, disk)
    ensures OthersStay(a, c, disk)
  {
  }

  lemma OthersStaySame(a: Kernel, b: Kernel, disk: string)
    requires b.host == a.host && b.local == a.local && b.slots == a.slots
    ensures OthersStay(a, b, disk)
  {
    forall m, n, s | n != disk ensures In(a, m, n, s) == In(b, m, n, s) {
      assert LocOf(a, m.dev) == LocOf(b, m.dev);
    }
  }

  /** Marking a drive as broken changes its flag and nothing else in the system. */
  lemma MarkKeeps(os: Os, d: Drive, disk: string)
    requires Sound(os) && WfK(os.k) && LuksOk(os) && d.device.Some? && Fits(os, d, disk)
    ensures var (d', os') := MarkAsBroken(os, d);
      && d' == d.(broken := true, assignment := None)
      && Sound(os') && Within(os, os', disk, d.driveId) && OthersStay(os.k, os'.k, disk)
      && FlagsConfined(os.k, os'.k, d.driveId) && Fits(os', d', disk)
      && (Accounted(os.k, d.device.value, disk) ==> Accounted(os'.k, d.device.value, disk))
      && (forall m :: IsEntry(os'.k, m) == IsEntry(os.k, m))
      && os'.k.disks == os.k.disks && os'.k.slots == os.k.slots && os'.luks == os.luks
  {
    MarkRan(os, d, Converging);
    RunFlagShape(os, d.driveId);
    hide Run, WfK, LuksOk, Sound, ChainOk, Fresh, Accounted, OthersStay, Confined, CacheConfined, Ran;
    var (d', os') := MarkAsBroken(os, d);
    RanWf(os, os', Converging);
    SoundSame(os, os');
    WithinTables(os, os', disk, d.driveId);
    OthersStaySame(os.k, os'.k, disk);
    ChainOkSame(os.k, os'.k, d.device.value, Loc(disk, 0), d.driveId);
    AccountedSame(os.k, os'.k, d.device.value, disk);
  }

  lemma AccountedSame(k: Kernel, k': Kernel, d: Dev, disk: string)
    requires k'.host == k.host && k'.local == k.local && k'.slots == k.slots
    ensures Accounted(k, d, disk) ==> Accounted(k', d, disk)
  {
  }

  lemma RunFlagShape(os: Os, driveId: string)
    ensures var (os', ok) := Run(os, SetFlag(driveId));
      os' == os.(log := os'.log, k := os.k.(transient := if ok then os.k.transient + {driveId} else os.k.transient))
  {
  }

  lemma FlagsConfinedTransitive(a: Kernel, b: Kernel, c: Kernel, driveId: string)
    requires FlagsConfined(a, b, driveId) && FlagsConfined(b, c, driveId)
    ensures FlagsConfined(a, c, driveId)
  {
  }

  /** A drive that fails on the way is marked and torn down. */
  lemma FailureClears(os: Os, d: Drive, disk: string)
    requires Sound(os) && WfK(os.k) && LuksOk(os) && Reliable(os.fate)
    requires !d.broken && Fits(os, d, disk) && Accounted(os.k, d.device.value, disk)
    ensures var (d1, os1) := MarkAsBroken(os, d);
      var (dev, os2, _) := Teardown(os1, d.device.value);
      var d2 := d1.(device := Some(dev));
      && d2 == d.(device := Some(dev), broken := true, assignment := None)
      && Sound(os2) && Within(os, os2, disk, d.driveId) && OthersStay(os.k, os2.k, disk)
      && FlagsConfined(os.k, os2.k, d.driveId) && Fits(os2, d2, disk)
      && Cleared(os2.k, disk) && MountedPath(dev) == None
  {
    MarkKeeps(os, d, disk);
    hide MarkAsBroken, WfK, LuksOk, Sound, ChainOk, Fresh, Accounted, OthersStay, Confined, CacheConfined, Ran, Teardown, FlagsConfined, Cleared;
    var (d1, os1) := MarkAsBroken(os, d);
    TeardownClears(os1, d.device.value, disk, d.driveId);
    TeardownRan(os1, d.device.value);
    var (dev, os2, _) := Teardown(os1, d.device.value);
    RanFlags(os1, os2, Tearing);
    FlagsSame(os1.k, os2.k, d.driveId);
    WithinTransitive(os, os1, os2, disk, d.driveId);
    OthersStayTransitive(os.k, os1.k, os2.k, disk);
    FlagsConfinedTransitive(os.k, os1.k, os2.k, d.driveId);
  }

  lemma ConvergeWorking(os: Os, d: Drive, disk: string)
    requires Sound(os) && WfK(os.k) && LuksOk(os) && Reliable(os.fate) && CrossOwned(os.k)
    requires !d.broken && Fits(os, d, disk) && GoalFree(os, Goal(os, d.device.value, OrderOf(d)))
    ensures var (d', os') := ConvergeDrive(os, d); Converged(os, os', d, d', disk)
  {
    SetupSettles(os, d, disk);
    hide Setup, Goal, MarkAsBroken, WfK, LuksOk, Sound, ChainOk, Fresh, Accounted, OthersStay, Confined, CacheConfined, Teardown, FlagsConfined, Cleared, Settled, CrossOwned, MountsOk, Within, Reliable;
    var (dev, os1, ok) := Setup(os, d.device.value, OrderOf(d));
    if !ok {
      var d1 := d.(device := Some(dev));
      WithinWf(os, os1, disk, d.driveId);
      FailureClears(os1, d1, disk);
      var (d2, os2) := MarkAsBroken(os1, d1);
      var (dev', os3, _) := Teardown(os2, dev);
      WithinTransitive(os, os1, os3, disk, d.driveId);
      OthersStayTransitive(os.k, os1.k, os3.k, disk);
      FlagsConfinedTransitive(os.k, os1.k, os3.k, d.driveId);
      WithinWf(os, os3, disk, d.driveId);
      WfMounts(os3.k);
      CrossOwnedCleared(os.k, os3.k, disk);
      ClearedAccounts(os3.k, dev', disk);
    }
  }

  /** Converging one drive, whatever fails along the way except umounts and reads: its own disk ends up
    settled or cleared, and every other disk keeps its contents, slots and mounts. */
  lemma ConvergeKeeps(os: Os, d: Drive, disk: string)
    requires Sound(os) && WfK(os.k) && LuksOk(os) && Reliable(os.fate) && CrossOwned(os.k) && Fits(os, d, disk)
    requires d.broken ==> Accounted(os.k, d.device.value, disk)
    requires !d.broken ==> Reserved(os.k, disk, RunTemp(d.driveId))
    requires !d.broken && AssignedPath(d.assignment).Some? ==> Reserved(os.k, disk, AssignedPath(d.assignment).value)
    ensures var (d', os') := ConvergeDrive(os, d); Converged(os, os', d, d', disk)
  {
    hide WfK, LuksOk, Sound, ChainOk, Fresh, Accounted, Converged, CrossOwned, Reliable, Goal, Setup, Teardown, MarkAsBroken, Reserved, GoalFree, ConvergeDrive;
    if d.broken {
      ConvergeBroken(os, d, disk);
    } else {
      SoundAgrees(os);
      GoalIsFree(os, d.device.value, OrderOf(d), disk);
      ConvergeWorking(os, d, disk);
    }
  }
}
