/** When a drive is in order: validation says so exactly, converging it again runs no command, and neither
  does starting over with new objects. */
module Stability {
  import opened Names
  import opened Tables
  import opened Kernels
  import opened KernelFacts
  import opened Machine
  import opened MountCache
  import opened Devices
  import opened DeviceFacts
  import opened Chains
  import opened Drives
  import opened DriveFacts
  import opened Commands
  import opened Convergence

  // ---- Validate is exact, at any depth ----

  /** All layers down to the filesystem are known, and so is its mount. */
  predicate Whole(d: Dev) {
    match d
    case XfsDev(_, _, mountPath) => mountPath.Some?
    case LuksDev(_, _, mapped, _) => mapped.Some? && Whole(mapped.value)
  }

  /** Each container is open where it is recorded to be and not mounted itself, and the filesystem has
    mounts in both scopes, all at the recorded path, none read-only. */
  ghost predicate InOrder(os: Os, d: Dev)
    requires Whole(d)
  {
    match d
    case XfsDev(path, _, mountPath) =>
      && MountsOf(os, path, Host) != [] && Healthy(MountsOf(os, path, Host), mountPath.value)
      && MountsOf(os, path, Local) != [] && Healthy(MountsOf(os, path, Local), mountPath.value)
    case LuksDev(path, _, mapped, _) =>
      path in os.luks && os.luks[path] == mapped.value.path && Unmounted(os, path) && InOrder(os, mapped.value)
  }

  lemma {:induction false} InOrderLog(os: Os, os': Os, d: Dev)
    requires Whole(d) && os' == os.(log := os'.log)
    ensures InOrder(os, d) == InOrder(os', d)
    decreases d
  {
    hide MountsOf, Unmounted;
    LogMounts(os, os', d.path);
    if d.LuksDev? {
      InOrderLog(os, os', d.mapped.value);
    }
  }

  lemma LogMounts(os: Os, os': Os, path: DevPath)
    requires os'.host == os.host && os'.local == os.local
    ensures forall s :: MountsOf(os', path, s) == MountsOf(os, path, s)
    ensures Unmounted(os', path) == Unmounted(os, path)
  {
  }

  /** Validation of a whole chain succeeds if and only if the chain is in order, and then changes nothing
    and runs nothing. */
  lemma {:induction false} ValidateExact(os: Os, d: Dev)
    requires Whole(d)
    ensures Validate(os, d).2 <==> InOrder(os, d)
    ensures InOrder(os, d) ==> Validate(os, d) == (d, os, true)
    decreases d
  {
    hide MountsOf, ValidateXfs;
    if d.XfsDev? {
      ValidateXfsRecorded(os, d);
    } else {
      ValidateExact(os, d.mapped.value);
    }
  }

  // ---- a second Setup ----

  predicate Formatted(d: Dev) {
    d.formatted && (d.LuksDev? && d.mapped.Some? ==> Formatted(d.mapped.value))
  }

  lemma {:induction false} UnmountThoseNone(os: Os, ms: seq<Mount>, path: Path, scope: Scope)
    requires Healthy(ms, path)
    ensures UnmountThose(os, ms, Some(path), scope) == (os, true)
  {
    UnmountThoseIdle(os, ms, Some(path), scope);
  }

  lemma MoveToIdle(os: Os, d: Dev, target: Path)
    requires d.XfsDev? && d.mountPath == Some(target) && InOrder(os, d)
    ensures MoveTo(os, d, target) == (d, os, true)
  {
    hide MountsOf, UnmountThose;
    var h, l := MountsOf(os, d.path, Host), MountsOf(os, d.path, Local);
    UnmountThoseNone(os, h, target, Host);
    UnmountThoseNone(os, l, target, Local);
    assert h[0] in h && l[0] in l;
    MountedOnIsListed(os, d.path, target, Host);
    MountedOnIsListed(os, d.path, target, Local);
  }

  /** A chain that is in order, formatted, and mounted where it is wanted is left alone: `Setup` succeeds
    and runs no command at all. */
  lemma {:induction false} SetupIdle(os: Os, d: Dev, order: Order)
    requires Whole(d) && Formatted(d) && InOrder(os, d)
    requires d.LuksDev? ==> order.keys != []
    requires MountedPath(d) == Some(Target(MountedPath(d), order))
    ensures Setup(os, d, order) == (d, os, true)
    decreases d
  {
    ValidateExact(os, d);
    hide Validate, MountsOf, Unmounted, MoveTo, Target;
    if d.XfsDev? {
      MoveToIdle(os, d, Target(d.mountPath, order));
    } else {
      SetupIdle(os, d.mapped.value, order);
    }
  }

  // ---- what a Setup that succeeds leaves behind ----

  ghost predicate Writable(os: Os, dev: DevPath) {
    (forall m :: m in MountsOf(os, dev, Host) ==> !m.ro) && (forall m :: m in MountsOf(os, dev, Local) ==> !m.ro)
  }

  lemma UnmountKeepsWritable(os: Os, dev: DevPath, keep: Option<Path>)
    requires Sound(os) && Writable(os, dev) && UnmountBoth(os, dev, keep).1
    ensures Writable(UnmountBoth(os, dev, keep).0, dev)
  {
    hide UnmountBoth, Sound, MountsOf, OnlyMoves, TablesOnly;
    UnmountBothEffect(os, dev, keep);
    KeepingMember(MountsOf(os, dev, Host), keep);
    KeepingMember(MountsOf(os, dev, Local), keep);
  }

  lemma MountKeepsWritable(os: Os, dev: DevPath, path: Path, scope: Scope)
    requires Sound(os) && Writable(os, dev) && FreeFor(os.host, dev, path) && FreeFor(os.local, dev, path)
    requires Covered(os.k.mode, scope) || MountedOn(Cached(os, scope), dev, path)
    ensures Writable(MountDevice(os, dev, path, scope).0, dev)
  {
    hide MountDevice, Sound, MountsOf, OnlyMoves, TablesOnly, FreeFor, MountedOn, Covered, Cached;
    MountEffect(os, dev, path, scope);
  }

  lemma MountBothKeepsWritable(os: Os, dev: DevPath, path: Path)
    requires Sound(os) && Writable(os, dev) && FreeFor(os.host, dev, path) && FreeFor(os.local, dev, path)
    requires OnlyAt(os, dev, path)
    ensures Writable(MountBoth(os, dev, path).0, dev)
  {
    hide MountDevice, Sound, Writable, OnlyMoves, TablesOnly, FreeFor, MountedOn, Covered, OnlyAt;
    CoveredHost(os.k.mode);
    MountKeepsWritable(os, dev, path, Host);
    MountEffect(os, dev, path, Host);
    MountShows(os, dev, path, Host);
    var (os1, ok) := MountDevice(os, dev, path, Host);
    if ok {
      FreeAfter(os, os1, dev, path);
      MountLocalReady(os1, dev, path);
      MountKeepsWritable(os1, dev, path, Local);
    }
  }

  lemma MoveToWritable(os: Os, d: Dev, target: Path)
    requires d.XfsDev? && Sound(os) && FreeFor(os.host, d.path, target) && FreeFor(os.local, d.path, target)
    requires Writable(os, d.path) && MoveTo(os, d, target).2
    ensures Writable(MoveTo(os, d, target).1, d.path)
  {
    hide UnmountBoth, MountBoth, Sound, OnlyMoves, OnlyAt, Shown, FreeFor, MountsOf, Writable;
    UnmountBothEffect(os, d.path, Some(target));
    UnmountKeepsWritable(os, d.path, Some(target));
    var (os1, _) := UnmountBoth(os, d.path, Some(target));
    KeptAt(MountsOf(os, d.path, Host), target);
    KeptAt(MountsOf(os, d.path, Local), target);
    OnlyAtParts(os1, d.path, target);
    FreeAfter(os, os1, d.path, target);
    MountBothKeepsWritable(os1, d.path, target);
  }

  lemma ValidatedWritable(os: Os, d: Dev)
    requires d.XfsDev? && ValidateXfs(os, d).1
    ensures Writable(os, d.path)
  {
    hide MountsOf, ValidateXfs;
    ValidatedXfs(os, d);
  }

  lemma WritableSame(a: Os, b: Os, dev: DevPath)
    requires SameTables(a, b) && Writable(a, dev)
    ensures Writable(b, dev)
  {
  }

  lemma SetupXfsWritable(os: Os, d: Dev, order: Order)
    requires d.XfsDev? && Sound(os) && ValidateXfs(os, d).1 && SetupXfs(os, ValidateXfs(os, d).0, order).2
    requires var target := Target(ValidateXfs(os, d).0.mountPath, order);
      FreeFor(os.host, d.path, target) && FreeFor(os.local, d.path, target)
    ensures var (d', os', _) := SetupXfs(os, ValidateXfs(os, d).0, order);
      Writable(os', d.path) && d'.formatted
  {
    ValidatedWritable(os, d);
    ValidateXfsShape(os, d);
    hide ValidateXfs, Sound, Writable, FreeFor, MoveTo, FormatFirst, MountsOf;
    var d0 := ValidateXfs(os, d).0;
    var (d1, os1, _) := FormatFirst(os, d0, Mkfs(d0.path));
    FormatFirstTables(os, d0, Mkfs(d0.path));
    SoundSame(os, os1);
    WritableSame(os, os1, d.path);
    FormattedAfter(os, d0, Mkfs(d0.path));
    MoveToWritable(os1, d1, Target(d1.mountPath, order));
    MoveToFormatted(os1, d1, Target(d1.mountPath, order));
  }

  lemma MoveToFormatted(os: Os, d: Dev, target: Path)
    requires d.XfsDev?
    ensures MoveTo(os, d, target).0.formatted == d.formatted
  {
    hide UnmountBoth, MountBoth;
  }

  /** When `Setup` succeeds, every layer is known and formatted, and no mount of the leaf is read-only. */
  lemma {:induction false} SetupCompletes(os: Os, d: Dev, order: Order)
    requires Sound(os) && GoalFree(os, Goal(os, d, order)) && Setup(os, d, order).2
    ensures var (d', os', _) := Setup(os, d, order);
      && Whole(d') && Formatted(d') && Leaf(d').Some? && Writable(os', Leaf(d').value)
      && (d'.LuksDev? ==> order.keys != [])
    decreases Rank(os.k, d)
  {
    SetupEffect(os, d, order);
    hide Sound, OnlyAt, Shown, FreeFor, OpenUp, Validate, SetupXfs, Target, Writable;
    var (d1, os1, ok) := Validate(os, d);
    SoundSame(os, os1);
    if d1.XfsDev? {
      SetupXfsCompletes(os, d, order);
    } else {
      OpenUpTables(os1, d1, order);
      OpenUpFormats(os1, d1, order);
      var (d2, os2, ok2) := OpenUp(os1, d1, order);
      SoundSame(os1, os2);
      SetupCompletes(os2, d2.mapped.value, order);
    }
  }

  lemma SetupXfsCompletes(os: Os, d: Dev, order: Order)
    requires d.XfsDev? && Sound(os) && GoalFree(os, Goal(os, d, order)) && Setup(os, d, order).2
    ensures var (d', os', _) := Setup(os, d, order);
      d'.XfsDev? && d'.mountPath.Some? && d'.formatted && d'.path == d.path && Writable(os', d.path)
  {
    SetupEffect(os, d, order);
    hide Sound, OnlyAt, Shown, FreeFor, SetupXfs, Target, Writable, ValidateXfs;
    SetupXfsWritable(os, d, order);
  }

  lemma OpenUpFormats(os: Os, d: Dev, order: Order)
    requires d.LuksDev? && OpenUp(os, d, order).2
    ensures OpenUp(os, d, order).0.formatted && order.keys != []
  {
    hide OpenContainer, NewDevice;
    FormattedAfter(os, d, LuksFormat(d.path, order.keys[0]));
  }

  lemma {:induction false} ChainInOrder(os: Os, d: Dev, at: Loc, driveId: string)
    requires WfK(os.k) && Agree(os) && LuksOk(os) && ChainOk(os.k, d, at, driveId) && Whole(d) && Leaf(d).Some?
    requires MountedPath(d).Some? && OnlyAt(os, Leaf(d).value, MountedPath(d).value)
    requires Shown(os, Leaf(d).value) && Writable(os, Leaf(d).value)
    ensures InOrder(os, d)
    decreases d
  {
    hide MountsOf, LuksOk, SlotsOk, MountsOk, Agree;
    if d.LuksDev? {
      var m := d.mapped.value;
      InsideOpen(os.k, d.path, m.path, at);
      CacheTells(os, d.path, at);
      NotMounted(os, d.path);
      hide WfK, Unmounted, Opens;
      ChainInOrder(os, m, Deeper(at), driveId);
    }
  }

  /** The drive needs nothing: a working one is in order at its mount path, a broken one has nothing left
    that it knows of. */
  ghost predicate Quiet(os: Os, d: Drive) {
    && d.device.Some?
    && var dev := d.device.value;
       if d.broken then
         MountedPath(dev) == None && if dev.XfsDev? then Unmounted(os, dev.path) else dev.mapped.None? && dev.mappingName.None?
       else
         && Whole(dev) && Formatted(dev) && InOrder(os, dev) && (dev.LuksDev? ==> d.keys != [])
         && DriveMountedPath(d) == Some(MountPath(d))
  }

  lemma UnmountNothing(os: Os, dev: DevPath)
    requires Unmounted(os, dev)
    ensures UnmountBoth(os, dev, None) == (os, true)
  {
  }

  /** Converging a quiet drive runs no command and changes nothing. */
  lemma QuietConverge(os: Os, d: Drive)
    requires Quiet(os, d)
    ensures ConvergeDrive(os, d) == (d, os)
  {
    hide MountsOf, InOrder, Unmounted;
    var dev := d.device.value;
    if d.broken {
      if dev.XfsDev? {
        UnmountNothing(os, dev.path);
      }
    } else {
      TargetIsMountPath(d);
      SetupIdle(os, dev, OrderOf(d));
    }
  }

  /** Idempotence of one drive: once converging it has worked, converging it again runs no command, whatever
    happened to fail on the way there. */
  lemma ConvergeTwice(os: Os, d: Drive, disk: string)
    requires Sound(os) && WfK(os.k) && LuksOk(os) && Reliable(os.fate) && CrossOwned(os.k) && Fits(os, d, disk)
    requires !d.broken && Reserved(os.k, disk, RunTemp(d.driveId))
    requires AssignedPath(d.assignment).Some? ==> Reserved(os.k, disk, AssignedPath(d.assignment).value)
    requires !ConvergeDrive(os, d).0.broken
    ensures var (d', os') := ConvergeDrive(os, d);
      Quiet(os', d') && ConvergeDrive(os', d') == (d', os')
  {
    var dev, order := d.device.value, OrderOf(d);
    SoundAgrees(os);
    GoalIsFree(os, dev, order, disk);
    ConvergeKeeps(os, d, disk);
    WorkingIsSetup(os, d);
    hide ConvergeDrive, Goal, Setup, WfK, LuksOk, Sound, CrossOwned, Fresh, Reliable, Reserved, FreeFor, OthersStay, Cleared, Accounted;
    SetupEffect(os, dev, order);
    SetupChain(os, dev, order, Loc(disk, 0));
    SetupCompletes(os, dev, order);
    var (d', os') := ConvergeDrive(os, d);
    SoundAgrees(os');
    hide Writable, OnlyAt, Shown, Agree, Within;
    assert WfK(os'.k) && LuksOk(os') by { WithinKeeps(os, os', disk, d.driveId); }
    ChainInOrder(os', d'.device.value, Loc(disk, 0), d.driveId);
    QuietConverge(os', d');
  }

  lemma WithinKeeps(os: Os, os': Os, disk: string, driveId: string)
    requires Within(os, os', disk, driveId)
    ensures WfK(os'.k) && LuksOk(os')
  {
  }

  lemma WorkingIsSetup(os: Os, d: Drive)
    requires d.device.Some? && !d.broken && !ConvergeDrive(os, d).0.broken
    ensures var (dev, os', ok) := Setup(os, d.device.value, OrderOf(d));
      ok && ConvergeDrive(os, d) == (d.(device := Some(dev)), os')
  {
    hide Setup, Teardown;
  }

  // ---- starting over with new objects ----

  /** Known layers are no more than the containers on the disk. */
  lemma {:induction false} RankKnown(k: Kernel, d: Dev, at: Loc, driveId: string)
    requires SlotsOk(k) && ChainOk(k, d, at, driveId)
    ensures Rank(k, d) <= if d.LuksDev? then 1 + Height(ContentOf(k, at).value) else 0
    decreases d
  {
    if d.LuksDev? && d.mapped.Some? {
      InsideOpen(k, d.path, d.mapped.value.path, at);
      RankKnown(k, d.mapped.value, Deeper(at), driveId);
    } else if d.LuksDev? {
      hide SlotsOk;
    }
  }

  /** A device object as `newDevice` makes it for a layer like `d`. */
  predicate Untried(f: Dev, d: Dev) {
    && f.path == d.path && f.formatted
    && if d.XfsDev? then f == XfsDev(d.path, true, None) else f == LuksDev(d.path, true, None, None)
  }

  lemma LeafContent(os: Os, d: Dev, at: Loc, driveId: string)
    requires WfK(os.k) && Agree(os) && ChainOk(os.k, d, at, driveId) && Whole(d) && InOrder(os, d)
    ensures ContentAt(os.k, d.path) == ContentOf(os.k, at) && ContentOf(os.k, at).Some?
    ensures if d.XfsDev? then ContentOf(os.k, at).value.Xfs? else ContentOf(os.k, at).value.Luks?
  {
    if d.XfsDev? {
      EntriesOf(os, d.path, Host);
      var m := MountsOf(os, d.path, Host)[0];
      assert m in MountsOf(os, d.path, Host);
      assert MountedOn(os.k.host, d.path, m.path);
    } else {
      InsideOpen(os.k, d.path, d.mapped.value.path, at);
    }
  }

  lemma NewDeviceUntried(os: Os, d: Dev, at: Loc, driveId: string, preferLuks: bool)
    requires WfK(os.k) && Agree(os) && Reliable(os.fate) && ChainOk(os.k, d, at, driveId) && Whole(d) && InOrder(os, d)
    ensures var (f, os') := NewDevice(os, d.path, preferLuks);
      f.Some? && Untried(f.value, d) && os' == os.(log := os'.log)
  {
    LeafContent(os, d, at, driveId);
    hide WfK, InOrder, ChainOk, Agree, Whole, ContentOf, NewDevice, ContentAt, Reliable;
    NewDeviceFor(os, d.path, preferLuks);
  }

  lemma NewDeviceFor(os: Os, path: DevPath, preferLuks: bool)
    requires Reliable(os.fate) && ContentAt(os.k, path).Some? && !ContentAt(os.k, path).value.Blank?
    ensures var (f, os') := NewDevice(os, path, preferLuks);
      && f == Some(if ContentAt(os.k, path).value.Luks? then LuksDev(path, true, None, None) else XfsDev(path, true, None))
      && os' == os.(log := os'.log)
  {
    hide ContentAt;
  }

  /** Validation of a new object finds what the old one knew. */
  lemma {:induction false} ValidateUntried(os: Os, d: Dev, f: Dev, at: Loc, driveId: string)
    requires WfK(os.k) && Agree(os) && Reliable(os.fate) && ChainOk(os.k, d, at, driveId) && Whole(d) && InOrder(os, d)
    requires Untried(f, d)
    ensures var (f', os', ok) := Validate(os, f);
      && ok && os' == os.(log := os'.log) && Whole(f') && Formatted(f') && InOrder(os', f')
      && MountedPath(f') == MountedPath(d) && f'.LuksDev? == d.LuksDev?
      && Rank(os.k, f') == Rank(os.k, d)
    decreases d
  {
    WfSlots(os.k);
    hide WfK, Agree, Reliable, MountsOf, ClassifyDevice;
    if d.XfsDev? {
      hide ChainOk, ValidateXfs;
      ValidateUntriedXfs(os, d, f);
    } else {
      var m := d.mapped.value;
      NewDeviceUntried(os, m, Deeper(at), driveId, false);
      var (g, os1) := NewDevice(os, m.path, false);
      LogMounts(os, os1, d.path);
      InOrderLog(os, os1, m);
      AgreeSame(os, os1);
      ValidateUntried(os1, m, g.value, Deeper(at), driveId);
      LeafContent(os, d, at, driveId);
      InsideOpen(os.k, d.path, m.path, at);
      var (m', os2, ok) := Validate(os1, g.value);
      InOrderLog(os1, os2, m');
      LogMounts(os, os2, d.path);
      hide NewDevice, InOrder, Unmounted, ChainOk, ContentOf, Opens, Rank;
      UntriedRank(os.k, f, g.value, at);
      UntriedLuks(os, d, f, g.value);
      assert InOrder(os2, LuksDev(d.path, true, Some(m'), None)) by { InOrderLuks(os2, d, m'); }
      assert Rank(os.k, LuksDev(d.path, true, Some(m'), None)) == Rank(os.k, d) by { RankLuks(os.k, d, m'); }
    }
  }

  lemma RankLuks(k: Kernel, d: Dev, m: Dev)
    requires d.LuksDev? && d.mapped.Some? && Rank(k, m) == Rank(k, d.mapped.value)
    ensures Rank(k, LuksDev(d.path, true, Some(m), None)) == Rank(k, d)
  {
  }

  lemma InOrderLuks(os: Os, d: Dev, m: Dev)
    requires d.LuksDev? && Whole(d) && Whole(m) && InOrder(os, m)
    requires d.path in os.luks && os.luks[d.path] == m.path && Unmounted(os, d.path)
    ensures InOrder(os, LuksDev(d.path, true, Some(m), None))
  {
    hide MountsOf, Unmounted;
  }

  lemma UntriedRank(k: Kernel, f: Dev, g: Dev, at: Loc)
    requires f.LuksDev? && f.mapped.None? && ContentAt(k, f.path) == ContentOf(k, at) && ContentOf(k, at).Some?
    requires ContentOf(k, at).value.Luks? && ContentAt(k, g.path) == Some(ContentOf(k, at).value.inner)
    requires g.LuksDev? ==> g.mapped.None?
    ensures Rank(k, g) < Rank(k, f)
  {
    hide ContentAt, ContentOf;
  }

  /** Validation of a container's new object, one layer. */
  lemma UntriedLuks(os: Os, d: Dev, f: Dev, g: Dev)
    requires d.LuksDev? && Whole(d) && InOrder(os, d) && Untried(f, d)
    requires NewDevice(os, d.mapped.value.path, false).0 == Some(g)
    requires Rank(os.k, g) < Rank(os.k, f)
    requires NewDevice(os, d.mapped.value.path, false).1 == os.(log := NewDevice(os, d.mapped.value.path, false).1.log)
    ensures var os1 := NewDevice(os, d.mapped.value.path, false).1;
      var (m', os2, ok) := Validate(os1, g);
      Validate(os, f) == (LuksDev(d.path, true, Some(m'), None), os2, ok)
  {
    hide NewDevice, MountsOf, Rank;
    var os1 := NewDevice(os, d.mapped.value.path, false).1;
    LogMounts(os, os1, d.path);
    assert Discover(os, f) == (f.(mapped := Some(g)), os1, true);
    hide Discover, InOrder;
  }

  lemma ValidateUntriedXfs(os: Os, d: Dev, f: Dev)
    requires d.XfsDev? && Whole(d) && InOrder(os, d) && Untried(f, d)
    ensures ValidateXfs(os, f) == (XfsDev(d.path, true, MountedPath(d)), true)
  {
    hide MountsOf, ValidateXfs;
    ValidateXfsFresh(os, f);
    var h, l := MountsOf(os, d.path, Host), MountsOf(os, d.path, Local);
    assert h[0] in h && l[0] in l;
    assert forall m :: m in h + l <==> m in h || m in l;
  }

  /** `Setup` of a new object finds everything done: it runs nothing but looks at the devices. */
  lemma SetupUntried(os: Os, d: Dev, f: Dev, order: Order, at: Loc, driveId: string)
    requires WfK(os.k) && Agree(os) && Reliable(os.fate) && ChainOk(os.k, d, at, driveId) && Whole(d) && InOrder(os, d)
    requires Untried(f, d) && (d.LuksDev? ==> order.keys != [])
    requires MountedPath(d) == Some(Target(MountedPath(d), order))
    ensures var (f', os', ok) := Setup(os, f, order);
      && ok && os' == os.(log := os'.log) && Whole(f') && Formatted(f') && InOrder(os', f')
      && MountedPath(f') == MountedPath(d) && Ran(os, os', Glancing)
  {
    ValidateUntried(os, d, f, at, driveId);
    ValidateLooks(os, f, Glancing);
    var (f', os', _) := Validate(os, f);
    WfSlots(os.k);
    RankKnown(os.k, d, at, driveId);
    LeafContent(os, d, at, driveId);
    ValidateExact(os', f');
    SetupIdle(os', f', order);
    hide WfK, Agree, Reliable, ChainOk, Validate, InOrder, Target, ContentOf, SetupXfs, Ran;
    if d.XfsDev? {
      IdleXfs(os', f', order);
    } else {
      SetupIdle(os', f'.mapped.value, order) by { InnerInOrder(os', f'); }
    }
  }

  lemma InnerInOrder(os: Os, d: Dev)
    requires d.LuksDev? && Whole(d) && InOrder(os, d)
    ensures InOrder(os, d.mapped.value)
  {
  }

  lemma IdleXfs(os: Os, d: Dev, order: Order)
    requires d.XfsDev? && Whole(d) && Formatted(d) && InOrder(os, d) && MountedPath(d) == Some(Target(MountedPath(d), order))
    ensures SetupXfs(os, d, order) == (d, os, true)
  {
    hide InOrder, Target;
    MoveToIdle(os, d, Target(d.mountPath, order));
  }

  lemma NoFlag(os: Os, d: Drive, durable: bool)
    requires d.driveId !in (if durable then os.k.durable else os.k.transient)
    ensures CheckFlag(os, d, durable) == (d, os.(log := CheckFlag(os, d, durable).1.log))
  {
  }

  /** Restart stability: a new object for the disk of a drive that is in order, not flagged and not
    assigned otherwise, leaves both the kernel and the caches as they are, and takes the drive's place. */
  lemma RestartIdle(os: Os, d: Drive, disk: string)
    requires WfK(os.k) && Agree(os) && Reliable(os.fate) && Fits(os, d, disk) && !d.broken && Quiet(os, d)
    requires d.driveId !in os.k.transient && d.driveId !in os.k.durable
    ensures var (n, os1) := NewDrive(os, d.path, d.driveId, d.keys);
      n.device.Some? && !n.broken
      && var (d', os') := ConvergeDrive(os1, n);
      os' == os.(log := os'.log) && Quiet(os', d') && !d'.broken && DriveMountedPath(d') == DriveMountedPath(d)
      && Ran(os, os', Glancing)
  {
    var dev, at := d.device.value, Loc(disk, 0);
    NewDeviceUntried(os, dev, at, d.driveId, d.keys != []);
    NewDriveGlancing(os, d.path, d.driveId, d.keys);
    hide WfK, Agree, ChainOk, InOrder, Fresh, CheckFlag, NewDevice, MountsOf, Reliable, Ran;
    var (f, os0) := NewDevice(os, d.path, d.keys != []);
    var blank := Drive(d.path, d.driveId, d.keys, f, false, None);
    NoFlag(os0, blank, false);
    var os1 := CheckFlag(os0, blank, false).1;
    NoFlag(os1, blank, true);
    var os2 := CheckFlag(os1, blank, true).1;
    assert NewDrive(os, d.path, d.driveId, d.keys) == (blank, os2);
    InOrderLog(os, os2, dev);
    SameExceptLog(os, os2);
    SetupUntried(os2, dev, f.value, OrderOf(blank), at, d.driveId);
    hide Setup, NewDrive;
    var (f', os', ok) := Setup(os2, f.value, OrderOf(blank));
    RanTransitive(os, os2, os', Glancing);
    assert ConvergeDrive(os2, blank) == (blank.(device := Some(f')), os') by { SetupIsWorking(os2, blank); }
    SetupRank(os2, f.value, OrderOf(blank));
  }

  lemma SetupRank(os: Os, d: Dev, order: Order)
    ensures Setup(os, d, order).0.XfsDev? == d.XfsDev?
  {
  }

  lemma SameExceptLog(os: Os, os': Os)
    requires os' == os.(log := os'.log)
    ensures Agree(os) ==> Agree(os')
  {
  }

  lemma SetupIsWorking(os: Os, d: Drive)
    requires d.device.Some? && !d.broken && Setup(os, d.device.value, OrderOf(d)).2
    ensures var (dev, os', _) := Setup(os, d.device.value, OrderOf(d));
      ConvergeDrive(os, d) == (d.(device := Some(dev)), os')
  {
    hide Setup, Teardown;
  }
}
