/** What a system must be like for an iteration to go through without a broken drive, and that it is like that
  at every moment of such an iteration: so a process that is stopped anywhere can be started again. */
module StartConditions {
  import opened Names
  import opened Tables
  import opened Kernels
  import opened KernelFacts
  import opened Machine
  import opened MountCache
  import opened Devices
  import opened DeviceFacts
  import opened Drives
  import opened Commands
  import opened Chains
  import opened DriveFacts
  import opened Convergence
  import opened Fleets
  import opened Convergers
  import opened Exclusivity
  import opened Safety
  import opened Moments
  import opened Recovery
  import opened Restarts
  import opened RoundMoments
  import opened Workable
  import opened IterationCourse
  import opened CrashRecovery
  import opened Crashes
  import AssignSteps
  import Assignments
  import opened Stability

  /** The disk is there and can be opened, its places are free, it is not flagged as broken, and its mounts
    are writable. */
  ghost predicate Tidy(k: Kernel, t: NamedDisk, keys: seq<string>) {
    && t.disk in k.disks && Openable(k, k.disks[t.disk], Loc(t.disk, 0), t.driveId, keys)
    && IdKept(k, t.driveId, t.disk) && Reserved(k, t.disk, RunTemp(t.driveId)) && !Flagged(k, t.driveId)
    && forall m :: From(k, m, t.disk) ==> !m.ro
  }

  predicate IsManaged(disks: seq<NamedDisk>, n: string) {
    exists j :: 0 <= j < |disks| && disks[j].disk == n
  }

  /** Both namespaces see the same mounts, every disk is tidy, and nothing else is mounted below
    `/srv/node`. */
  ghost predicate Startable(pl: Plan, k: Kernel) {
    && !k.mode.Separate? && k.host == k.local
    && (forall j :: 0 <= j < |pl.disks| ==> Tidy(k, pl.disks[j], pl.cfg.keys))
    && (forall m, n :: From(k, m, n) && m.path.SrvNode? ==> IsManaged(pl.disks, n))
  }

  ghost function StartableFor(pl: Plan): Kernel -> bool {
    p => Startable(pl, p)
  }

  // ---- a process starting here finds a tame world ----

  lemma ArrivalsApart(pl: Plan)
    requires Planned(pl) && Named(pl)
    ensures EventsApart(Arrivals(pl.disks))
  {
  }

  lemma TidyReady(pl: Plan, k: Kernel, fate: (nat, Cmd) -> bool, j: nat)
    requires Startable(pl, k) && WfK(k) && j < |pl.disks|
    ensures Ready(Refresh(Boot(k, fate).os.(k := k)), Disk(pl.disks[j].disk), pl.disks[j].driveId)
  {
    assert Tidy(k, pl.disks[j], pl.cfg.keys);
    RefreshedLuks(Boot(k, fate).os.(k := k));
    hide WfK, LuksOk, Openable, Reserved, IdKept, Cleared, OpenMappings, Fresh;
  }

  lemma StartableTame(pl: Plan, k: Kernel, fate: (nat, Cmd) -> bool)
    requires Planned(pl) && Named(pl) && Startable(pl, k) && WfK(k)
    ensures Tame(Boot(k, fate), k, Arrivals(pl.disks))
  {
    ArrivalsApart(pl);
    var s, events := Boot(k, fate), Arrivals(pl.disks);
    hide WfK, EventsApart, Tidy, Refresh, Ready;
    forall e | e in events ensures PendingOk(Refresh(s.os.(k := k)), s.drives, e) {
      var j :| 0 <= j < |events| && events[j] == e;
      TidyReady(pl, k, fate, j);
    }
    forall m, n | From(k, m, n) && m.path.SrvNode? ensures Owner(s.drives, events, n) {
      var j :| 0 <= j < |pl.disks| && pl.disks[j].disk == n;
      assert events[j] in events;
    }
    forall m | IsEntry(k, m) ensures StillThere(s.os.k, m) {
    }
  }

  // ---- commands of Setup outside separate mode ----

  /** Commands of `Setup` that reach both scopes. */
  predicate Hosting(c: Cmd) {
    Building(c) && (c.MountCmd? || c.Umount? ==> c.scope.Host?)
  }

  lemma PreparingHosts(os: Os, os': Os)
    requires Ran(os, os', Preparing)
    ensures Ran(os, os', Hosting)
  {
    RanWider(os, os', Preparing, Hosting);
  }

  lemma UnmountHosts(os: Os, dev: DevPath, keep: Option<Path>)
    requires Sound(os) && !os.k.mode.Separate?
    ensures Ran(os, UnmountBoth(os, dev, keep).0, Hosting)
  {
    UnmountThoseRan(os, MountsOf(os, dev, Host), keep, Host, Hosting);
    UnmountLocalIdle(os, dev, keep);
    hide UnmountThose, Ran, Sound;
  }

  lemma MountHosts(os: Os, dev: DevPath, path: Path)
    requires os.host == os.local && !os.k.mode.Separate?
    ensures Ran(os, MountBoth(os, dev, path).0, Hosting)
  {
    MountRan(os, dev, path, Host, Hosting);
    var (os1, ok) := MountDevice(os, dev, path, Host);
    if ok {
      MountTwin(os, dev, path);
      assert MountBoth(os, dev, path).0 == os1;
    }
    hide MountDevice, Ran;
  }

  lemma MountTwin(os: Os, dev: DevPath, path: Path)
    requires os.host == os.local && !os.k.mode.Separate? && MountDevice(os, dev, path, Host).1
    ensures var os1 := MountDevice(os, dev, path, Host).0; MountDevice(os1, dev, path, Local) == (os1, true)
  {
    hide Can, Effect;
    var os1 := MountDevice(os, dev, path, Host).0;
    if !MountedOn(os.host, dev, path) {
      assert Mount(dev, path, false) in os1.local;
    }
  }

  lemma UnmountTwin(os: Os, dev: DevPath, keep: Option<Path>)
    requires Sound(os) && !os.k.mode.Separate?
    ensures var os' := UnmountBoth(os, dev, keep).0; os'.host == os'.local && !os'.k.mode.Separate?
  {
    hide UnmountBoth, MountsOf, OnlyMoves;
    UnmountBothEffect(os, dev, keep);
  }

  lemma SetupXfsHosts(os: Os, d: Dev, order: Order)
    requires d.XfsDev? && Sound(os) && !os.k.mode.Separate?
    ensures Ran(os, SetupXfs(os, d, order).1, Hosting)
  {
    FormatFirstRan(os, d, Mkfs(d.path));
    FormatFirstTables(os, d, Mkfs(d.path));
    hide FormatFirst, UnmountBoth, MountBoth, Ran, Target, Sound;
    var (d1, os1, ok) := FormatFirst(os, d, Mkfs(d.path));
    PreparingHosts(os, os1);
    SoundSame(os, os1);
    if ok {
      var target := Target(d1.mountPath, order);
      UnmountHosts(os1, d1.path, Some(target));
      UnmountTwin(os1, d1.path, Some(target));
      var (os2, ok2) := UnmountBoth(os1, d1.path, Some(target));
      RanTransitive(os, os1, os2, Hosting);
      if ok2 {
        MountHosts(os2, d1.path, target);
        RanTransitive(os, os2, MountBoth(os2, d1.path, target).0, Hosting);
      }
    }
  }

  /** Outside separate mode `Setup` mounts and unmounts in the host's scope only. */
  lemma {:induction false} SetupHosts(os: Os, d: Dev, order: Order)
    requires Sound(os) && !os.k.mode.Separate?
    ensures Ran(os, Setup(os, d, order).1, Hosting)
    decreases Rank(os.k, d)
  {
    hide Validate, SetupXfs, OpenUp, Ran, Sound, Rank;
    ValidateRan(os, d);
    var (d1, os1, ok) := Validate(os, d);
    PreparingHosts(os, os1);
    SoundSame(os, os1);
    if ok {
      if d1.XfsDev? {
        SetupXfsHosts(os1, d1, order);
        RanTransitive(os, os1, SetupXfs(os1, d1, order).1, Hosting);
      } else {
        OpenUpRan(os1, d1, order);
        OpenUpTables(os1, d1, order);
        var (d2, os2, ok2) := OpenUp(os1, d1, order);
        PreparingHosts(os1, os2);
        SoundSame(os1, os2);
        RanTransitive(os, os1, os2, Hosting);
        if !(!ok2 || d2.mapped.None? || Rank(os2.k, d2.mapped.value) >= Rank(os.k, d)) {
          SetupHosts(os2, d2.mapped.value, order);
          RanTransitive(os, os2, Setup(os2, d2.mapped.value, order).1, Hosting);
        }
      }
    }
  }

  // ---- between the first and the last command of Setup ----

  /** `p` lies between `k` and `kEnd`: containers have been opened on the way, but none closed; new mounts are
    writable and seen by both namespaces; no flag has changed. */
  ghost predicate Between(k: Kernel, p: Kernel, kEnd: Kernel) {
    && SlotsWithin(k, p) && SlotsWithin(p, kEnd) && p.mode == k.mode && p.host == p.local
    && p.transient == k.transient && p.durable == k.durable
    && forall m :: IsEntry(p, m) ==> IsEntry(k, m) || !m.ro
  }

  ghost function BetweenOf(k: Kernel, kEnd: Kernel): Kernel -> bool {
    p => Between(k, p, kEnd)
  }

  lemma HostingEffect(k: Kernel, e: Entry)
    requires Legal(k, e) && Hosting(e.cmd) && !k.mode.Separate? && k.host == k.local
    ensures var p := After(k, e);
      && SlotsWithin(k, p) && p.mode == k.mode && p.host == p.local && p.transient == k.transient && p.durable == k.durable
      && forall m :: IsEntry(p, m) ==> IsEntry(k, m) || !m.ro
  {
    if e.ok && e.cmd.Umount? {
      RemoveLastSubset(k.host, e.cmd.path);
    }
  }

  lemma {:induction false} HostingThroughout(k0: Kernel, k: Kernel, es: seq<Entry>, kEnd: Kernel)
    requires Trace(k, es, kEnd) && !k.mode.Separate? && Between(k0, k, kEnd)
    requires forall e :: e in es ==> Hosting(e.cmd)
    ensures Throughout(k, es, BetweenOf(k0, kEnd))
    decreases |es|
  {
    hide Legal, After;
    if es != [] {
      assert es[0] in es;
      assert forall e :: e in es[1..] ==> e in es;
      HostingEffect(k, es[0]);
      BuildingSlots(After(k, es[0]), es[1..], kEnd);
      HostingThroughout(k0, After(k, es[0]), es[1..], kEnd);
    }
  }

  lemma SetupBetween(os: Os, d: Dev, order: Order)
    requires Sound(os) && !os.k.mode.Separate? && os.k.host == os.k.local
    ensures var os' := Setup(os, d, order).1; Always(os, os', BetweenOf(os.k, os'.k))
  {
    SetupHosts(os, d, order);
    hide Setup, Sound;
    var os' := Setup(os, d, order).1;
    BuildingSlots(os.k, Since(os, os'), os'.k);
    HostingThroughout(os.k, os.k, Since(os, os'), os'.k);
  }

  // ---- containers stay openable ----

  /** As far as this disk and this name go, the same mappings are open. */
  ghost predicate SameOpen(k: Kernel, p: Kernel, n: string, name: string) {
    && (forall at: Loc :: at.disk == n ==> SlotAt(k, at) == SlotAt(p, at))
    && (name in k.slots <==> name in p.slots)
  }

  lemma {:induction false} OpenableSame(k: Kernel, p: Kernel, c: Content, d: Content, at: Loc, name: string, keys: seq<string>)
    requires SameOpen(k, p, at.disk, name) && Shape(c) == Shape(d) && Openable(k, c, at, name, keys)
    ensures Openable(p, d, at, name, keys)
    decreases c
  {
    hide SlotAt;
    if c.Luks? {
      assert d.Luks? && d.key == c.key && Shape(d.inner) == Shape(c.inner);
      assert SlotAt(k, Deeper(at)) == SlotAt(p, Deeper(at));
      if SlotAt(k, Deeper(at)) {
        OpenableSame(k, p, c.inner, d.inner, Deeper(at), name, keys);
      } else {
        assert !d.inner.Luks?;
      }
    }
  }

  /** Every container down to the filesystem is open. */
  ghost predicate AllOpen(k: Kernel, c: Content, at: Loc)
    decreases c
  {
    c.Luks? ==> SlotAt(k, Deeper(at)) && AllOpen(k, c.inner, Deeper(at))
  }

  lemma {:induction false} AllOpenable(k: Kernel, c: Content, d: Content, at: Loc, name: string, keys: seq<string>)
    requires AllOpen(k, c, at) && Shape(c) == Shape(d) && (d.Luks? ==> keys != [])
    ensures Openable(k, d, at, name, keys)
    decreases c
  {
    hide SlotAt;
    if c.Luks? {
      assert d.Luks? && d.key == c.key && Shape(d.inner) == Shape(c.inner);
      AllOpenable(k, c.inner, d.inner, Deeper(at), name, keys);
    }
  }

  /** A chain known down to its leaf has all containers open. */
  lemma {:induction false} ChainAllOpen(k: Kernel, d: Dev, at: Loc, name: string)
    requires SlotsOk(k) && ChainOk(k, d, at, name) && Leaf(d).Some?
    ensures AllOpen(k, ContentOf(k, at).value, at)
    decreases d
  {
    hide SlotsOk, Peel;
    if d.LuksDev? {
      InsideOpen(k, d.path, d.mapped.value.path, at);
      ChainAllOpen(k, d.mapped.value, Deeper(at), name);
      assert SlotAt(k, Deeper(at));
    }
  }

  lemma ShapeOfDisk(c: Content, d: Content, keys: seq<string>)
    requires DiskShape(c, keys) == DiskShape(d, keys) && (c.Blank? && keys != [] ==> d.Blank?) && (d.Blank? && keys != [] ==> c.Blank?)
    ensures Shape(c) == Shape(d)
  {
  }

  /** Between the start of `Setup` and its successful end, the disk can be opened. */
  lemma OpenableBetween(k: Kernel, p: Kernel, kEnd: Kernel, n: string, name: string, keys: seq<string>)
    requires SlotsOk(k) && SlotsOk(p) && SlotsWithin(k, p) && SlotsWithin(p, kEnd)
    requires n in k.disks && n in p.disks && n in kEnd.disks
    requires DiskShape(p.disks[n], keys) == DiskShape(k.disks[n], keys) == DiskShape(kEnd.disks[n], keys)
    requires Openable(k, k.disks[n], Loc(n, 0), name, keys) && AllOpen(kEnd, kEnd.disks[n], Loc(n, 0)) && !kEnd.disks[n].Blank?
    requires IdKept(kEnd, name, n) && forall m :: m in kEnd.slots ==> m == name || m in k.slots
    ensures Openable(p, p.disks[n], Loc(n, 0), name, keys)
  {
    var c, d := k.disks[n], p.disks[n];
    if !d.Blank? {
      if d.Luks? {
        ShapeKeys(c, d, keys, k, Loc(n, 0), name);
      }
      if name in p.slots {
        ShapeOfDisk(d, kEnd.disks[n], keys);
        AllOpenable(kEnd, kEnd.disks[n], d, Loc(n, 0), name, keys);
        SameSlots(p, kEnd, name);
        OpenableSame(kEnd, p, d, d, Loc(n, 0), name, keys);
      } else {
        SameSlots(k, p, name);
        if c.Blank? && keys != [] {
          NewlyMade(p, k, n, d, name, keys);
        } else {
          ShapeOfDisk(c, d, keys);
          OpenableSame(k, p, c, d, Loc(n, 0), name, keys);
        }
      }
    }
  }

  lemma ShapeKeys(c: Content, d: Content, keys: seq<string>, k: Kernel, at: Loc, name: string)
    requires DiskShape(c, keys) == DiskShape(d, keys) && d.Luks? && Openable(k, c, at, name, keys)
    ensures keys != []
  {
    if !c.Blank? {
      assert c.Luks?;
    }
  }

  /** With no mapping under the name, or with the name in both, the same mappings are open. */
  lemma SameSlots(k: Kernel, p: Kernel, name: string)
    requires SlotsWithin(k, p) && forall m :: m in p.slots ==> m in k.slots
    ensures forall n :: SameOpen(k, p, n, name)
  {
    forall at: Loc ensures SlotAt(k, at) == SlotAt(p, at) {
    }
  }

  /** A container just made on a blank disk is closed, and has the first key. */
  lemma NewlyMade(p: Kernel, k: Kernel, n: string, d: Content, name: string, keys: seq<string>)
    requires SlotsOk(k) && n in k.disks && k.disks[n] == Blank && SlotsWithin(k, p) && (forall m :: m in p.slots ==> m in k.slots)
    requires keys != [] && !d.Blank? && DiskShape(d, keys) == DiskShape(Blank, keys) && name !in p.slots
    ensures Openable(p, d, Loc(n, 0), name, keys)
  {
    assert d.Luks? && d.key == keys[0] && Shape(d.inner) == Xfs("");
    forall m | m in p.slots ensures p.slots[m].at != Loc(n, 1) {
      SlotLuks(k, m);
    }
    assert !SlotAt(p, Deeper(Loc(n, 0)));
  }

  // ---- the disk of the drive at work ----

  /** What is known of a kernel `p` on the way from `k` to `kEnd`, while disk `n` is worked on. */
  ghost predicate EnRoute(k: Kernel, p: Kernel, kEnd: Kernel, n: string, keys: seq<string>, cur: Option<Path>, target: Path) {
    Underway(k, p, n, keys, cur, target) && Between(k, p, kEnd) && Orderly(p)
  }

  /** What is known of the end. */
  ghost predicate Arrived(k: Kernel, kEnd: Kernel, t: NamedDisk, keys: seq<string>) {
    && WfK(kEnd) && t.disk in kEnd.disks && AllOpen(kEnd, kEnd.disks[t.disk], Loc(t.disk, 0)) && !kEnd.disks[t.disk].Blank?
    && SameDisks(k, kEnd, t.disk, keys)
    && IdKept(kEnd, t.driveId, t.disk) && forall m :: m in kEnd.slots ==> m == t.driveId || m in k.slots
  }

  lemma NewEntries(k: Kernel, p: Kernel, kEnd: Kernel, n: string)
    requires Between(k, p, kEnd) && WfK(k) && forall m :: From(k, m, n) ==> !m.ro
    ensures forall m :: From(p, m, n) ==> !m.ro
  {
    hide On, SlotsOk, SlotsWithin, MountsOk;
    forall m | From(p, m, n) ensures !m.ro {
      if IsEntry(k, m) {
        OnWithin(k, p, m, n);
      }
    }
  }

  lemma OwnReservedThere(k: Kernel, p: Kernel, n: string, path: Path)
    requires OthersStay(k, p, n) && WfK(p) && Reserved(k, n, path)
    ensures Reserved(p, n, path)
  {
    hide SlotsOk;
    OwnReserved(k, p, n, path);
  }

  lemma OwnTidy(k: Kernel, p: Kernel, kEnd: Kernel, t: NamedDisk, keys: seq<string>, cur: Option<Path>, target: Path)
    requires Tidy(k, t, keys) && WfK(k) && EnRoute(k, p, kEnd, t.disk, keys, cur, target) && Arrived(k, kEnd, t, keys)
    ensures Tidy(p, t, keys)
  {
    hide DiskShape, LeafId, OthersStay, PathIs, EntriesKept, CrossOwned, Labelled, SlotsOk, MountsOk, Reserved, Openable, AllOpen, From;
    OpenableBetween(k, p, kEnd, t.disk, t.driveId, keys);
    OwnReservedThere(k, p, t.disk, RunTemp(t.driveId));
    NewEntries(k, p, kEnd, t.disk);
  }

  // ---- the other disks ----

  /** A disk is not mounted at another's place. */
  lemma CurElsewhere(k: Kernel, n: string, n': string, cur: Option<Path>, path: Path)
    requires At(k, n, cur) && Reserved(k, n', path) && n' != n
    ensures cur != Some(path)
  {
    if cur.Some? {
      var m :| From(k, m, n);
    }
  }

  lemma OtherReserved(k: Kernel, p: Kernel, n: string, n': string, cur: Option<Path>, target: Path, path: Path)
    requires OthersStay(k, p, n) && WfK(p) && n' != n && Reserved(k, n', path) && At(k, n, cur)
    requires (PathIs(p, n, cur) || PathIs(p, n, Some(target))) && target != path
    ensures Reserved(p, n', path)
  {
    CurElsewhere(k, n, n', cur, path);
    hide SlotsOk, OthersStay, At;
    forall m | IsEntry(p, m) && m.path == path ensures On(p, m.dev, n') {
      var x := LocOf(p, m.dev).value.disk;
      assert From(p, m, x);
      if x != n {
        OthersFrom(k, p, n, m, x);
      }
    }
  }

  lemma OtherOpen(k: Kernel, p: Kernel, kEnd: Kernel, t: NamedDisk, t': NamedDisk)
    requires SlotsWithin(k, p) && SlotsWithin(p, kEnd) && IdKept(kEnd, t.driveId, t.disk) && t'.disk != t.disk && t'.driveId != t.driveId
    requires forall m :: m in kEnd.slots ==> m == t.driveId || m in k.slots
    ensures SameOpen(k, p, t'.disk, t'.driveId)
    ensures IdKept(k, t'.driveId, t'.disk) ==> IdKept(p, t'.driveId, t'.disk)
  {
    forall at: Loc | at.disk == t'.disk ensures SlotAt(k, at) == SlotAt(p, at) {
    }
  }

  lemma OtherTidy(k: Kernel, p: Kernel, kEnd: Kernel, t: NamedDisk, t': NamedDisk, keys: seq<string>, cur: Option<Path>, target: Path)
    requires Tidy(k, t', keys) && WfK(k) && EnRoute(k, p, kEnd, t.disk, keys, cur, target) && Arrived(k, kEnd, t, keys)
    requires t'.disk != t.disk && t'.driveId != t.driveId && At(k, t.disk, cur) && target != RunTemp(t'.driveId)
    ensures Tidy(p, t', keys)
  {
    hide DiskShape, LeafId, OthersStay, PathIs, EntriesKept, CrossOwned, Labelled, SlotsOk, MountsOk, Reserved, Openable, AllOpen, At, SlotsWithin;
    OtherOpen(k, p, kEnd, t, t');
    OpenableSame(k, p, k.disks[t'.disk], p.disks[t'.disk], Loc(t'.disk, 0), t'.driveId, keys);
    OtherReserved(k, p, t.disk, t'.disk, cur, target, RunTemp(t'.driveId));
    forall m | From(p, m, t'.disk) ensures !m.ro {
      OthersFrom(k, p, t.disk, m, t'.disk);
    }
  }

  lemma RouteManaged(pl: Plan, k: Kernel, p: Kernel, i: nat)
    requires i < |pl.disks| && OthersStay(k, p, pl.disks[i].disk)
    requires forall m, n :: From(k, m, n) && m.path.SrvNode? ==> IsManaged(pl.disks, n)
    ensures forall m, n :: From(p, m, n) && m.path.SrvNode? ==> IsManaged(pl.disks, n)
  {
    hide From, OthersStay;
    forall m, n | From(p, m, n) && m.path.SrvNode? ensures IsManaged(pl.disks, n) {
      if n != pl.disks[i].disk {
        OthersFrom(k, p, pl.disks[i].disk, m, n);
      }
    }
  }

  /** Every moment of a successful `Setup` is one to start again from. */
  lemma RouteStartable(pl: Plan, k: Kernel, p: Kernel, kEnd: Kernel, i: nat, cur: Option<Path>, target: Path)
    requires Planned(pl) && Named(pl) && Startable(pl, k) && WfK(k) && i < |pl.disks|
    requires var t := pl.disks[i];
      && EnRoute(k, p, kEnd, t.disk, pl.cfg.keys, cur, target) && Arrived(k, kEnd, t, pl.cfg.keys) && At(k, t.disk, cur)
      && (target.SrvNode? || cur == Some(target) || target == RunTemp(t.driveId))
    ensures Startable(pl, p)
  {
    var t := pl.disks[i];
    RouteManaged(pl, k, p, i);
    hide Tidy, SameDisks, OthersStay, PathIs, EntriesKept, CrossOwned, Labelled, WfK, Arrived, At, SlotsWithin, From;
    forall j | 0 <= j < |pl.disks| ensures Tidy(p, pl.disks[j], pl.cfg.keys) {
      var t' := pl.disks[j];
      assert Tidy(k, t', pl.cfg.keys);
      if j == i {
        OwnTidy(k, p, kEnd, t, pl.cfg.keys, cur, target);
      } else {
        assert t'.disk != t.disk && t'.driveId != t.driveId;
        if cur == Some(target) {
          CurElsewhere(k, t.disk, t'.disk, cur, RunTemp(t'.driveId));
        }
        OtherTidy(k, p, kEnd, t, t', pl.cfg.keys, cur, target);
      }
    }
  }

  lemma {:induction false} ThroughoutThree(k: Kernel, es: seq<Entry>, P: Kernel -> bool, Q: Kernel -> bool, R: Kernel -> bool, S: Kernel -> bool)
    requires Throughout(k, es, P) && Throughout(k, es, Q) && Throughout(k, es, R) && forall p :: P(p) && Q(p) && R(p) ==> S(p)
    ensures Throughout(k, es, S)
    decreases |es|
  {
    hide Legal, After;
    if es != [] {
      ThroughoutThree(After(k, es[0]), es[1..], P, Q, R, S);
    }
  }

  lemma RouteAlways(pl: Plan, os: Os, os': Os, i: nat, cur: Option<Path>, target: Path)
    requires Planned(pl) && Named(pl) && Startable(pl, os.k) && WfK(os.k) && i < |pl.disks|
    requires var t := pl.disks[i];
      && Always(os, os', UnderwayFrom(os.k, t.disk, pl.cfg.keys, cur, target)) && Always(os, os', Orderly)
      && Always(os, os', BetweenOf(os.k, os'.k)) && Arrived(os.k, os'.k, t, pl.cfg.keys) && At(os.k, t.disk, cur)
      && (target.SrvNode? || cur == Some(target) || target == RunTemp(t.driveId))
    ensures Always(os, os', StartableFor(pl))
  {
    var t := pl.disks[i];
    var P, Q := UnderwayFrom(os.k, t.disk, pl.cfg.keys, cur, target), BetweenOf(os.k, os'.k);
    hide Planned, Named, Startable, WfK, Arrived, At, Orderly, Underway, Between, Throughout;
    forall p | P(p) && Orderly(p) && Q(p) ensures StartableFor(pl)(p) {
      RouteStartable(pl, os.k, p, os'.k, i, cur, target);
    }
    ThroughoutThree(os.k, Since(os, os'), P, Orderly, Q, StartableFor(pl));
  }

  lemma NowArrived(os: Os, os': Os, d: Drive, d': Drive, t: NamedDisk)
    requires Foreign(os, os', d, t.disk) && Member(os', d') && Done(os', d') && !d'.broken && WfK(os'.k)
    requires d'.path == Disk(t.disk) && d'.driveId == t.driveId == d.driveId
    requires SameDisks(os.k, os'.k, t.disk, d'.keys) && Full(os'.k.disks[t.disk])
    ensures Arrived(os.k, os'.k, t, d'.keys)
  {
    WfSlots(os'.k);
    hide SameDisks, Placed, FlagsConfined, OthersStay, Accounted, Reserved, SlotsOk, MountsOk, LuksOk, Shown;
    ChainAllOpen(os'.k, d'.device.value, Loc(t.disk, 0), t.driveId);
  }

  /** While a drive of the fleet converges without breaking, every moment is one to start again from. */
  lemma DriveStartable(pl: Plan, os: Os, d: Drive, i: nat)
    requires Planned(pl) && Named(pl) && Startable(pl, os.k) && i < |pl.disks|
    requires Working(d, pl.disks[i], pl.cfg.keys) && Global(os) && Candidate(os, d) && (Homed(d) || Entitled(os.k, d))
    requires !ConvergeDrive(os, d).0.broken
    ensures Always(os, ConvergeDrive(os, d).1, StartableFor(pl))
  {
    var t := pl.disks[i];
    ConvergeMoments(os, d);
    GlobalParts(os);
    MemberConverges(os, d);
    WorkingIsSetup(os, d);
    hide ConvergeDrive, Setup, Global, Candidate, Homed, Entitled, Planned, Named, Always, Orderly, Suits, Foreign, Converged, Member, Full, SameDisks, At, Tidy, Done, Underway, Between, Arrived;
    var cur := ConvergeUnderway(os, d);
    WhitherIs(d, cur);
    var (d', os') := ConvergeDrive(os, d);
    GlobalParts(os');
    SetupBetween(os, d.device.value, OrderOf(d));
    NowArrived(os, os', d, d', t);
    RouteAlways(pl, os, os', i, cur, Whither(d, cur));
  }

  lemma GlobalParts(os: Os)
    requires Global(os)
    ensures Sound(os) && WfK(os.k)
  {
  }

  // ---- reading and writing swift-ids ----

  lemma WriteKeepsShape(k: Kernel, dev: DevPath, id: string, n: string)
    requires ContentAt(k, dev).Some? && ContentAt(k, dev).value.Xfs? && n in k.disks
    ensures var p := WithContent(k, dev, Xfs(id));
      n in p.disks && Shape(p.disks[n]) == Shape(k.disks[n]) && p == k.(disks := p.disks)
  {
    var loc := LocOf(k, dev).value;
    assert Shape(Xfs(id)) == Shape(Peel(k.disks[loc.disk], loc.depth).value);
    GraftShape(k.disks[loc.disk], loc.depth, Xfs(id));
  }

  lemma TidyWritten(k: Kernel, dev: DevPath, id: string, t: NamedDisk, keys: seq<string>)
    requires ContentAt(k, dev).Some? && ContentAt(k, dev).value.Xfs? && Tidy(k, t, keys)
    ensures Tidy(WithContent(k, dev, Xfs(id)), t, keys)
  {
    WriteKeepsShape(k, dev, id, t.disk);
    var p := WithContent(k, dev, Xfs(id));
    hide WithContent, Openable, ContentAt;
    OpenableSame(k, p, k.disks[t.disk], p.disks[t.disk], Loc(t.disk, 0), t.driveId, keys);
    AssignSteps.ReservedSlots(k, p);
  }

  lemma ReadingEffect(pl: Plan, k: Kernel, e: Entry)
    requires Legal(k, e) && Commands.Assigning(e.cmd) && Startable(pl, k)
    ensures Startable(pl, After(k, e))
  {
    var p := After(k, e);
    if p != k {
      var dev := TopAt(k.local, e.cmd.path).value;
      assert p == WithContent(k, dev, Xfs(e.cmd.id));
      hide After, Legal, Tidy, TopAt, Peel, Graft;
      forall j | 0 <= j < |pl.disks| ensures Tidy(p, pl.disks[j], pl.cfg.keys) {
        TidyWritten(k, dev, e.cmd.id, pl.disks[j], pl.cfg.keys);
      }
      AssignSteps.ReservedSlots(k, p);
    }
  }

  lemma {:induction false} AssigningThroughout(pl: Plan, k: Kernel, es: seq<Entry>, k': Kernel)
    requires Trace(k, es, k') && Startable(pl, k) && forall e :: e in es ==> Commands.Assigning(e.cmd)
    ensures Throughout(k, es, StartableFor(pl))
    decreases |es|
  {
    hide Legal, After, Startable;
    if es != [] {
      assert es[0] in es;
      assert forall e :: e in es[1..] ==> e in es;
      ReadingEffect(pl, k, es[0]);
      AssigningThroughout(pl, After(k, es[0]), es[1..], k');
    }
  }

  /** A round of assignments keeps the system one to start again from, at every moment. */
  lemma RoundStartable(pl: Plan, os: Os, drives: seq<Drive>, pool: seq<string>)
    requires Startable(pl, os.k)
    ensures Always(os, Assignments.UpdateAssignments(os, drives, pool).1, StartableFor(pl))
  {
    UpdateRan(os, drives, pool);
    hide Startable, Assignments.UpdateAssignments;
    var os' := Assignments.UpdateAssignments(os, drives, pool).1;
    AssigningThroughout(pl, os.k, Since(os, os'), os'.k);
  }

  // ---- a new drive object ----

  lemma {:induction false} GlancingThroughout(k: Kernel, es: seq<Entry>, k': Kernel, P: Kernel -> bool)
    requires Trace(k, es, k') && P(k) && forall e :: e in es ==> Glancing(e.cmd)
    ensures Throughout(k, es, P) && k' == k
    decreases |es|
  {
    if es != [] {
      assert es[0] in es && Glancing(es[0].cmd);
      assert forall e :: e in es[1..] ==> e in es;
      GlancingThroughout(After(k, es[0]), es[1..], k', P);
    }
  }

  lemma GlancingAlways(os: Os, os': Os, P: Kernel -> bool)
    requires Ran(os, os', Glancing) && P(os.k)
    ensures Always(os, os', P) && os'.k == os.k
  {
    GlancingThroughout(os.k, Since(os, os'), os'.k, P);
  }
}
