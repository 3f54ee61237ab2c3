/** Crash recovery, one drive at a time: at every moment while a drive converges, its disk already determines
  how it will end up, and nothing else is touched. */
module Recovery {
  import opened Names
  import opened Tables
  import opened Kernels
  import opened KernelFacts
  import opened Machine
  import opened MountCache
  import opened Devices
  import opened DeviceFacts
  import opened Drives
  import opened Commands
  import opened Chains
  import opened DriveFacts
  import opened Convergence
  import opened Fleets
  import opened Moments
  import opened AssignSteps
  import opened Stability
  import Origins

  // ---- what a disk will hold ----

  function LeafId(c: Content): string {
    match c
    case Blank => ""
    case Xfs(id) => id
    case Luks(_, inner) => LeafId(inner)
  }

  /** The finished content, apart from the swift-id. */
  function Shape(c: Content): Content {
    match c
    case Blank => Xfs("")
    case Xfs(_) => Xfs("")
    case Luks(key, inner) => Luks(key, Shape(inner))
  }

  /** The same for a whole disk, which gets a container if keys are configured. */
  function DiskShape(c: Content, keys: seq<string>): Content {
    if c.Blank? && keys != [] then Luks(keys[0], Xfs("")) else Shape(c)
  }

  /** Nothing is missing any more. */
  predicate Full(c: Content) {
    match c
    case Blank => false
    case Xfs(_) => true
    case Luks(_, inner) => Full(inner)
  }

  lemma {:induction false} FullByShape(c: Content, d: Content)
    requires Full(c) && Full(d) && Shape(c) == Shape(d) && LeafId(c) == LeafId(d)
    ensures c == d
  {
    if c.Luks? {
      FullByShape(c.inner, d.inner);
    }
  }

  lemma {:induction false} GraftShape(c: Content, depth: nat, x: Content)
    requires Peel(c, depth).Some? && Shape(x) == Shape(Peel(c, depth).value)
    ensures Shape(Graft(c, depth, x)) == Shape(c)
    ensures LeafId(Peel(c, depth).value) == LeafId(c) && LeafId(Graft(c, depth, x)) == LeafId(x)
    decreases depth
  {
    if depth > 0 {
      GraftShape(c.inner, depth - 1, x);
    }
  }

  // ---- what converging one drive does ----

  /** The disk, the keys, the device to be mounted, where it is and where it is to be. */
  datatype Job = Job(disk: string, keys: seq<string>, leaf: DevPath, cur: Option<Path>, target: Path)

  predicate Works(j: Job, c: Cmd) {
    match c
    case Classify(_) => true
    case Mkfs(dev) => dev == j.leaf && (dev == Disk(j.disk) ==> j.keys == [])
    case LuksFormat(dev, key) => dev == Disk(j.disk) && j.keys != [] && key == j.keys[0]
    case LuksOpen(_, _, _) => true
    case Umount(path, _) => Some(path) == j.cur && path != j.target
    case MountCmd(dev, path, _) => dev == j.leaf && path == j.target
    case _ => false
  }

  /** The disk holds what it held, or more of what it will hold; all other disks are as they were. */
  ghost predicate SameDisks(k: Kernel, p: Kernel, n: string, keys: seq<string>) {
    && n in k.disks && n in p.disks
    && DiskShape(p.disks[n], keys) == DiskShape(k.disks[n], keys) && LeafId(p.disks[n]) == LeafId(k.disks[n])
    && (forall m :: m != n ==> (m in k.disks <==> m in p.disks))
    && (forall m :: m != n && m in k.disks ==> p.disks[m] == k.disks[m])
  }

  ghost predicate PathIs(k: Kernel, n: string, at: Option<Path>) {
    forall m :: From(k, m, n) ==> at == Some(m.path)
  }

  ghost predicate EntriesKept(k: Kernel, p: Kernel) {
    forall m :: IsEntry(k, m) ==> IsEntry(p, m)
  }

  ghost predicate Along(k: Kernel, p: Kernel, j: Job, at: Option<Path>) {
    && SameDisks(k, p, j.disk, j.keys) && OthersStay(k, p, j.disk) && PathIs(p, j.disk, at)
    && (j.cur == Some(j.target) ==> EntriesKept(k, p))
  }

  /** The places involved are the leaf's own. */
  ghost predicate OwnPlaces(k: Kernel, j: Job) {
    forall m :: IsEntry(k, m) && (Some(m.path) == j.cur || m.path == j.target) ==> m.dev == j.leaf
  }

  lemma FormatDisks(k: Kernel, dev: DevPath, x: Content, j: Job)
    requires ContentAt(k, dev) == Some(Blank) && On(k, dev, j.disk)
    requires (x == Xfs("") && (dev == Disk(j.disk) ==> j.keys == []))
      || (dev == Disk(j.disk) && j.keys != [] && x == Luks(j.keys[0], Blank))
    requires dev.Mapper? ==> LocOf(k, dev).value.depth > 0
    ensures SameDisks(k, WithContent(k, dev, x), j.disk, j.keys)
  {
    var loc := LocOf(k, dev).value;
    var c := k.disks[j.disk];
    assert Peel(c, loc.depth) == Some(Blank);
    if loc.depth > 0 {
      assert x == Xfs("");
      GraftShape(c, loc.depth, x);
      var g := Graft(c, loc.depth, x);
      assert c.Luks? && g.Luks?;
      assert WithContent(k, dev, x).disks[j.disk] == g;
      assert Shape(g) == Shape(c);
      assert LeafId(g) == LeafId(c);
      assert DiskShape(g, j.keys) == DiskShape(c, j.keys);
    } else {
      assert dev == Disk(j.disk) && c == Blank;
      assert Shape(x) == if x.Luks? then Luks(x.key, Shape(Blank)) else Xfs("");
      assert LeafId(x) == if x.Luks? then LeafId(Blank) else "";
    }
  }

  lemma SlotDepth(k: Kernel, dev: DevPath)
    requires SlotsOk(k) && LocOf(k, dev).Some?
    ensures dev.Mapper? ==> LocOf(k, dev).value.depth > 0
  {
    if dev.Mapper? {
      assert SlotOk(k, k.slots[dev.name]);
    }
  }

  lemma WorkDisks(k: Kernel, e: Entry, kEnd: Kernel, j: Job)
    requires WfK(k) && Legal(k, e) && Works(j, e.cmd) && j.disk in k.disks
    requires SlotsWithin(k, kEnd) && On(kEnd, j.leaf, j.disk)
    ensures SameDisks(k, After(k, e), j.disk, j.keys)
  {
    if e.ok && (e.cmd.Mkfs? || e.cmd.LuksFormat?) {
      SlotDepth(k, e.cmd.dev);
      hide WithContent, ContentAt, SlotsOk;
      assert LocOf(k, e.cmd.dev).Some? by { LocatedContent(k, e.cmd.dev); }
      FormatDisks(k, e.cmd.dev, if e.cmd.Mkfs? then Xfs("") else Luks(e.cmd.key, Blank), j);
    }
  }

  lemma LocatedContent(k: Kernel, dev: DevPath)
    requires ContentAt(k, dev).Some?
    ensures LocOf(k, dev).Some?
  {
  }

  /** A mounted device is located, and stays where it is. */
  lemma StaysOn(k: Kernel, k': Kernel, m: Mount, n: string)
    requires MountsOk(k) && IsEntry(k, m) && SlotsWithin(k, k')
    ensures On(k, m.dev, n) == On(k', m.dev, n)
  {
    SameLoc(k, k', m);
  }

  lemma OnlyOn(k: Kernel, dev: DevPath, n: string, n': string)
    requires On(k, dev, n) && On(k, dev, n')
    ensures n == n'
  {
  }

  lemma WorkTables(k: Kernel, e: Entry, j: Job, s: Scope, m: Mount)
    requires Legal(k, e) && Works(j, e.cmd) && OwnPlaces(k, j)
    ensures m in Table(After(k, e), s) ==> m in Table(k, s) || (e.cmd.MountCmd? && m == Mount(j.leaf, j.target, false))
    ensures m in Table(k, s) && m.dev != j.leaf ==> m in Table(After(k, e), s)
  {
    if e.ok && e.cmd.Umount? {
      RemoveLastSubset(k.host, e.cmd.path);
      RemoveLastSubset(k.local, e.cmd.path);
      if m in Table(k, s) {
        assert IsEntry(k, m);
      }
    }
  }

  lemma WorkOthers(k: Kernel, e: Entry, kEnd: Kernel, j: Job)
    requires Legal(k, e) && MountsOk(k) && MountsOk(After(k, e)) && Works(j, e.cmd) && OwnPlaces(k, j)
    requires SlotsWithin(k, After(k, e)) && SlotsWithin(After(k, e), kEnd) && On(kEnd, j.leaf, j.disk)
    ensures OthersStay(k, After(k, e), j.disk)
  {
    var k' := After(k, e);
    hide After, Legal, Works, OwnPlaces, MountsOk, LocOf, On, SlotsWithin;
    forall m, n, s | n != j.disk ensures In(k, m, n, s) == In(k', m, n, s) {
      WorkTables(k, e, j, s, m);
      if m in Table(k, s) {
        StaysOn(k, k', m, n);
      }
      if m in Table(k', s) && m.dev == j.leaf && On(k', m.dev, n) {
        StaysOn(k', kEnd, m, n);
        OnlyOn(kEnd, j.leaf, n, j.disk);
      }
      if m in Table(k, s) && m.dev == j.leaf && On(k, m.dev, n) {
        SlotsWithinTransitive(k, k', kEnd);
        StaysOn(k, kEnd, m, n);
        OnlyOn(kEnd, j.leaf, n, j.disk);
      }
    }
  }

  lemma SlotsWithinTransitive(a: Kernel, b: Kernel, c: Kernel)
    requires SlotsWithin(a, b) && SlotsWithin(b, c)
    ensures SlotsWithin(a, c)
  {
  }

  lemma AlongTransitive(k: Kernel, p: Kernel, q: Kernel, j: Job, at: Option<Path>)
    requires SameDisks(k, p, j.disk, j.keys) && OthersStay(k, p, j.disk)
    requires SameDisks(p, q, j.disk, j.keys) && OthersStay(p, q, j.disk) && PathIs(q, j.disk, at)
    requires j.cur == Some(j.target) ==> EntriesKept(k, p) && EntriesKept(p, q)
    ensures Along(k, q, j, at)
  {
    hide DiskShape, LeafId, In;
  }

  lemma WorkPaths(k: Kernel, e: Entry, j: Job, at: Option<Path>)
    requires Legal(k, e) && Works(j, e.cmd) && OwnPlaces(k, j) && MountsOk(k) && SlotsWithin(k, After(k, e))
    requires PathIs(k, j.disk, at) && (e.cmd.MountCmd? ==> at == Some(j.target))
    ensures PathIs(After(k, e), j.disk, at) && OwnPlaces(After(k, e), j)
  {
    var k' := After(k, e);
    hide After, Legal, Works, MountsOk, LocOf, On, SlotsWithin;
    forall m | IsEntry(k', m)
      ensures (On(k', m.dev, j.disk) ==> at == Some(m.path)) && (Some(m.path) == j.cur || m.path == j.target ==> m.dev == j.leaf)
    {
      WorkTables(k, e, j, Host, m);
      WorkTables(k, e, j, Local, m);
      if IsEntry(k, m) {
        StaysOn(k, k', m, j.disk);
      }
    }
  }

  /** A drive that is where it is to be is not unmounted. */
  lemma WorkKeeps(k: Kernel, e: Entry, j: Job)
    requires Legal(k, e) && Works(j, e.cmd) && j.cur == Some(j.target)
    ensures EntriesKept(k, After(k, e))
  {
  }

  lemma WorksBuild(j: Job, c: Cmd)
    requires Works(j, c)
    ensures Building(c)
  {
  }

  lemma WorkEffect(k0: Kernel, k: Kernel, e: Entry, kEnd: Kernel, j: Job, at: Option<Path>)
    requires Legal(k, e) && Orderly(k) && Orderly(After(k, e)) && Works(j, e.cmd) && OwnPlaces(k, j)
    requires Along(k0, k, j, at) && (e.cmd.MountCmd? ==> at == Some(j.target))
    requires SlotsWithin(After(k, e), kEnd) && On(kEnd, j.leaf, j.disk)
    ensures Along(k0, After(k, e), j, at) && OwnPlaces(After(k, e), j)
  {
    WorksBuild(j, e.cmd);
    BuildingEntries(k, e);
    hide After, Legal, Works, MountsOk, SlotsOk, CrossOwned, Labelled, SlotsWithin, On, OthersStay, DiskShape, LeafId, OwnPlaces, PathIs, EntriesKept;
    SlotsWithinTransitive(k, After(k, e), kEnd);
    WorkDisks(k, e, kEnd, j);
    WorkOthers(k, e, kEnd, j);
    WorkPaths(k, e, j, at);
    if j.cur == Some(j.target) {
      WorkKeeps(k, e, j);
    }
    AlongTransitive(k0, k, After(k, e), j, at);
  }

  ghost function AlongFrom(k0: Kernel, j: Job, at: Option<Path>): Kernel -> bool {
    p => Along(k0, p, j, at)
  }

  lemma {:induction false} WorkThroughout(k0: Kernel, k: Kernel, es: seq<Entry>, kEnd: Kernel, j: Job, at: Option<Path>)
    requires Trace(k, es, kEnd) && Throughout(k, es, Orderly) && OwnPlaces(k, j) && Along(k0, k, j, at)
    requires On(kEnd, j.leaf, j.disk)
    requires forall e :: e in es ==> Works(j, e.cmd) && (e.cmd.MountCmd? ==> at == Some(j.target))
    ensures Throughout(k, es, AlongFrom(k0, j, at)) && Along(k0, kEnd, j, at) && OwnPlaces(kEnd, j)
    decreases |es|
  {
    hide Legal, After, Orderly, On, Along, OwnPlaces, Works;
    if es != [] {
      assert es[0] in es;
      assert forall e :: e in es[1..] ==> e in es;
      forall e | e in es[1..] ensures Building(e.cmd) {
        WorksBuild(j, e.cmd);
      }
      BuildingSlots(After(k, es[0]), es[1..], kEnd);
      assert Throughout(After(k, es[0]), es[1..], Orderly);
      assert Orderly(After(k, es[0]));
      WorkEffect(k0, k, es[0], kEnd, j, at);
      WorkThroughout(k0, After(k, es[0]), es[1..], kEnd, j, at);
    }
  }

  lemma AlongSelf(k: Kernel, j: Job, at: Option<Path>)
    requires j.disk in k.disks && PathIs(k, j.disk, at)
    ensures Along(k, k, j, at)
  {
  }

  // ---- Setup in two parts: everything up to the umounts, then the mounts ----

  ghost function Before(j: Job): Cmd -> bool {
    c => Works(j, c) && !c.MountCmd?
  }

  ghost function Mounting(j: Job): Cmd -> bool {
    c => Works(j, c) && c.MountCmd?
  }

  /** A filesystem is only ever made on the bare disk when no keys are configured, and a container nowhere
    else. */
  predicate Suits(d: Dev, n: string, keys: seq<string>) {
    match d
    case XfsDev(path, formatted, _) => formatted || path != Disk(n) || keys == []
    case LuksDev(path, formatted, mapped, _) => (formatted || path == Disk(n)) && (mapped.Some? ==> Suits(mapped.value, n, keys))
  }

  ghost predicate LuksMappers(os: Os) {
    forall p :: p in os.luks ==> os.luks[p].Mapper?
  }

  lemma NewDeviceSuits(os: Os, path: DevPath, n: string, keys: seq<string>)
    requires path.Mapper?
    ensures var m := NewDevice(os, path, false).0; m.Some? ==> Suits(m.value, n, keys)
  {
  }

  lemma FreshSuits(os: Os, n: string, keys: seq<string>)
    ensures var m := NewDevice(os, Disk(n), keys != []).0; m.Some? ==> Suits(m.value, n, keys)
  {
  }

  lemma {:induction false} ValidateSuits(os: Os, d: Dev, n: string, keys: seq<string>)
    requires LuksMappers(os) && Suits(d, n, keys)
    ensures Suits(Validate(os, d).0, n, keys)
    decreases Rank(os.k, d)
  {
    hide NewDevice, Unmounted, ValidateXfs, Rank;
    if d.XfsDev? {
      ValidateXfsShape(os, d);
    } else {
      if d.path in os.luks {
        NewDeviceSuits(os, os.luks[d.path], n, keys);
      }
      var (d1, os1, ok) := Discover(os, d);
      assert Suits(d1, n, keys);
      if !(!ok || d1.mapped.None? || Rank(os1.k, d1.mapped.value) >= Rank(os.k, d)) {
        ValidateSuits(os1, d1.mapped.value, n, keys);
      }
    }
  }

  lemma FormatFirstDoes(os: Os, d: Dev, cmd: Cmd, p: Cmd -> bool)
    requires cmd == Mkfs(d.path) || (cmd.LuksFormat? && cmd.dev == d.path)
    requires p(Classify(d.path)) && (!d.formatted ==> p(cmd))
    ensures Ran(os, FormatFirst(os, d, cmd).1, p)
  {
    hide ClassifyDevice, Run, Ran;
    RanNothing(os, os, p);
    if !d.formatted {
      ClassifyRan(os, d.path, p);
      var (kind, os1) := ClassifyDevice(os, d.path);
      if kind.Unknown? {
        RanOne(os1, cmd, p);
        RanTransitive(os, os1, Run(os1, cmd).0, p);
      }
    }
  }

  lemma {:induction false} OpenContainerDoes(os: Os, dev: DevPath, name: string, keys: seq<string>, p: Cmd -> bool)
    requires forall key :: p(LuksOpen(dev, name, key))
    ensures Ran(os, OpenContainer(os, dev, name, keys).0, p)
    decreases |keys|
  {
    hide Run, Ran;
    RanNothing(os, os, p);
    if keys != [] {
      var cmd := LuksOpen(dev, name, keys[0]);
      RanOne(os, cmd, p);
      var (os', ok) := Run(os, cmd);
      if ok {
        RanThen(os, os', OpenContainer(os, dev, name, keys).0, p);
      } else {
        OpenContainerDoes(os', dev, name, keys[1..], p);
        RanTransitive(os, os', OpenContainer(os, dev, name, keys).0, p);
      }
    }
  }

  lemma OpenIntoDoes(os: Os, d: Dev, order: Order, p: Cmd -> bool)
    requires d.LuksDev? && forall c: Cmd :: c.Classify? || c.LuksOpen? ==> p(c)
    ensures Ran(os, OpenInto(os, d, order).1, p)
  {
    hide OpenContainer, NewDevice, Ran;
    OpenContainerDoes(os, d.path, order.driveId, order.keys, p);
    var (os1, ok) := OpenContainer(os, d.path, order.driveId, order.keys);
    if ok {
      NewDeviceRan(os1, Mapper(order.driveId), false, p);
      RanTransitive(os, os1, NewDevice(os1, Mapper(order.driveId), false).1, p);
    }
  }

  lemma OpenUpDoes(os: Os, d: Dev, order: Order, p: Cmd -> bool)
    requires d.LuksDev? && order.keys != [] && forall c: Cmd :: c.Classify? || c.LuksOpen? ==> p(c)
    requires !d.formatted ==> p(LuksFormat(d.path, order.keys[0]))
    ensures Ran(os, OpenUp(os, d, order).1, p)
  {
    hide FormatFirst, OpenInto, Ran;
    FormatFirstDoes(os, d, LuksFormat(d.path, order.keys[0]), p);
    var (d1, os1, ok) := FormatFirst(os, d, LuksFormat(d.path, order.keys[0]));
    if ok && d1.mapped.None? {
      OpenIntoDoes(os1, d1, order, p);
      RanTransitive(os, os1, OpenInto(os1, d1, order).1, p);
    }
  }

  lemma OpenContainerMappers(os: Os, dev: DevPath, name: string, keys: seq<string>)
    requires LuksMappers(os)
    ensures LuksMappers(OpenContainer(os, dev, name, keys).0)
    decreases |keys|
  {
    hide Can, Effect;
    if keys != [] {
      OpenContainerMappers(Run(os, LuksOpen(dev, name, keys[0])).0, dev, name, keys[1..]);
    }
  }

  lemma OpenUpSuits(os: Os, d: Dev, order: Order, n: string)
    requires d.LuksDev? && Suits(d, n, order.keys) && LuksMappers(os) && OpenUp(os, d, order).2
    ensures var (d2, os2, _) := OpenUp(os, d, order);
      Suits(d2, n, order.keys) && LuksMappers(os2) && d2.mapped.Some?
  {
    hide ClassifyDevice, Run;
    var (d1, os1, _) := FormatFirst(os, d, LuksFormat(d.path, order.keys[0]));
    FormatFirstLuks(os, d, LuksFormat(d.path, order.keys[0]));
    if d1.mapped.None? {
      OpenContainerMappers(os1, d.path, order.driveId, order.keys);
      var (os2, ok) := OpenContainer(os1, d.path, order.driveId, order.keys);
      NewDeviceSuits(os2, Mapper(order.driveId), n, order.keys);
      NewDeviceLuks(os2, Mapper(order.driveId));
      hide OpenContainer, NewDevice, FormatFirst;
    }
  }

  lemma FormatFirstLuks(os: Os, d: Dev, cmd: Cmd)
    ensures FormatFirst(os, d, cmd).1.luks == os.luks
  {
    hide Can, Effect;
  }

  lemma NewDeviceLuks(os: Os, path: DevPath)
    ensures NewDevice(os, path, false).1.luks == os.luks
  {
    hide Can, Effect;
  }

  lemma {:induction false} UnmountThoseDoes(os: Os, ms: seq<Mount>, keep: Option<Path>, scope: Scope, p: Cmd -> bool)
    requires forall m :: m in ms && Some(m.path) != keep ==> p(Umount(m.path, scope))
    ensures Ran(os, UnmountThose(os, ms, keep, scope).0, p)
    decreases |ms|
  {
    hide UnmountDevice, Ran;
    RanNothing(os, os, p);
    if ms != [] {
      assert ms[0] in ms;
      assert forall m :: m in ms[1..] ==> m in ms;
      if Some(ms[0].path) == keep {
        UnmountThoseDoes(os, ms[1..], keep, scope, p);
      } else {
        UnmountRan(os, ms[0].path, scope, p);
        var (os', ok) := UnmountDevice(os, ms[0].path, scope);
        if ok {
          UnmountThoseDoes(os', ms[1..], keep, scope, p);
          RanTransitive(os, os', UnmountThose(os', ms[1..], keep, scope).0, p);
        }
      }
    }
  }

  lemma UnmountLeaves(os: Os, path: Path, scope: Scope)
    ensures var os' := UnmountDevice(os, path, scope).0;
      (forall m :: m in os'.host ==> m in os.host) && (forall m :: m in os'.local ==> m in os.local)
  {
    hide Can, Effect;
    RemoveFirstSubset(os.host, path);
    RemoveFirstSubset(os.local, path);
  }

  lemma {:induction false} UnmountThoseLeaves(os: Os, ms: seq<Mount>, keep: Option<Path>, scope: Scope)
    ensures var os' := UnmountThose(os, ms, keep, scope).0;
      (forall m :: m in os'.host ==> m in os.host) && (forall m :: m in os'.local ==> m in os.local)
    decreases |ms|
  {
    hide UnmountDevice;
    if ms != [] {
      if Some(ms[0].path) == keep {
        UnmountThoseLeaves(os, ms[1..], keep, scope);
      } else {
        UnmountLeaves(os, ms[0].path, scope);
        UnmountThoseLeaves(UnmountDevice(os, ms[0].path, scope).0, ms[1..], keep, scope);
      }
    }
  }

  /** All mounts of the device, if it has any, are at this one path. */
  ghost predicate AtOne(os: Os, dev: DevPath, cur: Option<Path>) {
    && (forall m :: (m in os.host || m in os.local) && m.dev == dev ==> cur == Some(m.path))
    && (cur.Some? ==> exists m :: m in os.local && m.dev == dev)
  }

  lemma UnmountBothDoes(os: Os, j: Job)
    requires AtOne(os, j.leaf, j.cur)
    ensures Ran(os, UnmountBoth(os, j.leaf, Some(j.target)).0, Before(j))
  {
    hide UnmountThose, Ran, OfDevice;
    var keep := Some(j.target);
    OfDeviceMember(os.host, j.leaf);
    UnmountThoseDoes(os, MountsOf(os, j.leaf, Host), keep, Host, Before(j));
    var (os1, ok) := UnmountThose(os, MountsOf(os, j.leaf, Host), keep, Host);
    if ok {
      UnmountThoseLeaves(os, MountsOf(os, j.leaf, Host), keep, Host);
      OfDeviceMember(os1.local, j.leaf);
      UnmountThoseDoes(os1, MountsOf(os1, j.leaf, Local), keep, Local, Before(j));
      RanTransitive(os, os1, UnmountBoth(os, j.leaf, keep).0, Before(j));
    }
  }

  lemma ValidatedAtOne(os: Os, d: Dev)
    requires d.XfsDev? && ValidateXfs(os, d).1
    ensures AtOne(os, d.path, ValidateXfs(os, d).0.mountPath)
  {
    hide ValidateXfs, OfDevice;
    ValidatedXfs(os, d);
    OfDeviceMember(os.host, d.path);
    OfDeviceMember(os.local, d.path);
    var l := MountsOf(os, d.path, Local);
    if l != [] {
      assert l[0] in l;
    }
  }

  lemma AtOneSame(a: Os, b: Os, dev: DevPath, cur: Option<Path>)
    requires SameTables(a, b) && AtOne(b, dev, cur)
    ensures AtOne(a, dev, cur)
  {
  }

  lemma MoveSplit(os: Os, d: Dev, j: Job) returns (mid: Os)
    requires d.XfsDev? && d.path == j.leaf && Sound(os) && AtOne(os, j.leaf, j.cur) && MoveTo(os, d, j.target).2
    requires FreeFor(os.host, j.leaf, j.target) && FreeFor(os.local, j.leaf, j.target)
    ensures Ran(os, mid, Before(j)) && Ran(mid, MoveTo(os, d, j.target).1, Mounting(j))
    ensures Sound(mid) && OnlyAt(mid, j.leaf, j.target)
  {
    hide UnmountBoth, MountBoth, Sound, OnlyMoves, OnlyAt, FreeFor, MountsOf, Ran, AtOne;
    UnmountBothEffect(os, d.path, Some(j.target));
    UnmountBothDoes(os, j);
    mid := UnmountBoth(os, d.path, Some(j.target)).0;
    KeptAt(MountsOf(os, d.path, Host), j.target);
    KeptAt(MountsOf(os, d.path, Local), j.target);
    OnlyAtParts(mid, d.path, j.target);
    MountBothRan(mid, d.path, j.target, Mounting(j));
  }

  /** The job that a successful `Setup` does. */
  ghost predicate Split(os: Os, mid: Os, os': Os, j: Job) {
    && Ran(os, mid, Before(j)) && Ran(mid, os', Mounting(j))
    && Sound(mid) && OnlyAt(mid, j.leaf, j.target) && AtOne(os, j.leaf, j.cur)
  }

  lemma SplitAfter(os: Os, os1: Os, mid: Os, os': Os, j: Job)
    requires Ran(os, os1, Before(j)) && SameTables(os, os1) && Split(os1, mid, os', j)
    ensures Split(os, mid, os', j)
  {
    hide Ran, AtOne, OnlyAt, Sound;
    RanTransitive(os, os1, mid, Before(j));
    AtOneSame(os, os1, j.leaf, j.cur);
  }

  lemma SetupXfsSplit(os: Os, d: Dev, order: Order, n: string) returns (mid: Os, j: Job)
    requires d.XfsDev? && Sound(os) && AtOne(os, d.path, d.mountPath) && Suits(d, n, order.keys) && SetupXfs(os, d, order).2
    requires FreeFor(os.host, d.path, Target(d.mountPath, order)) && FreeFor(os.local, d.path, Target(d.mountPath, order))
    ensures j == Job(n, order.keys, d.path, d.mountPath, Target(d.mountPath, order))
    ensures Split(os, mid, SetupXfs(os, d, order).1, j)
  {
    hide Sound, FreeFor, MoveTo, FormatFirst, Ran, AtOne, OnlyAt, Target;
    j := Job(n, order.keys, d.path, d.mountPath, Target(d.mountPath, order));
    FormatFirstDoes(os, d, Mkfs(d.path), Before(j));
    FormatFirstTables(os, d, Mkfs(d.path));
    var (d1, os1, _) := FormatFirst(os, d, Mkfs(d.path));
    SoundSame(os, os1);
    assert d1.path == d.path && d1.mountPath == d.mountPath;
    AtOneSame(os1, os, d.path, d.mountPath);
    mid := MoveSplit(os1, d1, j);
    SplitAfter(os, os1, mid, MoveTo(os1, d1, j.target).1, j);
  }

  lemma {:induction false} SetupSplit(os: Os, d: Dev, order: Order, n: string) returns (mid: Os, j: Job)
    requires Sound(os) && LuksMappers(os) && Suits(d, n, order.keys) && Setup(os, d, order).2 && GoalFree(os, Goal(os, d, order))
    ensures Goal(os, d, order) == Some((j.leaf, j.target)) && j.disk == n && j.keys == order.keys
    ensures Split(os, mid, Setup(os, d, order).1, j)
    decreases Rank(os.k, d)
  {
    hide Sound, OpenUp, Validate, SetupXfs, Target, Ran, AtOne, OnlyAt, FreeFor, Rank;
    ValidateSuits(os, d, n, order.keys);
    var (d1, os1, ok) := Validate(os, d);
    assert SameTables(os, os1);
    SoundSame(os, os1);
    if d1.XfsDev? {
      ValidatedAtOneSetup(os, d);
      mid, j := SetupXfsSplit(os1, d1, order, n);
      ValidateLooks(os, d, Before(j));
      SplitAfter(os, os1, mid, SetupXfs(os1, d1, order).1, j);
    } else {
      OpenUpTables(os1, d1, order);
      var (d2, os2, ok2) := OpenUp(os1, d1, order);
      SoundSame(os1, os2);
      OpenUpSuits(os1, d1, order, n);
      assert Goal(os2, d2.mapped.value, order) == Goal(os, d, order);
      mid, j := SetupSplit(os2, d2.mapped.value, order, n);
      ValidateLooks(os, d, Before(j));
      KeysGiven(os1, d1, order);
      OpenUpDoes(os1, d1, order, Before(j));
      SplitAfter(os1, os2, mid, Setup(os2, d2.mapped.value, order).1, j);
      SplitAfter(os, os1, mid, Setup(os2, d2.mapped.value, order).1, j);
    }
  }

  lemma KeysGiven(os: Os, d: Dev, order: Order)
    requires d.LuksDev? && OpenUp(os, d, order).2
    ensures order.keys != []
  {
    hide FormatFirst, OpenInto;
  }

  lemma ValidatedAtOneSetup(os: Os, d: Dev)
    requires d.XfsDev? && Validate(os, d).2
    ensures AtOne(Validate(os, d).1, d.path, Validate(os, d).0.mountPath)
  {
    hide ValidateXfs;
    ValidatedAtOne(os, d);
  }

  lemma SetupXfsSuits(os: Os, d: Dev, order: Order, n: string)
    requires d.XfsDev? && Suits(d, n, order.keys)
    ensures Suits(SetupXfs(os, d, order).0, n, order.keys)
  {
    hide UnmountBoth, MountBoth, ClassifyDevice, Run;
  }

  /** What `Setup` leaves suits the disk as well. */
  lemma {:induction false} SetupSuits(os: Os, d: Dev, order: Order, n: string)
    requires LuksMappers(os) && Suits(d, n, order.keys) && Setup(os, d, order).2
    ensures Suits(Setup(os, d, order).0, n, order.keys)
    decreases Rank(os.k, d)
  {
    hide OpenUp, Validate, SetupXfs, Rank;
    ValidateSuits(os, d, n, order.keys);
    var (d1, os1, ok) := Validate(os, d);
    if d1.XfsDev? {
      SetupXfsSuits(os1, d1, order, n);
    } else {
      OpenUpSuits(os1, d1, order, n);
      var (d2, os2, ok2) := OpenUp(os1, d1, order);
      SetupSuits(os2, d2.mapped.value, order, n);
    }
  }

  // ---- one drive, from the first command to the last ----

  lemma {:induction false} ThroughoutSplit(k: Kernel, es: seq<Entry>, k': Kernel, fs: seq<Entry>, P: Kernel -> bool)
    requires Trace(k, es, k') && Throughout(k, es + fs, P)
    ensures Throughout(k, es, P) && Throughout(k', fs, P)
    decreases |es|
  {
    hide Legal, After;
    if es == [] {
      assert es + fs == fs;
    } else {
      assert (es + fs)[1..] == es[1..] + fs;
      ThroughoutSplit(After(k, es[0]), es[1..], k', fs, P);
    }
  }

  lemma {:induction false} ThroughoutWeaker(k: Kernel, es: seq<Entry>, P: Kernel -> bool, Q: Kernel -> bool)
    requires Throughout(k, es, P) && forall p :: P(p) ==> Q(p)
    ensures Throughout(k, es, Q)
    decreases |es|
  {
    hide Legal, After;
    if es != [] {
      ThroughoutWeaker(After(k, es[0]), es[1..], P, Q);
    }
  }

  lemma {:induction false} MountingSlots(k: Kernel, es: seq<Entry>, k': Kernel)
    requires Trace(k, es, k') && forall e :: e in es ==> e.cmd.MountCmd?
    ensures k'.slots == k.slots && k'.disks == k.disks
    decreases |es|
  {
    if es != [] {
      assert es[0] in es && es[0].cmd.MountCmd?;
      assert forall e :: e in es[1..] ==> e in es;
      MountingSlots(After(k, es[0]), es[1..], k');
    }
  }

  /** Where a disk is mounted. */
  ghost predicate At(k: Kernel, n: string, at: Option<Path>) {
    PathIs(k, n, at) && (at.Some? ==> exists m :: From(k, m, n))
  }

  /** Between where it was and where it is to be, with nothing else touched. */
  ghost predicate Underway(k0: Kernel, p: Kernel, n: string, keys: seq<string>, cur: Option<Path>, target: Path) {
    && SameDisks(k0, p, n, keys) && OthersStay(k0, p, n) && (PathIs(p, n, cur) || PathIs(p, n, Some(target)))
    && (cur == Some(target) ==> EntriesKept(k0, p))
  }

  ghost function UnderwayFrom(k0: Kernel, n: string, keys: seq<string>, cur: Option<Path>, target: Path): Kernel -> bool {
    p => Underway(k0, p, n, keys, cur, target)
  }

  lemma AtOneKernel(os: Os, j: Job)
    requires Agree(os) && AtOne(os, j.leaf, j.cur)
    ensures forall m :: IsEntry(os.k, m) && m.dev == j.leaf ==> j.cur == Some(m.path)
    ensures j.cur.Some? ==> exists m :: m in os.k.local && m.dev == j.leaf && m.path == j.cur.value
  {
    OwnedByPairs(os.k.host, os.host);
    OwnedByPairs(os.k.local, os.local);
    OwnedByPairs(os.host, os.k.host);
    OwnedByPairs(os.local, os.k.local);
    forall m | IsEntry(os.k, m) && m.dev == j.leaf ensures j.cur == Some(m.path) {
      assert MountedOn(os.host, m.dev, m.path) || MountedOn(os.local, m.dev, m.path);
    }
    if j.cur.Some? {
      var m :| m in os.local && m.dev == j.leaf;
      assert MountedOn(os.k.local, m.dev, m.path);
    }
  }

  lemma StartAt(os: Os, j: Job)
    requires Agree(os) && CrossOwned(os.k) && AtOne(os, j.leaf, j.cur)
    requires forall m :: IsEntry(os.k, m) && On(os.k, m.dev, j.disk) ==> m.dev == j.leaf
    requires forall m :: IsEntry(os.k, m) && m.path == j.target ==> m.dev == j.leaf
    ensures PathIs(os.k, j.disk, j.cur) && OwnPlaces(os.k, j)
  {
    AtOneKernel(os, j);
    hide Agree, AtOne, On;
    forall m | IsEntry(os.k, m) && Some(m.path) == j.cur ensures m.dev == j.leaf {
      var e :| e in os.k.local && e.dev == j.leaf && e.path == j.cur.value;
      assert IsEntry(os.k, e);
    }
  }

  lemma MidAt(mid: Os, j: Job)
    requires Agree(mid) && OnlyAt(mid, j.leaf, j.target) && PathIs(mid.k, j.disk, j.cur) && OwnPlaces(mid.k, j)
    ensures PathIs(mid.k, j.disk, Some(j.target))
  {
    forall m | From(mid.k, m, j.disk) ensures m.path == j.target {
      assert m.dev == j.leaf;
      EntryListedAt(mid, m, j);
    }
  }

  lemma EntryListedAt(mid: Os, m: Mount, j: Job)
    requires Agree(mid) && OnlyAt(mid, j.leaf, j.target) && IsEntry(mid.k, m) && m.dev == j.leaf
    ensures m.path == j.target
  {
    OwnedByPairs(mid.host, mid.k.host);
    OwnedByPairs(mid.local, mid.k.local);
    OfDeviceMember(mid.host, j.leaf);
    OfDeviceMember(mid.local, j.leaf);
    assert MountedOn(mid.host, m.dev, m.path) || MountedOn(mid.local, m.dev, m.path);
  }

  lemma SplitAlong(os: Os, mid: Os, os': Os, j: Job)
    requires Split(os, mid, os', j) && Always(os, os', Orderly) && j.disk in os.k.disks && On(os'.k, j.leaf, j.disk)
    requires PathIs(os.k, j.disk, j.cur) && OwnPlaces(os.k, j)
    ensures Always(os, os', UnderwayFrom(os.k, j.disk, j.keys, j.cur, j.target))
    ensures PathIs(os'.k, j.disk, Some(j.target)) && SameDisks(os.k, os'.k, j.disk, j.keys)
  {
    var es, fs := Since(os, mid), Since(mid, os');
    var Q := UnderwayFrom(os.k, j.disk, j.keys, j.cur, j.target);
    StepsTransitive(os, mid, os');
    ThroughoutSplit(os.k, es, mid.k, fs, Orderly);
    MountingSlots(mid.k, fs, os'.k);
    assert On(mid.k, j.leaf, j.disk);
    AlongSelf(os.k, j, j.cur);
    SoundAgrees(mid);
    hide Trace, Throughout, Orderly, Along, OwnPlaces, OnlyAt, Agree, Sound, On, AtOne, PathIs, SameDisks, OthersStay, Works;
    WorkThroughout(os.k, os.k, es, mid.k, j, j.cur);
    assert PathIs(mid.k, j.disk, j.cur) by { AlongPath(os.k, mid.k, j, j.cur); }
    MidAt(mid, j);
    MovedAlong(os.k, mid.k, j);
    WorkThroughout(os.k, mid.k, fs, os'.k, j, Some(j.target));
    AlongPath(os.k, os'.k, j, Some(j.target));
    AlongIsUnderway(os.k, j);
    ThroughoutWeaker(os.k, es, AlongFrom(os.k, j, j.cur), Q);
    ThroughoutWeaker(mid.k, fs, AlongFrom(os.k, j, Some(j.target)), Q);
    ThroughoutConcat(os.k, es, mid.k, fs, Q);
  }

  lemma AlongPath(k0: Kernel, p: Kernel, j: Job, at: Option<Path>)
    requires Along(k0, p, j, at)
    ensures PathIs(p, j.disk, at) && SameDisks(k0, p, j.disk, j.keys)
  {
  }

  lemma MovedAlong(k0: Kernel, p: Kernel, j: Job)
    requires Along(k0, p, j, j.cur) && PathIs(p, j.disk, Some(j.target))
    ensures Along(k0, p, j, Some(j.target))
  {
  }

  lemma AlongIsUnderway(k0: Kernel, j: Job)
    ensures forall p :: AlongFrom(k0, j, j.cur)(p) ==> UnderwayFrom(k0, j.disk, j.keys, j.cur, j.target)(p)
    ensures forall p :: AlongFrom(k0, j, Some(j.target))(p) ==> UnderwayFrom(k0, j.disk, j.keys, j.cur, j.target)(p)
  {
    hide SameDisks, OthersStay, PathIs, EntriesKept;
  }

  lemma {:induction false} FullByPeel(c: Content, depth: nat)
    requires Peel(c, depth).Some? && Peel(c, depth).value.Xfs?
    ensures Full(c)
    decreases depth
  {
    if depth > 0 {
      FullByPeel(c.inner, depth - 1);
    }
  }

  /** A settled drive: its disk is complete, and mounted where the drive says. */
  lemma SettledAt(os: Os, d: Drive, n: string)
    requires Agree(os) && WfK(os.k) && Settled(os, d, n)
    ensures n in os.k.disks && Full(os.k.disks[n]) && At(os.k, n, Some(MountPath(d)))
  {
    var leaf := Leaf(d.device.value).value;
    ShownKernel(os, leaf);
    hide Agree, Shown, SlotsOk, Peel, Full;
    var m :| m in os.k.local && m.dev == leaf;
    assert From(os.k, m, n);
    assert ContentAt(os.k, m.dev).Some? && ContentAt(os.k, m.dev).value.Xfs?;
    FullByPeel(os.k.disks[n], LocOf(os.k, leaf).value.depth);
  }

  lemma LuksOkMappers(os: Os)
    requires LuksOk(os)
    ensures LuksMappers(os)
  {
  }

  lemma GoalTarget(os: Os, d: Dev, order: Order, cur: Option<Path>, leaf: DevPath)
    requires Goal(os, d, order).Some? && Goal(os, d, order).value.0 == leaf && AtOne(os, leaf, cur)
    ensures Goal(os, d, order).value.1 == Target(cur, order)
    decreases Rank(os.k, d)
  {
    hide OpenUp, Validate, ValidateXfs, Target, Rank;
    var (d1, os1, ok) := Validate(os, d);
    assert SameTables(os, os1);
    if d1.XfsDev? {
      ValidatedAtOneSetup(os, d);
      AtOneUnique(os, os1, leaf, cur, d1.mountPath);
    } else {
      OpenUpTables(os1, d1, order);
      var (d2, os2, ok2) := OpenUp(os1, d1, order);
      AtOneSame(os2, os, leaf, cur);
      GoalTarget(os2, d2.mapped.value, order, cur, leaf);
    }
  }

  lemma AtOneUnique(a: Os, b: Os, dev: DevPath, x: Option<Path>, y: Option<Path>)
    requires SameTables(a, b) && AtOne(a, dev, x) && AtOne(b, dev, y)
    ensures x == y
  {
    if x.Some? {
      var m :| m in a.local && m.dev == dev;
    }
  }

  /** Where a drive goes that is not broken. */
  function Whither(d: Drive, cur: Option<Path>): Path {
    Target(cur, OrderOf(d))
  }

  lemma CurAt(os: Os, n: string, leaf: DevPath, cur: Option<Path>)
    requires Agree(os) && On(os.k, leaf, n) && AtOne(os, leaf, cur) && PathIs(os.k, n, cur)
    ensures At(os.k, n, cur)
  {
    var j := Job(n, [], leaf, cur, RunTemp(""));
    AtOneKernel(os, j);
    if cur.Some? {
      var m :| m in os.k.local && m.dev == leaf && m.path == cur.value;
      assert From(os.k, m, n);
    }
  }

  /** What one drive that does not break goes through: at every moment its disk is on the way from where it
    was found to where it will be, and everything else is as it was. */
  lemma ConvergeUnderway(os: Os, d: Drive) returns (cur: Option<Path>)
    requires Global(os) && Candidate(os, d) && (Homed(d) || Entitled(os.k, d)) && Suits(d.device.value, DiskOf(d), d.keys)
    requires !d.broken && !ConvergeDrive(os, d).0.broken
    ensures var (d', os') := ConvergeDrive(os, d);
      var n := DiskOf(d);
      && At(os.k, n, cur) && At(os'.k, n, Some(Whither(d, cur))) && MountPath(d') == Whither(d, cur)
      && SameDisks(os.k, os'.k, n, d.keys) && Full(os'.k.disks[n])
      && Always(os, os', UnderwayFrom(os.k, n, d.keys, cur, Whither(d, cur)))
  {
    var dev, order, n := d.device.value, OrderOf(d), DiskOf(d);
    SoundAgrees(os);
    GoalIsFree(os, dev, order, n);
    SetupSettles(os, d, n);
    SetupEffect(os, dev, order);
    WorkingIsSetup(os, d);
    SetupMoments(os, d);
    LuksOkMappers(os);
    hide Goal, Setup, ConvergeDrive, ChainOk, LuksOk, Sound, CrossOwned, Reliable, Accounted, Agree, Labelled, WfK, Reserved, Branded, Orderly, OnlyMoves, OthersStay, Fresh, FlagsConfined, Shown, OnlyAt, FreeFor, IsEntry, Homed, Entitled, Always, Split, AtOne, Suits, Target, Settled;
    var (dev', os', _) := Setup(os, dev, order);
    var mid, j := SetupSplit(os, dev, order, n);
    cur := j.cur;
    LeafOn(os'.k, dev', Loc(n, 0), d.driveId);
    GoalIs(os, dev, order, Loc(n, 0));
    KernelFree(os, j.leaf, j.target);
    SplitParts(os, mid, os', j);
    StartAt(os, j);
    DiskThere(os, d);
    GoalTarget(os, dev, order, cur, j.leaf);
    SplitAlong(os, mid, os', j);
    UnderwayEnds(os, os', d, j, dev');
  }

  lemma SplitParts(os: Os, mid: Os, os': Os, j: Job)
    requires Split(os, mid, os', j)
    ensures AtOne(os, j.leaf, j.cur)
  {
  }

  lemma DiskThere(os: Os, d: Drive)
    requires Candidate(os, d)
    ensures DiskOf(d) in os.k.disks
  {
  }

  lemma UnderwayEnds(os: Os, os': Os, d: Drive, j: Job, dev': Dev)
    requires Agree(os) && Agree(os') && WfK(os.k) && WfK(os'.k) && Settled(os', d.(device := Some(dev')), j.disk)
    requires Confined(os.k, os'.k, j.disk) && On(os'.k, j.leaf, j.disk)
    requires AtOne(os, j.leaf, j.cur) && PathIs(os.k, j.disk, j.cur) && PathIs(os'.k, j.disk, Some(j.target))
    ensures At(os.k, j.disk, j.cur) && At(os'.k, j.disk, Some(j.target)) && Full(os'.k.disks[j.disk])
    ensures MountPath(d.(device := Some(dev'))) == j.target
  {
    SettledAt(os', d.(device := Some(dev')), j.disk);
    WfMounts(os.k);
    hide Agree, WfK, Settled, Full, MountPath, AtOne, Confined, MountsOk;
    AtUnique(os'.k, j.disk, Some(MountPath(d.(device := Some(dev')))), j.target);
    if j.cur.Some? {
      CurWasOn(os, os'.k, j);
    }
  }

  lemma AtUnique(k: Kernel, n: string, at: Option<Path>, path: Path)
    requires At(k, n, at) && at.Some? && PathIs(k, n, Some(path))
    ensures at == Some(path)
  {
  }

  lemma CurWasOn(os: Os, k': Kernel, j: Job)
    requires Agree(os) && MountsOk(os.k) && Confined(os.k, k', j.disk) && On(k', j.leaf, j.disk) && AtOne(os, j.leaf, j.cur)
    requires j.cur.Some? && PathIs(os.k, j.disk, j.cur)
    ensures At(os.k, j.disk, j.cur)
  {
    var m :| m in os.local && m.dev == j.leaf;
    assert MountedOn(os.local, j.leaf, m.path);
    hide Agree, MountsOk, Confined;
    Origins.MountedWasOn(os, k', j.leaf, j.disk, m.path);
    CurAt(os, j.disk, j.leaf, j.cur);
  }
}
