/** Many drives side by side: what holds for each of them, and why one drive's step keeps it for the others. */
module Fleets {
  import opened Names
  import opened Tables
  import opened Kernels
  import opened KernelFacts
  import opened Machine
  import opened MountCache
  import opened Devices
  import opened DeviceFacts
  import opened Drives
  import opened Commands
  import opened Chains
  import opened DriveFacts
  import opened Convergence
  import opened Origins

  function DiskOf(d: Drive): string {
    d.path.name
  }

  /** The filesystem on this disk, however deep, carries this swift-id. */
  ghost predicate Branded(k: Kernel, disk: string, id: string) {
    exists depth: nat :: HoldsId(k, Loc(disk, depth), id)
  }

  /** What is mounted at `/srv/node/<id>` carries that id. */
  ghost predicate Labelled(k: Kernel) {
    forall m, n :: From(k, m, n) && m.path.SrvNode? ==> m.path.id != "" && Branded(k, n, m.path.id)
  }

  /** A mapping under this name, if there is one, is on this disk. */
  ghost predicate IdKept(k: Kernel, name: string, disk: string) {
    name in k.slots ==> k.slots[name].at.disk == disk
  }

  ghost predicate Global(os: Os) {
    Sound(os) && WfK(os.k) && LuksOk(os) && Reliable(os.fate) && CrossOwned(os.k) && Labelled(os.k)
  }

  /** Where a drive may be mounted below `/srv/node`, if it is not broken. */
  function Claim(d: Drive): Option<Path> {
    if d.broken then None else AssignedPath(d.assignment)
  }

  /** A managed drive: its layers are known, and its places are its own. */
  ghost predicate Member(os: Os, d: Drive) {
    && d.path.Disk? && Fits(os, d, DiskOf(d)) && Accounted(os.k, d.device.value, DiskOf(d))
    && IdKept(os.k, d.driveId, DiskOf(d)) && Reserved(os.k, DiskOf(d), RunTemp(d.driveId))
    && (Claim(d).Some? ==> Reserved(os.k, DiskOf(d), Claim(d).value))
  }

  /** A drive with a claim is already where it claims to be. */
  predicate Homed(d: Drive) {
    Claim(d).Some? ==> DriveMountedPath(d) == Claim(d)
  }

  /** A claim that has not been acted upon yet carries the right id. */
  ghost predicate Entitled(k: Kernel, d: Drive) {
    Claim(d).Some? ==> Claim(d).value.id != "" && Branded(k, DiskOf(d), Claim(d).value.id)
  }

  predicate Distinct(d: Drive, e: Drive) {
    d.path != e.path && d.driveId != e.driveId && (Claim(d).Some? ==> Claim(e) != Claim(d))
  }

  // ---- swift-ids stay ----

  lemma BrandUnique(k: Kernel, disk: string, a: string, b: string)
    requires Branded(k, disk, a) && Branded(k, disk, b)
    ensures a == b
  {
    var i: nat :| HoldsId(k, Loc(disk, i), a);
    var j: nat :| HoldsId(k, Loc(disk, j), b);
    OneLeaf(k.disks[disk], i, j);
  }

  lemma BrandStays(os: Os, os': Os, disk: string, id: string, p: Cmd -> bool)
    requires Ran(os, os', p) && (forall c: Cmd :: p(c) ==> !c.WriteId?) && Branded(os.k, disk, id)
    ensures Branded(os'.k, disk, id)
  {
    var depth: nat :| HoldsId(os.k, Loc(disk, depth), id);
    TraceIds(os.k, Since(os, os'), os'.k, Loc(disk, depth), id);
  }

  lemma BrandElsewhere(k: Kernel, k': Kernel, disk: string, n: string, id: string)
    requires Confined(k, k', disk) && n != disk
    ensures Branded(k, n, id) <==> Branded(k', n, id)
  {
    forall depth: nat ensures HoldsId(k, Loc(n, depth), id) <==> HoldsId(k', Loc(n, depth), id) {
    }
  }

  // ---- bystanders ----

  lemma {:induction false} ChainOkElsewhere(k: Kernel, k': Kernel, d: Dev, at: Loc, driveId: string, disk: string)
    requires Confined(k, k', disk) && at.disk != disk && ChainOk(k, d, at, driveId)
    ensures ChainOk(k', d, at, driveId)
    decreases d
  {
    hide Peel;
    if d.LuksDev? && d.mapped.Some? {
      ChainOkElsewhere(k, k', d.mapped.value, Deeper(at), driveId, disk);
    }
  }

  lemma AccountedElsewhere(k: Kernel, k': Kernel, d: Dev, disk: string, n: string)
    requires OthersStay(k, k', disk) && n != disk && Accounted(k, d, n)
    ensures Accounted(k', d, n)
  {
    forall m | IsEntry(k', m) && On(k', m.dev, n) ensures Leaf(d) == Some(m.dev) {
      OthersFrom(k, k', disk, m, n);
    }
  }

  lemma FreshElsewhere(os: Os, os': Os, disk: string, name: string, other: string, n: string)
    requires CacheConfined(os, os', name) && Confined(os.k, os'.k, disk)
    requires other != name && n != disk && Fresh(os, other) && IdKept(os.k, other, n)
    ensures Fresh(os', other)
  {
  }

  lemma IdKeptElsewhere(os: Os, os': Os, disk: string, name: string, other: string, n: string)
    requires CacheConfined(os, os', name) && Confined(os.k, os'.k, disk)
    requires other != name && n != disk && IdKept(os.k, other, n)
    ensures IdKept(os'.k, other, n)
  {
  }

  /** A place reserved for disk `n` stays so if the drive on `disk` does not go there. */
  lemma ReservedElsewhere(k: Kernel, k': Kernel, disk: string, n: string, path: Path)
    requires OthersStay(k, k', disk) && MountsOk(k') && n != disk && Reserved(k, n, path)
    requires forall m :: From(k', m, disk) ==> m.path != path
    ensures Reserved(k', n, path)
  {
    forall m | IsEntry(k', m) && m.path == path ensures On(k', m.dev, n) {
      var x := LocOf(k', m.dev).value.disk;
      assert From(k', m, x);
      if x != disk {
        OthersFrom(k, k', disk, m, x);
      }
    }
  }

  lemma NoMountThere(k: Kernel, disk: string, n: string, path: Path)
    requires Reserved(k, n, path) && n != disk
    ensures !HasMount(k, disk, path)
  {
  }

  lemma NotThere(k: Kernel, d: Drive, disk: string, n: string, path: Path, there: Path)
    requires Origin(k, d, disk, there) && Reserved(k, n, path) && n != disk
    requires path != RunTemp(d.driveId) && AssignedPath(d.assignment) != Some(path)
    ensures there != path
  {
    NoMountThere(k, disk, n, path);
  }

  /** After drive `d` has been converged, or torn down, its disk has mounts at one known place at most. */
  ghost predicate Placed(k: Kernel, k': Kernel, d: Drive, disk: string) {
    forall m :: From(k', m, disk) ==> !d.broken && Origin(k, d, disk, m.path)
  }

  /** What a step of the drive on `disk` is to the rest of the fleet. */
  ghost predicate Foreign(os: Os, os': Os, d: Drive, disk: string) {
    && Within(os, os', disk, d.driveId) && OthersStay(os.k, os'.k, disk) && Placed(os.k, os'.k, d, disk)
    && FlagsConfined(os.k, os'.k, d.driveId)
  }

  lemma ReservedStays(os: Os, os': Os, d: Drive, disk: string, n: string, path: Path)
    requires Foreign(os, os', d, disk) && n != disk && Reserved(os.k, n, path)
    requires path != RunTemp(d.driveId) && Claim(d) != Some(path)
    ensures Reserved(os'.k, n, path)
  {
    hide LuksOk, Confined, CacheConfined, SlotsOk, MountsOk, On, OthersStay, Reserved, Origin;
    WfMounts(os'.k);
    forall m | From(os'.k, m, disk) ensures m.path != path {
      NotThere(os.k, d, disk, n, path, m.path);
    }
    ReservedElsewhere(os.k, os'.k, disk, n, path);
  }

  /** One drive's step keeps every other drive a member. */
  lemma BystanderStays(os: Os, os': Os, d: Drive, disk: string, e: Drive)
    requires Foreign(os, os', d, disk) && Member(os, e) && DiskOf(e) != disk && e.driveId != d.driveId
    requires Claim(d).Some? ==> Claim(e) != Claim(d)
    ensures Member(os', e)
  {
    var n := DiskOf(e);
    hide WfK, LuksOk, Confined, CacheConfined, OthersStay, Placed, Reserved, Accounted, ChainOk, Fresh, IdKept, FlagsConfined;
    ChainOkElsewhere(os.k, os'.k, e.device.value, Loc(n, 0), e.driveId, disk);
    AccountedElsewhere(os.k, os'.k, e.device.value, disk, n);
    IdKeptElsewhere(os, os', disk, d.driveId, e.driveId, n);
    if !e.broken {
      FreshElsewhere(os, os', disk, d.driveId, e.driveId, n);
    }
    ReservedStays(os, os', d, disk, n, RunTemp(e.driveId));
    if Claim(e).Some? {
      ReservedStays(os, os', d, disk, n, Claim(e).value);
    }
  }

  // ---- the drive itself ----

  /** Like a member, except that a working drive's layers need not be known to the end yet. */
  ghost predicate Candidate(os: Os, d: Drive) {
    && d.path.Disk? && Fits(os, d, DiskOf(d)) && (d.broken ==> Accounted(os.k, d.device.value, DiskOf(d)))
    && IdKept(os.k, d.driveId, DiskOf(d)) && Reserved(os.k, DiskOf(d), RunTemp(d.driveId))
    && (Claim(d).Some? ==> Reserved(os.k, DiskOf(d), Claim(d).value))
  }

  /** A converged drive: off the system if broken, exactly where it belongs otherwise. */
  ghost predicate Done(os: Os, d: Drive) {
    if d.broken then Cleared(os.k, DiskOf(d)) && DriveMountedPath(d) == None else Settled(os, d, DiskOf(d))
  }

  lemma OwnStays(os: Os, os': Os, d: Drive, d': Drive)
    requires Candidate(os, d) && Converged(os, os', d, d', DiskOf(d))
    ensures Member(os', d')
  {
    var disk := DiskOf(d);
    hide WfK, LuksOk, Sound, Accounted, ChainOk, Fresh, CrossOwned, Settled, Cleared, FlagsConfined;
    IdStaysOn(os, os', disk, d.driveId);
    WithinWf(os, os', disk, d.driveId);
    WfMounts(os'.k);
    hide Within, OthersStay, Reserved, MountsOk, Confined;
    OwnReserved(os.k, os'.k, disk, RunTemp(d.driveId));
    if Claim(d').Some? {
      OwnReserved(os.k, os'.k, disk, Claim(d').value);
    }
  }

  lemma IdStaysOn(os: Os, os': Os, disk: string, name: string)
    requires Within(os, os', disk, name) && IdKept(os.k, name, disk)
    ensures IdKept(os'.k, name, disk)
  {
  }

  lemma OwnReserved(k: Kernel, k': Kernel, disk: string, path: Path)
    requires OthersStay(k, k', disk) && MountsOk(k') && Reserved(k, disk, path)
    ensures Reserved(k', disk, path)
  {
    forall m | IsEntry(k', m) && m.path == path ensures On(k', m.dev, disk) {
      var x := LocOf(k', m.dev).value.disk;
      if x != disk {
        OthersFrom(k, k', disk, m, x);
      }
    }
  }

  lemma LabelledStays(os: Os, os': Os, d: Drive, disk: string, p: Cmd -> bool)
    requires Foreign(os, os', d, disk) && Labelled(os.k)
    requires Ran(os, os', p) && forall c: Cmd :: p(c) ==> !c.WriteId?
    requires forall m :: From(os'.k, m, disk) && Claim(d) == Some(m.path) ==> m.path.id != "" && Branded(os.k, disk, m.path.id)
    ensures Labelled(os'.k)
  {
    hide WfK, LuksOk, CacheConfined, SlotsOk, MountsOk, Ran, Branded, OthersStay, Within;
    forall m, n | From(os'.k, m, n) && m.path.SrvNode? ensures m.path.id != "" && Branded(os'.k, n, m.path.id) {
      if n != disk {
        OthersFrom(os.k, os'.k, disk, m, n);
        WithinWf(os, os', disk, d.driveId);
        BrandElsewhere(os.k, os'.k, disk, n, m.path.id);
      } else {
        assert Origin(os.k, d, disk, m.path);
        assert m.path.id != "" && Branded(os.k, disk, m.path.id);
        BrandStays(os, os', disk, m.path.id, p);
      }
    }
  }

  lemma HadMount(k: Kernel, disk: string, path: Path)
    requires Labelled(k) && HasMount(k, disk, path) && path.SrvNode?
    ensures path.id != "" && Branded(k, disk, path.id)
  {
    var m :| From(k, m, disk) && m.path == path;
  }

  lemma MemberPlaced(os: Os, d: Drive)
    requires Global(os) && Candidate(os, d)
    ensures var (d', os') := ConvergeDrive(os, d);
      && Converged(os, os', d, d', DiskOf(d)) && Member(os', d') && Foreign(os, os', d, DiskOf(d))
      && (!d'.broken && DriveMountedPath(d).Some? ==> HasMount(os.k, DiskOf(d), DriveMountedPath(d).value))
  {
    var disk := DiskOf(d);
    ConvergeKeeps(os, d, disk);
    var (d', os') := ConvergeDrive(os, d);
    OwnStays(os, os', d, d');
    hide ConvergeDrive, WfK, LuksOk, Sound, Accounted, ChainOk, Fresh, CrossOwned, Labelled, Reserved, Reliable, Member, IdKept, HasMount, OthersStay, FlagsConfined, Within, Cleared, Settled, Origin;
    if !d'.broken {
      ConvergeGoesWhere(os, d);
    }
    PlacedAfter(os.k, os'.k, d, d', disk, os');
  }

  lemma MemberLabelled(os: Os, os': Os, d: Drive, d': Drive)
    requires Global(os) && Foreign(os, os', d, DiskOf(d)) && Ran(os, os', Converging) && (Homed(d) || Entitled(os.k, d))
    requires d.broken ==> d'.broken
    requires d'.broken ==> Cleared(os'.k, DiskOf(d))
    requires !d'.broken && DriveMountedPath(d).Some? ==> HasMount(os.k, DiskOf(d), DriveMountedPath(d).value)
    ensures Labelled(os'.k)
  {
    var disk := DiskOf(d);
    hide WfK, LuksOk, Sound, CrossOwned, Labelled, Ran, Reliable, Branded, HasMount, Foreign, Cleared;
    forall m | From(os'.k, m, disk) && Claim(d) == Some(m.path) ensures m.path.id != "" && Branded(os.k, disk, m.path.id) {
      PlacedWorking(os'.k, m, d', disk);
      if !Entitled(os.k, d) {
        HadMount(os.k, disk, m.path);
      }
    }
    LabelledStays(os, os', d, disk, Converging);
  }

  /** One drive converges, and the whole system keeps its order. */
  lemma MemberConverges(os: Os, d: Drive)
    requires Global(os) && Candidate(os, d) && (Homed(d) || Entitled(os.k, d))
    ensures var (d', os') := ConvergeDrive(os, d);
      && Global(os') && Member(os', d') && Homed(d') && Done(os', d')
      && Foreign(os, os', d, DiskOf(d)) && Converged(os, os', d, d', DiskOf(d))
  {
    MemberPlaced(os, d);
    ConvergeRan(os, d);
    var (d', os') := ConvergeDrive(os, d);
    hide ConvergeDrive, WfK, LuksOk, Sound, Accounted, Fits, CrossOwned, Labelled, Ran, Reserved, Reliable, Cleared, Member, IdKept, HasMount, OthersStay, FlagsConfined, Within, Placed;
    MemberLabelled(os, os', d, d');
    WithinWf(os, os', DiskOf(d), d.driveId);
  }

  lemma PlacedWorking(k: Kernel, m: Mount, d: Drive, disk: string)
    requires From(k, m, disk) && (d.broken ==> Cleared(k, disk))
    ensures !d.broken
  {
  }

  lemma PlacedAfter(k: Kernel, k': Kernel, d: Drive, d': Drive, disk: string, os': Os)
    requires k' == os'.k && (d.broken ==> d'.broken)
    requires if d'.broken then Cleared(k', disk) else Settled(os', d', disk) && Origin(k, d, disk, MountPath(d'))
    ensures Placed(k, k', d, disk)
  {
    hide HasMount;
  }

  lemma ConvergeGoesWhere(os: Os, d: Drive)
    requires Global(os) && Candidate(os, d) && !ConvergeDrive(os, d).0.broken
    ensures !d.broken ==> Origin(os.k, d, DiskOf(d), MountPath(ConvergeDrive(os, d).0))
    ensures !d.broken && DriveMountedPath(d).Some? ==> HasMount(os.k, DiskOf(d), DriveMountedPath(d).value)
  {
    if !d.broken {
      SoundAgrees(os);
      hide ConvergeDrive, WfK, LuksOk, Sound, Accounted, ChainOk, Fresh, CrossOwned, Labelled, Reliable, IdKept, Goal, Origin, HasMount;
      GoalIsFree(os, d.device.value, OrderOf(d), DiskOf(d));
      ConvergeOrigin(os, d, DiskOf(d));
    }
  }

  // ---- more about bystanders ----

  lemma ClearedElsewhere(k: Kernel, k': Kernel, disk: string, n: string)
    requires OthersStay(k, k', disk) && n != disk && Cleared(k, n)
    ensures Cleared(k', n)
  {
    forall m | IsEntry(k', m) ensures !On(k', m.dev, n) {
      OthersFrom(k, k', disk, m, n);
    }
  }

  ghost predicate Present(ms: seq<Mount>, dev: DevPath) {
    exists m :: m in ms && m.dev == dev
  }

  lemma ShownKernel(os: Os, leaf: DevPath)
    requires Agree(os)
    ensures Shown(os, leaf) <==> Present(os.k.host, leaf) && Present(os.k.local, leaf)
  {
    PresentCached(os.host, os.k.host, leaf);
    PresentCached(os.local, os.k.local, leaf);
  }

  lemma PresentCached(cache: seq<Mount>, kernel: seq<Mount>, leaf: DevPath)
    requires Pairs(cache) == Pairs(kernel)
    ensures OfDevice(cache, leaf) != [] <==> Present(kernel, leaf)
  {
    OfDeviceMember(cache, leaf);
    EmptyOrNot(OfDevice(cache, leaf));
    OwnedByPairs(cache, kernel);
    OwnedByPairs(kernel, cache);
    hide Pairs, OfDevice;
    if Present(kernel, leaf) {
      var m :| m in kernel && m.dev == leaf;
      assert MountedOn(cache, leaf, m.path);
    }
    if OfDevice(cache, leaf) != [] {
      var m := OfDevice(cache, leaf)[0];
      assert m in OfDevice(cache, leaf);
      assert MountedOn(kernel, leaf, m.path);
    }
  }

  lemma PresentElsewhere(k: Kernel, k': Kernel, disk: string, n: string, leaf: DevPath, s: Scope)
    requires OthersStay(k, k', disk) && n != disk && On(k, leaf, n) && Present(Table(k, s), leaf)
    ensures Present(Table(k', s), leaf)
  {
    var m :| m in Table(k, s) && m.dev == leaf;
    assert In(k, m, n, s);
    assert In(k', m, n, s);
  }

  lemma SettledElsewhere(os: Os, os': Os, disk: string, e: Drive)
    requires Agree(os) && Agree(os') && OthersStay(os.k, os'.k, disk) && Confined(os.k, os'.k, disk)
    requires DiskOf(e) != disk && Settled(os, e, DiskOf(e))
    ensures Settled(os', e, DiskOf(e))
  {
    var n, leaf := DiskOf(e), Leaf(e.device.value).value;
    hide Agree, Shown, Present;
    ShownKernel(os, leaf);
    ShownKernel(os', leaf);
    PresentElsewhere(os.k, os'.k, disk, n, leaf, Host);
    PresentElsewhere(os.k, os'.k, disk, n, leaf, Local);
    OnElsewhere(os.k, os'.k, disk, leaf, n);
    forall m | From(os'.k, m, n) ensures m.path == MountPath(e) {
      OthersFrom(os.k, os'.k, disk, m, n);
    }
  }

  lemma DoneElsewhere(os: Os, os': Os, d: Drive, disk: string, e: Drive)
    requires Sound(os) && Sound(os') && Foreign(os, os', d, disk) && DiskOf(e) != disk && Done(os, e)
    ensures Done(os', e)
  {
    hide WfK, LuksOk, Placed, Confined, CacheConfined, OthersStay, Cleared, Settled, FlagsConfined, Sound;
    SoundAgrees(os);
    SoundAgrees(os');
    if e.broken {
      ClearedElsewhere(os.k, os'.k, disk, DiskOf(e));
    } else {
      SettledElsewhere(os, os', disk, e);
    }
  }

  lemma EntitledElsewhere(os: Os, os': Os, d: Drive, disk: string, e: Drive)
    requires Foreign(os, os', d, disk) && DiskOf(e) != disk && Entitled(os.k, e)
    ensures Entitled(os'.k, e)
  {
    if Claim(e).Some? {
      hide WfK, LuksOk, Placed, Confined, CacheConfined, OthersStay, FlagsConfined, Branded;
      BrandElsewhere(os.k, os'.k, disk, DiskOf(e), Claim(e).value.id);
    }
  }
}
