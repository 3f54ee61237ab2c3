/** What converging one drive does: to its own disk, and to everybody else's. */
module DriveFacts {
  import opened Names
  import opened Tables
  import opened Kernels
  import opened KernelFacts
  import opened Machine
  import opened MountCache
  import opened Devices
  import opened DeviceFacts
  import opened Drives
  import opened Commands
  import opened Chains

  // ---- umounts that cannot fail do not fail ----

  lemma UnmountWorks(os: Os, path: Path, scope: Scope)
    requires Agree(os) && Reliable(os.fate)
    ensures UnmountDevice(os, path, scope).1
  {
    if MountedAt(Cached(os, scope), path) {
      OwnedByPairs(Table(os.k, scope), Cached(os, scope));
      var m :| m in Cached(os, scope) && m.path == path;
      assert MountedOn(Table(os.k, scope), m.dev, path);
      RunUmountWorks(os, path, scope);
      hide Run, RemoveFirst, MountedAt;
    }
  }

  lemma RunUmountWorks(os: Os, path: Path, scope: Scope)
    requires MountedAt(Table(os.k, scope), path) && Reliable(os.fate)
    ensures Run(os, Umount(path, scope)).1
  {
    hide Effect, MountedAt;
    var c := Umount(path, scope);
    assert os.fate(|os.log|, c);
  }

  lemma {:induction false} UnmountThoseWorks(os: Os, kept: seq<Mount>, ms: seq<Mount>, keep: Option<Path>, scope: Scope, dev: DevPath)
    requires Sound(os) && MountsOf(os, dev, scope) == kept + ms && Reliable(os.fate)
    requires forall m :: m in kept ==> Some(m.path) == keep
    requires Covered(os.k.mode, scope) || forall m :: m in ms ==> Some(m.path) == keep
    ensures UnmountThose(os, ms, keep, scope).1
    decreases |ms|
  {
    hide UnmountDevice, Sound, OnlyMoves, MountsOf, MountedAt, FreeFor, RemoveFirst, Reliable;
    if ms != [] {
      var m := ms[0];
      assert m in ms;
      if Some(m.path) == keep {
        assert kept + ms == kept + [m] + ms[1..];
        UnmountThoseWorks(os, kept + [m], ms[1..], keep, scope, dev);
      } else {
        assert m in MountsOf(os, dev, scope);
        OwnedPath(os, dev, scope, m);
        UnmountEffect(os, m.path, scope, dev);
        SoundAgrees(os);
        UnmountWorks(os, m.path, scope);
        assert kept + ms == kept + [m] + ms[1..];
        RemoveFirstPast(kept, m, ms[1..]);
        UnmountThoseWorks(UnmountDevice(os, m.path, scope).0, kept, ms[1..], keep, scope, dev);
      }
    }
  }

  lemma UnmountBothWorks(os: Os, dev: DevPath, keep: Option<Path>)
    requires Sound(os) && Reliable(os.fate)
    ensures UnmountBoth(os, dev, keep).1
  {
    hide UnmountThose, Sound, OnlyMoves, MountsOf, Covered, Keeping, Reliable;
    CoveredHost(os.k.mode);
    UnmountThoseEffect(os, [], MountsOf(os, dev, Host), keep, Host, dev);
    UnmountThoseWorks(os, [], MountsOf(os, dev, Host), keep, Host, dev);
    var (os1, _) := UnmountThose(os, MountsOf(os, dev, Host), keep, Host);
    if !os.k.mode.Separate? {
      UnmountLocalIdle(os, dev, keep);
    } else {
      CoveredSeparate(os.k.mode);
      UnmountThoseWorks(os1, [], MountsOf(os1, dev, Local), keep, Local, dev);
    }
  }

  /** With umounts that work, tearing down leaves the known leaf unmounted even if a container stays open. */
  lemma {:induction false} TeardownUnmounts(os: Os, d: Dev)
    requires Sound(os) && Reliable(os.fate)
    ensures var (d', os', _) := Teardown(os, d);
      MountedPath(d') == None && (Leaf(d).Some? ==> Unmounted(os', Leaf(d).value))
    decreases d
  {
    hide Sound, UnmountBoth, MountsOf, CloseUp, Keeping, Reliable;
    if d.XfsDev? {
      UnmountBothWorks(os, d.path, None);
      TeardownEffect(os, d);
    } else if d.mapped.None? {
      CloseUpTables(os, d);
    } else {
      TeardownUnmounts(os, d.mapped.value);
      var (_, os1, ok) := Teardown(os, d.mapped.value);
      if ok {
        var closed := d.(mapped := None);
        CloseUpTables(os1, closed);
        if Leaf(d).Some? {
          UnmountedSame(os1, CloseUp(os1, closed).1, Leaf(d).value);
        }
      }
    }
  }

  lemma UnmountedSame(a: Os, b: Os, dev: DevPath)
    requires SameTables(a, b) && Unmounted(a, dev)
    ensures Unmounted(b, dev)
  {
  }

  // ---- what is mounted from a disk ----

  /** Every mount from this disk is a mount of the leaf its drive knows. */
  ghost predicate Accounted(k: Kernel, d: Dev, disk: string) {
    forall m :: IsEntry(k, m) && On(k, m.dev, disk) ==> Leaf(d) == Some(m.dev)
  }

  ghost predicate Cleared(k: Kernel, disk: string) {
    forall m :: IsEntry(k, m) ==> !On(k, m.dev, disk)
  }

  /** A device deep inside a disk is reached through open containers all the way. */
  lemma {:induction false} SlotsBelow(k: Kernel, dev: DevPath, at: Loc)
    requires SlotsOk(k) && LocOf(k, dev).Some? && LocOf(k, dev).value.disk == at.disk && LocOf(k, dev).value.depth > at.depth
    ensures SlotAt(k, Deeper(at))
    decreases LocOf(k, dev).value.depth
  {
    var s := k.slots[dev.name];
    assert SlotOk(k, s);
    if s.at.depth > at.depth + 1 {
      SlotsBelow(k, s.backing, at);
    }
  }

  /** A chain explored to the end leads to whatever is mounted from its disk. */
  lemma {:induction false} ExploredLeads(k: Kernel, d: Dev, at: Loc, driveId: string, m: Mount)
    requires WfK(k) && ChainOk(k, d, at, driveId) && Explored(k, d, at)
    requires IsEntry(k, m) && On(k, m.dev, at.disk) && LocOf(k, m.dev).value.depth >= at.depth
    ensures Leaf(d) == Some(m.dev)
    decreases d
  {
    var loc := LocOf(k, m.dev).value;
    if d.XfsDev? {
      OneMounted(k, d.path, m.dev, at.disk);
    } else {
      if loc == at {
        assert false;
      } else if d.mapped.None? {
        SlotsBelow(k, m.dev, at);
        assert false;
      } else {
        ExploredLeads(k, d.mapped.value, Deeper(at), driveId, m);
      }
    }
  }

  lemma ExploredAccounts(k: Kernel, d: Dev, disk: string, driveId: string)
    requires WfK(k) && ChainOk(k, d, Loc(disk, 0), driveId) && Explored(k, d, Loc(disk, 0))
    ensures Accounted(k, d, disk)
  {
    forall m | IsEntry(k, m) && On(k, m.dev, disk) ensures Leaf(d) == Some(m.dev) {
      ExploredLeads(k, d, Loc(disk, 0), driveId, m);
    }
  }

  lemma {:induction false} LeafOn(k: Kernel, d: Dev, at: Loc, driveId: string)
    requires ChainOk(k, d, at, driveId) && Leaf(d).Some?
    ensures On(k, Leaf(d).value, at.disk) && ContentAt(k, Leaf(d).value).Some? && !ContentAt(k, Leaf(d).value).value.Luks?
    decreases d
  {
    if d.LuksDev? {
      LeafOn(k, d.mapped.value, Deeper(at), driveId);
    }
  }

  // ---- where Setup is heading ----

  /** All mounts at `path` come from `disk`. */
  ghost predicate Reserved(k: Kernel, disk: string, path: Path) {
    forall m :: IsEntry(k, m) && m.path == path ==> On(k, m.dev, disk)
  }

  /** Across both scopes, all mounts at one path are of one device. */
  ghost predicate CrossOwned(k: Kernel) {
    forall m, m' :: IsEntry(k, m) && IsEntry(k, m') && m.path == m'.path ==> m.dev == m'.dev
  }

  lemma NoLeafEntry(k: Kernel, d: Dev, at: Loc, driveId: string, m: Mount)
    requires d.XfsDev? && WfK(k) && ChainOk(k, d, at, driveId) && IsEntry(k, m) && On(k, m.dev, at.disk)
    ensures m.dev == d.path
  {
    OneMounted(k, m.dev, d.path, at.disk);
  }

  /** The goal's device is the only one of its disk that is mounted; and the goal's path is the assigned
    one, or the drive's own temporary one, or one where that device is already. */
  lemma {:induction false} GoalIs(os: Os, d: Dev, order: Order, at: Loc)
    requires WfK(os.k) && Agree(os) && LuksOk(os) && Reliable(os.fate) && Fresh(os, order.driveId)
    requires ChainOk(os.k, d, at, order.driveId) && Goal(os, d, order).Some?
    ensures var (leaf, path) := Goal(os, d, order).value;
      && (forall m :: IsEntry(os.k, m) && On(os.k, m.dev, at.disk) ==> m.dev == leaf)
      && (order.want.Some? ==> path == order.want.value)
      && (order.want.None? ==> path == RunTemp(order.driveId) || MountedOn(os.local, leaf, path))
    decreases Rank(os.k, d)
  {
    ValidateChain(os, d, at, order.driveId);
    hide WfK, LuksOk, Validate, OpenUp, Fresh, ChainOk, Explored, Reliable, Agree, MountedOn, IsEntry, On;
    var (d1, os1, ok) := Validate(os, d);
    if d1.XfsDev? {
      GoalXfs(os, d, order, at);
    } else {
      LogWithin(os, os1, at.disk, order.driveId);
      OpenUpChain(os1, d1, order, at);
      OpenUpTables(os1, d1, order);
      OpenUpRan(os1, d1, order);
      var (d2, os2, ok2) := OpenUp(os1, d1, order);
      InnerChain(os2.k, d2, at, order.driveId);
      AgreeSame(os, os2);
      GoalIs(os2, d2.mapped.value, order, Deeper(at));
      SetupSlots(os1, os2);
      SlotsKeepOn(os.k, os2.k, at.disk);
    }
  }

  lemma InnerChain(k: Kernel, d: Dev, at: Loc, driveId: string)
    requires d.LuksDev? && d.mapped.Some? && ChainOk(k, d, at, driveId)
    ensures ChainOk(k, d.mapped.value, Deeper(at), driveId)
  {
  }

  lemma AgreeSame(a: Os, b: Os)
    requires Agree(a) && SameTables(a, b)
    ensures Agree(b)
  {
  }

  lemma SlotsKeepOn(k: Kernel, k': Kernel, disk: string)
    requires k'.host == k.host && k'.local == k.local
    requires forall x :: x in k.slots ==> x in k'.slots && k'.slots[x] == k.slots[x]
    ensures forall m :: IsEntry(k, m) && On(k, m.dev, disk) ==> IsEntry(k', m) && On(k', m.dev, disk)
  {
  }

  lemma GoalXfs(os: Os, d: Dev, order: Order, at: Loc)
    requires d.XfsDev? && WfK(os.k) && Agree(os) && ChainOk(os.k, d, at, order.driveId) && Goal(os, d, order).Some?
    ensures var (leaf, path) := Goal(os, d, order).value;
      && (forall m :: IsEntry(os.k, m) && On(os.k, m.dev, at.disk) ==> m.dev == leaf)
      && (order.want.Some? ==> path == order.want.value)
      && (order.want.None? ==> path == RunTemp(order.driveId) || MountedOn(os.local, leaf, path))
  {
    forall m | IsEntry(os.k, m) && On(os.k, m.dev, at.disk) ensures m.dev == d.path {
      NoLeafEntry(os.k, d, at, order.driveId, m);
    }
    hide WfK, Agree, ChainOk, IsEntry, On, ValidateXfs;
    ValidatedXfs(os, d);
    var d' := ValidateXfs(os, d).0;
    if d'.mountPath.Some? {
      MountedOnIsListed(os, d.path, d'.mountPath.value, Local);
      var ms := MountsOf(os, d.path, Local);
      assert ms[0] in ms;
    }
  }

  /** Nothing stands in the way of the goal. */
  lemma GoalIsFree(os: Os, d: Dev, order: Order, disk: string)
    requires WfK(os.k) && Agree(os) && LuksOk(os) && Reliable(os.fate) && Fresh(os, order.driveId)
    requires ChainOk(os.k, d, Loc(disk, 0), order.driveId) && CrossOwned(os.k)
    requires order.want.Some? ==> Reserved(os.k, disk, order.want.value)
    requires Reserved(os.k, disk, RunTemp(order.driveId))
    ensures GoalFree(os, Goal(os, d, order))
  {
    if Goal(os, d, order).Some? {
      GoalIs(os, d, order, Loc(disk, 0));
      var (leaf, path) := Goal(os, d, order).value;
      hide Goal, WfK, LuksOk, Fresh, ChainOk, Reliable;
      PathFree(os, disk, leaf, path);
    }
  }

  lemma PathFree(os: Os, disk: string, leaf: DevPath, path: Path)
    requires Agree(os) && CrossOwned(os.k)
    requires forall m :: IsEntry(os.k, m) && On(os.k, m.dev, disk) ==> m.dev == leaf
    requires Reserved(os.k, disk, path) || MountedOn(os.local, leaf, path)
    ensures FreeFor(os.host, leaf, path) && FreeFor(os.local, leaf, path)
  {
    OwnedByPairs(os.k.host, os.host);
    OwnedByPairs(os.k.local, os.local);
    forall m | (m in os.host || m in os.local) && m.path == path ensures m.dev == leaf {
      assert MountedOn(os.k.host, m.dev, path) || MountedOn(os.k.local, m.dev, path);
      var e :| IsEntry(os.k, e) && e.dev == m.dev && e.path == path;
      if !Reserved(os.k, disk, path) {
        var l :| l in os.local && l.dev == leaf && l.path == path;
        assert MountedOn(os.k.local, leaf, path);
        var e' :| IsEntry(os.k, e') && e'.dev == leaf && e'.path == path;
      }
    }
  }
}
