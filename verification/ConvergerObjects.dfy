/** The converger as an object: it keeps its list of drives, handles events one by one, and then converges
  all drives. Each method is tied to the transition system of module `Convergers`. */
module ConvergerObjects {
  import opened Names
  import opened Kernels
  import opened Machine
  import opened Devices
  import opened Drives
  import opened Assignments
  import opened LinuxObject
  import opened DeviceObjects
  import opened DriveObjects
  import opened Convergers
  import Assigner
  import Audit
  import Handlers

  class Converger {
    var drives: seq<DriveObject>
    const os: Linux
    const cfg: Config
    ghost var view: seq<Drive>
    ghost var repr: set<object>

    /** `view` is what the drives look like, and `repr` holds the drives and all they own. */
    ghost predicate Valid()
      reads this, repr
    {
      && this !in repr
      && Owned(drives, repr)
      && Shows(os, drives, view)
    }

    ghost function State(phase: Phase): Convergers.State
      reads this, os
    {
      Convergers.State(os.View(), view, phase)
    }

    constructor (os: Linux, cfg: Config)
      ensures Valid() && this.os == os && this.cfg == cfg && drives == []
      ensures State(Idle) == Convergers.State(os.View(), [], Idle)
    {
      this.os, this.cfg, drives, view, repr := os, cfg, [], [], {};
    }

    method HandleAdded(path: DevPath, driveId: string) returns (alive: bool)
      requires Valid()
      modifies this, os
      ensures var r := Handle(old(os.View()), old(view), Added(path, driveId), cfg);
        && alive == r.Some?
        && (alive ==> Valid() && os.View() == r.value.0 && view == r.value.1)
      ensures fresh(repr - old(repr))
    {
      Within(drives, repr);
      var d;
      d, alive := Admit(os, path, driveId, cfg.keys, drives, view);
      hide NewDrive, ConvergeDrive, Shows, Owned, Footprints;
      if alive {
        Store(drives + [d], view + [d.View()]);
      }
    }

    /** Tears down the drive that is gone, and forgets it. */
    method HandleRemoved(path: DevPath) returns (alive: bool)
      requires Valid()
      modifies this, os, repr
      ensures var r := Handle(old(os.View()), old(view), Removed(path), cfg);
        alive && r.Some? && Valid() && os.View() == r.value.0 && view == r.value.1
      ensures fresh(repr - old(repr))
    {
      Within(drives, repr);
      var others := Remove(os, drives, path, view);
      hide Shows, Owned, Footprints, TeardownDrive, Without, LastAt;
      Store(others, Without(view, path));
      return true;
    }

    method HandleErrored(path: DevPath) returns (alive: bool)
      requires Valid()
      modifies this, os, repr
      ensures var r := Handle(old(os.View()), old(view), Errored(path), cfg);
        alive && r.Some? && Valid() && os.View() == r.value.0 && view == r.value.1
      ensures fresh(repr - old(repr))
    {
      hide Owned, Footprints, Drives.MarkAsBroken, IndexOf;
      Within(drives, repr);
      var i := Find(os, drives, path, view);
      if i == |drives| {
        return true;
      }
      MemberIn(os, drives, i, view);
      hide Shows;
      MarkAt(os, drives, i, view);
      Store(drives, view[i := Drives.MarkAsBroken(old(os.View()), view[i]).0]);
      return true;
    }

    /** Starts over with a new drive object. */
    method HandleReinstated(path: DevPath) returns (alive: bool)
      requires Valid()
      modifies this, os
      ensures var r := Handle(old(os.View()), old(view), Reinstated(path), cfg);
        && alive == r.Some?
        && (alive ==> Valid() && os.View() == r.value.0 && view == r.value.1)
      ensures fresh(repr - old(repr))
    {
      hide Owned, Footprints;
      Within(drives, repr);
      var i := Find(os, drives, path, view);
      if i == |drives| {
        return true;
      }
      hide Shows, NewDrive, ConvergeDrive;
      var d;
      d, alive := AdmitAt(os, drives, i, path, view);
      if alive {
        var replaced := drives[i := d];
        Store(replaced, view[i := d.View()]);
      }
    }

    method HandleEvent(e: Event) returns (alive: bool)
      requires Valid()
      modifies this, os, repr
      ensures var r := Handle(old(os.View()), old(view), e, cfg);
        && alive == r.Some?
        && (alive ==> Valid() && os.View() == r.value.0 && view == r.value.1)
      ensures fresh(repr - old(repr))
    {
      hide Shows, Owned, Footprints, NewDrive, ConvergeDrive, TeardownDrive, Drives.MarkAsBroken, Without, LastAt, IndexOf;
      match e {
        case Added(path, driveId) => alive := HandleAdded(path, driveId);
        case Removed(path) => alive := HandleRemoved(path);
        case Errored(path) => alive := HandleErrored(path);
        case Reinstated(path) => alive := HandleReinstated(path);
        case Wakeup => alive := true;
      }
    }

    method ConvergeNth(i: nat) returns (alive: bool)
      requires Valid() && i < |drives| == |view|
      modifies this, os, repr
      ensures var r := Nth(old(os.View()), old(view), i);
        && alive == r.Some?
        && (alive ==> Valid() && drives == old(drives) && os.View() == r.value.0 && view == r.value.1)
      ensures fresh(repr - old(repr))
    {
      Within(drives, repr);
      DeviceSeen(os, drives, i, view);
      hide Shows, Owned, Footprints, ConvergeDrive;
      alive := drives[i].device != NoDevice;
      if alive {
        ConvergeIn(os, drives, i, view);
        Store(drives, view[i := ConvergeDrive(old(os.View()), view[i]).0]);
      }
    }

    method ConvergeNthWorking(i: nat) returns (alive: bool)
      requires Valid() && i < |drives| == |view|
      modifies this, os, repr
      ensures var r := NthWorking(old(os.View()), old(view), i);
        && alive == r.Some?
        && (alive ==> Valid() && drives == old(drives) && os.View() == r.value.0 && view == r.value.1)
      ensures fresh(repr - old(repr))
    {
      DeviceSeen(os, drives, i, view);
      hide Shows, Owned, Footprints, Nth;
      if drives[i].broken {
        return true;
      }
      alive := ConvergeNth(i);
    }

    method ConvergeEvery() returns (alive: bool)
      requires Valid()
      modifies this, os, repr
      ensures Finish(old(State(First(0))), cfg) == if alive then Finish(State(Assigning), cfg) else None
      ensures alive ==> Valid()
      ensures fresh(repr - old(repr))
    {
      assert |view| == |drives|;
      hide Shows, Owned, Footprints, Finish, Nth;
      for i := 0 to |drives|
        invariant Valid() && drives == old(drives) && |view| == |drives|
        invariant Finish(State(First(i)), cfg) == Finish(old(State(First(0))), cfg)
        invariant fresh(repr - old(repr))
      {
        FinishFirst(State(First(i)), cfg);
        alive := ConvergeNth(i);
        if !alive {
          return;
        }
      }
      FinishFirst(State(First(|drives|)), cfg);
      return true;
    }

    method ConvergeWorking() returns (alive: bool)
      requires Valid()
      modifies this, os, repr
      ensures Finish(old(State(Second(0))), cfg) == if alive then Some(State(Idle)) else None
      ensures alive ==> Valid()
      ensures fresh(repr - old(repr))
    {
      assert |view| == |drives|;
      hide Shows, Owned, Footprints, Finish, NthWorking;
      for i := 0 to |drives|
        invariant Valid() && drives == old(drives) && |view| == |drives|
        invariant Finish(State(Second(i)), cfg) == Finish(old(State(Second(0))), cfg)
        invariant fresh(repr - old(repr))
      {
        FinishSecond(State(Second(i)), cfg);
        alive := ConvergeNthWorking(i);
        if !alive {
          return;
        }
      }
      FinishSecond(State(Second(|drives|)), cfg);
      return true;
    }

    method UpdateAssignments()
      requires Valid()
      modifies this, os, repr
      ensures Valid() && drives == old(drives)
      ensures var (vs, os') := Assignments.UpdateAssignments(old(os.View()), old(view), cfg.pool);
        os.View() == os' && view == vs
      ensures fresh(repr - old(repr))
    {
      Within(drives, repr);
      UpdateIn(os, drives, cfg.pool, view);
      hide Shows, Owned, Footprints, Assignments.UpdateAssignments;
      Store(drives, Assignments.UpdateAssignments(old(os.View()), view, cfg.pool).0);
    }

    /** First every drive, then the assignments, then every working drive once more. */
    method Converge() returns (alive: bool)
      requires Valid()
      modifies this, os, repr
      ensures Finish(old(State(First(0))), cfg) == if alive then Some(State(Idle)) else None
      ensures alive ==> Valid()
      ensures fresh(repr - old(repr))
    {
      hide Shows, Owned, Footprints, Finish, Assignments.UpdateAssignments;
      alive := ConvergeEvery();
      if alive {
        FinishStep(State(Assigning), cfg);
        UpdateAssignments();
        alive := ConvergeWorking();
      }
    }

    /** One turn of `RunConverger`: the system may have become `k` since the last look, and `names` is what
      the listing of open mappings shows. */
    method Iterate(k: Kernel, events: seq<Event>, names: seq<string>) returns (alive: bool)
      requires Valid() && forall m :: m in names <==> m in k.slots
      requires forall m, n :: m in k.slots && n in k.slots && k.slots[m].backing == k.slots[n].backing ==> m == n
      modifies this, os, repr
      ensures Finish(Begin(old(State(Idle)), k, events), cfg) == if alive then Some(State(Idle)) else None
      ensures alive ==> Valid()
    {
      ghost var start := Begin(State(Idle), k, events);
      Within(drives, repr);
      LookAgain(os, drives, k, names, view);
      hide Shows, Owned, Footprints, Finish, Handle, Begin;
      assert State(Handling(events)) == start by { BeginIs(old(State(Idle)), k, events); }
      for i := 0 to |events|
        invariant Valid() && Finish(State(Handling(events[i..])), cfg) == Finish(start, cfg)
        invariant fresh(repr - old(repr))
      {
        FinishStep(State(Handling(events[i..])), cfg);
        assert events[i..][1..] == events[i + 1..];
        alive := HandleEvent(events[i]);
        if !alive {
          return;
        }
      }
      FinishStep(State(Handling(events[|events|..])), cfg);
      alive := Converge();
    }

    /** The mounts below `/srv/node` that no drive accounts for, in the order of the table. */
    method CheckForUnexpectedMounts() returns (r: seq<Path>)
      requires Valid()
      ensures r == Audit.Unexpected(view, BelowSrvNode(os.View().host))
    {
      hide Shows, Owned, MountPath, BelowSrvNode, Audit.Unexpected;
      var ms := os.GetMountPointsBelowSrvNode(Host);
      r := [];
      assert Audit.Unexpected(view, ms[..0]) == r by { Audit.NothingToReport(view); }
      for i := 0 to |ms|
        invariant Audit.Unexpected(view, ms[..i]) == r
      {
        Audit.UnexpectedSnoc(view, ms[..i], ms[i]);
        assert ms[..i + 1] == ms[..i] + [ms[i]];
        var found := IsExpected(os, drives, ms[i].path, view);
        if !found {
          r := r + [ms[i].path];
        }
      }
      assert ms[..|ms|] == ms;
    }

    method Store(ds: seq<DriveObject>, ghost vs: seq<Drive>)
      requires Shows(os, ds, vs) && this !in Footprints(ds) && this !in repr
      modifies this
      ensures Valid() && drives == ds && view == vs && repr == old(repr + Footprints(ds))
    {
      hide Shows, Owned, Footprints;
      Owns(os, ds, vs);
      Keep(ds, vs, Footprints(ds));
    }

    method Keep(ds: seq<DriveObject>, ghost vs: seq<Drive>, ghost owned: set<object>)
      requires Shows(os, ds, vs) && Owned(ds, owned) && this !in owned && this !in repr
      modifies this
      ensures Valid() && drives == ds && view == vs && repr == old(repr) + owned
    {
      hide Shows;
      drives := ds;
      view := vs;
      repr := repr + owned;
    }
  }

  ghost predicate Owned(ds: seq<DriveObject>, owned: set<object>)
    reads owned
  {
    forall d :: d in ds ==> d in owned && d.repr <= owned
  }

  lemma Owns(os: Linux, ds: seq<DriveObject>, vs: seq<Drive>)
    requires Shows(os, ds, vs)
    ensures Owned(ds, Footprints(ds))
  {
    forall d | d in ds ensures d in Footprints(ds) {
      var i :| 0 <= i < |ds| && ds[i] == d;
      assert ds[i].Valid();
    }
  }

  lemma Within(ds: seq<DriveObject>, repr: set<object>)
    requires Owned(ds, repr)
    ensures Footprints(ds) <= repr
  {
  }

  /** A drive object for a device, converged right away. The process dies if the device is unreadable. */
  method Admit(os: Linux, path: DevPath, driveId: string, keys: seq<string>, ghost ds: seq<DriveObject>, ghost vs: seq<Drive>)
    returns (d: DriveObject, alive: bool)
    requires Shows(os, ds, vs)
    modifies os
    ensures fresh(d.repr) && d.Valid()
    ensures Footprints(ds + [d]) == old(Footprints(ds)) + d.repr
    ensures var (v, os1) := NewDrive(old(os.View()), path, driveId, keys);
      && alive == v.device.Some?
      && (alive ==> (d.View(), os.View()) == ConvergeDrive(os1, v) && Shows(os, ds + [d], vs + [d.View()]))
  {
    hide NewDrive, ConvergeDrive, Shows, Footprints;
    d := NewcomerTo(os, path, driveId, keys, ds, vs);
    alive := d.device != NoDevice;
    if alive {
      ConvergeBeside(os, d, ds, vs);
    }
    ShowsMore(os, ds, vs, d);
  }

  method NewcomerTo(os: Linux, path: DevPath, driveId: string, keys: seq<string>, ghost ds: seq<DriveObject>, ghost vs: seq<Drive>)
    returns (d: DriveObject)
    requires Shows(os, ds, vs)
    modifies os
    ensures Shows(os, ds, vs) && Footprints(ds) == old(Footprints(ds))
    ensures fresh(d.repr) && d.Valid() && os !in d.repr && d.repr !! Footprints(ds)
    ensures (d.View(), os.View()) == NewDrive(old(os.View()), path, driveId, keys)
  {
    hide NewDrive;
    d := new DriveObject(os, path, driveId, keys);
  }

  method ConvergeBeside(os: Linux, d: DriveObject, ghost ds: seq<DriveObject>, ghost vs: seq<Drive>)
    requires Shows(os, ds, vs) && d.Valid() && os !in d.repr && d.repr !! Footprints(ds) && d.device != NoDevice
    modifies d.repr, os
    ensures Shows(os, ds, vs) && Footprints(ds) == old(Footprints(ds))
    ensures d.Valid() && os !in d.repr && d.repr !! Footprints(ds) && fresh(d.repr - old(d.repr))
    ensures (d.View(), os.View()) == ConvergeDrive(old(os.View()), old(d.View()))
  {
    hide ConvergeDrive;
    d.Converge(os);
  }

  lemma ShowsMore(os: Linux, ds: seq<DriveObject>, vs: seq<Drive>, d: DriveObject)
    requires Shows(os, ds, vs) && d.Valid() && os !in d.repr && d.repr !! Footprints(ds)
    ensures Shows(os, ds + [d], vs + [d.View()])
    ensures Footprints(ds + [d]) == Footprints(ds) + d.repr
  {
    var more := ds + [d];
    forall i, j | 0 <= i < j < |more| ensures more[i].repr !! more[j].repr {
      if j == |ds| {
        assert more[i] in ds;
      }
    }
    forall o | o in Footprints(ds) || o in d.repr ensures o in Footprints(more) {
      if o in Footprints(ds) {
        var x :| x in ds && o in x.repr;
        assert x in more;
      } else {
        assert d == more[|ds|];
      }
    }
  }

  method IsExpected(os: Linux, ds: seq<DriveObject>, path: Path, ghost vs: seq<Drive>) returns (found: bool)
    requires Shows(os, ds, vs)
    ensures found <==> exists d :: d in vs && MountPath(d) == path
  {
    for n := 0 to |ds|
      invariant forall j :: 0 <= j < n ==> MountPath(vs[j]) != path
    {
      assert ds[n].View() == vs[n];
      if MountPath(ds[n].View()) == path {
        assert vs[n] in vs;
        return true;
      }
    }
    return false;
  }

  method Find(os: Linux, ds: seq<DriveObject>, path: DevPath, ghost vs: seq<Drive>) returns (i: nat)
    requires Shows(os, ds, vs)
    ensures i == IndexOf(vs, path) <= |ds| == |vs|
    ensures i < |ds| ==> (ds[i].devicePath, ds[i].driveId, ds[i].keys) == (path, vs[i].driveId, vs[i].keys)
  {
    for n := 0 to |ds|
      invariant forall j :: 0 <= j < n ==> vs[j].path != path
    {
      assert ds[n].View() == vs[n];
      if ds[n].devicePath == path {
        return n;
      }
    }
    return |ds|;
  }

  lemma MemberIn(os: Linux, ds: seq<DriveObject>, i: nat, vs: seq<Drive>)
    requires Shows(os, ds, vs) && i < |ds|
    ensures ds[i].repr <= Footprints(ds) && |vs| == |ds|
  {
    assert ds[i] in ds;
  }

  method MarkAt(os: Linux, ds: seq<DriveObject>, i: nat, ghost vs: seq<Drive>)
    requires Shows(os, ds, vs) && i < |ds|
    modifies ds[i].repr, os
    ensures var (d, os') := Drives.MarkAsBroken(old(os.View()), vs[i]);
      Shows(os, ds, vs[i := d]) && os.View() == os'
    ensures Footprints(ds) == old(Footprints(ds))
  {
    hide Drives.MarkAsBroken;
    ds[i].MarkAsBroken(os);
    forall j | 0 <= j < |ds| && j != i ensures ds[j].Valid() && ds[j].View() == vs[j] && ds[j].repr !! ds[i].repr {
      assert ds[j].repr == old(ds[j].repr);
    }
  }

  lemma ShowsReplaced(os: Linux, ds: seq<DriveObject>, vs: seq<Drive>, i: nat, d: DriveObject)
    requires Shows(os, ds, vs) && i < |ds| && d.Valid() && os !in d.repr && d.repr !! Footprints(ds)
    ensures |vs| == |ds| && Shows(os, ds[i := d], vs[i := d.View()])
    ensures Footprints(ds[i := d]) <= Footprints(ds) + d.repr
  {
    var ds' := ds[i := d];
    forall j, n | 0 <= j < n < |ds'| ensures ds'[j].repr !! ds'[n].repr {
      assert ds[j] in ds && ds[n] in ds;
    }
    forall o | o in Footprints(ds') ensures o in Footprints(ds) || o in d.repr {
      var x :| x in ds' && o in x.repr;
      var j :| 0 <= j < |ds'| && ds'[j] == x;
      assert j != i ==> ds[j] in ds;
    }
  }

  lemma SeenAt(os: Linux, ds: seq<DriveObject>, i: nat, vs: seq<Drive>)
    requires Shows(os, ds, vs) && i < |ds|
    ensures |vs| == |ds| && vs[i].driveId == ds[i].driveId && vs[i].keys == ds[i].keys
  {
    assert ds[i].View() == vs[i];
  }

  method AdmitAt(os: Linux, ds: seq<DriveObject>, i: nat, path: DevPath, ghost vs: seq<Drive>)
    returns (d: DriveObject, alive: bool)
    requires Shows(os, ds, vs) && i < |ds|
    modifies os
    ensures fresh(d.repr) && d.Valid() && |vs| == |ds|
    ensures Footprints(ds[i := d]) <= old(Footprints(ds)) + d.repr
    ensures var (v, os1) := NewDrive(old(os.View()), path, vs[i].driveId, vs[i].keys);
      && alive == v.device.Some?
      && (alive ==> (d.View(), os.View()) == ConvergeDrive(os1, v) && Shows(os, ds[i := d], vs[i := d.View()]))
  {
    hide NewDrive, ConvergeDrive, Shows, Footprints;
    SeenAt(os, ds, i, vs);
    d := NewcomerTo(os, path, ds[i].driveId, ds[i].keys, ds, vs);
    alive := d.device != NoDevice;
    if alive {
      ConvergeBeside(os, d, ds, vs);
    }
    ShowsReplaced(os, ds, vs, i, d);
  }

  // ---- removal ----

  lemma {:induction false} WithoutSnoc(vs: seq<Drive>, v: Drive, path: DevPath)
    ensures Without(vs + [v], path) == Without(vs, path) + if v.path == path then [] else [v]
  {
    if vs == [] {
      assert vs + [v] == [v] && [v][1..] == [];
    } else {
      var head := if vs[0].path == path then [] else [vs[0]];
      assert (vs + [v])[0] == vs[0] && (vs + [v])[1..] == vs[1..] + [v];
      WithoutSnoc(vs[1..], v, path);
      assert Without(vs + [v], path) == head + Without(vs[1..] + [v], path);
    }
  }

  lemma LastAtSnoc(vs: seq<Drive>, v: Drive, path: DevPath)
    ensures LastAt(vs + [v], path) == if v.path == path then Some(v) else LastAt(vs, path)
  {
    assert (vs + [v])[..|vs|] == vs;
  }

  lemma {:induction false} WithoutNone(vs: seq<Drive>, path: DevPath)
    requires forall v :: v in vs ==> v.path != path
    ensures Without(vs, path) == vs
  {
    if vs != [] {
      assert vs[0] in vs;
      WithoutNone(vs[1..], path);
    }
  }

  /** Objects met before the n-th drive share nothing with it. */
  lemma ApartFrom(os: Linux, ds: seq<DriveObject>, vs: seq<Drive>, n: nat, others: seq<DriveObject>, path: DevPath)
    requires Shows(os, ds, vs) && n < |ds| && Elsewhere(others, ds[..n], path)
    ensures ds[n].repr !! Footprints(others)
  {
    forall o | o in Footprints(others) ensures o !in ds[n].repr {
      var x :| x in others && o in x.repr;
      var j :| 0 <= j < n && ds[j] == x;
    }
  }

  ghost predicate Elsewhere(xs: seq<DriveObject>, ds: seq<DriveObject>, path: DevPath) {
    forall x :: x in xs ==> x in ds && x.devicePath != path
  }

  lemma ElsewhereMore(xs: seq<DriveObject>, ds: seq<DriveObject>, path: DevPath, d: DriveObject)
    requires Elsewhere(xs, ds, path)
    ensures Elsewhere(xs, ds + [d], path)
    ensures d.devicePath != path ==> Elsewhere(xs + [d], ds + [d], path)
  {
  }

  lemma ShowsAt(os: Linux, ds: seq<DriveObject>, vs: seq<Drive>, n: nat)
    requires Shows(os, ds, vs) && n < |ds|
    ensures |ds| == |vs| && ds[n].Valid() && os !in ds[n].repr && ds[n].View() == vs[n]
  {
  }

  lemma OneMore<T>(xs: seq<T>, n: nat)
    requires n < |xs|
    ensures xs[..n + 1] == xs[..n] + [xs[n]]
  {
  }

  /** The drives at other paths, and the last one at this path, if any. */
  method Sift(os: Linux, ds: seq<DriveObject>, path: DevPath, ghost vs: seq<Drive>)
    returns (others: seq<DriveObject>, drive: DriveObject?)
    requires Shows(os, ds, vs)
    ensures Shows(os, others, Without(vs, path)) && Elsewhere(others, ds, path)
    ensures drive == null ==> LastAt(vs, path).None?
    ensures drive != null ==> drive in ds && drive.devicePath == path && drive.Valid() && os !in drive.repr
    ensures drive != null ==> Some(drive.View()) == LastAt(vs, path)
  {
    others, drive := [], null;
    assert |ds| == |vs| && Shows(os, [], []) && Elsewhere([], [], path);
    assert vs[..0] == [] && Without([], path) == [] && LastAt([], path).None?;
    hide Shows, Without, LastAt, Elsewhere;
    for n := 0 to |ds|
      invariant |vs| == |ds| && Shows(os, others, Without(vs[..n], path))
      invariant Elsewhere(others, ds[..n], path)
      invariant drive == null ==> LastAt(vs[..n], path).None?
      invariant drive != null ==> drive in ds[..n] && drive.devicePath == path && drive.Valid() && os !in drive.repr
      invariant drive != null ==> Some(drive.View()) == LastAt(vs[..n], path)
    {
      var d := ds[n];
      ShowsAt(os, ds, vs, n);
      OneMore(vs, n);
      OneMore(ds, n);
      ElsewhereMore(others, ds[..n], path, d);
      WithoutSnoc(vs[..n], vs[n], path);
      LastAtSnoc(vs[..n], vs[n], path);
      if d.devicePath == path {
        drive := d;
      } else {
        ApartFrom(os, ds, vs, n, others, path);
        ShowsMore(os, others, Without(vs[..n], path), d);
        others := others + [d];
      }
    }
    assert vs[..|ds|] == vs && ds[..|ds|] == ds;
  }

  lemma SubFootprints(xs: seq<DriveObject>, ds: seq<DriveObject>)
    requires forall x :: x in xs ==> x in ds
    ensures Footprints(xs) <= Footprints(ds)
  {
  }

  lemma ApartInside(os: Linux, ds: seq<DriveObject>, vs: seq<Drive>, d: DriveObject, others: seq<DriveObject>)
    requires Shows(os, ds, vs) && d in ds && forall x :: x in others ==> x in ds && x != d
    ensures d.repr !! Footprints(others) && d.repr <= Footprints(ds)
  {
    var n :| 0 <= n < |ds| && ds[n] == d;
    forall o | o in Footprints(others) ensures o !in d.repr {
      var x :| x in others && o in x.repr;
      var j :| 0 <= j < |ds| && ds[j] == x;
    }
  }

  method Remove(os: Linux, ds: seq<DriveObject>, path: DevPath, ghost vs: seq<Drive>) returns (others: seq<DriveObject>)
    requires Shows(os, ds, vs)
    modifies os, Footprints(ds)
    ensures Shows(os, others, Without(vs, path)) && Footprints(others) <= old(Footprints(ds))
    ensures os.View() == if LastAt(vs, path).None? then old(os.View()) else TeardownDrive(old(os.View()), LastAt(vs, path).value).1
    ensures LastAt(vs, path).None? ==> Without(vs, path) == vs
  {
    hide Shows, Footprints, TeardownDrive, Without, LastAt;
    var drive;
    others, drive := Sift(os, ds, path, vs);
    SubFootprints(others, ds);
    if drive == null {
      Handlers.LastAtMember(vs, path);
      WithoutNone(vs, path);
      return;
    }
    ApartInside(os, ds, vs, drive, others);
    TeardownBeside(os, drive, others, Without(vs, path));
  }

  method TeardownBeside(os: Linux, d: DriveObject, ghost ds: seq<DriveObject>, ghost vs: seq<Drive>)
    requires Shows(os, ds, vs) && d.Valid() && os !in d.repr && d.repr !! Footprints(ds)
    modifies d.repr, os
    ensures Shows(os, ds, vs) && Footprints(ds) == old(Footprints(ds))
    ensures os.View() == TeardownDrive(old(os.View()), old(d.View())).1
  {
    hide TeardownDrive;
    d.Teardown(os);
  }

  method ConvergeIn(os: Linux, ds: seq<DriveObject>, i: nat, ghost vs: seq<Drive>)
    requires Shows(os, ds, vs) && i < |ds| && ds[i].device != NoDevice
    modifies Footprints(ds), os
    ensures |vs| == |ds| && vs[i].device.Some?
    ensures var (d, os') := ConvergeDrive(old(os.View()), vs[i]);
      Shows(os, ds, vs[i := d]) && os.View() == os'
    ensures fresh(Footprints(ds) - old(Footprints(ds)))
  {
    hide ConvergeDrive;
    assert ds[i] in ds;
    ConvergeAt(os, ds, i, vs);
  }

  method UpdateIn(os: Linux, ds: seq<DriveObject>, pool: seq<string>, ghost vs: seq<Drive>)
    requires Shows(os, ds, vs)
    modifies Footprints(ds), os
    ensures var (vs', os') := Assignments.UpdateAssignments(old(os.View()), vs, pool);
      os.View() == os' && Shows(os, ds, vs')
    ensures Footprints(ds) == old(Footprints(ds))
  {
    hide Assignments.UpdateAssignments;
    forall d | d in ds ensures d in Footprints(ds) {
      var i :| 0 <= i < |ds| && ds[i] == d;
      assert ds[i].Valid();
    }
    Assigner.UpdateDriveAssignments(os, ds, pool, vs);
  }

  method LookAgain(os: Linux, ghost ds: seq<DriveObject>, k: Kernel, names: seq<string>, ghost vs: seq<Drive>)
    requires Shows(os, ds, vs) && forall m :: m in names <==> m in k.slots
    requires forall m, n :: m in k.slots && n in k.slots && k.slots[m].backing == k.slots[n].backing ==> m == n
    modifies os
    ensures os.View() == Refresh(old(os.View()).(k := k)) && Shows(os, ds, vs)
    ensures Footprints(ds) == old(Footprints(ds))
  {
    hide OpenMappings, Backings;
    os.kernel := k;
    os.RefreshMountPoints();
    os.RefreshLuksMappings(names);
  }

  lemma DeviceSeen(os: Linux, ds: seq<DriveObject>, i: nat, vs: seq<Drive>)
    requires Shows(os, ds, vs) && i < |ds|
    ensures i < |vs| && (vs[i].device.None? <==> ds[i].device == NoDevice) && vs[i].broken == ds[i].broken
  {
    assert ds[i].View() == vs[i];
  }

  // ---- unfolding one step of an iteration ----

  lemma BeginIs(st: Convergers.State, k: Kernel, events: seq<Event>)
    ensures Begin(st, k, events) == Convergers.State(Refresh(st.os.(k := k)), st.drives, Handling(events))
  {
    hide Refresh;
  }

  /** Converges the i-th drive; nothing when its device is unreadable. */
  function Nth(os: Os, drives: seq<Drive>, i: nat): (r: Option<(Os, seq<Drive>)>)
    requires i < |drives|
    ensures r.Some? ==> |r.value.1| == |drives|
  {
    if drives[i].device.None? then None
    else
      var (d, os') := ConvergeDrive(os, drives[i]);
      Some((os', drives[i := d]))
  }

  function NthWorking(os: Os, drives: seq<Drive>, i: nat): (r: Option<(Os, seq<Drive>)>)
    requires i < |drives|
    ensures r.Some? ==> |r.value.1| == |drives|
  {
    if drives[i].broken then Some((os, drives)) else Nth(os, drives, i)
  }

  lemma FinishIdle(st: Convergers.State, cfg: Config)
    requires st.phase.Idle?
    ensures Finish(st, cfg) == Some(st)
  {
  }

  lemma FinishFirst(st: Convergers.State, cfg: Config)
    requires st.phase.First?
    ensures var i := st.phase.i;
      Finish(st, cfg) ==
        if i >= |st.drives| then Finish(st.(phase := Assigning), cfg)
        else
          var r := Nth(st.os, st.drives, i);
          if r.None? then None else Finish(Convergers.State(r.value.0, r.value.1, First(i + 1)), cfg)
  {
    hide ConvergeDrive, Finish, Handle, Assignments.UpdateAssignments;
    FinishStep(st, cfg);
  }

  lemma FinishSecond(st: Convergers.State, cfg: Config)
    requires st.phase.Second?
    ensures var i := st.phase.i;
      Finish(st, cfg) ==
        if i >= |st.drives| then Some(st.(phase := Idle))
        else
          var r := NthWorking(st.os, st.drives, i);
          if r.None? then None else Finish(Convergers.State(r.value.0, r.value.1, Second(i + 1)), cfg)
  {
    hide ConvergeDrive, Finish, Handle, Assignments.UpdateAssignments;
    FinishStep(st, cfg);
    FinishIdle(st.(phase := Idle), cfg);
  }
}
