/** Where a drive can end up: at its own temporary path, as assigned, or where its disk was already. */
module Origins {
  import opened Names
  import opened Tables
  import opened Kernels
  import opened KernelFacts
  import opened Machine
  import opened MountCache
  import opened Devices
  import opened DeviceFacts
  import opened Drives
  import opened Commands
  import opened Chains
  import opened DriveFacts
  import opened Convergence

  ghost predicate HasMount(k: Kernel, disk: string, path: Path) {
    exists m :: From(k, m, disk) && m.path == path
  }

  ghost predicate Origin(k: Kernel, d: Drive, disk: string, path: Path) {
    path == RunTemp(d.driveId) || AssignedPath(d.assignment) == Some(path) || HasMount(k, disk, path)
  }

  /** A chain that records a mount validates only while that mount is there. */
  lemma {:induction false} ValidateSees(os: Os, d: Dev)
    requires Validate(os, d).2 && MountedPath(d).Some?
    ensures Leaf(d).Some? && MountedOn(os.local, Leaf(d).value, MountedPath(d).value)
    decreases Rank(os.k, d)
  {
    hide MountsOf, ValidateXfs, NewDevice, MountedOn;
    if d.XfsDev? {
      ValidateXfsRecorded(os, d);
      MountedOnIsListed(os, d.path, d.mountPath.value, Local);
      var ms := MountsOf(os, d.path, Local);
      assert ms[0] in ms;
    } else {
      var (d1, os1, ok) := Discover(os, d);
      assert d1 == d;
      ValidateSees(os1, d.mapped.value);
    }
  }

  lemma SetupSees(os: Os, d: Dev, order: Order)
    requires Setup(os, d, order).2 && MountedPath(d).Some?
    ensures Leaf(d).Some? && MountedOn(os.local, Leaf(d).value, MountedPath(d).value)
  {
    hide Validate, SetupXfs, OpenUp, MountedOn, MountedPath, Leaf;
    assert Validate(os, d).2;
    ValidateSees(os, d);
  }

  lemma ListedFrom(os: Os, leaf: DevPath, disk: string, path: Path)
    requires Agree(os) && On(os.k, leaf, disk) && MountedOn(os.local, leaf, path)
    ensures HasMount(os.k, disk, path)
  {
    OwnedByPairs(os.k.local, os.local);
    assert MountedOn(os.k.local, leaf, path);
    var m :| m in os.k.local && m.dev == leaf && m.path == path;
    assert From(os.k, m, disk);
  }

  /** A mounted device that is on `disk` afterwards was on it before. */
  lemma MountedWasOn(os: Os, k': Kernel, leaf: DevPath, disk: string, path: Path)
    requires Agree(os) && MountsOk(os.k) && Confined(os.k, k', disk) && On(k', leaf, disk) && MountedOn(os.local, leaf, path)
    ensures On(os.k, leaf, disk)
  {
    OwnedByPairs(os.k.local, os.local);
    assert MountedOn(os.k.local, leaf, path);
    var m :| m in os.k.local && m.dev == leaf && m.path == path;
    assert IsEntry(os.k, m);
    hide Pairs, Peel, MountedOn, Confined;
    var n := LocOf(os.k, leaf).value.disk;
    if n != disk {
      OnElsewhere(os.k, k', disk, leaf, n);
    }
  }

  lemma ConvergeOrigin(os: Os, d: Drive, disk: string)
    requires Sound(os) && WfK(os.k) && LuksOk(os) && Reliable(os.fate) && CrossOwned(os.k)
    requires !d.broken && Fits(os, d, disk) && GoalFree(os, Goal(os, d.device.value, OrderOf(d)))
    requires !ConvergeDrive(os, d).0.broken
    ensures Origin(os.k, d, disk, MountPath(ConvergeDrive(os, d).0))
    ensures DriveMountedPath(d).Some? ==> HasMount(os.k, disk, DriveMountedPath(d).value)
  {
    var dev0, order := d.device.value, OrderOf(d);
    SetupEffect(os, dev0, order);
    SoundAgrees(os);
    GoalIs(os, dev0, order, Loc(disk, 0));
    SetupSettles(os, d, disk);
    hide Setup, Teardown, Goal, ChainOk, WfK, LuksOk, Sound, CrossOwned, Fresh, OthersStay, Reliable, Shown, OnlyAt, Moved, FreeFor, IsEntry, MountsOk, MountedOn, HasMount, Confined, Accounted, Agree;
    var (dev, os', ok) := Setup(os, dev0, order);
    assert ok;
    var (leaf, path) := Goal(os, dev0, order).value;
    WithinWf(os, os', disk, d.driveId);
    WfMounts(os.k);
    if order.want.None? && path != RunTemp(d.driveId) {
      MountedWasOn(os, os'.k, leaf, disk, path);
      ListedFrom(os, leaf, disk, path);
    }
    if MountedPath(dev0).Some? {
      SetupSees(os, dev0, order);
      LeafOn(os.k, dev0, Loc(disk, 0), d.driveId);
      ListedFrom(os, Leaf(dev0).value, disk, MountedPath(dev0).value);
    }
  }
}
