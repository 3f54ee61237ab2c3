/** Without failures, an iteration on a startable system leaves no drive broken; and stopped anywhere, it can
  be started again and ends the same. */
module FailureFreeRuns {
  import opened Names
  import opened Tables
  import opened Kernels
  import opened KernelFacts
  import opened Machine
  import opened MountCache
  import opened Devices
  import opened DeviceFacts
  import opened Drives
  import opened Commands
  import opened Chains
  import opened DriveFacts
  import opened Convergence
  import opened Fleets
  import opened Convergers
  import opened Exclusivity
  import opened Handlers
  import opened Safety
  import opened Runs
  import opened Moments
  import opened Crashes
  import opened Recovery
  import opened Stability
  import opened Repetition
  import opened KeyRotation
  import opened Workable
  import opened Restarts
  import opened RoundMoments
  import opened IterationCourse
  import opened CrashRecovery
  import opened RecoveredTables
  import opened Outcomes
  import opened StartConditions
  import AssignSteps
  import Assignments
  import Origins
  import Quarantine
  import Rescan

  // ---- the caches ----

  /** No mount of the fleet is listed as read-only. */
  ghost predicate CacheNeat(pl: Plan, os: Os) {
    forall m, j :: (m in os.host || m in os.local) && 0 <= j < |pl.disks| && On(os.k, m.dev, pl.disks[j].disk) ==> !m.ro
  }

  /** Entries that are new in the caches are writable. */
  ghost predicate CacheNew(os: Os, os': Os) {
    && (forall m :: m in os'.host ==> m in os.host || !m.ro)
    && (forall m :: m in os'.local ==> m in os.local || !m.ro)
  }

  lemma MountNew(os: Os, dev: DevPath, path: Path, scope: Scope)
    ensures CacheNew(os, MountDevice(os, dev, path, scope).0)
  {
    hide Can, Effect, MountedOn;
  }

  lemma UnmountBothNew(os: Os, dev: DevPath, keep: Option<Path>)
    ensures CacheNew(os, UnmountBoth(os, dev, keep).0)
  {
    hide UnmountThose, OfDevice;
    UnmountThoseLeaves(os, MountsOf(os, dev, Host), keep, Host);
    var (os1, ok) := UnmountThose(os, MountsOf(os, dev, Host), keep, Host);
    UnmountThoseLeaves(os1, MountsOf(os1, dev, Local), keep, Local);
  }

  lemma SetupXfsNew(os: Os, d: Dev, order: Order)
    requires d.XfsDev?
    ensures CacheNew(os, SetupXfs(os, d, order).1)
  {
    hide UnmountBoth, MountDevice, FormatFirst, Target;
    FormatFirstTables(os, d, Mkfs(d.path));
    var (d1, os1, ok) := FormatFirst(os, d, Mkfs(d.path));
    if ok {
      var target := Target(d1.mountPath, order);
      UnmountBothNew(os1, d1.path, Some(target));
      var (os2, ok2) := UnmountBoth(os1, d1.path, Some(target));
      if ok2 {
        MountNew(os2, d1.path, target, Host);
        MountNew(MountDevice(os2, d1.path, target, Host).0, d1.path, target, Local);
      }
    }
  }

  lemma {:induction false} SetupNew(os: Os, d: Dev, order: Order)
    ensures CacheNew(os, Setup(os, d, order).1)
    decreases Rank(os.k, d)
  {
    hide Validate, SetupXfs, OpenUp, Rank;
    var (d1, os1, ok) := Validate(os, d);
    if ok {
      if d1.XfsDev? {
        SetupXfsNew(os1, d1, order);
      } else {
        OpenUpTables(os1, d1, order);
        var (d2, os2, ok2) := OpenUp(os1, d1, order);
        if !(!ok2 || d2.mapped.None? || Rank(os2.k, d2.mapped.value) >= Rank(os.k, d)) {
          SetupNew(os2, d2.mapped.value, order);
        }
      }
    }
  }

  lemma SetupNeat(pl: Plan, os: Os, d: Dev, order: Order)
    requires CacheNeat(pl, os) && Agree(os) && MountsOk(os.k)
    ensures CacheNeat(pl, Setup(os, d, order).1)
  {
    SetupNew(os, d, order);
    SetupRan(os, d, order);
    var os' := Setup(os, d, order).1;
    SetupSlots(os, os');
    hide Setup, On, Agree, MountsOk, Ran;
    forall m, j | (m in os'.host || m in os'.local) && 0 <= j < |pl.disks| && On(os'.k, m.dev, pl.disks[j].disk) ensures !m.ro {
      if m in os.host || m in os.local {
        var e := CachedEntry(os, m);
        OnWithin(os.k, os'.k, e, pl.disks[j].disk);
      }
    }
  }

  // ---- a drive that will work ----

  /** All mounts of a disk are where its kernel mounts are. */
  lemma NeatAt(pl: Plan, os: Os, i: nat, cur: Option<Path>)
    requires CacheNeat(pl, os) && Agree(os) && i < |pl.disks| && At(os.k, pl.disks[i].disk, cur)
    ensures Neat(os, pl.disks[i].disk, cur)
  {
    hide On, Agree;
    forall m | (m in os.host || m in os.local) && On(os.k, m.dev, pl.disks[i].disk) ensures !m.ro && cur == Some(m.path) {
      var e := CachedEntry(os, m);
      assert From(os.k, e, pl.disks[i].disk);
    }
  }

  lemma {:induction false} HonestChain(os: Os, d: Dev, at: Loc, name: string, keys: seq<string>)
    requires SlotsOk(os.k) && ChainOk(os.k, d, at, name) && Formatted(d) && (d.LuksDev? ==> keys != [])
    requires Leaf(d).Some? && ContentAt(os.k, Leaf(d).value).Some? && ContentAt(os.k, Leaf(d).value).value.Xfs?
    requires MountedPath(d).Some? ==> MountedOn(os.local, Leaf(d).value, MountedPath(d).value)
    ensures Honest(os, d, keys)
    decreases d
  {
    hide SlotsOk, Peel, MountedOn;
    if d.LuksDev? {
      InsideOpen(os.k, d.path, d.mapped.value.path, at);
      HonestChain(os, d.mapped.value, Deeper(at), name, keys);
    }
  }

  /** What `Setup` of a drive needs to succeed. */
  ghost predicate Promising(os: Os, d: Drive, cur: Option<Path>) {
    && d.device.Some? && !d.broken && Smooth(os, d.driveId)
    && Fitting(os, d.device.value, Loc(DiskOf(d), 0), d.driveId, d.keys, cur)
  }

  lemma PromisingWorks(os: Os, d: Drive, cur: Option<Path>)
    requires Promising(os, d, cur)
    ensures !ConvergeDrive(os, d).0.broken
  {
    SetupWorks(os, d.device.value, OrderOf(d), Loc(DiskOf(d), 0), cur);
    hide Setup, Teardown;
  }

  lemma RecordedHonest(os: Os, d: Drive)
    requires Global(os) && Member(os, d) && !d.broken && Prepared(d) && Rescan.AsRecorded(os, d)
    ensures Honest(os, d.device.value, d.keys)
  {
    var path := DriveMountedPath(d).value;
    AssignSteps.VisibleIsLeaf(os, d, path);
    ParkedListed(os, d, path);
    WfSlots(os.k);
    hide Global, Shown, Accounted, Reserved, Formatted, SlotsOk, MountedOn, ContentAt;
    HonestChain(os, d.device.value, Loc(DiskOf(d), 0), d.driveId, d.keys);
  }

  lemma ParkedListed(os: Os, d: Drive, path: Path)
    requires Global(os) && AssignSteps.Parked(os, d, path)
    ensures MountedOn(os.local, Leaf(d.device.value).value, path) && WfK(os.k)
  {
    var leaf := Leaf(d.device.value).value;
    SoundAgrees(os);
    hide Sound, LuksOk, Labelled, Reliable, CrossOwned, WfK;
    EntriesOf(os, leaf, Local);
    var m := MountsOf(os, leaf, Local)[0];
    assert m in MountsOf(os, leaf, Local);
    assert MountedOn(os.k.local, leaf, m.path);
    var e :| e in os.k.local && e.dev == leaf && e.path == m.path;
    assert From(os.k, e, DiskOf(d));
    assert m in os.local && m.dev == leaf && m.path == path;
  }

  lemma TidyFits(pl: Plan, k: Kernel, i: nat)
    requires Startable(pl, k) && i < |pl.disks|
    ensures var t := pl.disks[i];
      && !k.mode.Separate? && IdKept(k, t.driveId, t.disk) && ContentOf(k, Loc(t.disk, 0)).Some? && !Flagged(k, t.driveId)
      && Openable(k, ContentOf(k, Loc(t.disk, 0)).value, Loc(t.disk, 0), t.driveId, pl.cfg.keys)
  {
    assert Tidy(k, pl.disks[i], pl.cfg.keys);
    hide Openable, Reserved, IdKept;
  }

  lemma KnownPromising(pl: Plan, os: Os, d: Drive, i: nat, cur: Option<Path>)
    requires Global(os) && Member(os, d) && i < |pl.disks| && Working(d, pl.disks[i], pl.cfg.keys)
    requires Prepared(d) && Rescan.AsRecorded(os, d) && Startable(pl, os.k) && NoFailures(os.fate) && CacheNeat(pl, os)
    requires At(os.k, pl.disks[i].disk, cur)
    ensures Promising(os, d, cur)
  {
    SoundAgrees(os);
    RecordedHonest(os, d);
    NeatAt(pl, os, i, cur);
    TidyFits(pl, os.k, i);
    hide Startable, CacheNeat, Sound, WfK, LuksOk, CrossOwned, Labelled, Prepared, Rescan.AsRecorded, Openable, Honest, Neat, At, Suits, ChainOk, Fresh, NoFailures, Accounted, Reserved, IdKept;
  }

  lemma FreshHonest(pl: Plan, os: Os, i: nat)
    requires Startable(pl, os.k) && NoFailures(os.fate) && i < |pl.disks|
    ensures var t := pl.disks[i];
      var m := NewDevice(os, Disk(t.disk), pl.cfg.keys != []).0;
      m.Some? && Honest(os, m.value, pl.cfg.keys)
  {
    TidyFits(pl, os.k, i);
    var t := pl.disks[i];
    assert Reliable(os.fate);
    hide Startable, Openable, NewDevice, ContentOf, IdKept, Reliable;
    NewHonest(os, Disk(t.disk), Loc(t.disk, 0), pl.cfg.keys != [], t.driveId, pl.cfg.keys);
  }

  /** A new drive object on a startable system works at once. */
  lemma NewPromising(pl: Plan, os: Os, i: nat, cur: Option<Path>)
    requires Global(os) && i < |pl.disks| && Ready(os, Disk(pl.disks[i].disk), pl.disks[i].driveId)
    requires Startable(pl, os.k) && NoFailures(os.fate) && CacheNeat(pl, os) && At(os.k, pl.disks[i].disk, cur)
    ensures var t := pl.disks[i];
      var (d, os1) := NewDrive(os, Disk(t.disk), t.driveId, pl.cfg.keys);
      os1 == os.(log := os1.log) && Promising(os1, d, cur) && Ran(os, os1, Glancing)
  {
    var t := pl.disks[i];
    TidyFits(pl, os.k, i);
    FreshHonest(pl, os, i);
    NewDriveShape(os, Disk(t.disk), t.driveId, pl.cfg.keys);
    NewDriveGlancing(os, Disk(t.disk), t.driveId, pl.cfg.keys);
    Quarantine.DeviceKept(os, Disk(t.disk), t.driveId, pl.cfg.keys);
    NeatAt(pl, os, i, cur);
    hide NewDrive, NewDevice, Startable, CacheNeat, Sound, WfK, LuksOk, CrossOwned, Labelled, Openable, Honest, Neat, At, ChainOk, Reserved, IdKept, Ran, Fresh, NoFailures;
    var (d, os1) := NewDrive(os, Disk(t.disk), t.driveId, pl.cfg.keys);
    GlancingAlways(os, os1, StartableFor(pl));
    assert os1 == os.(log := os1.log);
    StartSmooth(os, os1, d, t, cur);
  }

  lemma StartSmooth(os: Os, os1: Os, d: Drive, t: NamedDisk, cur: Option<Path>)
    requires os1 == os.(log := os1.log) && Global(os) && NoFailures(os.fate) && !os.k.mode.Separate? && Fresh(os, t.driveId)
    requires d.device.Some? && !d.broken && d.driveId == t.driveId && DiskOf(d) == t.disk
    requires Fitting(os, d.device.value, Loc(t.disk, 0), t.driveId, d.keys, cur)
    ensures Promising(os1, d, cur)
  {
    assert Smooth(os, t.driveId);
    SmoothLog(os, os1, t.driveId);
    FittingLog(os, os1, d.device.value, Loc(t.disk, 0), t.driveId, d.keys, cur);
  }

  // ---- the invariant ----

  /** Nothing fails, the system is startable, and the caches and the drives are in line with it. */
  ghost predicate FailureFree(pl: Plan, s: State) {
    && NoFailures(s.os.fate) && Startable(pl, s.os.k) && CacheNeat(pl, s.os)
    && AllPrepared(s.drives) && Rescan.AllAsRecorded(s.os, s.drives)
  }

  /** A step that leaves no drive broken, and at every moment a system to start again from. */
  ghost predicate Smoothly(pl: Plan, s: State, t: State) {
    Unbroken(t) && FailureFree(pl, t) && Always(s.os, t.os, StartableFor(pl))
  }

  lemma AlwaysEnds(pl: Plan, os: Os, os': Os)
    requires Steps(os, os') && Always(os, os', StartableFor(pl))
    ensures Startable(pl, os'.k) && os'.fate == os.fate
  {
    hide Startable;
    ThroughoutEnds(os.k, Since(os, os'), os'.k, StartableFor(pl));
  }

  /** A drive's place, without regard to its assignment. */
  lemma RecordedSettled(os: Os, d: Drive)
    requires !d.broken
    ensures Rescan.AsRecorded(os, d) <==> Done(os, d.(assignment := None))
  {
  }

  lemma RecordedElsewhere(os: Os, os': Os, d: Drive, e: Drive)
    requires Sound(os) && Sound(os') && Foreign(os, os', d, DiskOf(d)) && DiskOf(e) != DiskOf(d) && !e.broken && Rescan.AsRecorded(os, e)
    ensures Rescan.AsRecorded(os', e)
  {
    RecordedSettled(os, e);
    RecordedSettled(os', e);
    hide Sound, Foreign, Rescan.AsRecorded, Done;
    DoneElsewhere(os, os', d, DiskOf(d), e.(assignment := None));
  }

  lemma RecordedAllLog(os: Os, os': Os, drives: seq<Drive>)
    requires Rescan.AllAsRecorded(os, drives) && os' == os.(log := os'.log)
    ensures Rescan.AllAsRecorded(os', drives)
  {
    hide Rescan.AsRecorded;
    forall d | d in drives ensures Rescan.AsRecorded(os', d) {
      Rescan.LogRecorded(os, os', d);
    }
  }

  /** The drive at work is done, and the others stay where they are. */
  lemma RecordedAfter(os: Os, os': Os, drives: seq<Drive>, d: Drive, d': Drive, after: seq<Drive>)
    requires Sound(os) && Sound(os') && Foreign(os, os', d, DiskOf(d)) && Rescan.AllAsRecorded(os, drives) && Done(os', d')
    requires forall e :: e in after ==> e == d' || (e in drives && DiskOf(e) != DiskOf(d) && !e.broken)
    ensures Rescan.AllAsRecorded(os', after)
  {
    hide Sound, Foreign, Rescan.AsRecorded, Done;
    forall e | e in after ensures Rescan.AsRecorded(os', e) {
      if e == d' {
        Rescan.DoneRecorded(os', d', d');
      } else {
        RecordedElsewhere(os, os', d, e);
      }
    }
  }

  lemma NeatAfter(pl: Plan, os: Os, d: Drive)
    requires CacheNeat(pl, os) && Global(os) && d.device.Some? && !d.broken && !ConvergeDrive(os, d).0.broken
    ensures CacheNeat(pl, ConvergeDrive(os, d).1)
  {
    SoundAgrees(os);
    WorkingIsSetup(os, d);
    SetupNeat(pl, os, d.device.value, OrderOf(d));
    hide ConvergeDrive, Setup;
  }

  lemma LogNeat(pl: Plan, os: Os, os': Os)
    requires CacheNeat(pl, os) && os'.host == os.host && os'.local == os.local && os'.k.slots == os.k.slots
    ensures CacheNeat(pl, os')
  {
  }

  // ---- converging ----

  /** A drive of such a fleet converges. */
  lemma FailureFreeConverge(pl: Plan, os: Os, d: Drive, i: nat, cur: Option<Path>)
    requires Planned(pl) && Named(pl) && i < |pl.disks| && Working(d, pl.disks[i], pl.cfg.keys)
    requires Global(os) && Candidate(os, d) && (Homed(d) || Entitled(os.k, d)) && Promising(os, d, cur)
    requires Startable(pl, os.k) && CacheNeat(pl, os)
    ensures var (d', os') := ConvergeDrive(os, d);
      && !d'.broken && Done(os', d') && Global(os') && Foreign(os, os', d, DiskOf(d)) && d'.path == d.path
      && Always(os, os', StartableFor(pl)) && Steps(os, os') && CacheNeat(pl, os')
  {
    PromisingWorks(os, d, cur);
    DriveStartable(pl, os, d, i);
    MemberConverges(os, d);
    NeatAfter(pl, os, d);
    ConvergeRan(os, d);
    hide ConvergeDrive, Planned, Named, Working, Global, Candidate, Homed, Entitled, Promising, Startable, CacheNeat, Foreign, Done, Member, Converged, Always;
    RanSteps(os, ConvergeDrive(os, d).1, Converging);
    Quarantine.ConvergePath(os, d);
  }

  lemma CourseUnbroken(pl: Plan, s: State)
    requires Course(pl, s)
    ensures Unbroken(s)
  {
    hide Suits, Want, Held, Spots, AllFull, Planned, Ids0, Final;
    forall d | d in s.drives ensures !d.broken {
      var j :| 0 <= j < |s.drives| && s.drives[j] == d;
      assert Working(s.drives[j], pl.disks[j], pl.cfg.keys);
    }
  }

  lemma CourseAt(pl: Plan, s: State, i: nat)
    requires Course(pl, s) && i < |pl.disks|
    ensures At(s.os.k, pl.disks[i].disk, Spots(pl, s.phase, |s.drives|)[i])
  {
    hide At, Spot;
  }

  lemma OthersInFleet(os: Os, drives: seq<Drive>, i: nat, d': Drive)
    requires Members(os, drives) && i < |drives| && (forall d :: d in drives ==> !d.broken)
    ensures forall e :: e in drives[i := d'] ==> e == d' || (e in drives && DiskOf(e) != DiskOf(drives[i]) && !e.broken)
  {
    hide Members;
    forall e | e in drives[i := d'] ensures e == d' || (e in drives && DiskOf(e) != DiskOf(drives[i]) && !e.broken) {
      var j :| 0 <= j < |drives| && drives[i := d'][j] == e;
      if j != i {
        AssignSteps.OtherThan(os, drives, i, j);
      }
    }
  }

  /** What such a step leaves, but for the drives' preparations. */
  ghost predicate Onwards(pl: Plan, os: Os, os': Os, after: seq<Drive>) {
    && NoFailures(os'.fate) && Startable(pl, os'.k) && CacheNeat(pl, os') && Rescan.AllAsRecorded(os', after)
    && (forall d :: d in after ==> !d.broken) && Always(os, os', StartableFor(pl))
  }

  /** A known drive of the fleet converges, in either round. */
  lemma FailureFreeKnown(pl: Plan, s: State, i: nat)
    requires Course(pl, s) && FailureFree(pl, s) && Named(pl) && Fleet(s.os, s.drives, []) && i < |s.drives|
    requires Homed(s.drives[i]) || Entitled(s.os.k, s.drives[i])
    ensures s.drives[i].device.Some?
    ensures var (d', os') := ConvergeDrive(s.os, s.drives[i]);
      Onwards(pl, s.os, os', s.drives[i := d'])
  {
    var d := s.drives[i];
    FleetGlobal(s.os, s.drives, i);
    MemberIsCandidate(s.os, d);
    CourseUnbroken(pl, s);
    CourseWorking(pl, s, i);
    CourseAt(pl, s, i);
    assert d in s.drives;
    var cur := Spots(pl, s.phase, |s.drives|)[i];
    hide ConvergeDrive, Course, Working, Held, Planned, SamePlaces, SameFate, Staked, Prepared, Rescan.AsRecorded, Spots, Global, Member, Candidate, Homed, Entitled, Startable, CacheNeat, NoFailures, Members, Expected, Foreign, Done, Promising, Always;
    KnownPromising(pl, s.os, d, i, cur);
    FailureFreeConverge(pl, s.os, d, i, cur);
    var (d', os') := ConvergeDrive(s.os, d);
    AlwaysEnds(pl, s.os, os');
    GlobalParts(s.os);
    GlobalParts(os');
    OthersInFleet(s.os, s.drives, i, d');
    RecordedAfter(s.os, os', s.drives, d, d', s.drives[i := d']);
  }

  lemma ReadyAdded(s: State)
    requires Inv(s) && s.phase.Handling? && s.phase.events != [] && s.phase.events[0].Added?
    ensures var e := s.phase.events[0];
      && Global(s.os) && Members(s.os, s.drives) && Ready(s.os, e.path, e.driveId)
      && forall d :: d in s.drives ==> d.path != e.path
  {
    var e := s.phase.events[0];
    assert e in s.phase.events && PendingOk(s.os, s.drives, e);
    hide Global, Members, Ready, EventsApart, Expected;
  }

  lemma OthersJoin(os: Os, drives: seq<Drive>, n: string, d': Drive)
    requires Members(os, drives) && (forall d :: d in drives ==> !d.broken && d.path != Disk(n))
    ensures forall e :: e in drives + [d'] ==> e == d' || (e in drives && DiskOf(e) != n && !e.broken)
  {
    hide Distinct, Accounted, Reserved;
    forall e | e in drives + [d'] && e != d' ensures e in drives && DiskOf(e) != n {
      assert e in drives && Member(os, e);
    }
  }

  /** A disk of a startable system gets its drive object, and the drive works. */
  lemma FailureFreeNewcomer(pl: Plan, os: Os, drives: seq<Drive>, h: nat, cur: Option<Path>)
    requires Planned(pl) && Named(pl) && h < |pl.disks| && At(os.k, pl.disks[h].disk, cur)
    requires NoFailures(os.fate) && Startable(pl, os.k) && CacheNeat(pl, os) && Rescan.AllAsRecorded(os, drives)
    requires Global(os) && Members(os, drives) && Ready(os, Disk(pl.disks[h].disk), pl.disks[h].driveId)
    requires forall d :: d in drives ==> !d.broken && d.path != Disk(pl.disks[h].disk)
    ensures var t := pl.disks[h];
      var (d, os1) := NewDrive(os, Disk(t.disk), t.driveId, pl.cfg.keys);
      d.device.Some? && var (d', os2) := ConvergeDrive(os1, d);
      Onwards(pl, os, os2, drives + [d'])
  {
    var t := pl.disks[h];
    NewDriveShape(os, Disk(t.disk), t.driveId, pl.cfg.keys) by { Rescan.GlobalReliable(os); TidyThere(pl, os.k, h); }
    NewDriveSuits(os, t, pl.cfg.keys);
    hide NewDrive, ConvergeDrive, Planned, Rescan.AsRecorded, Global, Member, Startable, CacheNeat, NoFailures, Members, Foreign, Done, Promising, Always, Ready, At, Suits, Candidate;
    NewPromising(pl, os, h, cur);
    var (d, os1) := NewDrive(os, Disk(t.disk), t.driveId, pl.cfg.keys);
    UnmovedCandidate(os, os1, d);
    UnmovedGlobal(os, os1, t.driveId);
    UnclaimedHomed(d);
    LogNeat(pl, os, os1);
    GlancingAlways(os, os1, StartableFor(pl));
    RecordedAllLog(os, os1, drives);
    PromisingUnbroken(os1, d, cur);
    FailureFreeConverge(pl, os1, d, h, cur);
    var (d', os2) := ConvergeDrive(os1, d);
    AlwaysEnds(pl, os1, os2);
    RanSteps(os, os1, Glancing);
    AlwaysTransitive(os, os1, os2, StartableFor(pl));
    GlobalParts(os1);
    GlobalParts(os2);
    OthersJoin(os, drives, t.disk, d');
    RecordedAfter(os1, os2, drives, d, d', drives + [d']);
  }

  lemma FailureFreeAdded(pl: Plan, s: State)
    requires Course(pl, s) && FailureFree(pl, s) && Named(pl) && Inv(s) && s.phase.Handling? && s.phase.events != [] && s.phase.events[0].Added?
    ensures Step(s, pl.cfg).Some? && Onwards(pl, s.os, Step(s, pl.cfg).value.os, Step(s, pl.cfg).value.drives)
  {
    var h := |s.drives|;
    assert Planned(pl) && Onward(pl, s.phase, h);
    assert Step(s, pl.cfg).Some? by { StepKeeps(s, pl.cfg); }
    CourseUnbroken(pl, s);
    hide Course, Step, Planned, Onward, Spots, Global, Members, Ready, At, Startable, CacheNeat, NoFailures, Rescan.AllAsRecorded, AllPrepared, Onwards;
    ArrivalNext(pl, s.phase.events, h);
    ReadyAdded(s);
    hide Inv;
    CourseAt(pl, s, h);
    AddedIs(s, pl.cfg);
    FailureFreeNewcomer(pl, s.os, s.drives, h, Spots(pl, s.phase, h)[h]);
  }

  lemma PromisingUnbroken(os: Os, d: Drive, cur: Option<Path>)
    requires Promising(os, d, cur)
    ensures !d.broken && d.device.Some?
  {
  }

  lemma TidyThere(pl: Plan, k: Kernel, i: nat)
    requires Startable(pl, k) && i < |pl.disks|
    ensures pl.disks[i].disk in k.disks
  {
    assert Tidy(k, pl.disks[i], pl.cfg.keys);
  }

  // ---- the round of assignments ----

  /** The same caches, and the same mappings. */
  ghost predicate SameView(os: Os, os': Os) {
    os'.host == os.host && os'.local == os.local && os'.k.slots == os.k.slots
  }

  lemma RunView(os: Os, cmd: Cmd)
    requires cmd.ReadId? || cmd.WriteId?
    ensures SameView(os, Run(os, cmd).0)
  {
    hide VisibleAt, TopAt;
  }

  lemma {:induction false} ReadAllView(os: Os, drives: seq<Drive>)
    ensures SameView(os, Assignments.ReadAll(os, drives).1)
    decreases |drives|
  {
    hide Run;
    if drives != [] {
      var path := DriveMountedPath(drives[0]);
      if path.Some? {
        RunView(os, ReadId(path.value));
      }
      ReadAllView(Assignments.ReadOne(os, drives[0]).1, drives[1..]);
    }
  }

  lemma {:induction false} AllocateView(os: Os, drives: seq<Drive>, pool: seq<string>, taken: set<string>)
    ensures SameView(os, Assignments.Allocate(os, drives, pool, taken).1)
    decreases |drives|
  {
    hide Run, Assignments.FirstUnused, Assignments.OnDisk, MountPath;
    if drives != [] {
      RunView(os, WriteId(MountPath(drives[0]), Assignments.OnDisk(Assignments.FirstUnused(pool, taken))));
      var (d, os1, taken1) := Assignments.AllocateOne(os, drives[0], pool, taken);
      AllocateView(os1, drives[1..], pool, taken1);
    }
  }

  lemma UpdateView(os: Os, drives: seq<Drive>, pool: seq<string>)
    ensures SameView(os, Assignments.UpdateAssignments(os, drives, pool).1)
  {
    ReadAllView(os, drives);
    hide Assignments.ReadAll, Assignments.Judged, Assignments.Allocate, Assignments.AnyMisplaced, Assignments.Taken;
    var (readings, os1) := Assignments.ReadAll(os, drives);
    AllocateView(os1, Assignments.Judged(readings, drives, pool), pool, Assignments.Taken(readings));
  }

  /** The drives and the fleet that a round of assignments begins with. */
  lemma RoundBegins(pl: Plan, s: State)
    requires Course(pl, s) && Inv(s) && s.phase.Assigning?
    ensures Fleet(s.os, s.drives, []) && (forall d :: d in s.drives ==> Done(s.os, d) && Homed(d) && !d.broken)
  {
    AllDone(s.os, s.drives);
    CourseUnbroken(pl, s);
    hide Course, Fleet, Done, Homed;
  }

  lemma StillWorking(drives: seq<Drive>, drives': seq<Drive>)
    requires |drives'| == |drives| && (forall d :: d in drives ==> !d.broken) && forall i :: 0 <= i < |drives| ==> drives'[i].broken == drives[i].broken
    ensures forall d :: d in drives' ==> !d.broken
  {
    forall d | d in drives' ensures !d.broken {
      var j :| 0 <= j < |drives'| && drives'[j] == d;
      assert drives[j] in drives;
    }
  }

  lemma FailureFreeAssigning(pl: Plan, s: State)
    requires Course(pl, s) && FailureFree(pl, s) && Inv(s) && s.phase.Assigning?
    ensures Step(s, pl.cfg).Some? && Onwards(pl, s.os, Step(s, pl.cfg).value.os, Step(s, pl.cfg).value.drives)
  {
    RoundBegins(pl, s);
    UpdateRan(s.os, s.drives, pl.cfg.pool);
    AssigningIs(s, pl.cfg);
    hide Course, Inv, Step, Rescan.AsRecorded, Global, Startable, CacheNeat, NoFailures, Done, Homed, Always, AllPrepared, Fleet, Assignments.UpdateAssignments, Rescan.AllBranded, Ran;
    RoundStartable(pl, s.os, s.drives, pl.cfg.pool);
    UpdateView(s.os, s.drives, pl.cfg.pool);
    Rescan.RoundBrands(s.os, s.drives, pl.cfg.pool);
    var (drives', os') := Assignments.UpdateAssignments(s.os, s.drives, pl.cfg.pool);
    RanSteps(s.os, os', Commands.Assigning);
    AlwaysEnds(pl, s.os, os');
    LogNeat(pl, s.os, os');
    Quarantine.UpdateKeepsBroken(s.os, s.drives, pl.cfg.pool);
    StillWorking(s.drives, drives');
  }

  // ---- all steps ----

  lemma OnwardsSelf(pl: Plan, s: State)
    requires Course(pl, s) && FailureFree(pl, s)
    ensures Onwards(pl, s.os, s.os, s.drives)
  {
    CourseUnbroken(pl, s);
    hide Course, Startable, CacheNeat, NoFailures, AllPrepared, Rescan.AllAsRecorded;
    AlwaysNothing(s.os, s.os, StartableFor(pl));
  }

  lemma FailureFreeLoop(pl: Plan, s: State)
    requires Course(pl, s) && FailureFree(pl, s) && Named(pl) && Inv(s) && (s.phase.First? || s.phase.Second?) && s.phase.i < |s.drives|
    ensures Step(s, pl.cfg).Some? && Onwards(pl, s.os, Step(s, pl.cfg).value.os, Step(s, pl.cfg).value.drives)
  {
    var i := s.phase.i;
    CourseUnbroken(pl, s);
    if s.phase.First? {
      FirstActor(s);
    } else {
      SecondActor(s);
    }
    assert s.drives[i] in s.drives;
    hide Course, FailureFree, Inv, Step, Fleet, Homed, Entitled, ConvergeDrive, Onwards;
    FailureFreeKnown(pl, s, i);
    if s.phase.First? {
      FirstIs(s, pl.cfg);
    } else {
      SecondIs(s, pl.cfg);
    }
  }

  /** A change of phase alone, or a wakeup. */
  lemma FailureFreeTurn(pl: Plan, s: State)
    requires Course(pl, s) && FailureFree(pl, s) && !s.phase.Idle? && !s.phase.Assigning?
    requires s.phase.Handling? && s.phase.events != [] ==> !s.phase.events[0].Added?
    requires s.phase.First? || s.phase.Second? ==> s.phase.i >= |s.drives|
    ensures Step(s, pl.cfg).Some? && Onwards(pl, s.os, Step(s, pl.cfg).value.os, Step(s, pl.cfg).value.drives)
  {
    OnwardsSelf(pl, s);
    CourseOnward(pl, s);
    hide Course, FailureFree, Onwards, Onward, Assignments.UpdateAssignments;
    if s.phase.Handling? && s.phase.events != [] {
      ArrivalNext(pl, s.phase.events, |s.drives|);
      assert Handle(s.os, s.drives, s.phase.events[0], pl.cfg) == Some((s.os, s.drives));
    }
    hide Handle, ConvergeDrive;
  }

  lemma FailureFreeOnwards(pl: Plan, s: State)
    requires Course(pl, s) && FailureFree(pl, s) && Named(pl) && Inv(s) && !s.phase.Idle?
    ensures Step(s, pl.cfg).Some? && Onwards(pl, s.os, Step(s, pl.cfg).value.os, Step(s, pl.cfg).value.drives)
  {
    hide Course, FailureFree, Named, Inv, Step, Onwards;
    if s.phase.Handling? && s.phase.events != [] && s.phase.events[0].Added? {
      FailureFreeAdded(pl, s);
    } else if s.phase.Assigning? {
      FailureFreeAssigning(pl, s);
    } else if (s.phase.First? || s.phase.Second?) && s.phase.i < |s.drives| {
      FailureFreeLoop(pl, s);
    } else {
      FailureFreeTurn(pl, s);
    }
  }

  /** Every step of an iteration on a startable system, without failures: no drive breaks, and at every
    moment the system is startable. */
  lemma FailureFreeStep(pl: Plan, s: State)
    requires Course(pl, s) && FailureFree(pl, s) && Named(pl) && Inv(s) && !s.phase.Idle?
    ensures Step(s, pl.cfg).Some? && Smoothly(pl, s, Step(s, pl.cfg).value)
  {
    FailureFreeOnwards(pl, s);
    assert AllPrepared(s.drives);
    hide Course, FailureFree, Named, Inv, Step, Onwards, AllPrepared, Smoothly;
    StepPrepares(s, pl.cfg);
    OnwardsSmoothly(pl, s, Step(s, pl.cfg).value);
  }

  lemma CourseOnward(pl: Plan, s: State)
    requires Course(pl, s)
    ensures Onward(pl, s.phase, |s.drives|)
  {
  }

  lemma OnwardsSmoothly(pl: Plan, s: State, t: State)
    requires Onwards(pl, s.os, t.os, t.drives) && AllPrepared(t.drives)
    ensures Smoothly(pl, s, t)
  {
    hide Startable, CacheNeat, NoFailures, AllPrepared, Rescan.AllAsRecorded, Always;
  }

  // ---- the whole iteration ----

  /** An iteration may begin here: every disk can be opened and has its places free, no drive is broken, every
    known drive is where it was left, the caches are fresh, and no command will fail. */
  ghost predicate FitToStart(cfg: Config, s: State, ats: seq<Option<Path>>) {
    && Entered(cfg, s) && OnDisks(s) && Unbroken(s) && Rescan.AllAsRecorded(s.os, s.drives) && s.os == Refresh(s.os)
    && NoFailures(s.os.fate) && Legible(PlanOf(cfg, s, ats)) && Startable(PlanOf(cfg, s, ats), s.os.k)
  }

  lemma QuietFate(fate: (nat, Cmd) -> bool)
    requires NoFailures(fate)
    ensures Reliable(fate) && WritesWork(fate)
  {
  }

  lemma RefreshedNeat(pl: Plan, os: Os)
    requires Startable(pl, os.k) && os == Refresh(os)
    ensures CacheNeat(pl, os)
  {
    hide Openable, Reserved, IdKept, OpenMappings;
    assert os.host == os.k.local == os.local;
    forall m, j | (m in os.host || m in os.local) && 0 <= j < |pl.disks| && On(os.k, m.dev, pl.disks[j].disk) ensures !m.ro {
      assert Tidy(os.k, pl.disks[j], pl.cfg.keys);
      assert From(os.k, m, pl.disks[j].disk);
    }
  }

  lemma FitParts(cfg: Config, s: State, ats: seq<Option<Path>>)
    requires FitToStart(cfg, s, ats)
    ensures var pl := PlanOf(cfg, s, ats);
      && OnDisks(s) && Course(pl, s) && FailureFree(pl, s) && Named(pl) && pl.cfg == cfg && Inv(s)
  {
    var pl := PlanOf(cfg, s, ats);
    QuietFate(s.os.fate);
    PlanCfg(cfg, s, ats);
    EnteredParts(cfg, s);
    EnteredFound(cfg, s, ats);
    assert AllPrepared(s.drives);
    hide Entered, PlanOf, Legible, Startable, Rescan.AllAsRecorded, Unbroken, Refresh, NoFailures, WritesWork, Course, AllPrepared, Inv, Named, Found;
    CourseStart(cfg, s, ats);
    RefreshedNeat(pl, s.os);
  }

  lemma {:induction false} FailureFreeIteration(cfg: Config, it: seq<State>, ats: seq<Option<Path>>, i: nat)
    requires Iteration(cfg, it) && FitToStart(cfg, it[0], ats) && i < |it|
    ensures OnDisks(it[0])
    ensures var pl := PlanOf(cfg, it[0], ats); Course(pl, it[i]) && FailureFree(pl, it[i]) && Unbroken(it[i]) && Inv(it[i])
    decreases i
  {
    FitParts(cfg, it[0], ats);
    hide Course, FailureFree, Step, FitToStart, PlanOf, Named, Inv;
    if i == 0 {
      CourseUnbroken(PlanOf(cfg, it[0], ats), it[0]);
    } else {
      FailureFreeIteration(cfg, it, ats, i - 1);
      assert !it[i - 1].phase.Idle? && Step(it[i - 1], cfg) == Some(it[i - 1 + 1]);
      var pl := PlanOf(cfg, it[0], ats);
      FailureFreeStep(pl, it[i - 1]);
      StepKeeps(it[i - 1], cfg);
      hide Unbroken;
      CourseStep(pl, it[i - 1]);
    }
  }

  /** Without failures and outside separate mode, an iteration in which disks may join leaves no drive broken, if
    every disk can be opened, has its places free, and is not flagged as broken. */
  lemma NoneBreaks(cfg: Config, it: seq<State>, ats: seq<Option<Path>>)
    requires Iteration(cfg, it) && FitToStart(cfg, it[0], ats)
    ensures forall i :: 0 <= i < |it| ==> Unbroken(it[i])
  {
    hide FitToStart, Unbroken, Iteration;
    forall i | 0 <= i < |it| ensures Unbroken(it[i]) {
      FailureFreeIteration(cfg, it, ats, i);
    }
  }

  /** Every moment of the iteration is one to start again from. */
  lemma StartableMoment(cfg: Config, it: seq<State>, ats: seq<Option<Path>>, i: nat, j: nat)
    requires Iteration(cfg, it) && FitToStart(cfg, it[0], ats) && IsMoment(it, i, j)
    ensures OnDisks(it[0]) && Startable(PlanOf(cfg, it[0], ats), Moment(it, i, j))
  {
    FailureFreeIteration(cfg, it, ats, i);
    FitParts(cfg, it[0], ats);
    var pl := PlanOf(cfg, it[0], ats);
    hide Course, FailureFree, Step, FitToStart, PlanOf, Inv, Startable, Unbroken, Throughout, Trace, Named;
    FailureFreeStep(pl, it[i]);
    AtEveryMoment(it[i].os.k, Since(it[i].os, it[i + 1].os), it[i + 1].os.k, j, StartableFor(pl));
  }

  lemma FitGood(cfg: Config, it: seq<State>, ats: seq<Option<Path>>)
    requires Iteration(cfg, it) && FitToStart(cfg, it[0], ats) && it[|it| - 1].phase.Idle?
    ensures Good(cfg, it) && OnDisks(it[0]) && Legible(PlanOf(cfg, it[0], ats))
  {
    QuietFate(it[0].os.fate);
    FailureFreeIteration(cfg, it, ats, |it| - 1);
    hide Course, FailureFree, Entered, Legible, Unbroken, WritesWork, Iteration, Startable, Rescan.AllAsRecorded, NoFailures, Refresh;
  }

  lemma StartableSame(pl: Plan, pl': Plan, k: Kernel)
    requires pl'.disks == pl.disks && pl'.cfg == pl.cfg && Startable(pl, k)
    ensures Startable(pl', k)
  {
    hide Tidy;
  }

  lemma RestartedRefreshed(p: Kernel, fate: (nat, Cmd) -> bool, disks: seq<NamedDisk>)
    ensures var s := Restarted(p, fate, disks);
      s.os == Refresh(s.os) && s.drives == [] && s.os.k == p && s.os.fate == fate
  {
    hide OpenMappings;
  }

  lemma RestartedFits(cfg: Config, pl: Plan, p: Kernel, fate: (nat, Cmd) -> bool, ats: seq<Option<Path>>)
    requires Planned(pl) && Named(pl) && pl.cfg == cfg && Startable(pl, p) && Orderly(p) && NoFailures(fate)
    requires Legible(Plan(p, pl.disks, cfg, ats, 0))
    ensures Tame(Boot(p, fate), p, Arrivals(pl.disks)) && FitToStart(cfg, Restarted(p, fate, pl.disks), ats)
  {
    QuietFate(fate);
    assert WfK(p) by { ProperWf(p); }
    hide Planned, Named, Orderly, Legible, Tame, Entered, Restarted, PlanOf, Startable, WritesWork, NoFailures, WfK, Refresh;
    StartableTame(pl, p, fate);
    RestartedEntered(cfg, p, fate, pl.disks);
    RestartedPlan(cfg, p, fate, pl.disks, ats);
    RestartedRefreshed(p, fate, pl.disks);
    StartableSame(pl, Plan(p, pl.disks, cfg, ats, 0), p);
  }

  lemma ProperWf(k: Kernel)
    requires Orderly(k)
    ensures WfK(k)
  {
  }

  /** Crash recovery: outside separate mode and without failures, an iteration in which disks may join is stopped
    between any two commands, and a new process is started that finds the same disks, in the same order. It ends
    with the same disk contents, swift-ids, assignments and mounts as the iteration would have, in both namespaces
    the same devices at the same paths. */
  lemma StopAndGo(cfg: Config, it: seq<State>, ats: seq<Option<Path>>, i: nat, j: nat, fate: (nat, Cmd) -> bool, later: seq<State>)
    requires Iteration(cfg, it) && FitToStart(cfg, it[0], ats) && it[|it| - 1].phase.Idle? && IsMoment(it, i, j) && NoFailures(fate)
    requires Iteration(cfg, later) && later[|later| - 1].phase.Idle?
    requires OnDisks(it[0]) && later[0] == Restarted(Moment(it, i, j), fate, PlanOf(cfg, it[0], ats).disks)
    ensures var s, t := it[|it| - 1], later[|later| - 1];
      && |s.drives| == |t.drives| == |PlanOf(cfg, it[0], ats).disks| && (forall n :: 0 <= n < |s.drives| ==> Alike(s, t, n))
      && SameMountPairs(s.os.k, t.os.k)
  {
    var pl, p := PlanOf(cfg, it[0], ats), Moment(it, i, j);
    FitParts(cfg, it[0], ats);
    FitGood(cfg, it, ats);
    EnteredFound(cfg, it[0], ats);
    StartableMoment(cfg, it, ats, i, j);
    RecoverableMoment(cfg, it, ats, i, j);
    ProperMoment(cfg, it, i, j);
    QuietFate(fate);
    hide Found, Recoverable, Startable, Orderly, NoFailures, Moment, Alike, SameMountPairs, Reliable, WritesWork, Final, Want, Ids0, PlaceAt, Shapes, FitToStart, Legible, Named, Entered, Iteration, PlanOf, Restarted, Course, FailureFree, Inv, Tame;
    var pl' := SecondPlan(pl, p);
    FoundLength(pl);
    FoundLegible(pl');
    RestartedFits(cfg, pl, p, fate, pl'.ats);
    FitGood(cfg, later, pl'.ats);
    RestartEndsSame(cfg, it, ats, i, j, fate, later);
  }

  /** In a tame run, an idle state with no broken drive leads to iterations as above, as long as every known drive
    is still mounted where it was left. */
  lemma RunFits(cfg: Config, run: seq<State>, a: nat, ats: seq<Option<Path>>)
    requires IsRun(Tame, cfg, run) && Init(run[0]) && 0 < a < |run| && run[a - 1].phase.Idle?
    requires run[a].phase.Handling? && Joining(run[a].phase.events) && Unbroken(run[a]) && Rescan.AllAsRecorded(run[a].os, run[a].drives)
    requires NoFailures(run[a].os.fate) && OnDisks(run[a])
    requires Legible(PlanOf(cfg, run[a], ats)) && Startable(PlanOf(cfg, run[a], ats), run[a].os.k)
    ensures FitToStart(cfg, run[a], ats)
  {
    RunEnters(cfg, run, a);
    RunNext(cfg, run, a);
    hide IsRun, Init, Tame, Joining, Unbroken, Rescan.AllAsRecorded, NoFailures, Legible, Startable, Entered, PlanOf, OpenMappings;
    var k, events :| Tame(run[a - 1], k, events) && run[a] == Begin(run[a - 1], k, events);
  }
}
