/** What an iteration leaves alone, at every moment: mappings that are open, and the mounts of all other disks. Mappings
  that it opens have the names of their drives. So the mount tables of two iterations that end with the same disk
  contents and mount paths list the same devices. */
module RecoveredTables {
  import opened Names
  import opened Tables
  import opened Kernels
  import opened KernelFacts
  import opened Machine
  import opened MountCache
  import opened Devices
  import opened Drives
  import opened Commands
  import opened Chains
  import opened DriveFacts
  import opened Convergence
  import opened Fleets
  import opened Convergers
  import opened Exclusivity
  import opened Handlers
  import opened Safety
  import opened Moments
  import opened Recovery
  import opened Restarts
  import opened IterationCourse
  import opened Stability
  import Assignments
  import Crashes
  import Quarantine
  import RoundMoments

  predicate InPlan(pl: Plan, n: string) {
    exists t :: t in pl.disks && t.disk == n
  }

  /** Since the start of `pl`, no mapping has been closed, those opened carry the names of their drives, and the mounts of
    disks that are none of the fleet are the same. */
  ghost predicate Kept(pl: Plan, p: Kernel) {
    && SlotsWithin(pl.k0, p)
    && (forall m :: m in p.slots && m !in pl.k0.slots ==> NamedDisk(p.slots[m].at.disk, m) in pl.disks)
    && (forall m, n, s :: !InPlan(pl, n) ==> In(pl.k0, m, n, s) == In(p, m, n, s))
  }

  ghost function KeptFor(pl: Plan): Kernel -> bool {
    p => Kept(pl, p)
  }

  /** The same of one disk and its drive. */
  ghost predicate KeptBy(k: Kernel, p: Kernel, t: NamedDisk) {
    SlotsBy(k, p, t) && OthersStay(k, p, t.disk)
  }

  ghost predicate SlotsBy(k: Kernel, p: Kernel, t: NamedDisk) {
    && SlotsWithin(k, p)
    && (forall m :: m in p.slots && m !in k.slots ==> m == t.driveId && p.slots[m].at.disk == t.disk)
  }

  ghost function SlotsByFor(k: Kernel, t: NamedDisk): Kernel -> bool {
    p => SlotsBy(k, p, t)
  }

  lemma KeptStart(pl: Plan)
    ensures Kept(pl, pl.k0)
  {
  }

  lemma KeptMore(pl: Plan, k: Kernel, p: Kernel, t: NamedDisk)
    requires Kept(pl, k) && KeptBy(k, p, t) && t in pl.disks
    ensures Kept(pl, p)
  {
    forall m, n, s | !InPlan(pl, n) ensures In(pl.k0, m, n, s) == In(p, m, n, s) {
      assert n != t.disk;
      assert In(k, m, n, s) == In(p, m, n, s);
    }
    hide In;
  }

  /** A process that starts over keeps what the first one has kept. */
  lemma KeptAgain(pl: Plan, pl': Plan, p: Kernel)
    requires Kept(pl, pl'.k0) && Kept(pl', p) && pl'.disks == pl.disks
    ensures Kept(pl, p)
  {
    hide In;
    forall m, n, s | !InPlan(pl, n) ensures In(pl.k0, m, n, s) == In(p, m, n, s) {
      assert !InPlan(pl', n);
      assert In(pl.k0, m, n, s) == In(pl'.k0, m, n, s) == In(p, m, n, s);
    }
  }

  // ---- one drive ----

  lemma {:induction false} SlotsThroughout(k: Kernel, p: Kernel, es: seq<Entry>, kEnd: Kernel, t: NamedDisk)
    requires Trace(p, es, kEnd) && SlotsWithin(k, p) && SlotsBy(k, kEnd, t) && forall e :: e in es ==> Building(e.cmd)
    ensures Throughout(p, es, SlotsByFor(k, t))
    decreases |es|
  {
    BuildingSlots(p, es, kEnd);
    hide Legal, After;
    if es != [] {
      assert es[0] in es;
      assert forall e :: e in es[1..] ==> e in es;
      var next := After(p, es[0]);
      SlotsAfter(p, es[0]);
      SlotsThroughout(k, next, es[1..], kEnd, t);
    }
  }

  lemma SlotsAfter(k: Kernel, e: Entry)
    requires Legal(k, e) && Building(e.cmd)
    ensures SlotsWithin(k, After(k, e))
  {
  }

  /** At every moment while a drive converges without breaking. */
  lemma ConvergeKept(pl: Plan, os: Os, d: Drive, t: NamedDisk, keys: seq<string>)
    requires Kept(pl, os.k) && t in pl.disks && Working(d, t, keys)
    requires Global(os) && Candidate(os, d) && (Homed(d) || Entitled(os.k, d)) && !ConvergeDrive(os, d).0.broken
    ensures Always(os, ConvergeDrive(os, d).1, KeptFor(pl))
  {
    assert d.path.name == t.disk && d.driveId == t.driveId;
    MemberConverges(os, d);
    WorkingIsSetup(os, d);
    SetupRan(os, d.device.value, OrderOf(d));
    hide ConvergeDrive, Setup, Global, Candidate, Homed, Entitled, Suits, Member, Done, Full, SameDisks, At, Kept, Underway, Trace, Throughout, OthersStay, Building, Placed, FlagsConfined;
    var cur := ConvergeUnderway(os, d);
    var os' := ConvergeDrive(os, d).1;
    assert SlotsBy(os.k, os'.k, t) by { ConvergedSlots(os, os', d, t); }
    SlotsThroughout(os.k, os.k, Since(os, os'), os'.k, t);
    var P, Q := UnderwayFrom(os.k, t.disk, d.keys, cur, Whither(d, cur)), SlotsByFor(os.k, t);
    forall p | P(p) && Q(p) ensures KeptFor(pl)(p) {
      UnderwayOthers(os.k, p, t.disk, d.keys, cur, Whither(d, cur));
      KeptMore(pl, os.k, p, t);
    }
    ThroughoutBoth(os.k, Since(os, os'), P, Q, KeptFor(pl));
  }

  lemma UnderwayOthers(k: Kernel, p: Kernel, n: string, keys: seq<string>, cur: Option<Path>, target: Path)
    requires Underway(k, p, n, keys, cur, target)
    ensures OthersStay(k, p, n)
  {
    hide SameDisks, PathIs, EntriesKept;
  }

  lemma ConvergedSlots(os: Os, os': Os, d: Drive, t: NamedDisk)
    requires Within(os, os', t.disk, t.driveId) && Steps(os, os') && forall e :: e in Since(os, os') ==> Building(e.cmd)
    ensures SlotsBy(os.k, os'.k, t)
  {
    hide WfK, LuksOk, Trace, Building;
    BuildingSlots(os.k, Since(os, os'), os'.k);
  }

  // ---- steps that touch neither mounts nor mappings ----

  predicate Untouching(c: Cmd) {
    Looking(c) || Commands.Assigning(c)
  }

  lemma UntouchedAfter(pl: Plan, k: Kernel, e: Entry)
    requires Legal(k, e) && Untouching(e.cmd) && Kept(pl, k)
    ensures Kept(pl, After(k, e))
  {
    var p := After(k, e);
    assert p.slots == k.slots && p.host == k.host && p.local == k.local;
    hide After, Legal;
    forall m, n, s | !InPlan(pl, n) ensures In(pl.k0, m, n, s) == In(p, m, n, s) {
      assert In(k, m, n, s) == In(p, m, n, s);
    }
  }

  lemma {:induction false} UntouchedThroughout(pl: Plan, k: Kernel, es: seq<Entry>, kEnd: Kernel)
    requires Trace(k, es, kEnd) && Kept(pl, k) && forall e :: e in es ==> Untouching(e.cmd)
    ensures Throughout(k, es, KeptFor(pl))
    decreases |es|
  {
    hide Legal, After, Kept, Untouching;
    if es != [] {
      assert es[0] in es;
      assert forall e :: e in es[1..] ==> e in es;
      UntouchedAfter(pl, k, es[0]);
      UntouchedThroughout(pl, After(k, es[0]), es[1..], kEnd);
    }
  }

  lemma UntouchedAlways(pl: Plan, os: Os, os': Os, p: Cmd -> bool)
    requires Ran(os, os', p) && (forall c :: p(c) ==> Untouching(c)) && Kept(pl, os.k)
    ensures Always(os, os', KeptFor(pl)) && Kept(pl, os'.k)
  {
    hide Kept, Untouching, Trace, Throughout;
    UntouchedThroughout(pl, os.k, Since(os, os'), os'.k);
    ThroughoutEnds(os.k, Since(os, os'), os'.k, KeptFor(pl));
  }

  // ---- all steps ----

  lemma ActorKept(pl: Plan, s: State, i: nat)
    requires Course(pl, s) && Fleet(s.os, s.drives, []) && i < |s.drives| && Kept(pl, s.os.k)
    requires Homed(s.drives[i]) || Entitled(s.os.k, s.drives[i])
    ensures s.drives[i].device.Some?
    ensures !ConvergeDrive(s.os, s.drives[i]).0.broken ==> Always(s.os, ConvergeDrive(s.os, s.drives[i]).1, KeptFor(pl))
  {
    FleetGlobal(s.os, s.drives, i);
    MemberIsCandidate(s.os, s.drives[i]);
    CourseWorking(pl, s, i);
    hide Course, Fleet, Global, Candidate, Member, Homed, Entitled, ConvergeDrive, Kept, Always, Suits, Staked, Planned, RoundMoments.SamePlaces, SameFate, Held;
    if !ConvergeDrive(s.os, s.drives[i]).0.broken {
      ConvergeKept(pl, s.os, s.drives[i], pl.disks[i], pl.cfg.keys);
    }
  }

  lemma NewcomerKept(pl: Plan, os: Os, t: NamedDisk)
    requires Kept(pl, os.k) && t in pl.disks && Global(os) && Ready(os, Disk(t.disk), t.driveId)
    ensures var (d, os1) := NewDrive(os, Disk(t.disk), t.driveId, pl.cfg.keys);
      d.device.Some? && var (d', os2) := ConvergeDrive(os1, d);
      !d'.broken ==> Always(os, os2, KeptFor(pl))
  {
    NewDriveShape(os, Disk(t.disk), t.driveId, pl.cfg.keys);
    NewDriveRan(os, Disk(t.disk), t.driveId, pl.cfg.keys);
    NewDriveSuits(os, t, pl.cfg.keys);
    hide NewDrive, ConvergeDrive, Global, ChainOk, Candidate, Ready, Reliable, Always, Ran, Suits, Kept, Untouching;
    var (d, os1) := NewDrive(os, Disk(t.disk), t.driveId, pl.cfg.keys);
    var (d', os2) := ConvergeDrive(os1, d);
    if !d'.broken {
      Quarantine.BrokenStays(os1, d);
      UnmovedCandidate(os, os1, d);
      UnmovedGlobal(os, os1, t.driveId);
      UnclaimedHomed(d);
      LookingUntouched(pl, os, os1);
      ConvergeKept(pl, os1, d, t, pl.cfg.keys);
      ConvergeRan(os1, d);
      RanSteps(os, os1, Looking);
      RanSteps(os1, os2, Converging);
      AlwaysTransitive(os, os1, os2, KeptFor(pl));
    }
  }

  lemma LookingUntouched(pl: Plan, os: Os, os': Os)
    requires Ran(os, os', Looking) && Kept(pl, os.k)
    ensures Always(os, os', KeptFor(pl)) && Kept(pl, os'.k)
  {
    hide Kept, Ran, Always;
    UntouchedAlways(pl, os, os', Looking);
  }

  lemma AddedKept(pl: Plan, s: State)
    requires Course(pl, s) && Inv(s) && s.phase.Handling? && s.phase.events != [] && s.phase.events[0].Added? && Kept(pl, s.os.k)
    requires Step(s, pl.cfg).Some? && Unbroken(Step(s, pl.cfg).value)
    ensures Always(s.os, Step(s, pl.cfg).value.os, KeptFor(pl))
  {
    var h := |s.drives|;
    ArrivalNext(pl, s.phase.events, h);
    ReadyNext(s);
    AddedIs(s, pl.cfg);
    hide Inv, Course, Onward, Step, NewDrive, ConvergeDrive, Global, Ready, Kept, Always;
    var t := pl.disks[h];
    NewcomerKept(pl, s.os, t);
    var (d, os1) := NewDrive(s.os, Disk(t.disk), t.driveId, pl.cfg.keys);
    var (d', os2) := ConvergeDrive(os1, d);
    assert d' in s.drives + [d'];
  }

  lemma LoopKept(pl: Plan, s: State)
    requires Course(pl, s) && Inv(s) && (s.phase.First? || s.phase.Second?) && s.phase.i < |s.drives| && Kept(pl, s.os.k)
    requires Step(s, pl.cfg).Some? && Unbroken(Step(s, pl.cfg).value)
    ensures Always(s.os, Step(s, pl.cfg).value.os, KeptFor(pl))
  {
    var i := s.phase.i;
    CourseWorking(pl, s, i);
    WorkingDisk(s.drives[i], pl.disks[i], pl.cfg.keys);
    if s.phase.First? {
      FirstActor(s);
    } else {
      SecondActor(s);
    }
    ActorKept(pl, s, i);
    if s.phase.First? {
      FirstIs(s, pl.cfg);
    } else {
      SecondIs(s, pl.cfg);
    }
    hide Inv, Course, Step, Fleet, ConvergeDrive, Kept, Always, Homed, Entitled, Planned, Held, Working, RoundMoments.SamePlaces, SameFate, Staked;
    var (d', os') := ConvergeDrive(s.os, s.drives[i]);
    assert s.drives[i := d'][i] in s.drives[i := d'];
  }

  lemma TurnKept(pl: Plan, s: State)
    requires Course(pl, s) && !s.phase.Idle? && !s.phase.Assigning? && Step(s, pl.cfg).Some? && Kept(pl, s.os.k)
    requires s.phase.Handling? && s.phase.events != [] ==> !s.phase.events[0].Added?
    requires s.phase.First? || s.phase.Second? ==> s.phase.i >= |s.drives|
    ensures Always(s.os, Step(s, pl.cfg).value.os, KeptFor(pl))
  {
    assert Onward(pl, s.phase, |s.drives|);
    hide Course, Kept, Onward, ConvergeDrive, Assignments.UpdateAssignments, Always;
    if s.phase.Handling? && s.phase.events != [] {
      ArrivalNext(pl, s.phase.events, |s.drives|);
    }
    assert Step(s, pl.cfg).value.os == s.os;
    AlwaysNothing(s.os, s.os, KeptFor(pl));
  }

  lemma RoundKept(pl: Plan, s: State)
    requires s.phase.Assigning? && Kept(pl, s.os.k)
    ensures Step(s, pl.cfg).Some? && Always(s.os, Step(s, pl.cfg).value.os, KeptFor(pl))
  {
    UpdateRan(s.os, s.drives, pl.cfg.pool);
    AssigningIs(s, pl.cfg);
    hide Step, Assignments.UpdateAssignments, Kept, Always, Ran;
    UntouchedAlways(pl, s.os, Assignments.UpdateAssignments(s.os, s.drives, pl.cfg.pool).1, Commands.Assigning);
  }

  /** Every step of an iteration that breaks no drive. */
  lemma StepKept(pl: Plan, s: State)
    requires Course(pl, s) && Inv(s) && !s.phase.Idle? && Step(s, pl.cfg).Some? && Unbroken(Step(s, pl.cfg).value) && Kept(pl, s.os.k)
    ensures Always(s.os, Step(s, pl.cfg).value.os, KeptFor(pl)) && Kept(pl, Step(s, pl.cfg).value.os.k)
  {
    Crashes.StepIsSteps(s, pl.cfg);
    hide Course, Inv, Step, Unbroken, Kept, Throughout, Trace;
    if s.phase.Handling? && s.phase.events != [] && s.phase.events[0].Added? {
      AddedKept(pl, s);
    } else if s.phase.Assigning? {
      RoundKept(pl, s);
    } else if (s.phase.First? || s.phase.Second?) && s.phase.i < |s.drives| {
      LoopKept(pl, s);
    } else {
      TurnKept(pl, s);
    }
    var os' := Step(s, pl.cfg).value.os;
    ThroughoutEnds(s.os.k, Since(s.os, os'), os'.k, KeptFor(pl));
  }

  // ---- equal tables ----

  lemma {:induction false} XfsDepth(c: Content, depth: nat)
    requires Peel(c, depth).Some? && Peel(c, depth).value.Xfs?
    ensures depth == Height(c)
  {
    if depth > 0 {
      XfsDepth(c.inner, depth - 1);
    }
  }

  /** What is mounted from a disk is the device behind all its containers. */
  lemma MountedDepth(k: Kernel, m: Mount, n: string)
    requires WfK(k) && From(k, m, n)
    ensures n in k.disks && LocOf(k, m.dev) == Some(Loc(n, Height(k.disks[n])))
  {
    WfMounts(k);
    hide WfK;
    XfsDepth(k.disks[n], LocOf(k, m.dev).value.depth);
  }

  lemma SameMapping(pl: Plan, p: Kernel, q: Kernel, x: string, y: string)
    requires Kept(pl, p) && Kept(pl, q) && SlotsOk(p) && SlotsOk(q)
    requires x in p.slots && y in q.slots && p.slots[x].at == q.slots[y].at
    requires forall i, j :: 0 <= i < j < |pl.disks| ==> pl.disks[i].disk != pl.disks[j].disk
    ensures x == y
  {
    hide InPlan, In, SlotOk;
    assert x in pl.k0.slots ==> q.slots[x] == p.slots[x];
    assert y in pl.k0.slots ==> p.slots[y] == q.slots[y];
    if x !in pl.k0.slots && y !in pl.k0.slots {
      assert NamedDisk(p.slots[x].at.disk, x) in pl.disks && NamedDisk(q.slots[y].at.disk, y) in pl.disks;
    }
  }

  lemma MapperDepth(k: Kernel, dev: DevPath)
    requires SlotsOk(k) && LocOf(k, dev).Some?
    ensures dev.Mapper? <==> LocOf(k, dev).value.depth > 0
  {
    assert dev.Mapper? ==> SlotOk(k, k.slots[dev.name]);
  }

  /** A place inside a disk has the same device file in both. */
  lemma SameDevice(pl: Plan, p: Kernel, q: Kernel, dev: DevPath, dev': DevPath)
    requires Kept(pl, p) && Kept(pl, q) && SlotsOk(p) && SlotsOk(q) && LocOf(p, dev).Some? && LocOf(p, dev) == LocOf(q, dev')
    requires forall i, j :: 0 <= i < j < |pl.disks| ==> pl.disks[i].disk != pl.disks[j].disk
    ensures dev == dev'
  {
    MapperDepth(p, dev);
    MapperDepth(q, dev');
    hide SlotsOk, Kept;
    if dev.Mapper? {
      SameMapping(pl, p, q, dev.name, dev'.name);
    }
  }

  /** In each namespace, the same devices are mounted at the same paths. */
  ghost predicate SameMountPairs(k: Kernel, k': Kernel) {
    && (forall dev, path :: MountedOn(k.host, dev, path) <==> MountedOn(k'.host, dev, path))
    && (forall dev, path :: MountedOn(k.local, dev, path) <==> MountedOn(k'.local, dev, path))
  }
}
