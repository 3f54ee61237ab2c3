/** Crashes: at every moment of every run the kernel is such that a new process can take over, and whatever
  that process finds, it keeps mounts exclusive and reaches the goal state. */
module Crashes {
  import opened Names
  import opened Tables
  import opened Kernels
  import opened KernelFacts
  import opened Machine
  import opened MountCache
  import opened Devices
  import opened Drives
  import opened Commands
  import opened Chains
  import opened DriveFacts
  import opened Convergence
  import opened Fleets
  import opened Convergers
  import opened Exclusivity
  import opened Handlers
  import opened AssignSteps
  import opened Safety
  import opened Runs
  import opened Moments
  import Assignments

  // ---- events ----

  lemma NewcomerMoments(os: Os, path: DevPath, driveId: string, keys: seq<string>)
    requires Global(os) && Ready(os, path, driveId)
    ensures var (d, os1) := NewDrive(os, path, driveId, keys);
      d.device.Some? && Always(os, ConvergeDrive(os1, d).1, Orderly)
  {
    NewDriveShape(os, path, driveId, keys);
    NewDriveRan(os, path, driveId, keys);
    GlobalProper(os);
    hide NewDrive, ConvergeDrive, Global, ChainOk, Candidate, Ready, Reliable, Orderly, Always, Ran;
    var (d, os1) := NewDrive(os, path, driveId, keys);
    UnmovedCandidate(os, os1, d);
    UnmovedGlobal(os, os1, driveId);
    UnclaimedHomed(d);
    ConvergeMoments(os1, d);
    ConvergeRan(os1, d);
    HarmlessAlways(os, os1, Looking);
    RanSteps(os, os1, Looking);
    RanSteps(os1, ConvergeDrive(os1, d).1, Converging);
    AlwaysTransitive(os, os1, ConvergeDrive(os1, d).1, Orderly);
  }

  lemma HandleMoments(os: Os, drives: seq<Drive>, events: seq<Event>, cfg: Config)
    requires events != [] && Fleet(os, drives, events) && Handle(os, drives, events[0], cfg).Some?
    ensures Always(os, Handle(os, drives, events[0], cfg).value.0, Orderly)
  {
    var e := events[0];
    assert e in events && PendingOk(os, drives, e);
    GlobalProper(os);
    AlwaysNothing(os, os, Orderly);
    hide NewDrive, ConvergeDrive, TeardownDrive, MarkAsBroken, Global, Ready, Orderly, Always, Members, Expected, Ran;
    match e
    case Added(path, driveId) =>
      NewcomerMoments(os, path, driveId, cfg.keys);
    case Reinstated(path) =>
      var i := IndexOf(drives, path);
      if i < |drives| {
        assert drives[i] in drives;
        NewcomerMoments(os, path, drives[i].driveId, drives[i].keys);
      }
    case Removed(path) =>
      var last := LastAt(drives, path);
      if last.Some? {
        TeardownDriveRan(os, last.value);
        HarmlessAlways(os, TeardownDrive(os, last.value).1, Tearing);
      }
    case Errored(path) =>
      var i := IndexOf(drives, path);
      if i < |drives| {
        MarkRan(os, drives[i], Harmless);
        HarmlessAlways(os, MarkAsBroken(os, drives[i]).1, Harmless);
      }
    case Wakeup =>
  }

  // ---- assignments ----

  predicate ReadingIds(c: Cmd) {
    c.ReadId?
  }

  lemma {:induction false} ReadAllReads(os: Os, drives: seq<Drive>)
    ensures Ran(os, Assignments.ReadAll(os, drives).1, ReadingIds)
    decreases |drives|
  {
    hide Run, Ran;
    RanNothing(os, os, ReadingIds);
    if drives != [] {
      var path := DriveMountedPath(drives[0]);
      if path.Some? {
        RanOne(os, ReadId(path.value), ReadingIds);
      }
      var (_, os1) := Assignments.ReadOne(os, drives[0]);
      ReadAllReads(os1, drives[1..]);
      RanTransitive(os, os1, Assignments.ReadAll(os1, drives[1..]).1, ReadingIds);
    }
  }

  /** At most one command: proper before and after is proper always. */
  lemma OneCommand(os: Os, cmd: Cmd)
    requires Safe(os.k, cmd) && Orderly(os.k) && Orderly(Run(os, cmd).0.k)
    ensures Always(os, Run(os, cmd).0, Orderly)
  {
    hide Orderly;
    RunSteps(os, cmd);
    var (os', ok) := Run(os, cmd);
    var e := Entry(cmd, ok);
    assert Since(os, os') == [e] && [e][1..] == [];
    assert Throughout(After(os.k, e), [], Orderly);
  }

  lemma AllocatingProper(os: Os, drives: seq<Drive>, taken: set<string>)
    requires Allocating(os, drives, taken)
    ensures Orderly(os.k)
  {
    GlobalProper(os);
  }

  lemma AllocateOneMoments(os: Os, drives: seq<Drive>, taken: set<string>, i: nat, pool: seq<string>)
    requires Allocating(os, drives, taken) && i < |drives|
    ensures Always(os, Assignments.AllocateOne(os, drives[i], pool, taken).1, Orderly)
    ensures Steps(os, Assignments.AllocateOne(os, drives[i], pool, taken).1)
  {
    AllocateAt(os, drives, taken, i, pool);
    AllocatingProper(os, drives, taken);
    hide Allocating, Orderly, Run, Assignments.FirstUnused, MountPath, Always, Steps, Assignments.OnDisk;
    var (d, os', taken') := Assignments.AllocateOne(os, drives[i], pool, taken);
    AllocatingProper(os', drives[i := d], taken');
    AlwaysNothing(os, os, Orderly);
    StepsReflexive(os, os);
    var cmd := WriteId(MountPath(drives[i]), Assignments.OnDisk(Assignments.FirstUnused(pool, taken)));
    RunSteps(os, cmd);
    if os' == Run(os, cmd).0 {
      OneCommand(os, cmd);
    }
  }

  lemma {:induction false} AllocateMoments(os: Os, drives: seq<Drive>, i: nat, pool: seq<string>, taken: set<string>)
    requires Allocating(os, drives, taken) && i <= |drives|
    ensures var os' := Assignments.Allocate(os, drives[i..], pool, taken).1;
      Always(os, os', Orderly) && Steps(os, os')
    decreases |drives| - i
  {
    hide Assignments.AllocateOne, Allocating, Orderly, Always, Steps;
    if i == |drives| {
      assert drives[i..] == [];
      AllocatingProper(os, drives, taken);
      AlwaysNothing(os, os, Orderly);
      StepsReflexive(os, os);
    } else {
      AllocateAt(os, drives, taken, i, pool);
      AllocateOneMoments(os, drives, taken, i, pool);
      var (d, os1, taken1) := Assignments.AllocateOne(os, drives[i], pool, taken);
      var ds := drives[i := d];
      AllocateMoments(os1, ds, i + 1, pool, taken1);
      assert drives[i..][0] == drives[i] && drives[i..][1..] == ds[i + 1..];
      var os2 := Assignments.Allocate(os1, ds[i + 1..], pool, taken1).1;
      assert Assignments.Allocate(os, drives[i..], pool, taken).1 == os2;
      AlwaysTransitive(os, os1, os2, Orderly);
      StepsTransitive(os, os1, os2);
    }
  }

  lemma AssigningMoments(os: Os, drives: seq<Drive>, pool: seq<string>)
    requires Fleet(os, drives, []) && forall d :: d in drives ==> Done(os, d)
    ensures Always(os, Assignments.UpdateAssignments(os, drives, pool).1, Orderly)
  {
    ReadAllOk(os, drives);
    ReadAllReads(os, drives);
    GlobalProper(os);
    hide Assignments.ReadAll, Assignments.Judged, Assignments.Allocate, Global, Members, Member, Done, Expected, Assignments.Taken, ReadingOk, Assignments.AnyMisplaced, Orderly, Always, Ran;
    var (readings, os1) := Assignments.ReadAll(os, drives);
    HarmlessAlways(os, os1, ReadingIds);
    LogGlobal(os, os1);
    LogFleet(os, os1, drives);
    var judged := Assignments.Judged(readings, drives, pool);
    if !(Assignments.AnyBroken(drives) || Assignments.AnyMisplaced(readings, drives) || pool == []) {
      var taken := Assignments.Taken(readings);
      JudgedWaiting(os1, drives, readings, pool);
      ReadTaken(os1.k, drives, readings);
      JudgedTaken(os1.k, drives, readings, pool, taken);
      JudgedMembers(os1, drives, readings, pool);
      hide Waiting, AllTaken;
      assert Allocating(os1, judged, taken);
      AllocateMoments(os1, judged, 0, pool, taken);
      assert judged[0..] == judged;
      RanSteps(os, os1, ReadingIds);
      AlwaysTransitive(os, os1, Assignments.Allocate(os1, judged, pool, taken).1, Orderly);
    }
  }

  // ---- steps ----

  lemma DriveMoments(os: Os, drives: seq<Drive>, i: nat)
    requires Fleet(os, drives, []) && i < |drives| && (Homed(drives[i]) || Entitled(os.k, drives[i]))
    ensures drives[i].device.Some? && Always(os, ConvergeDrive(os, drives[i]).1, Orderly)
  {
    assert drives[i] in drives && Member(os, drives[i]);
    MemberIsCandidate(os, drives[i]);
    hide ConvergeDrive, Global, Member, Homed, Entitled, Expected, Always, Orderly;
    ConvergeMoments(os, drives[i]);
  }

  /** Within every step of the converger the kernel is proper at every moment. */
  lemma StepMoments(s: State, cfg: Config)
    requires Inv(s) && !s.phase.Idle? && Step(s, cfg).Some?
    ensures Always(s.os, Step(s, cfg).value.os, Orderly)
  {
    hide Handle, ConvergeDrive, Fleet, Done, Homed, Entitled, Always, Orderly, Assignments.UpdateAssignments;
    FleetProper(s);
    AlwaysNothing(s.os, s.os, Orderly);
    match s.phase
    case Handling(events) =>
      if events != [] {
        HandleMoments(s.os, s.drives, events, cfg);
      }
    case First(i) =>
      if i < |s.drives| {
        assert s.drives[i] in s.drives;
        DriveMoments(s.os, s.drives, i);
      }
    case Second(i) =>
      if i < |s.drives| && !s.drives[i].broken {
        DriveMoments(s.os, s.drives, i);
      }
    case Assigning =>
      AllDone(s.os, s.drives);
      AssigningMoments(s.os, s.drives, cfg.pool);
  }

  lemma FleetProper(s: State)
    requires Inv(s)
    ensures Orderly(s.os.k)
  {
    hide Sound, Members, LuksOk, Expected, PendingOk, Done, Homed, Entitled, WfK, CrossOwned, Labelled;
  }

  // ---- theorems ----

  lemma ProperIsSafe(k: Kernel)
    requires Orderly(k)
    ensures Exclusive(k) && RightlyPlaced(k)
  {
    hide SlotsOk, Branded, Peel;
    forall m | IsEntry(k, m) && m.path.SrvNode? ensures ContentAt(k, m.dev) == Some(Xfs(m.path.id)) {
      var loc := LocOf(k, m.dev).value;
      assert From(k, m, loc.disk);
      BrandAt(k, loc.disk, loc.depth, ContentAt(k, m.dev).value.id);
      BrandUnique(k, loc.disk, ContentAt(k, m.dev).value.id, m.path.id);
    }
  }

  /** The kernel `j` commands into the step that follows state `i` of a run. */
  ghost function Moment(run: seq<State>, i: nat, j: nat): Kernel
    requires i + 1 < |run| && Steps(run[i].os, run[i + 1].os) && j <= |Since(run[i].os, run[i + 1].os)|
  {
    KernelAt(run[i].os.k, Since(run[i].os, run[i + 1].os), run[i + 1].os.k, j)
  }

  lemma StepIsSteps(s: State, cfg: Config)
    requires Step(s, cfg).Some?
    ensures Steps(s.os, Step(s, cfg).value.os)
  {
    hide Step;
    StepRan(s, cfg);
  }

  lemma RunMoment(cfg: Config, run: seq<State>, i: nat, j: nat)
    requires IsRun(Tame, cfg, run) && Init(run[0]) && i + 1 < |run| && !run[i].phase.Idle?
    ensures Steps(run[i].os, run[i + 1].os)
    ensures j <= |Since(run[i].os, run[i + 1].os)| ==> Orderly(Moment(run, i, j))
  {
    hide IsRun, Init, Step, Inv, Orderly, Tame, Throughout, Trace;
    RunNext(cfg, run, i + 1);
    RunInvariant(cfg, run, i);
    StepIsSteps(run[i], cfg);
    StepMoments(run[i], cfg);
    var es := Since(run[i].os, run[i + 1].os);
    if j <= |es| {
      AtEveryMoment(run[i].os.k, es, run[i + 1].os.k, j, Orderly);
    }
  }

  /** Mount exclusivity at every moment: not only between the steps of an iteration, but between any two
    commands of any step, no two devices share a mount path, and each mount below `/srv/node` is of a disk
    with that swift-id. */
  lemma ExclusiveAtEveryMoment(cfg: Config, run: seq<State>, i: nat, j: nat)
    requires IsRun(Tame, cfg, run) && Init(run[0]) && i + 1 < |run| && !run[i].phase.Idle?
    requires Steps(run[i].os, run[i + 1].os) && j <= |Since(run[i].os, run[i + 1].os)|
    ensures Exclusive(Moment(run, i, j)) && RightlyPlaced(Moment(run, i, j))
  {
    hide IsRun, Init, Orderly, Exclusive, RightlyPlaced, Moment, Tame;
    RunMoment(cfg, run, i, j);
    ProperIsSafe(Moment(run, i, j));
  }

  /** A new process: it knows of no drive, and its caches are empty. */
  function Boot(k: Kernel, fate: (nat, Cmd) -> bool): State {
    State(Os(k, [], [], map[], fate, []), [], Idle)
  }

  /** Crash safety: a process that starts on what another one left behind, wherever that one was stopped,
    keeps mounts exclusive in every state it reaches, and has every drive at its goal whenever an iteration
    ends. */
  lemma RestartIsSafe(cfg: Config, run: seq<State>, i: nat, j: nat, fate: (nat, Cmd) -> bool, later: seq<State>)
    requires IsRun(Tame, cfg, run) && Init(run[0]) && i + 1 < |run| && !run[i].phase.Idle?
    requires Steps(run[i].os, run[i + 1].os) && j <= |Since(run[i].os, run[i + 1].os)|
    requires Reliable(fate) && IsRun(Tame, cfg, later) && later[0] == Boot(Moment(run, i, j), fate)
    ensures forall n :: 0 <= n < |later| ==> Exclusive(later[n].os.k) && RightlyPlaced(later[n].os.k)
    ensures forall n :: 0 < n < |later| && later[n].phase.Idle? ==>
      forall d :: d in later[n].drives ==> AtGoal(later[n].os, d)
  {
    assert |later| > 0;
    hide IsRun, Exclusive, RightlyPlaced, AtGoal, Moment, Tame, Inv;
    RunMoment(cfg, run, i, j);
    assert Init(later[0]);
    hide Init;
    MountsExclusive(cfg, later);
    forall n | 0 < n < |later| && later[n].phase.Idle? ensures forall d :: d in later[n].drives ==> AtGoal(later[n].os, d) {
      IterationReachesGoal(cfg, later, n);
    }
  }
}
