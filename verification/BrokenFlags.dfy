/** Marking drives as broken: what an error event does, which flags are left for later processes, and what a later
  process makes of them. */
module BrokenFlags {
  import opened Names
  import opened Kernels
  import opened KernelFacts
  import opened Machine
  import opened Devices
  import opened Drives
  import opened Commands
  import opened Convergers
  import opened Runs
  import opened Safety
  import opened Quarantine
  import opened Crashes
  import Assignments
  import Repetition

  // ---- flags stay ----

  /** No command takes a flag away. */
  lemma {:induction false} TraceKeepsFlags(k: Kernel, es: seq<Entry>, k': Kernel)
    requires Trace(k, es, k')
    ensures k.transient <= k'.transient && k'.durable == k.durable
    decreases |es|
  {
    if es != [] {
      EffectKeepsFlags(k, es[0]);
      hide After, Legal;
      TraceKeepsFlags(After(k, es[0]), es[1..], k');
    }
  }

  lemma EffectKeepsFlags(k: Kernel, e: Entry)
    requires Legal(k, e)
    ensures k.transient <= After(k, e).transient && After(k, e).durable == k.durable
  {
  }

  lemma RanKeepsFlags(a: Os, b: Os, p: Cmd -> bool)
    requires Ran(a, b, p)
    ensures a.k.transient <= b.k.transient && b.k.durable == a.k.durable && b.fate == a.fate
  {
    TraceKeepsFlags(a.k, Since(a, b), b.k);
  }

  // ---- an error event ----

  /** An error event marks the first drive at its path, and leaves all others alone; without a drive there, it changes
    nothing. */
  lemma ErrorMarks(os: Os, drives: seq<Drive>, path: DevPath, cfg: Config, i: nat)
    requires i < |drives| && drives[i].path == path && forall j :: 0 <= j < i ==> drives[j].path != path
    ensures var r := Handle(os, drives, Errored(path), cfg);
      && r.Some? && |r.value.1| == |drives|
      && (forall j :: 0 <= j < |drives| && j != i ==> r.value.1[j] == drives[j])
      && r.value.1[i].broken && r.value.1[i].assignment == None
      && r.value.1[i].path == path && r.value.1[i].driveId == drives[i].driveId && r.value.1[i].device == drives[i].device
      && (FlagsWork(os.fate) ==> drives[i].driveId in r.value.0.k.transient)
  {
    assert IndexOf(drives, path) == i;
    MarkSetsFlag(os, drives[i]);
    hide MarkAsBroken;
  }

  /** There is one drive at the path. */
  ghost predicate OnlyOne(drives: seq<Drive>, path: DevPath) {
    exists i :: 0 <= i < |drives| && drives[i].path == path && forall j :: 0 <= j < |drives| && drives[j].path == path ==> j == i
  }

  lemma ErrorStep(s: State, cfg: Config, path: DevPath)
    requires Upcoming(s) == Some(Errored(path)) && OnlyOne(s.drives, path)
    ensures Step(s, cfg).Some? && Quarantined(Step(s, cfg).value, path)
  {
    var i :| 0 <= i < |s.drives| && s.drives[i].path == path && forall j :: 0 <= j < |s.drives| && s.drives[j].path == path ==> j == i;
    ErrorMarks(s.os, s.drives, path, cfg, i);
    hide Handle;
    var t := Step(s, cfg).value;
    assert t.drives[i] in t.drives;
    forall d | d in t.drives && d.path == path ensures d.broken {
      var j :| 0 <= j < |t.drives| && t.drives[j] == d;
    }
  }

  /** In any world and whatever fails: from the step on that handles an error of a managed device, its drive is
    broken, until an event adds, removes or reinstates the device. */
  lemma ErrorQuarantines(world: World, cfg: Config, run: seq<State>, path: DevPath, i: nat, j: nat)
    requires IsRun(world, cfg, run) && i < j < |run| && Upcoming(run[i]) == Some(Errored(path)) && OnlyOne(run[i].drives, path)
    requires forall n :: i < n < j ==> !Released(run[n], path)
    ensures Quarantined(run[j], path)
  {
    ErrorStep(run[i], cfg, path);
    hide Step, Quarantined, Released, OnlyOne;
    assert Next(world, cfg, run[i], run[i + 1]);
    RunQuarantined(world, cfg, run, path, i + 1, j);
  }

  /** And in a tame run, nothing of its disk is mounted when the iteration ends. */
  lemma ErrorUnmounts(cfg: Config, run: seq<State>, path: DevPath, i: nat, j: nat)
    requires IsRun(Tame, cfg, run) && Init(run[0]) && i < j < |run| && run[j].phase.Idle?
    requires Upcoming(run[i]) == Some(Errored(path)) && OnlyOne(run[i].drives, path) && path.Disk?
    requires forall n :: i < n < j ==> !Released(run[n], path)
    ensures forall m :: IsEntry(run[j].os.k, m) ==> !On(run[j].os.k, m.dev, path.name)
  {
    ErrorQuarantines(Tame, cfg, run, path, i, j);
    IterationReachesGoal(cfg, run, j);
    hide IsRun, Init, Tame, On, IsEntry;
    var d :| d in run[j].drives && d.path == path;
    assert AtGoal(run[j].os, d);
  }

  // ---- a new drive object, and one that breaks ----

  lemma LookFlags(os: Os, d: Drive, fromDurable: bool)
    requires FlagsWork(os.fate)
    ensures var (d', os') := CheckFlag(os, d, fromDurable);
      && d'.driveId == d.driveId && d'.device == d.device && os'.fate == os.fate && os.k.transient <= os'.k.transient
      && (d'.broken ==> d.broken || d.driveId in os'.k.transient)
  {
    var (os1, _) := Run(os, ReadFlag(d.driveId, fromDurable));
    MarkSetsFlag(os1, d);
    hide MarkAsBroken;
  }

  /** A new drive that is broken though its device can be read has its transient flag set. */
  lemma NewDriveFlags(os: Os, path: DevPath, driveId: string, keys: seq<string>)
    requires FlagsWork(os.fate)
    ensures var (d, os') := NewDrive(os, path, driveId, keys);
      d.driveId == driveId && os'.fate == os.fate && (d.broken && d.device.Some? ==> driveId in os'.k.transient)
  {
    DeviceLooks(os, path, keys != []);
    hide NewDevice, CheckFlag, ClassifyDevice, FlagsWork;
    var (device, os1) := NewDevice(os, path, keys != []);
    var d0 := Drive(path, driveId, keys, device, device.None?, None);
    LookFlags(os1, d0, false);
    var (d1, os2) := CheckFlag(os1, d0, false);
    LookFlags(os2, d1, true);
  }

  /** A drive that breaks while it converges is flagged. */
  lemma ConvergeFlags(os: Os, d: Drive)
    requires d.device.Some? && FlagsWork(os.fate)
    ensures var (d', os') := ConvergeDrive(os, d);
      && d'.driveId == d.driveId && os'.fate == os.fate && os.k.transient <= os'.k.transient
      && (d'.broken ==> d.broken || d.driveId in os'.k.transient)
  {
    ConvergeRan(os, d);
    RanKeepsFlags(os, ConvergeDrive(os, d).1, Converging);
    if !d.broken {
      var (dev, os1, ok) := Setup(os, d.device.value, OrderOf(d));
      SetupRan(os, d.device.value, OrderOf(d));
      RanKeepsFlags(os, os1, Building);
      MarkSetsFlag(os1, d.(device := Some(dev)));
      var (d2, os2) := MarkAsBroken(os1, d.(device := Some(dev)));
      TeardownRan(os2, dev);
      RanKeepsFlags(os2, Teardown(os2, dev).1, Tearing);
    }
    hide Setup, Teardown, MarkAsBroken, Ran;
  }

  // ---- flags over runs ----

  /** Every broken drive has its flag. */
  ghost predicate AllFlagged(s: State) {
    forall d :: d in s.drives && d.broken ==> d.driveId in s.os.k.transient
  }

  lemma ReplacedFlagged(s: State, i: nat, d: Drive, os: Os)
    requires AllFlagged(s) && i < |s.drives| && s.os.k.transient <= os.k.transient
    requires d.broken ==> d.driveId in os.k.transient
    ensures forall e :: e in s.drives[i := d] && e.broken ==> e.driveId in os.k.transient
  {
    forall e | e in s.drives[i := d] && e.broken ensures e.driveId in os.k.transient {
      var j :| 0 <= j < |s.drives| && s.drives[i := d][j] == e;
      assert j != i ==> s.drives[j] in s.drives;
    }
  }

  lemma NewcomerFlags(os: Os, path: DevPath, driveId: string, keys: seq<string>)
    requires FlagsWork(os.fate)
    ensures var (d, os1) := NewDrive(os, path, driveId, keys);
      d.device.Some? ==>
        var (d', os2) := ConvergeDrive(os1, d);
        os.k.transient <= os2.k.transient && (d'.broken ==> d'.driveId in os2.k.transient)
  {
    NewDriveFlags(os, path, driveId, keys);
    NewDriveRan(os, path, driveId, keys);
    hide NewDrive, ConvergeDrive, FlagsWork, Ran;
    var (d, os1) := NewDrive(os, path, driveId, keys);
    RanKeepsFlags(os, os1, Looking);
    if d.device.Some? {
      ConvergeFlags(os1, d);
    }
  }

  lemma HandleFlags(s: State, e: Event, cfg: Config)
    requires AllFlagged(s) && FlagsWork(s.os.fate) && Handle(s.os, s.drives, e, cfg).Some?
    ensures var (os', drives') := Handle(s.os, s.drives, e, cfg).value;
      forall d :: d in drives' && d.broken ==> d.driveId in os'.k.transient
  {
    HandleRan(s.os, s.drives, e, cfg);
    RanKeepsFlags(s.os, Handle(s.os, s.drives, e, cfg).value.0, Unassigning);
    hide NewDrive, ConvergeDrive, TeardownDrive, MarkAsBroken, FlagsWork, Ran;
    match e
    case Added(path, driveId) =>
      NewcomerFlags(s.os, path, driveId, cfg.keys);
    case Removed(path) =>
      WithoutExact(s.drives, path);
    case Errored(path) =>
      var i := IndexOf(s.drives, path);
      if i < |s.drives| {
        ErrorFlags(s.os, s.drives[i]);
        var (d, os1) := MarkAsBroken(s.os, s.drives[i]);
        ReplacedFlagged(s, i, d, os1);
      }
    case Reinstated(path) =>
      var i := IndexOf(s.drives, path);
      if i < |s.drives| {
        NewcomerFlags(s.os, path, s.drives[i].driveId, s.drives[i].keys);
        var (d, os1) := NewDrive(s.os, path, s.drives[i].driveId, s.drives[i].keys);
        var (d', os2) := ConvergeDrive(os1, d);
        ReplacedFlagged(s, i, d', os2);
      }
    case Wakeup =>
  }

  lemma ErrorFlags(os: Os, d: Drive)
    requires FlagsWork(os.fate)
    ensures var (d', os') := MarkAsBroken(os, d); os.k.transient <= os'.k.transient && d'.driveId in os'.k.transient
  {
    MarkSetsFlag(os, d);
    hide MarkAsBroken;
  }

  /** Every step leaves each broken drive flagged: those that were broken before, and those that it breaks. */
  lemma StepFlags(s: State, cfg: Config)
    requires AllFlagged(s) && FlagsWork(s.os.fate) && Step(s, cfg).Some?
    ensures AllFlagged(Step(s, cfg).value) && Step(s, cfg).value.os.fate == s.os.fate
  {
    StepRan(s, cfg);
    RanKeepsFlags(s.os, Step(s, cfg).value.os, Anything);
    hide Handle, ConvergeDrive, Assignments.UpdateAssignments, FlagsWork, Ran;
    match s.phase
    case Handling(events) =>
      if events != [] {
        HandleFlags(s, events[0], cfg);
      }
    case First(i) =>
      if i < |s.drives| {
        LoopFlags(s, i);
      }
    case Second(i) =>
      if i < |s.drives| && !s.drives[i].broken {
        LoopFlags(s, i);
      }
    case Assigning =>
      RoundFlags(s, cfg);
    case Idle =>
  }

  lemma LoopFlags(s: State, i: nat)
    requires AllFlagged(s) && FlagsWork(s.os.fate) && i < |s.drives| && s.drives[i].device.Some?
    ensures var (d, os) := ConvergeDrive(s.os, s.drives[i]);
      forall e :: e in s.drives[i := d] && e.broken ==> e.driveId in os.k.transient
  {
    assert s.drives[i] in s.drives;
    ConvergeFlags(s.os, s.drives[i]);
    hide ConvergeDrive, FlagsWork;
    var (d, os) := ConvergeDrive(s.os, s.drives[i]);
    ReplacedFlagged(s, i, d, os);
  }

  lemma RoundFlags(s: State, cfg: Config)
    requires AllFlagged(s)
    ensures var (drives, os) := Assignments.UpdateAssignments(s.os, s.drives, cfg.pool);
      forall d :: d in drives && d.broken ==> d.driveId in os.k.transient
  {
    Commands.UpdateRan(s.os, s.drives, cfg.pool);
    var (drives, os) := Assignments.UpdateAssignments(s.os, s.drives, cfg.pool);
    RanKeepsFlags(s.os, os, Commands.Assigning);
    UpdateNames(s.os, s.drives, cfg.pool);
    hide Assignments.UpdateAssignments, Ran;
    forall d | d in drives && d.broken ensures d.driveId in os.k.transient {
      var j :| 0 <= j < |drives| && drives[j] == d;
      assert s.drives[j] in s.drives;
    }
  }

  lemma UpdateNames(os: Os, drives: seq<Drive>, pool: seq<string>)
    ensures var after := Assignments.UpdateAssignments(os, drives, pool).0;
      forall i :: 0 <= i < |drives| ==> after[i].driveId == drives[i].driveId && after[i].broken == drives[i].broken
  {
    UpdateKeepsBroken(os, drives, pool);
    Repetition.UpdateCaches(os, drives, pool);
    hide Assignments.UpdateAssignments;
  }

  /** Nobody outside removes flags. */
  ghost predicate KeepsFlags(world: World) {
    forall s: State, k, events :: world(s, k, events) ==> s.os.k.transient <= k.transient
  }

  /** Over runs: as long as nobody removes flags, every drive that has ever been found broken has its flag set. */
  lemma {:induction false} RunFlags(world: World, cfg: Config, run: seq<State>, i: nat)
    requires IsRun(world, cfg, run) && KeepsFlags(world) && AllFlagged(run[0]) && FlagsWork(run[0].os.fate) && i < |run|
    ensures AllFlagged(run[i]) && run[i].os.fate == run[0].os.fate
    decreases i
  {
    hide Step, FlagsWork, AllFlagged, Begin;
    if i > 0 {
      RunFlags(world, cfg, run, i - 1);
      var s := run[i - 1];
      assert Next(world, cfg, s, run[i]);
      if s.phase.Idle? {
        var k, events :| world(s, k, events) && run[i] == Begin(s, k, events);
        BeginFlags(s, k, events);
      } else {
        StepFlags(s, cfg);
      }
    }
  }

  lemma BeginFlags(s: State, k: Kernel, events: seq<Event>)
    requires s.os.k.transient <= k.transient
    ensures Begin(s, k, events).os.k == k && Begin(s, k, events).os.fate == s.os.fate
    ensures AllFlagged(s) ==> AllFlagged(Begin(s, k, events))
  {
    hide OpenMappings;
  }

  lemma {:induction false} RunKeepsFlags(world: World, cfg: Config, run: seq<State>, i: nat)
    requires IsRun(world, cfg, run) && KeepsFlags(world) && i < |run|
    ensures run[0].os.k.transient <= run[i].os.k.transient && run[i].os.fate == run[0].os.fate
    decreases i
  {
    hide Step, Begin, Ran;
    if i > 0 {
      RunKeepsFlags(world, cfg, run, i - 1);
      var s := run[i - 1];
      assert Next(world, cfg, s, run[i]);
      if s.phase.Idle? {
        var k, events :| world(s, k, events) && run[i] == Begin(s, k, events);
        BeginFlags(s, k, events);
      } else {
        StepRan(s, cfg);
        RanKeepsFlags(s.os, run[i].os, Anything);
      }
    }
  }

  // ---- what a later process makes of it ----

  /** A flagged device that is added comes up as broken. */
  lemma FlaggedJoins(s: State, cfg: Config, path: DevPath, driveId: string)
    requires Upcoming(s) == Some(Added(path, driveId)) && FlagsReadable(s.os.fate) && Step(s, cfg).Some?
    requires driveId in s.os.k.transient || driveId in s.os.k.durable
    requires forall d :: d in s.drives ==> d.path != path
    ensures Quarantined(Step(s, cfg).value, path)
  {
    NewDriveBroken(s.os, path, driveId, cfg.keys);
    NewDrivePath(s.os, path, driveId, cfg.keys);
    hide NewDrive, ConvergeDrive, FlagsReadable, ClassifyDevice;
    var (d, os1) := NewDrive(s.os, path, driveId, cfg.keys);
    BrokenStays(os1, d);
    var d' := ConvergeDrive(os1, d).0;
    var t := Step(s, cfg).value;
    assert t.drives == s.drives + [d'] && d' in t.drives;
  }

  /** Quarantine outlives the process: a drive that one process has found broken is broken for the next one as well,
    from the step on that adds it, as long as its flag is left in place. */
  lemma RestartQuarantines(world: World, cfg: Config, run: seq<State>, i: nat, d: Drive,
                           world': World, fate: (nat, Cmd) -> bool, later: seq<State>, n: nat, j: nat)
    requires IsRun(world, cfg, run) && KeepsFlags(world) && AllFlagged(run[0]) && FlagsWork(run[0].os.fate)
    requires i < |run| && d in run[i].drives && d.broken
    requires IsRun(world', cfg, later) && KeepsFlags(world') && later[0] == Boot(run[i].os.k, fate) && FlagsReadable(fate)
    requires n < j < |later| && Upcoming(later[n]) == Some(Added(d.path, d.driveId)) && forall e :: e in later[n].drives ==> e.path != d.path
    requires forall m :: n < m < j ==> !Released(later[m], d.path)
    ensures Quarantined(later[j], d.path)
  {
    RunFlags(world, cfg, run, i);
    assert d.driveId in run[i].os.k.transient;
    RunKeepsFlags(world', cfg, later, n);
    hide Step, Quarantined, Released, FlagsReadable, FlagsWork;
    assert Next(world', cfg, later[n], later[n + 1]);
    FlaggedJoins(later[n], cfg, d.path, d.driveId);
    RunQuarantined(world', cfg, later, d.path, n + 1, j);
  }
}
