/** Crash recovery: an iteration that is stopped anywhere, and a new process that finds what it left behind. */
module CrashRecovery {
  import opened Names
  import opened Tables
  import opened Kernels
  import opened KernelFacts
  import opened Machine
  import opened MountCache
  import opened Devices
  import opened Drives
  import opened Commands
  import opened Convergence
  import opened Fleets
  import opened Convergers
  import opened Exclusivity
  import opened Handlers
  import opened Safety
  import opened Runs
  import opened Moments
  import opened Crashes
  import opened Recovery
  import opened Stability
  import opened Repetition
  import opened Outcomes
  import opened Pools
  import opened Restarts
  import opened RoundMoments
  import opened IterationCourse
  import opened RecoveredTables
  import Assignments
  import Chains
  import Quarantine
  import DriveFacts

  /** The states an iteration goes through, as far as `it` goes. */
  ghost predicate Iteration(cfg: Config, it: seq<State>) {
    |it| > 0 && forall i :: 0 <= i < |it| - 1 ==> !it[i].phase.Idle? && Step(it[i], cfg) == Some(it[i + 1])
  }

  /** The iteration has ended, and no drive is broken. */
  ghost predicate Completed(it: seq<State>) {
    |it| > 0 && it[|it| - 1].phase.Idle? && Unbroken(it[|it| - 1])
  }

  ghost predicate AllKeyed(cfg: Config, drives: seq<Drive>) {
    forall d :: d in drives ==> d.keys == cfg.keys
  }

  /** An iteration has just begun, in order, with a batch that only adds disks. */
  ghost predicate Entered(cfg: Config, s: State) {
    && s.phase.Handling? && Joining(s.phase.events) && Inv(s) && AllPrepared(s.drives) && AllKeyed(cfg, s.drives)
  }

  function NamesOf(drives: seq<Drive>): (r: seq<NamedDisk>)
    requires forall d :: d in drives ==> d.path.Disk?
    ensures |r| == |drives|
    ensures forall i :: 0 <= i < |r| ==> r[i] == NamedDisk(drives[i].path.name, drives[i].driveId)
  {
    seq(|drives|, i requires 0 <= i < |drives| => NamedDisk(drives[i].path.name, drives[i].driveId))
  }

  ghost predicate OnDisks(s: State) {
    s.phase.Handling? && forall d :: d in s.drives ==> d.path.Disk?
  }

  /** The disks of an iteration: those known, then those that arrive. */
  function PlanOf(cfg: Config, s: State, ats: seq<Option<Path>>): Plan
    requires OnDisks(s)
  {
    Plan(s.os.k, NamesOf(s.drives) + JoinedDisks(s.phase.events), cfg, ats, |s.drives|)
  }

  /** The pool is numbered, the ids on the disks are plain, and each disk is mounted at one path at most. */
  ghost predicate Legible(pl: Plan) {
    && |pl.ats| == |pl.disks| && SpareOrdered(pl.cfg.pool, 0) && Plain(Ids0(pl))
    && forall j :: 0 <= j < |pl.disks| ==> At(pl.k0, pl.disks[j].disk, pl.ats[j])
  }

  /** Legible, and the disks are there and different. */
  ghost predicate Found(pl: Plan) {
    && Planned(pl)
    && forall j :: 0 <= j < |pl.disks| ==> pl.disks[j].disk in pl.k0.disks && At(pl.k0, pl.disks[j].disk, pl.ats[j])
  }

  /** No two disks have the same drive name. */
  ghost predicate Named(pl: Plan) {
    forall i, j :: 0 <= i < j < |pl.disks| ==> pl.disks[i].driveId != pl.disks[j].driveId
  }

  // ---- every run enters its iterations like this ----

  lemma ConvergeKeyed(os: Os, d: Drive)
    requires d.device.Some?
    ensures ConvergeDrive(os, d).0.keys == d.keys
  {
    hide Setup, Teardown;
  }

  lemma NewDriveKeyed(os: Os, path: DevPath, driveId: string, keys: seq<string>)
    ensures NewDrive(os, path, driveId, keys).0.keys == keys
  {
    hide Run, NewDevice;
  }

  lemma MarkKeyed(os: Os, d: Drive)
    ensures MarkAsBroken(os, d).0.keys == d.keys
  {
  }

  lemma ReplacedKeyed(cfg: Config, drives: seq<Drive>, i: nat, d: Drive)
    requires AllKeyed(cfg, drives) && i < |drives| && d.keys == drives[i].keys
    ensures AllKeyed(cfg, drives[i := d])
  {
    assert drives[i] in drives;
    forall e | e in drives[i := d] ensures e.keys == cfg.keys {
      var j :| 0 <= j < |drives| && drives[i := d][j] == e;
      assert j != i ==> e in drives;
    }
  }

  lemma HandleKeyed(os: Os, drives: seq<Drive>, e: Event, cfg: Config)
    requires AllKeyed(cfg, drives) && Handle(os, drives, e, cfg).Some?
    ensures AllKeyed(cfg, Handle(os, drives, e, cfg).value.1)
  {
    hide NewDrive, ConvergeDrive, TeardownDrive, MarkAsBroken, AllKeyed;
    match e
    case Added(path, driveId) =>
      NewDriveKeyed(os, path, driveId, cfg.keys);
      var (d, os1) := NewDrive(os, path, driveId, cfg.keys);
      ConvergeKeyed(os1, d);
      JoinedKeyed(cfg, drives, ConvergeDrive(os1, d).0);
    case Removed(path) =>
      LeftKeyed(cfg, drives, path);
    case Errored(path) =>
      var i := IndexOf(drives, path);
      if i < |drives| {
        MarkKeyed(os, drives[i]);
        ReplacedKeyed(cfg, drives, i, MarkAsBroken(os, drives[i]).0);
      }
    case Reinstated(path) =>
      var i := IndexOf(drives, path);
      if i < |drives| {
        NewDriveKeyed(os, path, drives[i].driveId, drives[i].keys);
        var (d, os1) := NewDrive(os, path, drives[i].driveId, drives[i].keys);
        ConvergeKeyed(os1, d);
        ReplacedKeyed(cfg, drives, i, ConvergeDrive(os1, d).0);
      }
    case Wakeup =>
  }

  lemma JoinedKeyed(cfg: Config, drives: seq<Drive>, d: Drive)
    requires AllKeyed(cfg, drives) && d.keys == cfg.keys
    ensures AllKeyed(cfg, drives + [d])
  {
  }

  lemma LeftKeyed(cfg: Config, drives: seq<Drive>, path: DevPath)
    requires AllKeyed(cfg, drives)
    ensures AllKeyed(cfg, Without(drives, path))
  {
    WithoutSubset(drives, path);
  }

  lemma StepKeyed(s: State, cfg: Config)
    requires AllKeyed(cfg, s.drives) && Step(s, cfg).Some?
    ensures AllKeyed(cfg, Step(s, cfg).value.drives)
  {
    hide Handle, ConvergeDrive, Assignments.UpdateAssignments, AllKeyed;
    match s.phase
    case Handling(events) =>
      if events != [] {
        HandleKeyed(s.os, s.drives, events[0], cfg);
      }
    case First(i) =>
      if i < |s.drives| {
        ConvergeKeyed(s.os, s.drives[i]);
        ReplacedKeyed(cfg, s.drives, i, ConvergeDrive(s.os, s.drives[i]).0);
      }
    case Second(i) =>
      if i < |s.drives| && !s.drives[i].broken {
        ConvergeKeyed(s.os, s.drives[i]);
        ReplacedKeyed(cfg, s.drives, i, ConvergeDrive(s.os, s.drives[i]).0);
      }
    case Assigning =>
      UpdateKeyed(cfg, s.os, s.drives);
    case Idle =>
  }

  lemma UpdateKeyed(cfg: Config, os: Os, drives: seq<Drive>)
    requires AllKeyed(cfg, drives)
    ensures AllKeyed(cfg, Assignments.UpdateAssignments(os, drives, cfg.pool).0)
  {
    UpdateCaches(os, drives, cfg.pool);
    hide Assignments.UpdateAssignments;
    var after := Assignments.UpdateAssignments(os, drives, cfg.pool).0;
    forall d | d in after ensures d.keys == cfg.keys {
      var j :| 0 <= j < |after| && after[j] == d;
      assert drives[j] in drives;
    }
  }

  lemma {:induction false} RunKeyed(cfg: Config, run: seq<State>, i: nat)
    requires IsRun(Tame, cfg, run) && Init(run[0]) && i < |run|
    ensures AllKeyed(cfg, run[i].drives)
    decreases i
  {
    hide Step, Begin, AllKeyed, Tame;
    if i == 0 {
      NoneKeyed(cfg);
    } else {
      RunKeyed(cfg, run, i - 1);
      var s := run[i - 1];
      assert Next(Tame, cfg, s, run[i]);
      if s.phase.Idle? {
        var k, events :| Tame(s, k, events) && run[i] == Begin(s, k, events);
        BeginDrives(s, k, events);
      } else {
        StepKeyed(s, cfg);
      }
    }
  }

  lemma NoneKeyed(cfg: Config)
    ensures AllKeyed(cfg, [])
  {
  }

  /** In every tame run, whenever a batch that only adds disks arrives, an iteration begins in order. */
  lemma RunEnters(cfg: Config, run: seq<State>, a: nat)
    requires IsRun(Tame, cfg, run) && Init(run[0]) && a < |run| && run[a].phase.Handling? && Joining(run[a].phase.events)
    ensures Entered(cfg, run[a])
  {
    hide IsRun, Init, Inv, Tame, AllPrepared, AllKeyed, Joining;
    RunInvariant(cfg, run, a);
    NoDrives(cfg, run);
    RunPrepares(Tame, cfg, run, a);
    RunKeyed(cfg, run, a);
  }

  // ---- the disks of a batch ----

  lemma {:induction false} AddedFrom(events: seq<Event>, t: NamedDisk)
    requires Joining(events) && t in JoinedDisks(events)
    ensures Added(Disk(t.disk), t.driveId) in events
    decreases |events|
  {
    var e, rest := events[0], events[1..];
    assert e in events;
    assert forall x :: x in rest ==> x in events;
    if !(e.Added? && t == NamedDisk(e.path.name, e.driveId)) {
      AddedFrom(rest, t);
    }
  }

  lemma {:induction false} AddedApart(events: seq<Event>)
    requires Joining(events) && EventsApart(events)
    ensures forall i, j :: 0 <= i < j < |JoinedDisks(events)| ==>
      JoinedDisks(events)[i].disk != JoinedDisks(events)[j].disk && JoinedDisks(events)[i].driveId != JoinedDisks(events)[j].driveId
    decreases |events|
  {
    if events != [] {
      var e, rest := events[0], events[1..];
      RestApart(events);
      assert e in events;
      assert forall x :: x in rest ==> x in events;
      AddedApart(rest);
      hide EventsApart;
      var all := JoinedDisks(events);
      if e.Added? {
        forall i, j | 0 <= i < j < |all| ensures all[i].disk != all[j].disk && all[i].driveId != all[j].driveId {
          if i == 0 {
            assert all[j] in JoinedDisks(rest);
            AddedFrom(rest, all[j]);
          }
        }
      }
    }
  }

  /** Where a disk of an iteration comes from. */
  lemma DiskOfPlan(cfg: Config, s: State, ats: seq<Option<Path>>, j: nat)
    requires Entered(cfg, s) && OnDisks(s) && j < |PlanOf(cfg, s, ats).disks|
    ensures var t := PlanOf(cfg, s, ats).disks[j];
      && t.disk in s.os.k.disks
      && (j < |s.drives| ==> t == NamedDisk(s.drives[j].path.name, s.drives[j].driveId) && Member(s.os, s.drives[j]))
      && (j >= |s.drives| ==> Added(Disk(t.disk), t.driveId) in s.phase.events)
      && (j >= |s.drives| ==> forall d :: d in s.drives ==> d.path != Disk(t.disk) && d.driveId != t.driveId)
  {
    var t := PlanOf(cfg, s, ats).disks[j];
    hide Global, Expected, EventsApart, AllHomed, Prepared, Distinct, DriveFacts.Accounted, DriveFacts.Reserved, Chains.Fresh, DriveFacts.Cleared, IdKept;
    if j < |s.drives| {
      assert s.drives[j] in s.drives;
      MemberThere(s.os, s.drives[j]);
    } else {
      assert t in JoinedDisks(s.phase.events);
      AddedFrom(s.phase.events, t);
      assert PendingOk(s.os, s.drives, Added(Disk(t.disk), t.driveId));
    }
  }

  lemma MemberThere(os: Os, d: Drive)
    requires Member(os, d)
    ensures d.path.Disk? && d.path.name in os.k.disks
  {
    hide DriveFacts.Accounted, DriveFacts.Reserved;
  }

  lemma PlanApart(cfg: Config, s: State, ats: seq<Option<Path>>, i: nat, j: nat)
    requires Entered(cfg, s) && OnDisks(s) && i < j < |PlanOf(cfg, s, ats).disks|
    ensures var ts := PlanOf(cfg, s, ats).disks; ts[i].disk != ts[j].disk && ts[i].driveId != ts[j].driveId
  {
    DiskOfPlan(cfg, s, ats, i);
    DiskOfPlan(cfg, s, ats, j);
    assert EventsApart(s.phase.events) && Members(s.os, s.drives);
    AddedApart(s.phase.events);
    hide Inv, Member, EventsApart, Joining, AllPrepared, JoinedDisks;
    if j < |s.drives| {
      assert Distinct(s.drives[i], s.drives[j]);
    } else if i < |s.drives| {
      assert s.drives[i] in s.drives;
    }
  }

  lemma EnteredFound(cfg: Config, s: State, ats: seq<Option<Path>>)
    requires Entered(cfg, s) && OnDisks(s) && Legible(PlanOf(cfg, s, ats))
    ensures Found(PlanOf(cfg, s, ats)) && Named(PlanOf(cfg, s, ats))
  {
    var pl := PlanOf(cfg, s, ats);
    hide Entered, At, SpareOrdered, Plain, Ids0, PlanOf, JoinedDisks;
    forall i, j | 0 <= i < j < |pl.disks| ensures pl.disks[i].disk != pl.disks[j].disk && pl.disks[i].driveId != pl.disks[j].driveId {
      PlanApart(cfg, s, ats, i, j);
    }
    forall j | 0 <= j < |pl.disks| ensures pl.disks[j].disk in pl.k0.disks {
      DiskOfPlan(cfg, s, ats, j);
    }
    assert pl.known <= |pl.disks| by { PlanKnown(cfg, s, ats); }
  }

  lemma PlanKnown(cfg: Config, s: State, ats: seq<Option<Path>>)
    requires OnDisks(s)
    ensures PlanOf(cfg, s, ats).known == |s.drives| <= |PlanOf(cfg, s, ats).disks|
    ensures PlanOf(cfg, s, ats).disks[|s.drives|..] == JoinedDisks(s.phase.events)
  {
  }

  lemma {:induction false} FormattedSuits(d: Dev, n: string, keys: seq<string>)
    requires Formatted(d)
    ensures Suits(d, n, keys)
    decreases d
  {
    if d.LuksDev? && d.mapped.Some? {
      FormattedSuits(d.mapped.value, n, keys);
    }
  }

  lemma KnownWorks(cfg: Config, s: State, ats: seq<Option<Path>>, j: nat)
    requires Entered(cfg, s) && OnDisks(s) && Unbroken(s) && j < |s.drives|
    ensures Working(s.drives[j], PlanOf(cfg, s, ats).disks[j], cfg.keys)
  {
    var d := s.drives[j];
    assert d in s.drives && !d.broken && d.keys == cfg.keys && Prepared(d);
    FormattedSuits(d.device.value, d.path.name, cfg.keys);
    hide Inv, Suits, Formatted, JoinedDisks;
  }

  lemma CourseStart(cfg: Config, s: State, ats: seq<Option<Path>>)
    requires Entered(cfg, s) && OnDisks(s) && Unbroken(s) && WritesWork(s.os.fate) && Legible(PlanOf(cfg, s, ats))
    ensures Course(PlanOf(cfg, s, ats), s)
  {
    var pl := PlanOf(cfg, s, ats);
    EnteredFound(cfg, s, ats);
    PlanKnown(cfg, s, ats);
    assert Joining(s.phase.events);
    forall j | 0 <= j < |s.drives| ensures Working(s.drives[j], pl.disks[j], cfg.keys) {
      KnownWorks(cfg, s, ats, j);
    }
    hide Entered, At, Here, DiskShape, LeafId, Final, Want, Working, Plain, SpareOrdered, WritesWork, Joining, JoinedDisks;
    var places := Spots(pl, s.phase, |s.drives|);
    assert places == ats;
    assert Held(pl, pl.k0, Ids0(pl), places);
  }

  // ---- an iteration from its start to its end ----

  lemma {:induction false} IterationAdding(cfg: Config, it: seq<State>, i: nat)
    requires Iteration(cfg, it) && Adding(it[0].phase) && i < |it|
    ensures Adding(it[i].phase)
    decreases i
  {
    hide Step, Adding;
    if i > 0 {
      IterationAdding(cfg, it, i - 1);
      assert Step(it[i - 1], cfg) == Some(it[i - 1 + 1]);
      StepAdding(it[i - 1], cfg);
    }
  }

  lemma {:induction false} IterationUnbroken(cfg: Config, it: seq<State>, i: nat)
    requires Iteration(cfg, it) && Adding(it[0].phase) && Completed(it) && i < |it|
    ensures Unbroken(it[i])
    decreases |it| - i
  {
    hide Step, Unbroken, Adding;
    if i < |it| - 1 {
      IterationUnbroken(cfg, it, i + 1);
      IterationAdding(cfg, it, i);
      UnbrokenBefore(it[i], cfg);
    }
  }

  lemma {:induction false} IterationInv(cfg: Config, it: seq<State>, i: nat)
    requires Iteration(cfg, it) && Inv(it[0]) && i < |it|
    ensures Inv(it[i])
    decreases i
  {
    hide Step, Inv;
    if i > 0 {
      IterationInv(cfg, it, i - 1);
      assert !it[i - 1].phase.Idle? && Step(it[i - 1], cfg) == Some(it[i - 1 + 1]);
      StepKeeps(it[i - 1], cfg);
    }
  }

  lemma EnteredParts(cfg: Config, s: State)
    requires Entered(cfg, s)
    ensures Inv(s) && Adding(s.phase) && s.phase.Handling?
  {
    hide Inv, AllPrepared;
  }

  /** An iteration that leaves no drive broken. */
  ghost predicate Good(cfg: Config, it: seq<State>) {
    Iteration(cfg, it) && Entered(cfg, it[0]) && Completed(it) && WritesWork(it[0].os.fate)
  }

  lemma {:induction false} IterationCourses(cfg: Config, it: seq<State>, ats: seq<Option<Path>>, i: nat)
    requires Good(cfg, it) && OnDisks(it[0]) && Legible(PlanOf(cfg, it[0], ats)) && i < |it|
    ensures Course(PlanOf(cfg, it[0], ats), it[i])
    decreases i
  {
    hide Legible, Course, Step, Inv, Unbroken, Entered, PlanOf, WritesWork;
    EnteredParts(cfg, it[0]);
    IterationUnbroken(cfg, it, i);
    if i == 0 {
      CourseStart(cfg, it[0], ats);
    } else {
      IterationCourses(cfg, it, ats, i - 1);
      assert !it[i - 1].phase.Idle? && Step(it[i - 1], cfg) == Some(it[i - 1 + 1]);
      IterationInv(cfg, it, i - 1);
      assert PlanOf(cfg, it[0], ats).cfg == cfg by { PlanCfg(cfg, it[0], ats); }
      CourseStep(PlanOf(cfg, it[0], ats), it[i - 1]);
    }
  }

  lemma PlanCfg(cfg: Config, s: State, ats: seq<Option<Path>>)
    requires OnDisks(s)
    ensures PlanOf(cfg, s, ats).cfg == cfg && PlanOf(cfg, s, ats).k0 == s.os.k
  {
  }

  ghost predicate IsMoment(it: seq<State>, i: nat, j: nat) {
    i + 1 < |it| && Steps(it[i].os, it[i + 1].os) && j <= |Since(it[i].os, it[i + 1].os)|
  }

  lemma StepReady(cfg: Config, it: seq<State>, ats: seq<Option<Path>>, i: nat)
    requires Good(cfg, it) && OnDisks(it[0]) && Legible(PlanOf(cfg, it[0], ats)) && i + 1 < |it|
    ensures Course(PlanOf(cfg, it[0], ats), it[i]) && Inv(it[i]) && !it[i].phase.Idle? && Unbroken(it[i + 1])
    ensures Step(it[i], cfg) == Some(it[i + 1])
  {
    hide Legible, Course, Step, Inv, Unbroken, Entered, PlanOf, WritesWork;
    EnteredParts(cfg, it[0]);
    IterationCourses(cfg, it, ats, i);
    IterationInv(cfg, it, i);
    IterationUnbroken(cfg, it, i + 1);
  }

  /** At every moment of the iteration the disks lead to the same end. */
  lemma RecoverableMoment(cfg: Config, it: seq<State>, ats: seq<Option<Path>>, i: nat, j: nat)
    requires Good(cfg, it) && OnDisks(it[0]) && Legible(PlanOf(cfg, it[0], ats)) && IsMoment(it, i, j)
    ensures Recoverable(PlanOf(cfg, it[0], ats), Moment(it, i, j))
  {
    var pl := PlanOf(cfg, it[0], ats);
    PlanCfg(cfg, it[0], ats);
    StepReady(cfg, it, ats, i);
    hide Legible, Course, Step, Inv, Unbroken, Entered, PlanOf, WritesWork, Recoverable, Throughout, Trace;
    CourseStep(pl, it[i]);
    AtEveryMoment(it[i].os.k, Since(it[i].os, it[i + 1].os), it[i + 1].os.k, j, RecoverableFor(pl));
  }

  lemma ProperMoment(cfg: Config, it: seq<State>, i: nat, j: nat)
    requires Iteration(cfg, it) && Inv(it[0]) && IsMoment(it, i, j)
    ensures Orderly(Moment(it, i, j))
  {
    IterationInv(cfg, it, i);
    hide Step, Inv, Orderly, Throughout, Trace;
    StepMoments(it[i], cfg);
    AtEveryMoment(it[i].os.k, Since(it[i].os, it[i + 1].os), it[i + 1].os.k, j, Orderly);
  }

  lemma IterationGoals(cfg: Config, it: seq<State>)
    requires Iteration(cfg, it) && Inv(it[0]) && it[0].phase.Handling? && it[|it| - 1].phase.Idle?
    ensures var s := it[|it| - 1]; forall d :: d in s.drives ==> AtGoal(s.os, d)
  {
    var n := |it| - 2;
    var s := it[n + 1];
    IterationInv(cfg, it, n);
    hide Step, Inv, AtGoal, Done, Sound, DriveFacts.CrossOwned;
    assert !it[n].phase.Idle? && Step(it[n], cfg) == Some(s);
    LastStep(it[n], cfg);
    forall d | d in s.drives ensures AtGoal(s.os, d) {
      LastInv(it[n], d);
      DoneAtGoal(it[n].os, d);
    }
  }

  // ---- starting over ----

  lemma {:induction false} FillPlain(ids: seq<string>, pool: seq<string>, taken: set<string>)
    requires Plain(ids)
    ensures Plain(Fill(ids, pool, taken))
    decreases |ids|
  {
    hide Assignments.FirstUnused;
    if ids != [] {
      var f := Fill(ids, pool, taken);
      var taken' := if ids[0] == "" && f[0] != "" then taken + {Assignments.FirstUnused(pool, taken)} else taken;
      FillHead(ids, pool, taken);
      assert ids[0] in ids;
      assert forall id :: id in ids[1..] ==> id in ids;
      FillPlain(ids[1..], pool, taken');
      hide Fill;
      forall id | id in f ensures !Assignments.IsSpareName(id) {
        if id != f[0] {
          assert id in Fill(ids[1..], pool, taken');
        }
      }
    }
  }

  lemma HalfwayPlain(ids: seq<string>, pool: seq<string>, c: nat)
    requires Plain(ids) && c <= |ids|
    ensures Plain(Halfway(ids, pool, c))
  {
    FillPlain(ids, pool, TakenIds(ids));
    hide Assignments.IsSpareName, Fill, TakenIds;
    forall id | id in Halfway(ids, pool, c) ensures id in Final(ids, pool) || id in ids {
    }
  }

  /** What the second process starts from. */
  lemma SecondPlan(pl: Plan, p: Kernel) returns (pl': Plan)
    requires Found(pl) && Recoverable(pl, p)
    ensures pl' == pl.(k0 := p, ats := pl'.ats, known := 0) && Found(pl') && Shapes(pl, p)
    ensures Final(Ids0(pl'), pl.cfg.pool) == Final(Ids0(pl), pl.cfg.pool)
    ensures forall i :: 0 <= i < |pl.disks| ==>
      PlaceAt(pl', i, pl'.ats[i]) == PlaceAt(pl, i, pl.ats[i]) && Want(Ids0(pl'), pl.cfg.pool, i) == Want(Ids0(pl), pl.cfg.pool, i)
  {
    var ids, places :| Held(pl, p, ids, places) && SameFate(pl, ids, places);
    var c: nat :| c <= |pl.disks| && ids == Halfway(Ids0(pl), pl.cfg.pool, c);
    pl' := pl.(k0 := p, ats := places, known := 0);
    assert Ids0(pl') == ids;
    hide At, DiskShape, LeafId, Want, Final, Halfway, Plain, SpareOrdered, Ids0, Here;
    HalfwayFinal(Ids0(pl), pl.cfg.pool, c);
    HalfwayPlain(Ids0(pl), pl.cfg.pool, c);
    forall i | 0 <= i < |pl.disks| ensures
      PlaceAt(pl', i, pl'.ats[i]) == PlaceAt(pl, i, pl.ats[i]) && Want(Ids0(pl'), pl.cfg.pool, i) == Want(Ids0(pl), pl.cfg.pool, i)
    {
      HalfwayWants(Ids0(pl), pl.cfg.pool, c, i);
    }
  }

  /** Two processes leave a disk alike: the same contents, swift-id included, and the same mounts, which are
    where both have it assigned. */
  ghost predicate Alike(s: State, t: State, i: nat)
    requires i < |s.drives| && i < |t.drives|
  {
    var d, e := s.drives[i], t.drives[i];
    var n := DiskOf(d);
    && DiskOf(e) == n && n in s.os.k.disks && n in t.os.k.disks && t.os.k.disks[n] == s.os.k.disks[n]
    && AssignedPath(e.assignment) == AssignedPath(d.assignment) && MountPath(e) == MountPath(d)
    && !d.broken && !e.broken && AtGoal(s.os, d) && AtGoal(t.os, e)
  }

  lemma FullShape(c: Content, d: Content, keys: seq<string>)
    requires Full(c) && Full(d) && DiskShape(c, keys) == DiskShape(d, keys) && LeafId(c) == LeafId(d)
    ensures c == d
  {
    FullByShape(c, d);
  }

  lemma GoalPath(os: Os, d: Drive, path: Path)
    requires AtGoal(os, d) && !d.broken && At(os.k, DiskOf(d), Some(path))
    ensures MountPath(d) == path
  {
    hide MountPath, On;
    var m :| m in os.k.host && On(os.k, m.dev, DiskOf(d));
    assert From(os.k, m, DiskOf(d));
  }

  lemma IdleDrive(pl: Plan, s: State, i: nat)
    requires Course(pl, s) && s.phase.Idle? && i < |pl.disks|
    ensures |s.drives| == |pl.disks| == |pl.ats| && !s.drives[i].broken && s.drives[i].path == Disk(pl.disks[i].disk)
    ensures AssignedPath(s.drives[i].assignment) == Want(Ids0(pl), pl.cfg.pool, i)
    ensures At(s.os.k, pl.disks[i].disk, Some(PlaceAt(pl, i, pl.ats[i])))
    ensures var n := pl.disks[i].disk;
      && n in s.os.k.disks && Full(s.os.k.disks[n]) && LeafId(s.os.k.disks[n]) == Final(Ids0(pl), pl.cfg.pool)[i]
      && n in pl.k0.disks && DiskShape(s.os.k.disks[n], pl.cfg.keys) == DiskShape(pl.k0.disks[n], pl.cfg.keys)
  {
    hide Want, Ids0, At, PlaceAt, Full, DiskShape, Final, WritesWork, AssignedPath, Suits;
    assert IdsOf(s.os.k, pl.disks)[i] == Final(Ids0(pl), pl.cfg.pool)[i];
    assert Working(s.drives[i], pl.disks[i], pl.cfg.keys);
    assert Finished(s.phase, i);
  }

  lemma EndsAlike(pl: Plan, pl': Plan, s: State, t: State, i: nat)
    requires Course(pl, s) && s.phase.Idle? && Course(pl', t) && t.phase.Idle? && i < |pl.disks|
    requires pl' == pl.(k0 := pl'.k0, ats := pl'.ats, known := pl'.known) && Shapes(pl, pl'.k0) && |pl'.ats| == |pl.ats| == |pl.disks|
    requires Final(Ids0(pl'), pl.cfg.pool) == Final(Ids0(pl), pl.cfg.pool)
    requires PlaceAt(pl', i, pl'.ats[i]) == PlaceAt(pl, i, pl.ats[i]) && Want(Ids0(pl'), pl.cfg.pool, i) == Want(Ids0(pl), pl.cfg.pool, i)
    requires forall d :: d in s.drives ==> AtGoal(s.os, d)
    requires forall d :: d in t.drives ==> AtGoal(t.os, d)
    ensures i < |s.drives| && i < |t.drives| && Alike(s, t, i) && DiskOf(s.drives[i]) == pl.disks[i].disk
  {
    IdleDrive(pl, s, i);
    IdleDrive(pl', t, i);
    hide Course, Want, Ids0, At, PlaceAt, Full, DiskShape, Final, LeafId, AtGoal, MountPath, AssignedPath;
    var n := pl.disks[i].disk;
    FullShape(s.os.k.disks[n], t.os.k.disks[n], pl.cfg.keys);
    assert s.drives[i] in s.drives && t.drives[i] in t.drives;
    GoalPath(s.os, s.drives[i], PlaceAt(pl, i, pl.ats[i]));
    GoalPath(t.os, t.drives[i], PlaceAt(pl, i, pl.ats[i]));
  }

  // ---- the mount tables at the end ----

  lemma {:induction false} IterationKept(cfg: Config, it: seq<State>, ats: seq<Option<Path>>, i: nat)
    requires Good(cfg, it) && OnDisks(it[0]) && Legible(PlanOf(cfg, it[0], ats)) && i < |it|
    ensures Kept(PlanOf(cfg, it[0], ats), it[i].os.k)
    decreases i
  {
    PlanCfg(cfg, it[0], ats);
    KeptStart(PlanOf(cfg, it[0], ats));
    hide Legible, Course, Step, Inv, Unbroken, Entered, PlanOf, WritesWork, Kept;
    if i > 0 {
      IterationKept(cfg, it, ats, i - 1);
      StepReady(cfg, it, ats, i - 1);
      StepKept(PlanOf(cfg, it[0], ats), it[i - 1]);
    }
  }

  lemma KeptMoment(cfg: Config, it: seq<State>, ats: seq<Option<Path>>, i: nat, j: nat)
    requires Good(cfg, it) && OnDisks(it[0]) && Legible(PlanOf(cfg, it[0], ats)) && IsMoment(it, i, j)
    ensures Kept(PlanOf(cfg, it[0], ats), Moment(it, i, j))
  {
    var pl := PlanOf(cfg, it[0], ats);
    PlanCfg(cfg, it[0], ats);
    StepReady(cfg, it, ats, i);
    hide Legible, Course, Step, Inv, Unbroken, Entered, PlanOf, WritesWork, Kept, Throughout, Trace;
    IterationKept(cfg, it, ats, i);
    StepKept(pl, it[i]);
    AtEveryMoment(it[i].os.k, Since(it[i].os, it[i + 1].os), it[i + 1].os.k, j, KeptFor(pl));
  }

  /** Two ends that are alike, drive by drive. */
  ghost predicate AllAlike(pl: Plan, s: State, t: State) {
    && |s.drives| == |t.drives| == |pl.disks|
    && forall i :: 0 <= i < |pl.disks| ==> DiskOf(s.drives[i]) == pl.disks[i].disk && Alike(s, t, i)
  }

  lemma AlikeEntry(s: State, t: State, i: nat, m: Mount, scope: Scope) returns (e: Mount)
    requires i < |s.drives| && i < |t.drives| && Alike(s, t, i) && m in Table(s.os.k, scope) && On(s.os.k, m.dev, DiskOf(s.drives[i]))
    ensures e in Table(t.os.k, scope) && On(t.os.k, e.dev, DiskOf(s.drives[i])) && e.path == m.path
  {
    hide On, MountPath;
    assert IsEntry(s.os.k, m);
    if scope.Host? {
      e :| e in t.os.k.host && On(t.os.k, e.dev, DiskOf(t.drives[i]));
    } else {
      e :| e in t.os.k.local && On(t.os.k, e.dev, DiskOf(t.drives[i]));
    }
    assert IsEntry(t.os.k, e);
  }

  lemma EntryCarried(pl: Plan, s: State, t: State, m: Mount, scope: Scope)
    requires AllAlike(pl, s, t) && Kept(pl, s.os.k) && Kept(pl, t.os.k) && WfK(s.os.k) && WfK(t.os.k) && Planned(pl)
    requires m in Table(s.os.k, scope)
    ensures MountedOn(Table(t.os.k, scope), m.dev, m.path)
  {
    var k, k' := s.os.k, t.os.k;
    hide WfK, Kept, AllAlike, Alike;
    assert IsEntry(k, m);
    var n := EntryDisk(k, m);
    if InPlan(pl, n) {
      var i :| 0 <= i < |pl.disks| && pl.disks[i].disk == n;
      PlannedAlike(pl, s, t, i);
      var e := AlikeEntry(s, t, i, m, scope);
      assert IsEntry(k', e);
      MountedDepth(k, m, n);
      MountedDepth(k', e, n);
      AlikeDisk(s, t, i);
      Chains.WfSlots(k);
      Chains.WfSlots(k');
      SameDevice(pl, k, k', m.dev, e.dev);
    } else {
      assert In(k, m, n, scope);
      assert In(k', m, n, scope) by { KeptElsewhere(pl, k, k', m, n, scope); }
    }
  }

  lemma EntryDisk(k: Kernel, m: Mount) returns (n: string)
    requires WfK(k) && IsEntry(k, m)
    ensures On(k, m.dev, n)
  {
    Chains.WfSlots(k);
    n := LocOf(k, m.dev).value.disk;
  }

  lemma PlannedAlike(pl: Plan, s: State, t: State, i: nat)
    requires AllAlike(pl, s, t) && i < |pl.disks|
    ensures i < |s.drives| && i < |t.drives| && Alike(s, t, i) && DiskOf(s.drives[i]) == pl.disks[i].disk
  {
    hide Alike;
  }

  lemma AlikeDisk(s: State, t: State, i: nat)
    requires i < |s.drives| && i < |t.drives| && Alike(s, t, i)
    ensures var n := DiskOf(s.drives[i]); n in s.os.k.disks && n in t.os.k.disks && t.os.k.disks[n] == s.os.k.disks[n]
  {
    hide AtGoal, MountPath;
  }

  lemma KeptElsewhere(pl: Plan, k: Kernel, k': Kernel, m: Mount, n: string, scope: Scope)
    requires Kept(pl, k) && Kept(pl, k') && !InPlan(pl, n) && In(k, m, n, scope)
    ensures In(k', m, n, scope)
  {
    hide In, InPlan;
    assert In(pl.k0, m, n, scope) == In(k, m, n, scope);
  }

  lemma AlikeBack(pl: Plan, s: State, t: State)
    requires AllAlike(pl, s, t)
    ensures AllAlike(pl, t, s)
  {
    hide AtGoal, MountPath;
    forall i | 0 <= i < |pl.disks| ensures DiskOf(t.drives[i]) == pl.disks[i].disk && Alike(t, s, i) {
      assert Alike(s, t, i);
    }
  }

  lemma TablesCarried(pl: Plan, s: State, t: State)
    requires AllAlike(pl, s, t) && Kept(pl, s.os.k) && Kept(pl, t.os.k) && WfK(s.os.k) && WfK(t.os.k) && Planned(pl)
    ensures forall dev, path :: MountedOn(s.os.k.host, dev, path) ==> MountedOn(t.os.k.host, dev, path)
    ensures forall dev, path :: MountedOn(s.os.k.local, dev, path) ==> MountedOn(t.os.k.local, dev, path)
  {
    hide WfK, Kept, AllAlike, Planned;
    forall dev, path | MountedOn(s.os.k.host, dev, path) ensures MountedOn(t.os.k.host, dev, path) {
      var m :| m in s.os.k.host && m.dev == dev && m.path == path;
      EntryCarried(pl, s, t, m, Host);
    }
    forall dev, path | MountedOn(s.os.k.local, dev, path) ensures MountedOn(t.os.k.local, dev, path) {
      var m :| m in s.os.k.local && m.dev == dev && m.path == path;
      EntryCarried(pl, s, t, m, Local);
    }
  }

  lemma TablesAlike(pl: Plan, s: State, t: State)
    requires AllAlike(pl, s, t) && Kept(pl, s.os.k) && Kept(pl, t.os.k) && WfK(s.os.k) && WfK(t.os.k) && Planned(pl)
    ensures SameMountPairs(s.os.k, t.os.k)
  {
    hide WfK, Kept, AllAlike, Planned, MountedOn;
    AlikeBack(pl, s, t);
    TablesCarried(pl, s, t);
    TablesCarried(pl, t, s);
  }

  lemma GoodEnds(cfg: Config, it: seq<State>, ats: seq<Option<Path>>)
    requires Good(cfg, it) && OnDisks(it[0]) && Legible(PlanOf(cfg, it[0], ats))
    ensures var s := it[|it| - 1]; Course(PlanOf(cfg, it[0], ats), s) && s.phase.Idle?
    ensures var s := it[|it| - 1]; forall d :: d in s.drives ==> AtGoal(s.os, d)
  {
    IterationCourses(cfg, it, ats, |it| - 1);
    EnteredParts(cfg, it[0]);
    hide Course, AtGoal, Legible, Entered, Inv, PlanOf;
    IterationGoals(cfg, it);
  }

  lemma CourseLength(pl: Plan, s: State)
    requires Course(pl, s) && s.phase.Idle?
    ensures |s.drives| == |pl.disks| == |pl.ats|
  {
  }

  lemma FoundLegible(pl: Plan)
    requires Found(pl)
    ensures Legible(pl)
  {
    hide SpareOrdered, Plain, At, Ids0;
  }

  /** A new process that finds the disks on system `p`, in their order. */
  ghost function Restarted(p: Kernel, fate: (nat, Cmd) -> bool, disks: seq<NamedDisk>): State {
    Begin(Boot(p, fate), p, Arrivals(disks))
  }

  lemma RestartedPlan(cfg: Config, p: Kernel, fate: (nat, Cmd) -> bool, disks: seq<NamedDisk>, ats: seq<Option<Path>>)
    ensures OnDisks(Restarted(p, fate, disks))
    ensures PlanOf(cfg, Restarted(p, fate, disks), ats) == Plan(p, disks, cfg, ats, 0)
    ensures Restarted(p, fate, disks).os.fate == fate
  {
    ArrivalsAdd(disks);
    hide JoinedDisks, OpenMappings;
    var s := Restarted(p, fate, disks);
    assert s.drives == [] && NamesOf([]) == [];
    assert [] + disks == disks;
  }

  lemma RestartedEntered(cfg: Config, p: Kernel, fate: (nat, Cmd) -> bool, disks: seq<NamedDisk>)
    requires Orderly(p) && Chains.Reliable(fate) && Tame(Boot(p, fate), p, Arrivals(disks))
    ensures Entered(cfg, Restarted(p, fate, disks))
  {
    ArrivalsAdd(disks);
    assert Init(Boot(p, fate));
    InitCalm(Boot(p, fate));
    IdleCalm(Boot(p, fate));
    hide Tame, Orderly, Init, Calm, Inv, Joining, OpenMappings;
    BeginStep(Boot(p, fate), p, Arrivals(disks));
  }

  lemma EndInv(cfg: Config, it: seq<State>)
    requires Good(cfg, it)
    ensures WfK(it[|it| - 1].os.k)
  {
    EnteredParts(cfg, it[0]);
    hide Entered, Inv, Unbroken, WritesWork;
    IterationInv(cfg, it, |it| - 1);
    var s := it[|it| - 1];
    assert s.phase.Idle?;
    IdleCalm(s);
    assert WfK(s.os.k) by { CalmWf(s); }
  }

  lemma CalmWf(s: State)
    requires Calm(s)
    ensures WfK(s.os.k)
  {
  }

  /** A second process that starts from `pl'` and brings the disks to the same fate. */
  ghost predicate SameEnd(pl: Plan, pl': Plan) {
    && pl' == pl.(k0 := pl'.k0, ats := pl'.ats, known := pl'.known) && Shapes(pl, pl'.k0) && |pl'.ats| == |pl.ats| == |pl.disks|
    && Final(Ids0(pl'), pl.cfg.pool) == Final(Ids0(pl), pl.cfg.pool)
    && forall i :: 0 <= i < |pl.disks| ==>
         PlaceAt(pl', i, pl'.ats[i]) == PlaceAt(pl, i, pl.ats[i]) && Want(Ids0(pl'), pl.cfg.pool, i) == Want(Ids0(pl), pl.cfg.pool, i)
  }

  /** Where a process has brought the disks of its plan. */
  ghost predicate Reached(pl: Plan, s: State) {
    Course(pl, s) && s.phase.Idle? && (forall d :: d in s.drives ==> AtGoal(s.os, d)) && WfK(s.os.k)
  }

  lemma ArrivalsAlike(pl: Plan, pl': Plan, s: State, t: State)
    requires Reached(pl, s) && Reached(pl', t) && SameEnd(pl, pl')
    ensures AllAlike(pl, s, t)
  {
    CourseLength(pl, s);
    CourseLength(pl', t);
    hide Course, AtGoal, WfK, Want, Ids0, Final, PlaceAt, Shapes, Alike;
    forall i | 0 <= i < |pl.disks| ensures DiskOf(s.drives[i]) == pl.disks[i].disk && Alike(s, t, i) {
      EndsAlike(pl, pl', s, t, i);
    }
  }

  lemma ArrivalsMeet(pl: Plan, pl': Plan, s: State, t: State)
    requires Planned(pl) && Reached(pl, s) && Reached(pl', t) && SameEnd(pl, pl') && Kept(pl, s.os.k) && Kept(pl, t.os.k)
    ensures AllAlike(pl, s, t) && SameMountPairs(s.os.k, t.os.k)
  {
    ArrivalsAlike(pl, pl', s, t);
    assert WfK(s.os.k) && WfK(t.os.k);
    hide Planned, Reached, SameEnd, Kept, AllAlike, SameMountPairs;
    TablesAlike(pl, s, t);
  }

  lemma GoodArrives(cfg: Config, it: seq<State>, ats: seq<Option<Path>>)
    requires Good(cfg, it) && OnDisks(it[0]) && Legible(PlanOf(cfg, it[0], ats))
    ensures Reached(PlanOf(cfg, it[0], ats), it[|it| - 1]) && Kept(PlanOf(cfg, it[0], ats), it[|it| - 1].os.k)
  {
    GoodEnds(cfg, it, ats);
    EndInv(cfg, it);
    hide Good, OnDisks, Legible, PlanOf, Course, AtGoal, WfK, Kept;
    IterationKept(cfg, it, ats, |it| - 1);
  }

  /** The new process, from the moment at which the old one was stopped. */
  lemma LaterArrives(cfg: Config, pl: Plan, p: Kernel, fate: (nat, Cmd) -> bool, later: seq<State>) returns (pl': Plan)
    requires Found(pl) && Recoverable(pl, p) && Kept(pl, p) && Orderly(p) && pl.cfg == cfg
    requires Chains.Reliable(fate) && Tame(Boot(p, fate), p, Arrivals(pl.disks)) && WritesWork(fate)
    requires Iteration(cfg, later) && later[0] == Restarted(p, fate, pl.disks) && Completed(later)
    ensures SameEnd(pl, pl') && Reached(pl', later[|later| - 1]) && Kept(pl, later[|later| - 1].os.k)
  {
    hide Found, Recoverable, Tame, Orderly, Want, Ids0, Final, PlaceAt, Shapes, Reached, Kept, WritesWork, Named, Legible, Entered, Restarted, PlanOf, Iteration, Unbroken, Planned;
    pl' := SecondPlan(pl, p);
    FoundLegible(pl');
    FoundLength(pl);
    FoundLength(pl');
    RestartedPlan(cfg, p, fate, pl.disks, pl'.ats);
    RestartedEntered(cfg, p, fate, pl.disks);
    GoodArrives(cfg, later, pl'.ats);
    KeptAgain(pl, pl', later[|later| - 1].os.k);
  }

  lemma FoundLength(pl: Plan)
    requires Found(pl)
    ensures Planned(pl) && |pl.ats| == |pl.disks|
  {
  }

  /** Crash recovery: an iteration in which disks may join is stopped between any two commands, and a new process
    is started that finds the same disks, in the same order. It ends with the same disk contents, swift-ids,
    assignments and mounts as the iteration would have, in both namespaces the same devices at the same paths,
    provided that neither leaves a broken drive and no swift-id fails to be written. */
  lemma RestartEndsSame(cfg: Config, it: seq<State>, ats: seq<Option<Path>>, i: nat, j: nat, fate: (nat, Cmd) -> bool, later: seq<State>)
    requires Good(cfg, it) && OnDisks(it[0]) && Legible(PlanOf(cfg, it[0], ats)) && IsMoment(it, i, j)
    requires var p, disks := Moment(it, i, j), PlanOf(cfg, it[0], ats).disks;
      && Chains.Reliable(fate) && Tame(Boot(p, fate), p, Arrivals(disks)) && WritesWork(fate)
      && Iteration(cfg, later) && later[0] == Restarted(p, fate, disks) && Completed(later)
    ensures var s, t := it[|it| - 1], later[|later| - 1];
      && |s.drives| == |t.drives| == |PlanOf(cfg, it[0], ats).disks| && (forall n :: 0 <= n < |s.drives| ==> Alike(s, t, n))
      && SameMountPairs(s.os.k, t.os.k)
  {
    var pl := PlanOf(cfg, it[0], ats);
    PlanCfg(cfg, it[0], ats);
    EnteredParts(cfg, it[0]);
    EnteredFound(cfg, it[0], ats);
    RecoverableMoment(cfg, it, ats, i, j);
    ProperMoment(cfg, it, i, j);
    KeptMoment(cfg, it, ats, i, j);
    GoodArrives(cfg, it, ats);
    FoundLength(pl);
    hide Good, Found, Planned, Recoverable, Moment, IsMoment, Tame, Orderly, SameEnd, Reached, Kept, WritesWork, Named, Legible, OnDisks, Restarted, PlanOf, Iteration, Completed, Alike, SameMountPairs, Inv;
    var pl' := LaterArrives(cfg, pl, Moment(it, i, j), fate, later);
    ArrivalsMeet(pl, pl', it[|it| - 1], later[|later| - 1]);
  }
}
