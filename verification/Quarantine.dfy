/** Quarantine: what happens, over runs of any kind, to a drive that has been marked as broken. */
module Quarantine {
  import opened Names
  import opened Kernels
  import opened Machine
  import opened Devices
  import opened Drives
  import opened Commands
  import opened Convergers
  import opened Runs
  import Assignments
  import Allocations

  /** The drives at this path exist, and all of them are broken. */
  ghost predicate Quarantined(s: State, path: DevPath) {
    (exists d :: d in s.drives && d.path == path) && forall d :: d in s.drives && d.path == path ==> d.broken
  }

  /** The next event handled, if any. */
  function Upcoming(s: State): Option<Event> {
    if s.phase.Handling? && s.phase.events != [] then Some(s.phase.events[0]) else None
  }

  /** Only an event for this very device ends the quarantine. */
  predicate Releases(e: Event, path: DevPath) {
    (e.Added? || e.Removed? || e.Reinstated?) && e.path == path
  }

  predicate Released(s: State, path: DevPath) {
    Upcoming(s).Some? && Releases(Upcoming(s).value, path)
  }

  lemma BrokenStays(os: Os, d: Drive)
    requires d.device.Some?
    ensures var d' := ConvergeDrive(os, d).0; d'.path == d.path && (d.broken ==> d'.broken)
  {
    hide Setup, Teardown;
  }

  lemma {:induction false} WithoutExact(drives: seq<Drive>, path: DevPath)
    ensures forall d :: d in Without(drives, path) <==> d in drives && d.path != path
  {
    if drives != [] {
      WithoutExact(drives[1..], path);
    }
  }

  lemma HandleQuarantined(os: Os, drives: seq<Drive>, e: Event, cfg: Config, path: DevPath)
    requires (exists d :: d in drives && d.path == path) && forall d :: d in drives && d.path == path ==> d.broken
    requires !Releases(e, path) && Handle(os, drives, e, cfg).Some?
    ensures var after := Handle(os, drives, e, cfg).value.1;
      (exists d :: d in after && d.path == path) && forall d :: d in after && d.path == path ==> d.broken
  {
    hide NewDrive, ConvergeDrive, TeardownDrive, MarkAsBroken;
    var i :| 0 <= i < |drives| && drives[i].path == path;
    var after := Handle(os, drives, e, cfg).value.1;
    match e
    case Added(p, driveId) =>
      var (d, os1) := NewDrive(os, p, driveId, cfg.keys);
      NewDrivePath(os, p, driveId, cfg.keys);
      ConvergePath(os1, d);
      assert after[i] in after;
    case Removed(p) =>
      WithoutExact(drives, p);
    case Errored(p) =>
      var j := IndexOf(drives, p);
      if j < |drives| {
        MarkKeepsPath(os, drives[j]);
        assert after[i].path == path && after[i] in after;
      }
    case Reinstated(p) =>
      var j := IndexOf(drives, p);
      if j < |drives| {
        var (d, os1) := NewDrive(os, p, drives[j].driveId, drives[j].keys);
        NewDrivePath(os, p, drives[j].driveId, drives[j].keys);
        ConvergePath(os1, d);
        assert after[i] in after;
      }
    case Wakeup =>
  }

  lemma NewDrivePath(os: Os, path: DevPath, driveId: string, keys: seq<string>)
    ensures NewDrive(os, path, driveId, keys).0.path == path
  {
    hide Run;
  }

  lemma ConvergePath(os: Os, d: Drive)
    requires d.device.Some?
    ensures ConvergeDrive(os, d).0.path == d.path
  {
    hide Setup, Teardown;
  }

  lemma MarkKeepsPath(os: Os, d: Drive)
    ensures var d' := MarkAsBroken(os, d).0; d'.path == d.path && d'.broken
  {
  }

  lemma UpdateKeepsBroken(os: Os, drives: seq<Drive>, pool: seq<string>)
    ensures var after := Assignments.UpdateAssignments(os, drives, pool).0;
      forall i :: 0 <= i < |drives| ==> after[i].path == drives[i].path && after[i].broken == drives[i].broken
  {
    Allocations.RoundExact(os, drives, pool);
    hide Assignments.UpdateAssignments, Assignments.Verdict, Assignments.ReadAll;
    var readings := Assignments.ReadAll(os, drives).0;
    var judged, after := Assignments.Judged(readings, drives, pool), Assignments.UpdateAssignments(os, drives, pool).0;
    forall i | 0 <= i < |drives| ensures after[i].path == drives[i].path && after[i].broken == drives[i].broken {
      assert judged[i].path == drives[i].path;
    }
  }

  lemma ReplacedQuarantined(drives: seq<Drive>, i: nat, d: Drive, path: DevPath)
    requires i < |drives| && d.path == drives[i].path && (drives[i].broken ==> d.broken)
    requires (exists e :: e in drives && e.path == path) && forall e :: e in drives && e.path == path ==> e.broken
    ensures var after := drives[i := d];
      (exists e :: e in after && e.path == path) && forall e :: e in after && e.path == path ==> e.broken
  {
    var j :| 0 <= j < |drives| && drives[j].path == path;
    assert drives[i := d][j] in drives[i := d];
    assert drives[i] in drives;
  }

  /** One step of the converger keeps a device quarantined, unless it is added anew, removed or
    reinstated. */
  lemma StepQuarantined(s: State, cfg: Config, path: DevPath)
    requires Quarantined(s, path) && !Released(s, path) && Step(s, cfg).Some?
    ensures Quarantined(Step(s, cfg).value, path)
  {
    hide Handle, ConvergeDrive, Assignments.UpdateAssignments;
    match s.phase
    case Handling(events) =>
      if events != [] {
        HandleQuarantined(s.os, s.drives, events[0], cfg, path);
      }
    case First(i) =>
      if i < |s.drives| {
        BrokenStays(s.os, s.drives[i]);
        ReplacedQuarantined(s.drives, i, ConvergeDrive(s.os, s.drives[i]).0, path);
      }
    case Second(i) =>
      if i < |s.drives| && !s.drives[i].broken {
        BrokenStays(s.os, s.drives[i]);
        ReplacedQuarantined(s.drives, i, ConvergeDrive(s.os, s.drives[i]).0, path);
      }
    case Assigning =>
      UpdateQuarantined(s.os, s.drives, cfg.pool, path);
    case Idle =>
  }

  lemma UpdateQuarantined(os: Os, drives: seq<Drive>, pool: seq<string>, path: DevPath)
    requires (exists e :: e in drives && e.path == path) && forall e :: e in drives && e.path == path ==> e.broken
    ensures var after := Assignments.UpdateAssignments(os, drives, pool).0;
      (exists e :: e in after && e.path == path) && forall e :: e in after && e.path == path ==> e.broken
  {
    UpdateKeepsBroken(os, drives, pool);
    hide Assignments.UpdateAssignments;
    var after := Assignments.UpdateAssignments(os, drives, pool).0;
    var j :| 0 <= j < |drives| && drives[j].path == path;
    assert after[j] in after;
    forall e | e in after && e.path == path ensures e.broken {
      var i :| 0 <= i < |after| && after[i] == e;
      assert drives[i] in drives;
    }
  }

  /** Which drive a step works on. */
  function Actor(s: State): Option<DevPath> {
    match s.phase
    case First(i) => if i < |s.drives| then Some(s.drives[i].path) else None
    case Second(i) => if i < |s.drives| then Some(s.drives[i].path) else None
    case Handling(events) => if events == [] || events[0].Wakeup? then None else Some(events[0].path)
    case _ => None
  }

  /** What may still be done for a device in quarantine: umounts, closing containers, and setting its
    broken flag once more. */
  predicate Winding(c: Cmd) {
    c.Umount? || c.LuksClose? || c.SetFlag?
  }

  lemma WindingSteps(a: Os, b: Os, p: Cmd -> bool)
    requires Ran(a, b, p) && forall c :: p(c) ==> Winding(c)
    ensures Ran(a, b, Winding)
  {
    RanWider(a, b, p, Winding);
  }

  lemma ErrorWinds(os: Os, drives: seq<Drive>, path: DevPath, cfg: Config)
    ensures Handle(os, drives, Errored(path), cfg).Some?
    ensures Ran(os, Handle(os, drives, Errored(path), cfg).value.0, Winding)
  {
    hide MarkAsBroken, Ran;
    RanNothing(os, os, Winding);
    var i := IndexOf(drives, path);
    if i < |drives| {
      MarkRan(os, drives[i], Winding);
    }
  }

  /** Every step that works on a device in quarantine only winds it down: nothing is mounted, formatted,
    opened or written for it. */
  lemma QuarantineWinds(s: State, cfg: Config, path: DevPath)
    requires Quarantined(s, path) && !Released(s, path) && Actor(s) == Some(path) && Step(s, cfg).Some?
    ensures Ran(s.os, Step(s, cfg).value.os, Winding)
  {
    hide Handle, ConvergeDrive, Ran, Assignments.UpdateAssignments;
    RanNothing(s.os, s.os, Winding);
    match s.phase
    case Handling(events) =>
      ErrorWinds(s.os, s.drives, path, cfg);
    case First(i) =>
      assert s.drives[i] in s.drives;
      ConvergeBrokenRan(s.os, s.drives[i]);
      WindingSteps(s.os, ConvergeDrive(s.os, s.drives[i]).1, Tearing);
    case Second(i) =>
      assert s.drives[i] in s.drives;
  }

  /** As long as anything is in quarantine, no swift-id is written anywhere. */
  lemma QuarantineBlocks(s: State, cfg: Config, path: DevPath)
    requires Quarantined(s, path) && s.phase.Assigning?
    ensures var t := Step(s, cfg).value;
      s.os.log <= t.os.log && Allocations.GoodWrites(Since(s.os, t.os)) == [] && t.os.k.disks == s.os.k.disks
  {
    var d :| d in s.drives && d.path == path;
    assert Assignments.AnyBroken(s.drives);
    Allocations.RoundExact(s.os, s.drives, cfg.pool);
    UpdateReadsOnly(s.os, s.drives, cfg.pool);
    hide Assignments.UpdateAssignments, Assignments.AnyBroken, Allocations.GoodWrites;
  }

  lemma UpdateReadsOnly(os: Os, drives: seq<Drive>, pool: seq<string>)
    requires Assignments.AnyBroken(drives)
    ensures Assignments.UpdateAssignments(os, drives, pool).1.k.disks == os.k.disks
  {
    ReadsKeepDisks(os, drives);
    hide Assignments.ReadAll, Assignments.Judged, Assignments.AnyMisplaced, Assignments.Taken, Assignments.Allocate;
  }

  lemma {:induction false} ReadsKeepDisks(os: Os, drives: seq<Drive>)
    ensures Assignments.ReadAll(os, drives).1.k.disks == os.k.disks
    decreases |drives|
  {
    if drives != [] {
      ReadsKeepDisks(Assignments.ReadOne(os, drives[0]).1, drives[1..]);
    }
  }

  /** Quarantine over runs: in any world, whatever fails, a device whose drive is marked as broken stays so
    from one state to any later one, as long as no event adds it anew, removes it or reinstates it. */
  lemma {:induction false} RunQuarantined(world: World, cfg: Config, run: seq<State>, path: DevPath, i: nat, j: nat)
    requires IsRun(world, cfg, run) && i <= j < |run| && Quarantined(run[i], path)
    requires forall n :: i <= n < j ==> !Released(run[n], path)
    ensures Quarantined(run[j], path)
    decreases j - i
  {
    hide Quarantined, Released, Step, Begin;
    if i < j {
      RunQuarantined(world, cfg, run, path, i, j - 1);
      var s := run[j - 1];
      assert Next(world, cfg, s, run[j]);
      if s.phase.Idle? {
        var k, events :| world(s, k, events) && run[j] == Begin(s, k, events);
        BeginQuarantined(s, k, events, path);
      } else {
        StepQuarantined(s, cfg, path);
      }
    }
  }

  lemma BeginQuarantined(s: State, k: Kernel, events: seq<Event>, path: DevPath)
    requires Quarantined(s, path)
    ensures Quarantined(Begin(s, k, events), path)
  {
  }

  // ---- drives without a readable device ----

  /** The converger calls into the device of a drive without looking whether there is one: an added drive
    ends the process exactly when its device is unreadable, whether it is marked as broken or not. */
  lemma UnreadableKills(os: Os, drives: seq<Drive>, path: DevPath, driveId: string, cfg: Config)
    ensures Handle(os, drives, Added(path, driveId), cfg).None? <==> ClassifyDevice(os, path).0.Unreadable?
  {
    hide Run, ConvergeDrive;
    DeviceKept(os, path, driveId, cfg.keys);
  }

  /** The process is about to die: the next event makes a drive object for a device that cannot be read. */
  predicate Dying(s: State) {
    && Upcoming(s).Some?
    && var e := Upcoming(s).value;
       && (e.Added? || (e.Reinstated? && exists d :: d in s.drives && d.path == e.path))
       && ClassifyDevice(s.os, e.path).0.Unreadable?
  }

  lemma IndexFound(drives: seq<Drive>, path: DevPath)
    ensures IndexOf(drives, path) < |drives| <==> exists d :: d in drives && d.path == path
  {
    var i := IndexOf(drives, path);
    if i < |drives| {
      assert drives[i] in drives;
    } else {
      forall d | d in drives ensures d.path != path {
        var j :| 0 <= j < |drives| && drives[j] == d;
      }
    }
  }

  /** Exactly when the process dies, from any state in which all known devices are there: when the next event adds a
    drive, or reinstates a managed one, whose device cannot be read. No other step kills it, whatever fails. */
  lemma StepDies(s: State, cfg: Config)
    requires forall d :: d in s.drives ==> d.device.Some?
    ensures Step(s, cfg).None? <==> Dying(s)
  {
    hide Run, ConvergeDrive, TeardownDrive, MarkAsBroken, ClassifyDevice, NewDrive, NewDevice, Assignments.UpdateAssignments;
    if Upcoming(s).Some? && !Upcoming(s).value.Wakeup? {
      var path := Upcoming(s).value.path;
      IndexFound(s.drives, path);
      DeviceKept(s.os, path, if Upcoming(s).value.Added? then Upcoming(s).value.driveId else "", cfg.keys);
      var i := IndexOf(s.drives, path);
      if i < |s.drives| {
        DeviceKept(s.os, path, s.drives[i].driveId, s.drives[i].keys);
      }
    } else {
      StepsOn(s, cfg);
    }
  }

  lemma StepsOn(s: State, cfg: Config)
    requires (forall d :: d in s.drives ==> d.device.Some?) && (Upcoming(s).Some? ==> Upcoming(s).value.Wakeup?)
    ensures Step(s, cfg).Some?
  {
    hide Run, ConvergeDrive, Assignments.UpdateAssignments;
    if s.phase.First? || s.phase.Second? {
      if s.phase.i < |s.drives| {
        assert s.drives[s.phase.i] in s.drives;
      }
    }
  }

  lemma DeviceKept(os: Os, path: DevPath, driveId: string, keys: seq<string>)
    ensures NewDrive(os, path, driveId, keys).0.device == NewDevice(os, path, keys != []).0
    ensures NewDevice(os, path, keys != []).0.None? <==> ClassifyDevice(os, path).0.Unreadable?
    ensures NewDevice(os, path, keys != []).0.None? ==> NewDrive(os, path, driveId, keys).0.broken
  {
    hide Run;
  }
}
