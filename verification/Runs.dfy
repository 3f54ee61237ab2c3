/** Runs of the converger: iterations separated by whatever the outside world does meanwhile. */
module Runs {
  import opened Names
  import opened Kernels
  import opened Machine
  import opened Devices
  import opened Drives
  import opened Assignments
  import opened Convergers
  import opened Commands

  /** Which system states, with which events, may meet the autopilot when it next wakes up. */
  type World = (State, Kernel, seq<Event>) -> bool

  ghost predicate Next(world: World, cfg: Config, s: State, t: State) {
    if s.phase.Idle? then exists k, events :: world(s, k, events) && t == Begin(s, k, events)
    else Step(s, cfg) == Some(t)
  }

  ghost predicate IsRun(world: World, cfg: Config, run: seq<State>) {
    |run| > 0 && forall i :: 0 < i < |run| ==> Next(world, cfg, run[i - 1], run[i])
  }

  lemma HandleRan(os: Os, drives: seq<Drive>, e: Event, cfg: Config)
    ensures var r := Handle(os, drives, e, cfg);
      r.Some? ==> Ran(os, r.value.0, Unassigning)
  {
    hide NewDrive, ConvergeDrive, TeardownDrive, MarkAsBroken, Ran;
    RanNothing(os, os, Unassigning);
    match e
    case Added(path, driveId) =>
      AddRan(os, path, driveId, cfg.keys);
      var (d, os1) := NewDrive(os, path, driveId, cfg.keys);
      if d.device.Some? {
        assert Handle(os, drives, e, cfg).value.0 == ConvergeDrive(os1, d).1;
      }
    case Reinstated(path) =>
      var i := IndexOf(drives, path);
      if i < |drives| {
        AddRan(os, path, drives[i].driveId, drives[i].keys);
        var (d, os1) := NewDrive(os, path, drives[i].driveId, drives[i].keys);
        if d.device.Some? {
          assert Handle(os, drives, e, cfg).value.0 == ConvergeDrive(os1, d).1;
        }
      }
    case Errored(path) =>
      var i := IndexOf(drives, path);
      if i < |drives| {
        MarkRan(os, drives[i], Unassigning);
      }
    case Removed(path) =>
      var d := LastAt(drives, path);
      if d.Some? {
        TeardownDriveRan(os, d.value);
        RanWider(os, TeardownDrive(os, d.value).1, Tearing, Unassigning);
      }
    case Wakeup =>
  }

  lemma AddRan(os: Os, path: DevPath, driveId: string, keys: seq<string>)
    ensures var (d, os1) := NewDrive(os, path, driveId, keys);
      d.device.Some? ==> Ran(os, ConvergeDrive(os1, d).1, Unassigning)
  {
    hide NewDrive, ConvergeDrive, Ran;
    NewDriveRan(os, path, driveId, keys);
    var (d, os1) := NewDrive(os, path, driveId, keys);
    RanWider(os, os1, Looking, Unassigning);
    if d.device.Some? {
      ConvergeRan(os1, d);
      RanWider(os1, ConvergeDrive(os1, d).1, Converging, Unassigning);
      RanTransitive(os, os1, ConvergeDrive(os1, d).1, Unassigning);
    }
  }

  lemma HandleWider(os: Os, drives: seq<Drive>, e: Event, cfg: Config)
    ensures var r := Handle(os, drives, e, cfg);
      r.Some? ==> Ran(os, r.value.0, Anything)
  {
    hide Handle, Ran;
    HandleRan(os, drives, e, cfg);
    var r := Handle(os, drives, e, cfg);
    if r.Some? {
      RanWider(os, r.value.0, Unassigning, Anything);
    }
  }

  /** Every step of an iteration is a safe run of commands. */
  lemma StepRan(st: State, cfg: Config)
    ensures var t := Step(st, cfg);
      t.Some? ==> Ran(st.os, t.value.os, Anything)
  {
    hide Handle, ConvergeDrive, UpdateAssignments, Ran;
    RanNothing(st.os, st.os, Anything);
    match st.phase
    case Handling(events) =>
      if events != [] {
        HandleWider(st.os, st.drives, events[0], cfg);
      }
    case First(i) =>
      if i < |st.drives| && st.drives[i].device.Some? {
        ConvergeRan(st.os, st.drives[i]);
        RanWider(st.os, ConvergeDrive(st.os, st.drives[i]).1, Converging, Anything);
      }
    case Second(i) =>
      if i < |st.drives| && st.drives[i].device.Some? {
        ConvergeRan(st.os, st.drives[i]);
        RanWider(st.os, ConvergeDrive(st.os, st.drives[i]).1, Converging, Anything);
      }
    case Assigning =>
      UpdateRan(st.os, st.drives, cfg.pool);
      RanWider(st.os, UpdateAssignments(st.os, st.drives, cfg.pool).1, Commands.Assigning, Anything);
    case Idle =>
  }
}
