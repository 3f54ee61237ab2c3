/** The converger as a transition system: one step is one event handled, one drive converged, or one
  round of assignments, in the order `RunConverger` goes through them. */
module Convergers {
  import opened Names
  import opened Kernels
  import opened Machine
  import opened Devices
  import opened Drives
  import opened Assignments

  datatype Event =
    | Added(path: DevPath, driveId: string)
    | Removed(path: DevPath)
    | Errored(path: DevPath)
    | Reinstated(path: DevPath)
    | Wakeup

  datatype Phase = Idle | Handling(events: seq<Event>) | First(i: nat) | Assigning | Second(i: nat)

  datatype Config = Config(pool: seq<string>, keys: seq<string>)

  datatype State = State(os: Os, drives: seq<Drive>, phase: Phase)

  /** The mappings the refresh finds: each open container with the device file it is open at. */
  ghost function OpenMappings(k: Kernel): map<DevPath, DevPath> {
    map p | p in Backings(k) :: Mapper(NameFor(k, p))
  }

  function Backings(k: Kernel): set<DevPath> {
    set m | m in k.slots :: k.slots[m].backing
  }

  ghost function NameFor(k: Kernel, p: DevPath): (m: string)
    requires p in Backings(k)
    ensures m in k.slots && k.slots[m].backing == p
  {
    var m :| m in k.slots && k.slots[m].backing == p; m
  }

  ghost function Refresh(os: Os): Os {
    RefreshMounts(os).(luks := OpenMappings(os.k))
  }

  /** A batch of events arrives, and the autopilot looks at a system that may have changed meanwhile. */
  ghost function Begin(st: State, k: Kernel, events: seq<Event>): State {
    st.(os := Refresh(st.os.(k := k)), phase := Handling(events))
  }

  function IndexOf(drives: seq<Drive>, path: DevPath): (i: nat)
    ensures i <= |drives|
    ensures i < |drives| ==> drives[i].path == path
    ensures forall j :: 0 <= j < i ==> drives[j].path != path
  {
    if drives == [] then 0 else if drives[0].path == path then 0 else 1 + IndexOf(drives[1..], path)
  }

  function Without(drives: seq<Drive>, path: DevPath): seq<Drive> {
    if drives == [] then []
    else (if drives[0].path == path then [] else [drives[0]]) + Without(drives[1..], path)
  }

  /** The last drive at `path`: the one the removal loop remembers. */
  function LastAt(drives: seq<Drive>, path: DevPath): Option<Drive> {
    if drives == [] then None
    else
      var n := |drives| - 1;
      if drives[n].path == path then Some(drives[n]) else LastAt(drives[..n], path)
  }

  /** Nothing is returned when the process dies on a drive without a readable device. */
  function Handle(os: Os, drives: seq<Drive>, e: Event, cfg: Config): Option<(Os, seq<Drive>)> {
    match e
    case Added(path, driveId) =>
      var (d, os1) := NewDrive(os, path, driveId, cfg.keys);
      if d.device.None? then None
      else
        var (d', os2) := ConvergeDrive(os1, d);
        Some((os2, drives + [d']))
    case Removed(path) =>
      var d := LastAt(drives, path);
      if d.None? then Some((os, drives)) else Some((TeardownDrive(os, d.value).1, Without(drives, path)))
    case Errored(path) =>
      var i := IndexOf(drives, path);
      if i == |drives| then Some((os, drives))
      else
        var (d, os1) := MarkAsBroken(os, drives[i]);
        Some((os1, drives[i := d]))
    case Reinstated(path) =>
      var i := IndexOf(drives, path);
      if i == |drives| then Some((os, drives))
      else
        var (d, os1) := NewDrive(os, path, drives[i].driveId, drives[i].keys);
        if d.device.None? then None
        else
          var (d', os2) := ConvergeDrive(os1, d);
          Some((os2, drives[i := d']))
    case Wakeup => Some((os, drives))
  }

  /** The next step of an iteration; nothing when the process has died. An idle state stays put. */
  function Step(st: State, cfg: Config): Option<State> {
    match st.phase
    case Idle => Some(st)
    case Handling(events) =>
      if events == [] then Some(st.(phase := First(0)))
      else
        var r := Handle(st.os, st.drives, events[0], cfg);
        if r.None? then None else Some(State(r.value.0, r.value.1, Handling(events[1..])))
    case First(i) =>
      if i >= |st.drives| then Some(st.(phase := Assigning))
      else if st.drives[i].device.None? then None
      else
        var (d, os) := ConvergeDrive(st.os, st.drives[i]);
        Some(State(os, st.drives[i := d], First(i + 1)))
    case Assigning =>
      var (drives, os) := UpdateAssignments(st.os, st.drives, cfg.pool);
      Some(State(os, drives, Second(0)))
    case Second(i) =>
      if i >= |st.drives| then Some(st.(phase := Idle))
      else if st.drives[i].broken then Some(st.(phase := Second(i + 1)))
      else if st.drives[i].device.None? then None
      else
        var (d, os) := ConvergeDrive(st.os, st.drives[i]);
        Some(State(os, st.drives[i := d], Second(i + 1)))
  }

  function StepsLeft(st: State): (nat, nat) {
    match st.phase
    case Idle => (0, 0)
    case Handling(events) => (4, |events|)
    case First(i) => (3, if i < |st.drives| then |st.drives| - i else 0)
    case Assigning => (2, 0)
    case Second(i) => (1, if i < |st.drives| then |st.drives| - i else 0)
  }

  /** Runs an iteration to its end. */
  function Finish(st: State, cfg: Config): Option<State>
    decreases StepsLeft(st).0, StepsLeft(st).1
  {
    if st.phase.Idle? then Some(st)
    else
      hide Handle, ConvergeDrive, UpdateAssignments;
      var next := Step(st, cfg);
      if next.None? then None else Finish(next.value, cfg)
  }

  /** The way to the end of the iteration goes through the next step. */
  lemma FinishStep(st: State, cfg: Config)
    requires !st.phase.Idle?
    ensures Finish(st, cfg) == if Step(st, cfg).None? then None else Finish(Step(st, cfg).value, cfg)
  {
    hide Handle, ConvergeDrive, UpdateAssignments;
  }
}
