/** An iteration in which no drive breaks, from the disks known at its start to every disk in its place; and
  the same once more, by a process that was started after the first one was stopped somewhere in the middle. */
module IterationCourse {
  import opened Names
  import opened Tables
  import opened Kernels
  import opened KernelFacts
  import opened Machine
  import opened Devices
  import opened Drives
  import opened Commands
  import opened Convergence
  import opened Fleets
  import opened Convergers
  import opened Exclusivity
  import opened Handlers
  import opened AssignSteps
  import opened Safety
  import opened Runs
  import opened Moments
  import opened Crashes
  import opened Recovery
  import opened Outcomes
  import opened Pools
  import opened Restarts
  import opened RoundMoments
  import Assignments
  import Chains
  import Quarantine
  import Origins

  /** All disks are found at once. */
  function Arrivals(disks: seq<NamedDisk>): (r: seq<Event>)
    ensures |r| == |disks|
    ensures forall i :: 0 <= i < |r| ==> r[i] == Added(Disk(disks[i].disk), disks[i].driveId)
  {
    seq(|disks|, i requires 0 <= i < |disks| => Added(Disk(disks[i].disk), disks[i].driveId))
  }

  /** The disks that a batch adds. */
  function JoinedDisks(events: seq<Event>): seq<NamedDisk> {
    if events == [] then []
    else if events[0].Added? then [NamedDisk(events[0].path.name, events[0].driveId)] + JoinedDisks(events[1..])
    else JoinedDisks(events[1..])
  }

  /** A batch that adds disks, and does nothing else. */
  predicate Joining(events: seq<Event>) {
    forall e :: e in events ==> e.Wakeup? || (e.Added? && e.path.Disk?)
  }

  lemma {:induction false} ArrivalsAdd(disks: seq<NamedDisk>)
    ensures Joining(Arrivals(disks)) && JoinedDisks(Arrivals(disks)) == disks
    decreases |disks|
  {
    if disks != [] {
      assert Arrivals(disks)[1..] == Arrivals(disks[1..]);
      ArrivalsAdd(disks[1..]);
      var t := disks[0];
      assert Arrivals(disks)[0] == Added(Disk(t.disk), t.driveId);
      forall e | e in Arrivals(disks) ensures e.Wakeup? || (e.Added? && e.path.Disk?) {
      }
    }
  }

  // ---- where everything is, in the course of an iteration ----

  function KeptHere(pl: Plan, j: nat): Option<Path>
    requires j < |pl.disks| == |pl.ats|
  {
    Some(Here(pl.ats[j], pl.disks[j].driveId))
  }

  function InPlace(pl: Plan, j: nat): Option<Path>
    requires j < |pl.disks| == |pl.ats|
  {
    Some(PlaceAt(pl, j, pl.ats[j]))
  }

  /** Where disk `j` is mounted when there are `h` drives. Those known from the start stay where they are until
    it is their turn. */
  function Spot(pl: Plan, phase: Phase, h: nat, j: nat): Option<Path>
    requires j < |pl.disks| == |pl.ats|
  {
    match phase
    case Handling(_) => if pl.known <= j < h then KeptHere(pl, j) else pl.ats[j]
    case First(c) => if j < c || pl.known <= j then KeptHere(pl, j) else pl.ats[j]
    case Assigning => KeptHere(pl, j)
    case Second(c) => if j < c then InPlace(pl, j) else KeptHere(pl, j)
    case Idle => InPlace(pl, j)
  }

  function Spots(pl: Plan, phase: Phase, h: nat): (r: seq<Option<Path>>)
    requires |pl.disks| == |pl.ats|
    ensures |r| == |pl.disks|
    ensures forall j :: 0 <= j < |r| ==> r[j] == Spot(pl, phase, h, j)
  {
    seq(|pl.disks|, j requires 0 <= j < |pl.disks| => Spot(pl, phase, h, j))
  }

  predicate Assigned(phase: Phase) {
    phase.Second? || phase.Idle?
  }

  function IdsIn(pl: Plan, phase: Phase): (r: seq<string>)
    ensures |r| == |pl.disks|
  {
    if Assigned(phase) then Final(Ids0(pl), pl.cfg.pool) else Ids0(pl)
  }

  /** What drive `j` is assigned: nothing if it is new, and after the round what the ids call for. */
  predicate Staked(pl: Plan, phase: Phase, j: nat, path: Option<Path>)
    requires j < |pl.disks|
  {
    if Assigned(phase) then path == Want(Ids0(pl), pl.cfg.pool, j) else pl.known <= j ==> path == None
  }

  predicate Finished(phase: Phase, j: nat) {
    phase.Idle? || (phase.Second? && j < phase.i)
  }

  ghost predicate AllWorking(pl: Plan, phase: Phase, drives: seq<Drive>) {
    && |drives| <= |pl.disks|
    && forall j :: 0 <= j < |drives| ==>
         Working(drives[j], pl.disks[j], pl.cfg.keys) && Staked(pl, phase, j, AssignedPath(drives[j].assignment))
  }

  ghost predicate AllFull(pl: Plan, phase: Phase, k: Kernel) {
    forall j :: 0 <= j < |pl.disks| && Finished(phase, j) ==> pl.disks[j].disk in k.disks && Full(k.disks[pl.disks[j].disk])
  }

  predicate Onward(pl: Plan, phase: Phase, h: nat) {
    if phase.Handling? then pl.known <= h <= |pl.disks| && Joining(phase.events) && JoinedDisks(phase.events) == pl.disks[h..]
    else h == |pl.disks| && (phase.Second? ==> phase.i <= h)
  }

  /** The state of an iteration in which no drive breaks. */
  ghost predicate Course(pl: Plan, s: State) {
    && Planned(pl) && Onward(pl, s.phase, |s.drives|) && AllWorking(pl, s.phase, s.drives) && WritesWork(s.os.fate)
    && Held(pl, s.os.k, IdsIn(pl, s.phase), Spots(pl, s.phase, |s.drives|)) && AllFull(pl, s.phase, s.os.k)
  }

  lemma PlaceThere(pl: Plan, j: nat)
    requires j < |pl.disks| == |pl.ats|
    ensures PlaceAt(pl, j, KeptHere(pl, j)) == PlaceAt(pl, j, pl.ats[j]) == PlaceAt(pl, j, InPlace(pl, j))
  {
    hide Want, Ids0;
  }

  lemma SpotsPlaces(pl: Plan, phase: Phase, h: nat)
    requires Planned(pl)
    ensures SamePlaces(pl, Spots(pl, phase, h))
  {
    hide Ids0, PlaceAt, KeptHere, InPlace;
    forall j | 0 <= j < |pl.disks| ensures PlaceAt(pl, j, Spot(pl, phase, h, j)) == PlaceAt(pl, j, pl.ats[j]) {
      PlaceThere(pl, j);
    }
  }

  lemma IdsHalfway(ids: seq<string>, pool: seq<string>)
    ensures Halfway(ids, pool, 0) == ids && Halfway(ids, pool, |ids|) == Final(ids, pool)
  {
    hide Pass;
    var f := Final(ids, pool);
    assert f[..0] + ids[0..] == ids && f[..|ids|] + ids[|ids|..] == f;
  }

  lemma SpotsFate(pl: Plan, phase: Phase, h: nat)
    requires Planned(pl)
    ensures SamePlaces(pl, Spots(pl, phase, h)) && SameFate(pl, IdsIn(pl, phase), Spots(pl, phase, h))
  {
    var ids, pool := Ids0(pl), pl.cfg.pool;
    SpotsPlaces(pl, phase, h);
    IdsHalfway(ids, pool);
    hide Spots, PlaceAt, Halfway, Final, Planned;
    var c := if Assigned(phase) then |ids| else 0;
    assert |ids| == |pl.disks|;
    assert IdsIn(pl, phase) == Halfway(ids, pool, c);
  }

  lemma AlwaysHeld(pl: Plan, os: Os, ids: seq<string>, places: seq<Option<Path>>)
    requires Held(pl, os.k, ids, places) && SameFate(pl, ids, places)
    ensures Always(os, os, RecoverableFor(pl))
  {
    hide Held, SameFate;
    AlwaysNothing(os, os, RecoverableFor(pl));
  }

  // ---- one step ----

  lemma NewDriveSuits(os: Os, t: NamedDisk, keys: seq<string>)
    ensures var m := NewDrive(os, Disk(t.disk), t.driveId, keys).0.device; m.Some? ==> Suits(m.value, t.disk, keys)
  {
    Quarantine.DeviceKept(os, Disk(t.disk), t.driveId, keys);
    FreshSuits(os, t.disk, keys);
    hide NewDrive, NewDevice, Suits;
  }

  /** A disk gets its drive object, which converges for the first time. */
  lemma NewcomerStep(pl: Plan, os: Os, h: nat, ids: seq<string>, places: seq<Option<Path>>)
    requires Planned(pl) && Held(pl, os.k, ids, places) && SameFate(pl, ids, places) && h < |pl.disks|
    requires Global(os) && Ready(os, Disk(pl.disks[h].disk), pl.disks[h].driveId)
    ensures var t := pl.disks[h];
      var (d, os1) := NewDrive(os, Disk(t.disk), t.driveId, pl.cfg.keys);
      d.device.Some? && var (d', os2) := ConvergeDrive(os1, d);
      !d'.broken ==>
        && Held(pl, os2.k, ids, places[h := Some(Here(places[h], t.driveId))]) && Always(os, os2, RecoverableFor(pl))
        && Working(d', t, pl.cfg.keys) && d'.assignment == None && os2.fate == os.fate
  {
    var t := pl.disks[h];
    NewDriveShape(os, Disk(t.disk), t.driveId, pl.cfg.keys);
    NewDriveRan(os, Disk(t.disk), t.driveId, pl.cfg.keys);
    NewDriveSuits(os, t, pl.cfg.keys);
    hide NewDrive, ConvergeDrive, Global, Chains.ChainOk, Candidate, Ready, Chains.Reliable, Always, Ran, Held, SameFate, Planned, Suits, Recoverable;
    var (d, os1) := NewDrive(os, Disk(t.disk), t.driveId, pl.cfg.keys);
    var (d', os2) := ConvergeDrive(os1, d);
    if !d'.broken {
      Quarantine.BrokenStays(os1, d);
      UnmovedCandidate(os, os1, d);
      UnmovedGlobal(os, os1, t.driveId);
      UnclaimedHomed(d);
      InertStep(pl, os, os1, ids, places, Looking);
      DriveStep(pl, os1, d, h, ids, places);
      HeldLength(pl, os.k, ids, places);
      WhitherIs(d, places[h]);
      ConvergeRan(os1, d);
      RanSteps(os, os1, Looking);
      RanSteps(os1, os2, Converging);
      AlwaysTransitive(os, os1, os2, RecoverableFor(pl));
    }
  }

  lemma HeldLength(pl: Plan, k: Kernel, ids: seq<string>, places: seq<Option<Path>>)
    requires Held(pl, k, ids, places)
    ensures |places| == |pl.disks| == |ids|
  {
  }

  ghost predicate Unbroken(s: State) {
    forall d :: d in s.drives ==> !d.broken
  }

  /** A step keeps the course, and its every moment leads to the same end. */
  ghost predicate Advances(pl: Plan, s: State, t: State) {
    Course(pl, t) && Always(s.os, t.os, RecoverableFor(pl))
  }

  lemma SpotsAdded(pl: Plan, events: seq<Event>, h: nat)
    requires Planned(pl) && pl.known <= h < |pl.disks| && events != []
    ensures Spots(pl, Handling(events), h)[h] == pl.ats[h]
    ensures Spots(pl, Handling(events[1..]), h + 1)
         == Spots(pl, Handling(events), h)[h := Some(Here(pl.ats[h], pl.disks[h].driveId))]
  {
    hide Here;
  }

  lemma ArrivalNext(pl: Plan, events: seq<Event>, h: nat)
    requires Onward(pl, Handling(events), h) && events != []
    ensures pl.known <= h
    ensures events[0].Added? ==>
      && h < |pl.disks| && events[0] == Added(Disk(pl.disks[h].disk), pl.disks[h].driveId)
      && Onward(pl, Handling(events[1..]), h + 1)
    ensures !events[0].Added? ==> events[0].Wakeup? && Onward(pl, Handling(events[1..]), h)
  {
    assert events[0] in events;
    assert forall e :: e in events[1..] ==> e in events;
    if events[0].Added? {
      assert pl.disks[h..][0] == JoinedDisks(events)[0] && pl.disks[h..][1..] == pl.disks[h + 1..];
    }
  }

  lemma AllWorkingAdded(pl: Plan, events: seq<Event>, drives: seq<Drive>, d: Drive)
    requires AllWorking(pl, Handling(events), drives) && pl.known <= |drives| < |pl.disks| && events != []
    requires Working(d, pl.disks[|drives|], pl.cfg.keys) && d.assignment == None
    ensures AllWorking(pl, Handling(events[1..]), drives + [d])
  {
    hide Working, Want, Ids0;
  }

  lemma AddedIs(s: State, cfg: Config)
    requires s.phase.Handling? && s.phase.events != [] && s.phase.events[0].Added? && Step(s, cfg).Some?
    ensures var e := s.phase.events[0];
      var (d, os1) := NewDrive(s.os, e.path, e.driveId, cfg.keys);
      d.device.Some? && var (d', os2) := ConvergeDrive(os1, d);
      Step(s, cfg) == Some(State(os2, s.drives + [d'], Handling(s.phase.events[1..])))
  {
    hide NewDrive, ConvergeDrive;
    var events := s.phase.events;
    var e := events[0];
    assert Handle(s.os, s.drives, e, cfg).Some?;
    var (d, os1) := NewDrive(s.os, e.path, e.driveId, cfg.keys);
    assert d.device.Some?;
    var (d', os2) := ConvergeDrive(os1, d);
    assert Handle(s.os, s.drives, e, cfg) == Some((os2, s.drives + [d']));
  }

  lemma CourseAddedTo(pl: Plan, s: State, d: Drive, os: Os)
    requires Course(pl, s) && s.phase.Handling? && s.phase.events != [] && s.phase.events[0].Added?
    requires |s.drives| < |pl.disks| == |pl.ats| && Working(d, pl.disks[|s.drives|], pl.cfg.keys) && d.assignment == None && os.fate == s.os.fate
    requires Held(pl, os.k, Ids0(pl), Spots(pl, s.phase, |s.drives|)[|s.drives| := Some(Here(pl.ats[|s.drives|], pl.disks[|s.drives|].driveId))])
    ensures Course(pl, State(os, s.drives + [d], Handling(s.phase.events[1..])))
  {
    ArrivalNext(pl, s.phase.events, |s.drives|);
    SpotsAdded(pl, s.phase.events, |s.drives|);
    AllWorkingAdded(pl, s.phase.events, s.drives, d);
    hide Planned, Onward, AllWorking, Held, Spots, Ids0, Final, WritesWork, Here, Working;
  }

  lemma ReadyNext(s: State)
    requires Inv(s) && s.phase.Handling? && s.phase.events != [] && s.phase.events[0].Added?
    ensures Global(s.os) && Ready(s.os, s.phase.events[0].path, s.phase.events[0].driveId)
  {
    var e := s.phase.events[0];
    assert e in s.phase.events && PendingOk(s.os, s.drives, e);
    hide Global, Members, Ready, EventsApart, Expected;
  }

  lemma CourseAdded(pl: Plan, s: State)
    requires Course(pl, s) && Inv(s) && s.phase.Handling? && s.phase.events != [] && s.phase.events[0].Added?
    requires Step(s, pl.cfg).Some? && Unbroken(Step(s, pl.cfg).value)
    ensures Advances(pl, s, Step(s, pl.cfg).value)
  {
    var events, h := s.phase.events, |s.drives|;
    ArrivalNext(pl, events, h);
    assert Planned(pl) && Held(pl, s.os.k, Ids0(pl), Spots(pl, s.phase, h));
    var t := pl.disks[h];
    ReadyNext(s);
    SpotsFate(pl, s.phase, h);
    SpotsAdded(pl, events, h);
    AddedIs(s, pl.cfg);
    hide Inv, Course, Onward, Step, Held, NewDrive, ConvergeDrive, Global, Ready, SameFate, SamePlaces, Spots, Working, Recoverable, Ids0, Final, Here;
    NewcomerStep(pl, s.os, h, Ids0(pl), Spots(pl, s.phase, h));
    var (d, os1) := NewDrive(s.os, Disk(t.disk), t.driveId, pl.cfg.keys);
    var (d', os2) := ConvergeDrive(os1, d);
    assert d' in s.drives + [d'];
    CourseAddedTo(pl, s, d', os2);
  }

  lemma SpotsFirst(pl: Plan, i: nat)
    requires Planned(pl) && i < |pl.disks|
    ensures var places := Spots(pl, First(i), |pl.disks|);
      Spots(pl, First(i + 1), |pl.disks|) == places[i := Some(Here(places[i], pl.disks[i].driveId))]
  {
  }

  lemma AllWorkingUpdate(pl: Plan, phase: Phase, phase': Phase, drives: seq<Drive>, i: nat, d: Drive)
    requires AllWorking(pl, phase, drives) && i < |drives| && Assigned(phase) == Assigned(phase')
    requires Working(d, pl.disks[i], pl.cfg.keys) && d.assignment == drives[i].assignment
    ensures AllWorking(pl, phase', drives[i := d])
  {
    hide Working, Want, Ids0;
  }

  lemma FleetGlobal(os: Os, drives: seq<Drive>, i: nat)
    requires Fleet(os, drives, []) && i < |drives|
    ensures Global(os) && Member(os, drives[i])
  {
    assert drives[i] in drives;
  }

  lemma CourseWorking(pl: Plan, s: State, i: nat)
    requires Course(pl, s) && i < |s.drives|
    ensures Planned(pl) && i < |pl.disks| && Working(s.drives[i], pl.disks[i], pl.cfg.keys)
    ensures Staked(pl, s.phase, i, AssignedPath(s.drives[i].assignment))
    ensures Held(pl, s.os.k, IdsIn(pl, s.phase), Spots(pl, s.phase, |s.drives|))
    ensures SamePlaces(pl, Spots(pl, s.phase, |s.drives|)) && SameFate(pl, IdsIn(pl, s.phase), Spots(pl, s.phase, |s.drives|))
  {
    SpotsFate(pl, s.phase, |s.drives|);
    hide Held, Working, Planned, SameFate, SamePlaces;
  }

  lemma HasMountAt(k: Kernel, n: string, path: Path, at: Option<Path>)
    requires Origins.HasMount(k, n, path) && At(k, n, at)
    ensures at == Some(path)
  {
    var m :| From(k, m, n) && m.path == path;
  }

  /** A known drive that does not break is where its claim says. */
  lemma HomedThere(os: Os, d: Drive, at: Option<Path>)
    requires Global(os) && Candidate(os, d) && !d.broken && Homed(d) && At(os.k, DiskOf(d), at) && !ConvergeDrive(os, d).0.broken
    ensures AssignedPath(d.assignment).Some? ==> AssignedPath(d.assignment) == at
  {
    ConvergeGoesWhere(os, d);
    hide ConvergeDrive, Global, Candidate, Origins.HasMount, Origins.Origin, At, DriveMountedPath;
    if AssignedPath(d.assignment).Some? {
      HasMountAt(os.k, DiskOf(d), DriveMountedPath(d).value, at);
    }
  }

  /** A drive whose turn it is goes where it is to be in the end, or stays. */
  lemma ActorWants(pl: Plan, s: State, i: nat)
    requires Course(pl, s) && Global(s.os) && i < |s.drives| && Candidate(s.os, s.drives[i])
    requires (s.phase.First? && Homed(s.drives[i])) || s.phase.Second?
    requires !ConvergeDrive(s.os, s.drives[i]).0.broken
    ensures i < |pl.disks| == |Spots(pl, s.phase, |s.drives|)|
    ensures AssignedPath(s.drives[i].assignment) in {None, Want(Ids0(pl), pl.cfg.pool, i), Spots(pl, s.phase, |s.drives|)[i]}
  {
    CourseWorking(pl, s, i);
    var places := Spots(pl, s.phase, |s.drives|);
    if s.phase.First? {
      assert At(s.os.k, pl.disks[i].disk, places[i]) by { HeldAt(pl, s.os.k, IdsIn(pl, s.phase), places, i); }
      hide Course, ConvergeDrive, Global, Candidate, Homed, Want, At, Spots, Suits;
      HomedThere(s.os, s.drives[i], places[i]);
    }
  }

  lemma HeldAt(pl: Plan, k: Kernel, ids: seq<string>, places: seq<Option<Path>>, i: nat)
    requires Held(pl, k, ids, places) && i < |pl.disks|
    ensures |places| == |pl.disks| && At(k, pl.disks[i].disk, places[i])
  {
    hide At, Shapes;
  }

  /** One drive of the fleet converges, in either round. */
  lemma ActorStep(pl: Plan, s: State, i: nat)
    requires Course(pl, s) && Fleet(s.os, s.drives, []) && i < |s.drives|
    requires (s.phase.First? && Homed(s.drives[i])) || (s.phase.Second? && Entitled(s.os.k, s.drives[i]))
    ensures i < |pl.disks| == |Spots(pl, s.phase, |s.drives|)| && s.drives[i].device.Some?
    ensures var t, places := pl.disks[i], Spots(pl, s.phase, |s.drives|);
      var want, (d', os') := AssignedPath(s.drives[i].assignment), ConvergeDrive(s.os, s.drives[i]);
      !d'.broken ==>
        && Held(pl, os'.k, IdsIn(pl, s.phase), places[i := Some(if want.Some? then want.value else Here(places[i], t.driveId))])
        && (s.phase.First? && want.Some? ==> want == places[i])
        && Always(s.os, os', RecoverableFor(pl)) && Working(d', t, pl.cfg.keys) && d'.assignment == s.drives[i].assignment
        && SameDisks(s.os.k, os'.k, t.disk, pl.cfg.keys) && Full(os'.k.disks[t.disk]) && os'.fate == s.os.fate
  {
    FleetGlobal(s.os, s.drives, i);
    MemberIsCandidate(s.os, s.drives[i]);
    CourseWorking(pl, s, i);
    assert s.drives[i].device.Some? && s.drives[i].driveId == pl.disks[i].driveId && !s.drives[i].broken;
    hide Course, Fleet, Planned, Held, ConvergeDrive, Global, SameFate, SamePlaces, Working, Recoverable, Here, Candidate, Member, Homed, Want, Entitled, IdsIn, Always, SameDisks, Full, Spot, At;
    var d, places := s.drives[i], Spots(pl, s.phase, |s.drives|);
    if !ConvergeDrive(s.os, d).0.broken {
      ActorWants(pl, s, i);
      assert At(s.os.k, pl.disks[i].disk, places[i]) by { HeldAt(pl, s.os.k, IdsIn(pl, s.phase), places, i); }
      if s.phase.First? {
        WorkingDisk(d, pl.disks[i], pl.cfg.keys);
        HomedThere(s.os, d, places[i]);
      }
      DriveStep(pl, s.os, d, i, IdsIn(pl, s.phase), places);
      WhitherIs(d, places[i]);
      ConvergeRan(s.os, d);
      SameFateOf(s.os, ConvergeDrive(s.os, d).1, Converging);
    }
  }

  lemma WorkingDisk(d: Drive, t: NamedDisk, keys: seq<string>)
    requires Working(d, t, keys)
    ensures DiskOf(d) == t.disk && d.driveId == t.driveId && !d.broken
  {
    hide Suits;
  }

  lemma FirstIs(s: State, cfg: Config)
    requires s.phase.First? && s.phase.i < |s.drives| && s.drives[s.phase.i].device.Some?
    ensures var (d, os) := ConvergeDrive(s.os, s.drives[s.phase.i]);
      Step(s, cfg) == Some(State(os, s.drives[s.phase.i := d], First(s.phase.i + 1)))
  {
    hide ConvergeDrive;
  }

  lemma CourseFirstTo(pl: Plan, s: State, d: Drive, os: Os)
    requires Course(pl, s) && s.phase.First? && s.phase.i < |s.drives| && s.phase.i < |pl.disks| == |pl.ats| && os.fate == s.os.fate
    requires Working(d, pl.disks[s.phase.i], pl.cfg.keys) && d.assignment == s.drives[s.phase.i].assignment
    requires var places := Spots(pl, s.phase, |s.drives|);
      Held(pl, os.k, Ids0(pl), places[s.phase.i := Some(Here(places[s.phase.i], pl.disks[s.phase.i].driveId))])
    ensures Course(pl, State(os, s.drives[s.phase.i := d], First(s.phase.i + 1)))
  {
    SpotsFirst(pl, s.phase.i);
    AllWorkingUpdate(pl, s.phase, First(s.phase.i + 1), s.drives, s.phase.i, d);
    hide Planned, AllWorking, Held, Spots, Ids0, Final, WritesWork, Here, Working;
  }

  lemma FirstActor(s: State)
    requires Inv(s) && s.phase.First? && s.phase.i < |s.drives|
    ensures Fleet(s.os, s.drives, []) && Homed(s.drives[s.phase.i])
  {
    assert s.drives[s.phase.i] in s.drives;
    hide Fleet, Homed, DoneUpTo;
  }

  lemma CourseFirst(pl: Plan, s: State)
    requires Course(pl, s) && Inv(s) && s.phase.First? && s.phase.i < |s.drives|
    requires Step(s, pl.cfg).Some? && Unbroken(Step(s, pl.cfg).value)
    ensures Advances(pl, s, Step(s, pl.cfg).value)
  {
    var i := s.phase.i;
    FirstActor(s);
    ActorStep(pl, s, i);
    CourseWorking(pl, s, i);
    FirstIs(s, pl.cfg);
    hide Inv, Course, Step, Fleet, Planned, Held, ConvergeDrive, SameFate, SamePlaces, Spots, Working, Recoverable, Ids0, Final, Homed, Want, SameDisks, Full, Here, Staked;
    var (d', os') := ConvergeDrive(s.os, s.drives[i]);
    assert s.drives[i := d'][i] in s.drives[i := d'];
    CourseFirstTo(pl, s, d', os');
  }

  lemma SameFateOf(a: Os, b: Os, p: Cmd -> bool)
    requires Ran(a, b, p)
    ensures b.fate == a.fate
  {
  }

  lemma SpotsSecond(pl: Plan, i: nat, want: Option<Path>)
    requires Planned(pl) && i < |pl.disks| && want == Want(Ids0(pl), pl.cfg.pool, i)
    ensures var places := Spots(pl, Second(i), |pl.disks|);
      Spots(pl, Second(i + 1), |pl.disks|) == places[i := Some(if want.Some? then want.value else Here(places[i], pl.disks[i].driveId))]
  {
    hide Want, Ids0;
  }

  lemma FullUpdate(pl: Plan, i: nat, k: Kernel, k': Kernel)
    requires Planned(pl) && i < |pl.disks| && AllFull(pl, Second(i), k)
    requires SameDisks(k, k', pl.disks[i].disk, pl.cfg.keys) && Full(k'.disks[pl.disks[i].disk])
    ensures AllFull(pl, Second(i + 1), k')
  {
    hide Full, DiskShape, LeafId;
    forall j | 0 <= j < i + 1 ensures pl.disks[j].disk in k'.disks && Full(k'.disks[pl.disks[j].disk]) {
      if j < i {
        assert Finished(Second(i), j);
      }
    }
  }

  lemma SecondIs(s: State, cfg: Config)
    requires s.phase.Second? && s.phase.i < |s.drives| && !s.drives[s.phase.i].broken && s.drives[s.phase.i].device.Some?
    ensures var (d, os) := ConvergeDrive(s.os, s.drives[s.phase.i]);
      Step(s, cfg) == Some(State(os, s.drives[s.phase.i := d], Second(s.phase.i + 1)))
  {
    hide ConvergeDrive;
  }

  lemma CourseSecondTo(pl: Plan, s: State, d: Drive, os: Os)
    requires Course(pl, s) && s.phase.Second? && s.phase.i < |s.drives| && s.phase.i < |pl.disks| == |pl.ats| && os.fate == s.os.fate
    requires Working(d, pl.disks[s.phase.i], pl.cfg.keys) && d.assignment == s.drives[s.phase.i].assignment
    requires SameDisks(s.os.k, os.k, pl.disks[s.phase.i].disk, pl.cfg.keys) && Full(os.k.disks[pl.disks[s.phase.i].disk])
    requires var places, want := Spots(pl, s.phase, |s.drives|), AssignedPath(s.drives[s.phase.i].assignment);
      && Staked(pl, s.phase, s.phase.i, want)
      && Held(pl, os.k, IdsIn(pl, s.phase),
              places[s.phase.i := Some(if want.Some? then want.value else Here(places[s.phase.i], pl.disks[s.phase.i].driveId))])
    ensures Course(pl, State(os, s.drives[s.phase.i := d], Second(s.phase.i + 1)))
  {
    SpotsSecond(pl, s.phase.i, AssignedPath(s.drives[s.phase.i].assignment));
    AllWorkingUpdate(pl, s.phase, Second(s.phase.i + 1), s.drives, s.phase.i, d);
    FullUpdate(pl, s.phase.i, s.os.k, os.k);
    hide Planned, AllWorking, Held, Spots, Ids0, Final, WritesWork, Here, Working, AllFull, SameDisks, Full, Want, AssignedPath;
  }

  lemma SecondActor(s: State)
    requires Inv(s) && s.phase.Second? && s.phase.i < |s.drives|
    ensures Fleet(s.os, s.drives, []) && Entitled(s.os.k, s.drives[s.phase.i])
  {
    hide Fleet, DoneUpTo, Entitled, Done;
  }

  lemma CourseSecond(pl: Plan, s: State)
    requires Course(pl, s) && Inv(s) && s.phase.Second? && s.phase.i < |s.drives|
    requires Step(s, pl.cfg).Some? && Unbroken(Step(s, pl.cfg).value)
    ensures Advances(pl, s, Step(s, pl.cfg).value)
  {
    var i := s.phase.i;
    SecondActor(s);
    ActorStep(pl, s, i);
    CourseWorking(pl, s, i);
    WorkingDisk(s.drives[i], pl.disks[i], pl.cfg.keys);
    SecondIs(s, pl.cfg);
    hide Inv, Course, Step, Fleet, Planned, Held, ConvergeDrive, SameFate, SamePlaces, Spots, Working, Recoverable, Ids0, Final, Entitled, Want, SameDisks, Full, Here, Staked;
    var (d', os') := ConvergeDrive(s.os, s.drives[i]);
    assert s.drives[i := d'][i] in s.drives[i := d'];
    CourseSecondTo(pl, s, d', os');
  }

  // ---- from one round to the next ----

  lemma AllWorkingRound(pl: Plan, drives: seq<Drive>, drives': seq<Drive>)
    requires AllWorking(pl, Assigning, drives) && |drives| == |pl.disks| && AsWanted(drives, drives', Ids0(pl), pl.cfg.pool)
    ensures AllWorking(pl, Second(0), drives')
  {
    hide Want, Ids0, Suits, AssignedPath;
    forall j | 0 <= j < |drives'| ensures Working(drives'[j], pl.disks[j], pl.cfg.keys) {
      assert Working(drives[j], pl.disks[j], pl.cfg.keys);
    }
  }

  lemma WorkingListed(pl: Plan, phase: Phase, drives: seq<Drive>)
    requires AllWorking(pl, phase, drives) && |drives| == |pl.disks|
    ensures Listed(pl, drives) && forall d :: d in drives ==> !d.broken
  {
    hide Suits, Want, Ids0;
    forall d | d in drives ensures !d.broken {
      var j :| 0 <= j < |drives| && drives[j] == d;
      assert Working(drives[j], pl.disks[j], pl.cfg.keys);
    }
    assert forall j :: 0 <= j < |drives| ==> Working(drives[j], pl.disks[j], pl.cfg.keys);
  }

  lemma SpotsRound(pl: Plan)
    requires Planned(pl)
    ensures forall i :: i >= |pl.disks| ==> Spots(pl, First(i), |pl.disks|) == Spots(pl, Assigning, |pl.disks|)
    ensures Spots(pl, Second(0), |pl.disks|) == Spots(pl, Assigning, |pl.disks|)
    ensures Spots(pl, Second(|pl.disks|), |pl.disks|) == Spots(pl, Idle, |pl.disks|)
    ensures Spots(pl, Handling([]), |pl.disks|) == Spots(pl, First(0), |pl.disks|)
  {
    hide Here, Ids0;
  }

  lemma CourseAssignedTo(pl: Plan, s: State, drives: seq<Drive>, os: Os)
    requires Course(pl, s) && s.phase.Assigning? && os.fate == s.os.fate && AsWanted(s.drives, drives, Ids0(pl), pl.cfg.pool)
    requires Held(pl, os.k, Final(Ids0(pl), pl.cfg.pool), Spots(pl, s.phase, |s.drives|))
    ensures Course(pl, State(os, drives, Second(0)))
  {
    SpotsRound(pl);
    AllWorkingRound(pl, s.drives, drives);
    assert |drives| == |s.drives|;
    hide Planned, AllWorking, Held, Spots, Ids0, Final, WritesWork, AsWanted;
  }

  lemma CourseAssigning(pl: Plan, s: State)
    requires Course(pl, s) && Inv(s) && s.phase.Assigning?
    ensures Step(s, pl.cfg).Some? && Advances(pl, s, Step(s, pl.cfg).value)
  {
    var places := Spots(pl, s.phase, |s.drives|);
    SpotsFate(pl, s.phase, |s.drives|);
    AllDone(s.os, s.drives);
    WorkingListed(pl, s.phase, s.drives);
    UpdateRan(s.os, s.drives, pl.cfg.pool);
    AssigningIs(s, pl.cfg);
    assert Fleet(s.os, s.drives, []) && Planned(pl) && Held(pl, s.os.k, Ids0(pl), places) && WritesWork(s.os.fate);
    hide Inv, Course, Step, Planned, AllWorking, Held, Fleet, Done, Listed, SameFate, SamePlaces, Spots, Recoverable, Ids0, Final, WritesWork, Want, Assignments.UpdateAssignments, Homed, AsWanted, Commands.Ran;
    RoundStep(pl, s.os, s.drives, places);
    var (drives', os') := Assignments.UpdateAssignments(s.os, s.drives, pl.cfg.pool);
    SameFateOf(s.os, os', Commands.Assigning);
    CourseAssignedTo(pl, s, drives', os');
  }

  /** A change of phase alone. */
  lemma CourseTurns(pl: Plan, s: State)
    requires Course(pl, s) && Step(s, pl.cfg).Some? && !s.phase.Idle? && !s.phase.Assigning?
    requires s.phase.Handling? ==> s.phase.events == []
    requires s.phase.First? || s.phase.Second? ==> s.phase.i >= |s.drives|
    ensures Advances(pl, s, Step(s, pl.cfg).value)
  {
    SpotsFate(pl, s.phase, |s.drives|);
    SpotsRound(pl);
    hide Planned, Held, SameFate, SamePlaces, Recoverable, Ids0, Final, WritesWork, Want, ConvergeDrive, Handle, Working, Here;
    AlwaysHeld(pl, s.os, IdsIn(pl, s.phase), Spots(pl, s.phase, |s.drives|));
  }

  lemma CourseWakes(pl: Plan, s: State)
    requires Course(pl, s) && s.phase.Handling? && s.phase.events != [] && !s.phase.events[0].Added?
    ensures Step(s, pl.cfg).Some? && Advances(pl, s, Step(s, pl.cfg).value)
  {
    ArrivalNext(pl, s.phase.events, |s.drives|);
    SpotsFate(pl, s.phase, |s.drives|);
    assert Spots(pl, Handling(s.phase.events[1..]), |s.drives|) == Spots(pl, s.phase, |s.drives|);
    hide Planned, Held, SameFate, SamePlaces, Recoverable, Ids0, Final, WritesWork, Want, Working, Here, Onward;
    AlwaysHeld(pl, s.os, IdsIn(pl, s.phase), Spots(pl, s.phase, |s.drives|));
  }

  lemma CourseStep(pl: Plan, s: State)
    requires Course(pl, s) && Inv(s) && !s.phase.Idle? && Step(s, pl.cfg).Some? && Unbroken(Step(s, pl.cfg).value)
    ensures Advances(pl, s, Step(s, pl.cfg).value)
  {
    hide Course, Inv, Step, Unbroken, Advances;
    match s.phase
    case Handling(events) =>
      if events == [] {
        CourseTurns(pl, s);
      } else if events[0].Added? {
        CourseAdded(pl, s);
      } else {
        CourseWakes(pl, s);
      }
    case First(i) =>
      if i < |s.drives| {
        CourseFirst(pl, s);
      } else {
        CourseTurns(pl, s);
      }
    case Assigning => CourseAssigning(pl, s);
    case Second(i) =>
      if i < |s.drives| {
        CourseSecond(pl, s);
      } else {
        CourseTurns(pl, s);
      }
  }

  // ---- what came before ----

  predicate Adding(phase: Phase) {
    phase.Handling? ==> Joining(phase.events)
  }

  lemma StepAdding(s: State, cfg: Config)
    requires Adding(s.phase) && !s.phase.Idle? && Step(s, cfg).Some?
    ensures Adding(Step(s, cfg).value.phase)
  {
    hide Handle, ConvergeDrive, Assignments.UpdateAssignments;
    if s.phase.Handling? && s.phase.events != [] {
      assert forall e :: e in s.phase.events[1..] ==> e in s.phase.events;
    }
  }

  /** Nothing that happens here mends a broken drive. */
  lemma UnbrokenBefore(s: State, cfg: Config)
    requires Adding(s.phase) && !s.phase.Idle? && Step(s, cfg).Some? && Unbroken(Step(s, cfg).value)
    ensures Unbroken(s)
  {
    hide NewDrive, ConvergeDrive, Assignments.UpdateAssignments;
    var t := Step(s, cfg).value;
    forall d | d in s.drives ensures !d.broken {
      var j :| 0 <= j < |s.drives| && s.drives[j] == d;
      if s.phase.Handling? && s.phase.events != [] {
        assert s.phase.events[0] in s.phase.events;
        assert t.drives[j] == d;
      } else if (s.phase.First? || s.phase.Second?) && s.phase.i == j && !(s.phase.Second? && d.broken) {
        Quarantine.BrokenStays(s.os, d);
      } else if s.phase.Assigning? {
        Quarantine.UpdateKeepsBroken(s.os, s.drives, cfg.pool);
      }
      assert t.drives[j] in t.drives;
    }
  }
}
