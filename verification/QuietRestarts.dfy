/** A new process over disks that are where they belong changes nothing: it makes a drive object for each, and finds
  nothing to do. */
module QuietRestarts {
  import opened Names
  import opened Tables
  import opened Kernels
  import opened KernelFacts
  import opened Machine
  import opened MountCache
  import opened Drives
  import opened Commands
  import opened Chains
  import opened DriveFacts
  import opened Convergence
  import opened Fleets
  import opened Convergers
  import opened Exclusivity
  import opened Safety
  import opened Runs
  import opened Crashes
  import opened Restarts
  import opened Stability
  import opened Repetition
  import opened Rescan
  import opened IterationCourse
  import opened CrashRecovery
  import opened Idempotence
  import Handlers

  // ---- the old fleet, seen by the new process ----

  /** An idle state as a process with another fate and an empty log would see it. */
  function Anew(s: State, fate: (nat, Cmd) -> bool): State {
    s.(os := s.os.(fate := fate, log := []))
  }

  lemma AnewCalm(s: State, fate: (nat, Cmd) -> bool)
    requires Calm(s) && Sound(s.os) && Reliable(fate)
    ensures Calm(Anew(s, fate)) && Sound(Anew(s, fate).os)
  {
    var os, os' := s.os, Anew(s, fate).os;
    hide WfK, CrossOwned, Labelled, ChainOk, Accounted, Reserved, Distinct, Reliable, On;
    forall d | d in s.drives ensures Member(os', d) {
      assert Member(os, d);
    }
    forall j | 0 <= j < |s.drives| ensures Done(os', s.drives[j]) && Homed(s.drives[j]) {
      DoneAnew(os, os', s.drives[j]);
    }
  }

  lemma DoneAnew(os: Os, os': Os, d: Drive)
    requires Done(os, d) && os' == os.(fate := os'.fate, log := os'.log)
    ensures Done(os', d)
  {
  }

  lemma {:induction false} SameLayersSelf(c: Content)
    ensures SameLayers(c, c)
    decreases c
  {
    if c.Luks? {
      SameLayersSelf(c.inner);
    }
  }

  /** What the new process is promised holds of the old fleet as well. */
  lemma TameBefore(s: State, fate: (nat, Cmd) -> bool)
    requires Calm(s) && OnDiskPaths(s.drives) && Tame(Boot(s.os.k, fate), s.os.k, Arrivals(NamesOf(s.drives)))
    ensures Tame(Anew(s, fate), s.os.k, [])
  {
    var k, arrivals := s.os.k, Arrivals(NamesOf(s.drives));
    hide WfK, Members, Labelled, CrossOwned, DoneUpTo, PendingOk, OpenMappings;
    forall m, n | From(k, m, n) && m.path.SrvNode? ensures Owner(s.drives, [], n) {
      assert Owner([], arrivals, n);
      var e :| e in arrivals && e.Added? && e.path.name == n;
      var j :| 0 <= j < |arrivals| && arrivals[j] == e;
      assert s.drives[j] in s.drives && DiskOf(s.drives[j]) == n;
    }
    forall n, c | n in k.disks && c == k.disks[n] ensures SameLayers(c, c) {
      SameLayersSelf(c);
    }
  }

  ghost predicate OnDiskPaths(drives: seq<Drive>) {
    forall d :: d in drives ==> d.path.Disk?
  }

  lemma SameRefresh(s: State, fate: (nat, Cmd) -> bool)
    ensures Refresh(Anew(s, fate).os) == Refresh(Boot(s.os.k, fate).os) == Begin(Boot(s.os.k, fate), s.os.k, []).os
  {
    hide OpenMappings;
  }

  /** The fleet with its old objects is at rest for the new process. */
  lemma AnewRests(s: State, fate: (nat, Cmd) -> bool)
    requires Calm(s) && Sound(s.os) && Reliable(fate) && OnDiskPaths(s.drives)
    requires Tame(Boot(s.os.k, fate), s.os.k, Arrivals(NamesOf(s.drives)))
    requires Unbroken(s) && AllPrepared(s.drives) && AllWritable(s.os.k, s.drives)
    ensures Resting(Refresh(Boot(s.os.k, fate).os), s.drives, [])
  {
    AnewCalm(s, fate);
    TameBefore(s, fate);
    SameRefresh(s, fate);
    hide Calm, Sound, Tame, Refresh, AllPrepared, AllWritable, Resting, NamesOf, Reliable;
    StartRests(Anew(s, fate), []);
  }

  // ---- one drive object after the other ----

  /** The events still to come when the first `h` disks of the old fleet have their new objects. */
  function StillToCome(olds: seq<Drive>, h: nat): seq<Event>
    requires OnDiskPaths(olds) && h <= |olds|
  {
    Arrivals(NamesOf(olds))[h..]
  }

  lemma NextToCome(olds: seq<Drive>, h: nat)
    requires OnDiskPaths(olds) && h < |olds|
    ensures olds[h].path.Disk? && StillToCome(olds, h) == [Added(olds[h].path, olds[h].driveId)] + StillToCome(olds, h + 1)
  {
    assert olds[h] in olds;
    var all := Arrivals(NamesOf(olds));
    assert all[h..] == [all[h]] + all[h + 1..];
  }

  /** New objects for the first disks of a fleet that was at rest; nothing but looks so far. */
  ghost predicate Rejoining(at: Os, olds: seq<Drive>, os: Os, drives: seq<Drive>)
    requires OnDiskPaths(olds)
  {
    && |drives| <= |olds| && os == at.(log := os.log) && Ran(at, os, Glancing)
    && Fleet(os, drives, StillToCome(olds, |drives|)) && AllHomed(drives)
    && AllRest(os, drives) && AllAsRecorded(os, drives) && SamePosts(olds[..|drives|], drives)
  }

  /** A working, unflagged drive of the fleet at rest. */
  ghost predicate Sitting(at: Os, d: Drive, keys: seq<string>) {
    Member(at, d) && Quiet(at, d) && !d.broken && !Flagged(at.k, d.driveId) && d.keys == keys
  }

  lemma SittingLog(at: Os, os: Os, d: Drive, keys: seq<string>)
    requires Sitting(at, d, keys) && os == at.(log := os.log)
    ensures Sitting(os, d, keys)
  {
    QuietLog(at, os, d);
    hide Quiet, Accounted, Reserved;
  }

  /** The object made for a disk takes the place of the old one. */
  lemma RejoinDrive(os: Os, d: Drive)
    requires Global(os) && Sitting(os, d, d.keys) && Ready(os, d.path, d.driveId)
    ensures var (n, os1) := NewDrive(os, d.path, d.driveId, d.keys);
      n.device.Some? && var (d', os') := ConvergeDrive(os1, n);
      && os' == os.(log := os'.log) && Ran(os, os', Glancing) && Quiet(os', d') && AsRecorded(os', d')
      && !d'.broken && d'.path == d.path && DriveMountedPath(d') == DriveMountedPath(d)
  {
    RenewedDrive(os, d);
  }

  lemma RestJoin(os: Os, os': Os, drives: seq<Drive>, d: Drive)
    requires AllRest(os, drives) && AllAsRecorded(os, drives) && os' == os.(log := os'.log) && Quiet(os', d) && AsRecorded(os', d)
    ensures AllRest(os', drives + [d]) && AllAsRecorded(os', drives + [d])
  {
    RestLog(os, os', drives);
    hide Quiet, AsRecorded;
  }

  lemma PostsJoin(olds: seq<Drive>, drives: seq<Drive>, d: Drive)
    requires |drives| < |olds| && SamePosts(olds[..|drives|], drives)
    requires d.path == olds[|drives|].path && d.broken == olds[|drives|].broken && DriveMountedPath(d) == DriveMountedPath(olds[|drives|])
    ensures SamePosts(olds[..|drives + [d]|], drives + [d])
  {
    hide DriveMountedPath;
  }

  lemma RejoinOne(at: Os, olds: seq<Drive>, os: Os, drives: seq<Drive>, cfg: Config)
    requires OnDiskPaths(olds) && Rejoining(at, olds, os, drives) && |drives| < |olds| && Sitting(at, olds[|drives|], cfg.keys)
    ensures var events := StillToCome(olds, |drives|);
      events != [] && Handle(os, drives, events[0], cfg).Some? && events[1..] == StillToCome(olds, |drives| + 1)
      && var (os', drives') := Handle(os, drives, events[0], cfg).value;
         Rejoining(at, olds, os', drives') && |drives'| == |drives| + 1
  {
    var h, d := |drives|, olds[|drives|];
    var events := StillToCome(olds, h);
    NextToCome(olds, h);
    assert events[0] == Added(d.path, d.driveId) && events[1..] == StillToCome(olds, h + 1);
    assert Global(os) && Ready(os, d.path, d.driveId) by { assert events[0] in events && PendingOk(os, drives, events[0]); }
    SittingLog(at, os, d, cfg.keys);
    RejoinDrive(os, d);
    Handlers.HandleStep(os, drives, events, cfg);
    hide NewDrive, ConvergeDrive, Fleet, AllHomed, AllRest, AllAsRecorded, SamePosts, StillToCome, Ran, Global, Ready, Sitting, Quiet, AsRecorded, DriveMountedPath;
    var (n, os1) := NewDrive(os, d.path, d.driveId, cfg.keys);
    var (d', os') := ConvergeDrive(os1, n);
    assert Handle(os, drives, events[0], cfg) == Some((os', drives + [d']));
    RestJoin(os, os', drives, d');
    PostsJoin(olds, drives, d');
    RanTransitive(at, os, os', Glancing);
  }

  lemma {:induction false} RejoinAll(at: Os, olds: seq<Drive>, os: Os, drives: seq<Drive>, cfg: Config) returns (os': Os, drives': seq<Drive>)
    requires OnDiskPaths(olds) && Rejoining(at, olds, os, drives) && forall d :: d in olds ==> Sitting(at, d, cfg.keys)
    ensures Finish(State(os, drives, Handling(StillToCome(olds, |drives|))), cfg) == Finish(State(os', drives', First(0)), cfg)
    ensures Rejoining(at, olds, os', drives') && |drives'| == |olds|
    decreases |olds| - |drives|
  {
    assert |drives| <= |olds|;
    hide Finish, Handle, Rejoining, StillToCome, Sitting;
    var events := StillToCome(olds, |drives|);
    var st := State(os, drives, Handling(events));
    FinishStep(st, cfg);
    if |drives| == |olds| {
      NoneToCome(olds);
      os', drives' := os, drives;
    } else {
      RejoinOne(at, olds, os, drives, cfg);
      var (os1, drives1) := Handle(os, drives, events[0], cfg).value;
      assert Step(st, cfg) == Some(State(os1, drives1, Handling(StillToCome(olds, |drives1|))));
      os', drives' := RejoinAll(at, olds, os1, drives1, cfg);
    }
  }

  lemma NoneToCome(olds: seq<Drive>)
    requires OnDiskPaths(olds)
    ensures StillToCome(olds, |olds|) == []
  {
  }

  // ---- the theorem ----

  lemma RejoinStarts(s: State, fate: (nat, Cmd) -> bool)
    requires Calm(s) && Reliable(fate) && OnDiskPaths(s.drives)
    requires Tame(Boot(s.os.k, fate), s.os.k, Arrivals(NamesOf(s.drives)))
    ensures Rejoining(Refresh(Boot(s.os.k, fate).os), s.drives, Refresh(Boot(s.os.k, fate).os), [])
  {
    var boot, arrivals := Boot(s.os.k, fate), Arrivals(NamesOf(s.drives));
    var at := Refresh(boot.os);
    assert Init(boot);
    InitCalm(boot);
    BeginStep(boot, s.os.k, arrivals);
    RanNothing(at, at, Glancing);
    assert arrivals[0..] == arrivals;
    assert boot.os.(k := s.os.k) == boot.os;
    hide Calm, Tame, Refresh, Fleet, Ran, Reliable, NamesOf;
  }

  lemma RestingSits(at: Os, s: State, keys: seq<string>)
    requires Resting(at, s.drives, []) && Unbroken(s) && forall d :: d in s.drives ==> d.keys == keys && !Flagged(at.k, d.driveId)
    ensures forall d :: d in s.drives ==> Sitting(at, d, keys)
  {
    hide Global, Member, Quiet, Expected, AllAsRecorded, AllHomed, Flagged, Distinct;
  }

  lemma RejoinedRests(at: Os, olds: seq<Drive>, os: Os, drives: seq<Drive>)
    requires OnDiskPaths(olds) && Rejoining(at, olds, os, drives) && |drives| == |olds|
    ensures Resting(os, drives, []) && SamePosts(olds, drives) && os == at.(log := os.log) && Ran(at, os, Glancing)
  {
    NoneToCome(olds);
    assert olds[..|olds|] == olds;
    hide Fleet, AllHomed, AllRest, AllAsRecorded, SamePosts, Ran, StillToCome, Flagged;
  }

  /** Restart stability of a whole system: after an iteration that went through and left no drive broken or flagged, a
    new process that finds the same disks looks at devices and flags and reads swift-ids, but mounts, unmounts, opens,
    closes, formats and writes nothing; each drive stays where it is. */
  lemma RestartedIteration(cfg: Config, run: seq<State>, m: nat, i: nat, fate: (nat, Cmd) -> bool)
    requires IsRun(Tame, cfg, run) && Init(run[0]) && WentThrough(cfg, run, m, i) && Unbroken(run[i]) && OnDiskPaths(run[i].drives)
    requires AllWritable(run[i].os.k, run[i].drives) && forall d :: d in run[i].drives ==> !Flagged(run[i].os.k, d.driveId)
    requires Reliable(fate) && Tame(Boot(run[i].os.k, fate), run[i].os.k, Arrivals(NamesOf(run[i].drives)))
    ensures var start := Restarted(run[i].os.k, fate, NamesOf(run[i].drives));
      var done := Finish(start, cfg);
      && done.Some? && done.value.phase.Idle? && Ran(start.os, done.value.os, Peeking) && SamePosts(run[i].drives, done.value.drives)
      && done.value.os.host == start.os.host && done.value.os.local == start.os.local && done.value.os.k == run[i].os.k
  {
    var s := run[i];
    var at := Refresh(Boot(s.os.k, fate).os);
    CalmAt(cfg, run, i);
    RunKeyed(cfg, run, i);
    SameKernel(Boot(s.os.k, fate).os);
    RejoinStarts(s, fate);
    hide IsRun, Init, Calm, Tame, Finish, Refresh, Resting, AllPrepared, AllWritable, WentThrough, SamePosts, Ran, Sound, NamesOf, Rejoining, StillToCome, Sitting, Reliable;
    AnewRests(s, fate);
    RestingSits(at, s, cfg.keys);
    var os', drives' := RejoinAll(at, s.drives, at, [], cfg);
    RejoinedRests(at, s.drives, os', drives');
    RestingFinish(cfg, run, m, i, os', drives');
    var done := Finish(State(os', drives', First(0)), cfg).value;
    PeekingOnly(at, os', done.os);
    StartIs(s, fate);
  }

  lemma StartIs(s: State, fate: (nat, Cmd) -> bool)
    requires OnDiskPaths(s.drives)
    ensures Restarted(s.os.k, fate, NamesOf(s.drives)) == State(Refresh(Boot(s.os.k, fate).os), [], Handling(StillToCome(s.drives, 0)))
  {
    hide Refresh, NamesOf;
    var arrivals := Arrivals(NamesOf(s.drives));
    assert arrivals[0..] == arrivals;
  }
}
