/** Iterations that change nothing: after one that went through, another one only reads swift-ids, whether the drive
  objects are still the same or any of them have been made anew. */
module Idempotence {
  import opened Names
  import opened Tables
  import opened Kernels
  import opened KernelFacts
  import opened Machine
  import opened MountCache
  import opened Devices
  import opened DeviceFacts
  import opened Drives
  import opened Commands
  import opened Chains
  import opened DriveFacts
  import opened Convergence
  import opened Fleets
  import opened Convergers
  import opened Exclusivity
  import opened AssignSteps
  import opened Assignments
  import opened Allocations
  import opened Pools
  import opened Safety
  import opened Runs
  import opened Stability
  import opened Repetition
  import opened Rescan
  import Crashes
  import Handlers
  import RoundMoments
  import Quarantine

  // ---- ids that call for no change ----

  /** Each drive whose id names a place of its own is there, and no disk without an id is to get one. */
  ghost predicate Steady(readings: seq<Reading>, drives: seq<Drive>, pool: seq<string>) {
    && |readings| == |drives|
    && (forall j :: 0 <= j < |drives| && Assignments.Proper(readings[j]) && !Shared(readings, j) ==>
         DriveMountedPath(drives[j]) == Some(SrvNode(readings[j].id)))
    && (pool == [] || AnyBroken(drives) || FirstUnused(pool, Taken(readings)) == "" || Got("") !in readings)
    && (forall j :: 0 <= j < |drives| && !drives[j].broken ==> readings[j].Got?)
  }

  lemma {:induction false} AllocateNothing(os: Os, drives: seq<Drive>, pool: seq<string>, taken: set<string>)
    requires FirstUnused(pool, taken) == "" || forall d :: d in drives ==> !Eligible(d)
    ensures Allocate(os, drives, pool, taken) == (drives, os)
    decreases |drives|
  {
    hide FirstUnused, Eligible, Run;
    if drives != [] {
      assert drives[0] in drives;
      assert forall d :: d in drives[1..] ==> d in drives;
      AllocateNothing(os, drives[1..], pool, taken);
      assert [drives[0]] + drives[1..] == drives;
    }
  }

  lemma NoneEligible(readings: seq<Reading>, drives: seq<Drive>, pool: seq<string>)
    requires |readings| == |drives| && Got("") !in readings && forall j :: 0 <= j < |drives| && !drives[j].broken ==> readings[j].Got?
    ensures forall d :: d in Judged(readings, drives, pool) ==> !Eligible(d)
  {
    hide Shared, Misplaced;
    var judged := Judged(readings, drives, pool);
    forall d | d in judged ensures !Eligible(d) {
      var j :| 0 <= j < |judged| && judged[j] == d;
      assert readings[j] in readings;
    }
  }

  lemma SteadyStays(readings: seq<Reading>, drives: seq<Drive>, pool: seq<string>)
    requires Steady(readings, drives, pool)
    ensures Staying(Judged(readings, drives, pool))
  {
    hide Shared, Misplaced, Taken, FirstUnused, AnyBroken;
    var judged := Judged(readings, drives, pool);
    forall d | d in judged && !d.broken && AssignedPath(d.assignment).Some? ensures DriveMountedPath(d) == AssignedPath(d.assignment) {
      var j :| 0 <= j < |judged| && judged[j] == d;
      assert readings[j].Got?;
    }
  }

  /** A round over a steady fleet reads all ids, writes none, and moves no drive. */
  lemma SteadyRound(os: Os, drives: seq<Drive>, pool: seq<string>)
    requires Steady(ReadAll(os, drives).0, drives, pool)
    ensures var (drives', os') := UpdateAssignments(os, drives, pool);
      Staying(drives') && Ran(os, os', Crashes.ReadingIds)
  {
    Crashes.ReadAllReads(os, drives);
    hide ReadAll, Judged, Taken, FirstUnused, Shared, Ran, Staying, AnyMisplaced, Eligible;
    var (readings, os1) := ReadAll(os, drives);
    var judged := Judged(readings, drives, pool);
    SteadyStays(readings, drives, pool);
    if !(AnyBroken(drives) || AnyMisplaced(readings, drives) || pool == []) {
      if FirstUnused(pool, Taken(readings)) != "" {
        NoneEligible(readings, drives, pool);
      }
      AllocateNothing(os1, judged, pool, Taken(readings));
    }
  }

  // ---- what a round leaves ----

  /** Ids after a pass call for no further one. */
  lemma {:induction false} PassUsedUp(ids: seq<string>, pool: seq<string>, taken: set<string>)
    requires Fill(ids, pool, taken) == ids && "" in ids
    ensures FirstUnused(pool, taken) == ""
    decreases |ids|
  {
    FillHead(ids, pool, taken);
    OnDiskNamed(FirstUnused(pool, taken));
    hide Fill, FirstUnused, OnDisk;
    if ids[0] != "" {
      assert "" in ids[1..];
      PassUsedUp(ids[1..], pool, taken);
    }
  }

  lemma OnDiskNamed(id: string)
    ensures OnDisk(id) == "" <==> id == ""
  {
  }

  /** What a scan and a round over it leave of one drive. */
  ghost predicate Ruled(readings: seq<Reading>, j: nat, d: Drive)
    requires j < |readings|
  {
    var r := readings[j];
    && (r.Got? && r.id != "" ==> IdOf(d) == r.id)
    && (Assignments.Proper(r) && !Shared(readings, j) ==> AssignedPath(d.assignment) == Some(SrvNode(r.id)))
    && (r == Got("") && IdOf(d) != "" && IdOf(d) != "spare" ==> AssignedPath(d.assignment) == Some(SrvNode(IdOf(d))))
  }

  lemma RoundRules(os: Os, drives: seq<Drive>, pool: seq<string>, j: nat)
    requires j < |drives| && !AnyMisplaced(ReadAll(os, drives).0, drives)
    ensures Ruled(ReadAll(os, drives).0, j, UpdateAssignments(os, drives, pool).0[j])
  {
    RoundExact(os, drives, pool);
    hide ReadAll, UpdateAssignments, Unused, Taken, Granted, GrantedWrites, Shared, GoodWrites, AnyBroken;
    var readings := ReadAll(os, drives).0;
    var judged, after := Judged(readings, drives, pool), UpdateAssignments(os, drives, pool).0;
    assert OnlyGrants(judged, after);
    if readings[j].Got? && Assignments.Proper(readings[j]) {
      assert !Misplaced(drives[j], readings[j].id);
    }
    if after[j] != judged[j] {
      assert Eligible(judged[j]);
      hide Misplaced;
    }
  }

  /** `second` is what a scan finds after a round over `first` that left the drives `after`. */
  ghost predicate Rescanned(first: seq<Reading>, after: seq<Drive>, second: seq<Reading>, drives: seq<Drive>) {
    && |first| == |after| == |second| == |drives|
    && (forall j :: 0 <= j < |first| ==> Ruled(first, j, after[j]))
    && (forall j :: 0 <= j < |first| ==> (first[j].Got? <==> !drives[j].broken))
    && (forall j :: 0 <= j < |first| ==> second[j] == if drives[j].broken then Skipped else Got(IdOf(after[j])))
    && (forall j :: 0 <= j < |first| && !drives[j].broken && AssignedPath(after[j].assignment).Some? ==>
         DriveMountedPath(drives[j]) == AssignedPath(after[j].assignment))
  }

  lemma SharedAgain(first: seq<Reading>, after: seq<Drive>, second: seq<Reading>, drives: seq<Drive>, j: nat)
    requires Rescanned(first, after, second, drives) && j < |second| && first[j].Got? && first[j].id != "" && Shared(first, j)
    ensures Shared(second, j)
  {
    var i :| 0 <= i < |first| && i != j && first[i] == first[j];
    assert Ruled(first, i, after[i]) && Ruled(first, j, after[j]);
    hide IdOf, AssignedPath;
    assert second[i] == Got(IdOf(after[i])) == second[j];
  }

  /** A drive alone with its id after the round was alone with it before, or has just been given it. */
  lemma AloneBefore(first: seq<Reading>, after: seq<Drive>, second: seq<Reading>, drives: seq<Drive>, j: nat)
    requires Rescanned(first, after, second, drives) && j < |second| && Assignments.Proper(second[j]) && !Shared(second, j)
    ensures DriveMountedPath(drives[j]) == Some(SrvNode(second[j].id))
  {
    assert Ruled(first, j, after[j]);
    if first[j].Got? && first[j].id != "" && Shared(first, j) {
      SharedAgain(first, after, second, drives, j);
    }
    hide Shared, IdOf, AssignedPath;
  }

  lemma NoneLeft(first: seq<Reading>, after: seq<Drive>, second: seq<Reading>, drives: seq<Drive>, pool: seq<string>)
    requires Rescanned(first, after, second, drives) && !AnyBroken(drives) && SpareOrdered(pool, 0) && Plain(Ids(first))
    requires forall j :: 0 <= j < |first| ==> IdOf(after[j]) == Pass(Ids(first), pool)[j]
    ensures FirstUnused(pool, Taken(second)) == "" || Got("") !in second
  {
    PassSettles(Ids(first), pool);
    TakenReadings(second);
    hide Ruled, Pass, Taken, FirstUnused, IdOf, SpareOrdered, Plain, AssignedPath;
    forall j | 0 <= j < |second| ensures second[j] == Got(Pass(Ids(first), pool)[j]) {
      assert drives[j] in drives;
    }
    assert Ids(second) == Pass(Ids(first), pool);
    if Got("") in second {
      var j :| 0 <= j < |second| && second[j] == Got("");
      assert Ids(second)[j] == "";
      PassIsFill(Ids(second), pool);
      PassUsedUp(Ids(second), pool, TakenIds(Ids(second)));
    }
  }

  lemma PassIsFill(ids: seq<string>, pool: seq<string>)
    ensures Pass(ids, pool) == Fill(ids, pool, TakenIds(ids))
  {
  }

  /** A fleet is steady once a round has gone over it. */
  lemma SteadyAgain(first: seq<Reading>, after: seq<Drive>, second: seq<Reading>, drives: seq<Drive>, pool: seq<string>)
    requires Rescanned(first, after, second, drives) && SpareOrdered(pool, 0) && Plain(Ids(first))
    requires pool != [] && !AnyBroken(drives) ==> forall j :: 0 <= j < |first| ==> IdOf(after[j]) == Pass(Ids(first), pool)[j]
    ensures Steady(second, drives, pool)
  {
    forall j | 0 <= j < |drives| && Assignments.Proper(second[j]) && !Shared(second, j)
      ensures DriveMountedPath(drives[j]) == Some(SrvNode(second[j].id))
    {
      AloneBefore(first, after, second, drives, j);
    }
    if pool != [] && !AnyBroken(drives) {
      NoneLeft(first, after, second, drives, pool);
    }
    hide Shared, Taken, FirstUnused, Pass, AnyBroken, Ruled, SpareOrdered, Plain;
  }

  // ---- the second loop ----

  /** From the end of the round on, working drives keep their assignments, and disks their swift-ids. */
  ghost predicate Carried(v: State, s: State) {
    && |s.drives| == |v.drives|
    && (forall j :: 0 <= j < |s.drives| ==> s.drives[j].path == v.drives[j].path)
    && (forall j :: 0 <= j < |s.drives| && v.drives[j].broken ==> s.drives[j].broken)
    && (forall j :: 0 <= j < |s.drives| && !s.drives[j].broken ==> s.drives[j].assignment == v.drives[j].assignment)
    && (forall n, id :: Branded(v.os.k, n, id) ==> Branded(s.os.k, n, id))
  }

  lemma CarriedTransitive(a: State, b: State, c: State)
    requires Carried(a, b) && Carried(b, c)
    ensures Carried(a, c)
  {
    hide Branded;
  }

  lemma ConvergeCarries(os: Os, d: Drive)
    requires d.device.Some?
    ensures var (d', os') := ConvergeDrive(os, d);
      && d'.path == d.path && (d.broken ==> d'.broken) && (!d'.broken ==> d'.assignment == d.assignment)
      && (forall n, id :: Branded(os.k, n, id) ==> Branded(os'.k, n, id))
  {
    ConvergeRan(os, d);
    hide Setup, Teardown;
    var (d', os') := ConvergeDrive(os, d);
    hide ConvergeDrive, Branded, Ran;
    forall n, id | Branded(os.k, n, id) ensures Branded(os'.k, n, id) {
      BrandStays(os, os', n, id, Converging);
    }
  }

  lemma SecondCarries(s: State, cfg: Config)
    requires s.phase.Second? && Step(s, cfg).Some?
    ensures Carried(s, Step(s, cfg).value)
  {
    hide ConvergeDrive, Branded;
    var i := s.phase.i;
    if i < |s.drives| && !s.drives[i].broken {
      ConvergeCarries(s.os, s.drives[i]);
    }
  }

  /** The rest of an iteration after the round of assignments. */
  ghost predicate Rest(cfg: Config, run: seq<State>, m: nat, i: nat) {
    && m < i < |run| && run[m].phase.Assigning? && run[i].phase.Idle?
    && forall n :: m <= n < i ==> !run[n].phase.Idle? && Step(run[n], cfg) == Some(run[n + 1])
  }

  lemma SecondNext(s: State, cfg: Config)
    requires s.phase.Second? && Step(s, cfg).Some?
    ensures Step(s, cfg).value.phase.Second? || Step(s, cfg).value.phase.Idle?
  {
    hide ConvergeDrive;
  }

  lemma {:induction false} RestCarries(cfg: Config, run: seq<State>, m: nat, i: nat, n: nat)
    requires Rest(cfg, run, m, i) && m < n <= i
    ensures Carried(run[m + 1], run[n]) && (run[n].phase.Second? || run[n].phase.Idle?)
    decreases n
  {
    hide Step, Carried;
    if n == m + 1 {
      AssigningIs(run[m], cfg);
      CarriedSelf(run[n]);
    } else {
      RestCarries(cfg, run, m, i, n - 1);
      assert !run[n - 1].phase.Idle? && Step(run[n - 1], cfg) == Some(run[n - 1 + 1]);
      SecondCarries(run[n - 1], cfg);
      SecondNext(run[n - 1], cfg);
      CarriedTransitive(run[m + 1], run[n - 1], run[n]);
    }
  }

  lemma CarriedSelf(s: State)
    ensures Carried(s, s)
  {
    hide Branded;
  }

  // ---- after an iteration ----

  /** The round of the iteration found no numbered spare names on the disks, no command of it failed, and no drive
    has broken since. */
  ghost predicate WentThrough(cfg: Config, run: seq<State>, m: nat, i: nat) {
    && Rest(cfg, run, m, i) && SpareOrdered(cfg.pool, 0) && Plain(Ids(ReadAll(run[m].os, run[m].drives).0))
    && run[m].os.log <= run[m + 1].os.log && AllWorked(Since(run[m].os, run[m + 1].os))
    && |run[i].drives| == |run[m].drives|
    && forall j :: 0 <= j < |run[m].drives| && run[i].drives[j].broken ==> run[m].drives[j].broken
  }

  /** The same disks, still broken or where they were, perhaps with new drive objects. */
  ghost predicate SamePosts(drives: seq<Drive>, drives': seq<Drive>) {
    && |drives'| == |drives|
    && forall j :: 0 <= j < |drives| ==>
         drives'[j].path == drives[j].path && drives'[j].broken == drives[j].broken && DriveMountedPath(drives'[j]) == DriveMountedPath(drives[j])
  }

  lemma RoundPasses(u: State, cfg: Config)
    requires u.phase.Assigning? && Fleet(u.os, u.drives, []) && (forall d :: d in u.drives ==> Done(u.os, d))
    requires var v := Step(u, cfg).value; u.os.log <= v.os.log && AllWorked(Since(u.os, v.os))
    ensures var first, v := ReadAll(u.os, u.drives).0, Step(u, cfg).value;
      && !AnyMisplaced(first, u.drives) && AllRead(u.os.k, u.drives, first) && |v.drives| == |u.drives|
      && (forall j :: 0 <= j < |first| ==> Ruled(first, j, v.drives[j]))
      && (cfg.pool != [] && !AnyBroken(u.drives) ==> forall j :: 0 <= j < |first| ==> IdOf(v.drives[j]) == Pass(Ids(first), cfg.pool)[j])
      && (forall j :: 0 <= j < |u.drives| ==> v.drives[j].path == u.drives[j].path && v.drives[j].broken == u.drives[j].broken)
  {
    var first := ReadAll(u.os, u.drives).0;
    ReadAllOk(u.os, u.drives);
    AssigningIs(u, cfg);
    RoundMoments.NoneMisplaced(u.os, u.drives, first);
    Quarantine.UpdateKeepsBroken(u.os, u.drives, cfg.pool);
    hide Step, Fleet, Done, ReadAll, UpdateAssignments, Ruled, Pass, AnyMisplaced, ReadingOk;
    var v := Step(u, cfg).value;
    forall j | 0 <= j < |first| ensures Ruled(first, j, v.drives[j]) {
      RoundRules(u.os, u.drives, cfg.pool, j);
    }
    if cfg.pool != [] && !AnyBroken(u.drives) {
      AllReadGot(u.os.k, u.drives, first);
      RoundIsPass(u.os, u.drives, cfg.pool);
    }
  }

  lemma AllReadGot(k: Kernel, drives: seq<Drive>, readings: seq<Reading>)
    requires AllRead(k, drives, readings) && !AnyBroken(drives)
    ensures forall r :: r in readings ==> r.Got?
  {
    hide Branded;
    forall r | r in readings ensures r.Got? {
      var j :| 0 <= j < |readings| && readings[j] == r;
      assert ReadingOk(k, drives[j], readings[j]) && drives[j] in drives;
    }
  }

  /** What a scan reads later on a disk that has kept its id. */
  lemma LaterReading(v: State, s: State, os: Os, d: Drive, r: Reading, j: nat)
    requires Carried(v, s) && j < |s.drives| && os.k.disks == s.os.k.disks && !s.drives[j].broken
    requires d.path == s.drives[j].path && !d.broken && ReadingOk(os.k, d, r)
    requires Branded(v.os.k, DiskOf(v.drives[j]), IdOf(v.drives[j]))
    ensures r == Got(IdOf(v.drives[j]))
  {
    var n, id := DiskOf(d), IdOf(v.drives[j]);
    assert Branded(s.os.k, n, id);
    Handlers.BrandSame(s.os.k, os.k, n, id);
    BrandUnique(os.k, n, r.id, id);
  }

  lemma RoundFacts(cfg: Config, run: seq<State>, m: nat, i: nat)
    requires IsRun(Tame, cfg, run) && Init(run[0]) && WentThrough(cfg, run, m, i)
    ensures Fleet(run[m].os, run[m].drives, []) && (forall d :: d in run[m].drives ==> Done(run[m].os, d))
    ensures Step(run[m], cfg) == Some(run[m + 1]) && AllBranded(run[m + 1].os.k, run[m + 1].drives)
    ensures Carried(run[m + 1], run[i]) && Calm(run[i])
  {
    var u, s := run[m], run[i];
    RunInvariant(cfg, run, m);
    RunInvariant(cfg, run, i);
    IdleCalm(s);
    assert Fleet(u.os, u.drives, []) && DoneUpTo(u.os, u.drives, |u.drives|);
    hide IsRun, Init, Inv, Fleet, Done, Step, UpdateAssignments, Branded, Calm, Global, AsRecorded, SpareOrdered, Plain, Carried, AllBranded;
    AllDone(u.os, u.drives);
    RestCarries(cfg, run, m, i, i);
    AssigningIs(u, cfg);
    RoundBrands(u.os, u.drives, cfg.pool);
    assert !run[m].phase.Idle? && Step(run[m], cfg) == Some(run[m + 1]);
  }

  /** A drive scanned in the round over `u`, and again when the iteration is over. */
  lemma ScannedTwice(u: State, v: State, s: State, os: Os, drives: seq<Drive>, first: seq<Reading>, second: seq<Reading>, j: nat)
    requires j < |u.drives| == |v.drives| && Carried(v, s) && Calm(s) && AllBranded(v.os.k, v.drives)
    requires v.drives[j].broken == u.drives[j].broken && (s.drives[j].broken ==> u.drives[j].broken)
    requires SamePosts(s.drives, drives) && os.k.disks == s.os.k.disks
    requires AllRead(u.os.k, u.drives, first) && AllRead(os.k, drives, second)
    ensures j < |first| == |second| == |drives|
    ensures first[j].Got? <==> !drives[j].broken
    ensures second[j] == if drives[j].broken then Skipped else Got(IdOf(v.drives[j]))
    ensures !drives[j].broken && AssignedPath(v.drives[j].assignment).Some? ==>
      DriveMountedPath(drives[j]) == AssignedPath(v.drives[j].assignment)
  {
    hide Calm, Branded, IdOf, DriveMountedPath;
    assert ReadingOk(u.os.k, u.drives[j], first[j]) && ReadingOk(os.k, drives[j], second[j]);
    if !drives[j].broken {
      assert v.drives[j] in v.drives && !v.drives[j].broken;
      LaterReading(v, s, os, drives[j], second[j], j);
      WorkingThere(s, j);
    }
  }

  /** A round over `u` that left `v`, and an iteration that ended in `s` with no further drive broken. */
  ghost predicate Ended(u: State, v: State, s: State, cfg: Config) {
    && u.phase.Assigning? && Fleet(u.os, u.drives, []) && (forall d :: d in u.drives ==> Done(u.os, d))
    && Step(u, cfg) == Some(v) && AllBranded(v.os.k, v.drives) && Carried(v, s) && Calm(s)
    && u.os.log <= v.os.log && AllWorked(Since(u.os, v.os)) && |s.drives| == |u.drives|
    && forall j :: 0 <= j < |u.drives| && s.drives[j].broken ==> u.drives[j].broken
  }

  lemma EndedSteady(u: State, v: State, s: State, cfg: Config, os: Os, drives: seq<Drive>)
    requires Ended(u, v, s, cfg) && SpareOrdered(cfg.pool, 0) && Plain(Ids(ReadAll(u.os, u.drives).0))
    requires SamePosts(s.drives, drives) && os.k.disks == s.os.k.disks && AllRead(os.k, drives, ReadAll(os, drives).0)
    ensures Steady(ReadAll(os, drives).0, drives, cfg.pool)
  {
    var first, second := ReadAll(u.os, u.drives).0, ReadAll(os, drives).0;
    hide Fleet, Done, Step, ReadAll, Branded, Ruled, Pass, Calm, AnyMisplaced, Steady, SpareOrdered, Plain, IdOf, AllBranded, AnyBroken, AllWorked, AssignedPath, AllRead, DriveMountedPath;
    RoundPasses(u, cfg);
    assert forall j :: 0 <= j < |u.drives| && u.drives[j].broken ==> drives[j].broken;
    hide Carried;
    forall j | 0 <= j < |first|
      ensures (first[j].Got? <==> !drives[j].broken) && second[j] == (if drives[j].broken then Skipped else Got(IdOf(v.drives[j])))
        && (!drives[j].broken && AssignedPath(v.drives[j].assignment).Some? ==>
              DriveMountedPath(drives[j]) == AssignedPath(v.drives[j].assignment))
    {
      ScannedTwice(u, v, s, os, drives, first, second, j);
    }
    hide SamePosts;
    if AnyBroken(u.drives) {
      StillBroken(u.drives, drives);
    }
    SteadyAgain(first, v.drives, second, drives, cfg.pool);
  }

  /** After an iteration that went through, the fleet is steady, whoever scans it. */
  lemma FinishedSteady(cfg: Config, run: seq<State>, m: nat, i: nat, os: Os, drives: seq<Drive>)
    requires IsRun(Tame, cfg, run) && Init(run[0]) && WentThrough(cfg, run, m, i)
    requires SamePosts(run[i].drives, drives) && os.k.disks == run[i].os.k.disks
    requires AllRead(os.k, drives, ReadAll(os, drives).0)
    ensures Steady(ReadAll(os, drives).0, drives, cfg.pool)
  {
    RoundFacts(cfg, run, m, i);
    hide IsRun, Init, Tame, Fleet, Done, Step, ReadAll, Branded, Calm, Steady, SpareOrdered, Plain, AllBranded, AllWorked, Carried, AllRead, SamePosts;
    EndedSteady(run[m], run[m + 1], run[i], cfg, os, drives);
  }

  lemma StillBroken(drives: seq<Drive>, drives': seq<Drive>)
    requires |drives| == |drives'| && AnyBroken(drives) && forall j :: 0 <= j < |drives| && drives[j].broken ==> drives'[j].broken
    ensures AnyBroken(drives')
  {
    var d :| d in drives && d.broken;
    var j :| 0 <= j < |drives| && drives[j] == d;
    assert drives'[j] in drives';
  }

  lemma WorkingThere(s: State, j: nat)
    requires Calm(s) && j < |s.drives| && !s.drives[j].broken
    ensures DriveMountedPath(s.drives[j]) == Some(MountPath(s.drives[j]))
  {
    CalmDone(s, j);
  }

  // ---- drive objects made anew ----

  /** Wakeups, and new objects for working drives that are not flagged as broken. */
  ghost predicate Renewing(k: Kernel, drives: seq<Drive>, events: seq<Event>) {
    && (forall e :: e in events ==> e.Wakeup? || e.Reinstated?)
    && (forall e, d :: e in events && e.Reinstated? && d in drives && d.path == e.path ==> !d.broken && !Flagged(k, d.driveId))
  }

  /** A fleet at rest, with a batch to come. */
  ghost predicate Resting(os: Os, drives: seq<Drive>, events: seq<Event>) {
    Fleet(os, drives, events) && AllHomed(drives) && AllRest(os, drives) && AllAsRecorded(os, drives) && Renewing(os.k, drives, events)
  }

  /** A new object takes the place of the old one. */
  lemma RenewedDrive(os: Os, d: Drive)
    requires Global(os) && Member(os, d) && Ready(os, d.path, d.driveId) && Quiet(os, d) && !d.broken && !Flagged(os.k, d.driveId)
    ensures var (n, os1) := NewDrive(os, d.path, d.driveId, d.keys);
      n.device.Some? && var (d', os') := ConvergeDrive(os1, n);
      && os' == os.(log := os'.log) && Ran(os, os', Glancing)
      && Quiet(os', d') && !d'.broken && DriveMountedPath(d') == DriveMountedPath(d) && d'.path == d.path && d'.driveId == d.driveId
      && AsRecorded(os', d')
  {
    RestartIdle(os, d, DiskOf(d)) by { SoundAgrees(os); }
    Handlers.Newcomer(os, d.path, d.driveId, d.keys);
    hide NewDrive, ConvergeDrive, Global, Member, Quiet, Ready, Done, Foreign, Ran;
    var (n, os1) := NewDrive(os, d.path, d.driveId, d.keys);
    var (d', os') := ConvergeDrive(os1, n);
    DoneRecorded(os', d', d');
  }

  lemma QuietLog(os: Os, os': Os, d: Drive)
    requires Quiet(os, d) && os' == os.(log := os'.log)
    ensures Quiet(os', d)
  {
    LogMounts(os, os', if d.device.Some? then d.device.value.path else d.path);
    if !d.broken {
      InOrderLog(os, os', d.device.value);
    }
    hide InOrder, Unmounted;
  }

  lemma RestLog(os: Os, os': Os, drives: seq<Drive>)
    requires AllRest(os, drives) && AllAsRecorded(os, drives) && os' == os.(log := os'.log)
    ensures AllRest(os', drives) && AllAsRecorded(os', drives)
  {
    hide Quiet, AsRecorded;
    forall d | d in drives ensures Quiet(os', d) && AsRecorded(os', d) {
      QuietLog(os, os', d);
      LogRecorded(os, os', d);
    }
  }

  lemma RestUpdate(os: Os, drives: seq<Drive>, i: nat, d: Drive)
    requires AllRest(os, drives) && AllAsRecorded(os, drives) && i < |drives| && Quiet(os, d) && AsRecorded(os, d)
    ensures AllRest(os, drives[i := d]) && AllAsRecorded(os, drives[i := d])
  {
    hide Quiet, AsRecorded;
    forall e | e in drives[i := d] ensures Quiet(os, e) && AsRecorded(os, e) {
      var j :| 0 <= j < |drives| && drives[i := d][j] == e;
      assert j != i ==> e in drives;
    }
  }

  lemma RenewingRest(k: Kernel, drives: seq<Drive>, events: seq<Event>, i: nat, d: Drive)
    requires Renewing(k, drives, events) && events != [] && i < |drives|
    requires d.path == drives[i].path && d.driveId == drives[i].driveId && !d.broken
    ensures Renewing(k, drives[i := d], events[1..])
  {
    hide Flagged;
    assert forall e :: e in events[1..] ==> e in events;
    forall e, x | e in events[1..] && e.Reinstated? && x in drives[i := d] && x.path == e.path ensures !x.broken && !Flagged(k, x.driveId) {
      var j :| 0 <= j < |drives| && drives[i := d][j] == x;
      assert drives[j] in drives;
    }
  }

  /** Of what a step of such a batch leaves, what has to be shown beside the order of the fleet. */
  ghost predicate Renewed(os: Os, os': Os, drives: seq<Drive>, drives': seq<Drive>, events: seq<Event>) {
    && os' == os.(log := os'.log) && Ran(os, os', Glancing) && SamePosts(drives, drives')
    && AllRest(os', drives') && AllAsRecorded(os', drives') && Renewing(os'.k, drives', events)
  }

  lemma RenewedIs(os: Os, os': Os, drives: seq<Drive>, events: seq<Event>, i: nat, d: Drive)
    requires AllRest(os, drives) && AllAsRecorded(os, drives) && Renewing(os.k, drives, events) && events != [] && i < |drives|
    requires os' == os.(log := os'.log) && Ran(os, os', Glancing) && Quiet(os', d) && AsRecorded(os', d)
    requires d.path == drives[i].path && d.driveId == drives[i].driveId && !d.broken && !drives[i].broken
    requires DriveMountedPath(d) == DriveMountedPath(drives[i])
    ensures Renewed(os, os', drives, drives[i := d], events[1..])
  {
    RestLog(os, os', drives);
    RestUpdate(os', drives, i, d);
    RenewingRest(os.k, drives, events, i, d);
    hide Quiet, AsRecorded, Flagged, AllRest, AllAsRecorded, Ran, Renewing, DriveMountedPath;
  }

  lemma RenewAt(os: Os, drives: seq<Drive>, events: seq<Event>, i: nat)
    requires AllRest(os, drives) && AllAsRecorded(os, drives) && Renewing(os.k, drives, events) && events != [] && events[0].Reinstated?
    requires i < |drives| && drives[i].path == events[0].path
    requires Global(os) && Member(os, drives[i]) && Ready(os, drives[i].path, drives[i].driveId)
    ensures var (n, os1) := NewDrive(os, drives[i].path, drives[i].driveId, drives[i].keys);
      n.device.Some? && var (d', os') := ConvergeDrive(os1, n);
      Renewed(os, os', drives, drives[i := d'], events[1..])
  {
    var d := drives[i];
    assert events[0] in events && d in drives;
    RenewedDrive(os, d);
    hide NewDrive, ConvergeDrive, Global, Member, Ready, Quiet, AsRecorded, Flagged, AllRest, AllAsRecorded, Ran, Renewing, Renewed, DriveMountedPath;
    var (n, os1) := NewDrive(os, d.path, d.driveId, d.keys);
    var (d', os') := ConvergeDrive(os1, n);
    RenewedIs(os, os', drives, events, i, d');
  }

  lemma RenewNone(os: Os, drives: seq<Drive>, events: seq<Event>)
    requires AllRest(os, drives) && AllAsRecorded(os, drives) && Renewing(os.k, drives, events) && events != []
    ensures Renewed(os, os, drives, drives, events[1..])
  {
    RanNothing(os, os, Glancing);
    hide Quiet, AsRecorded, Flagged, Ran;
    assert forall x :: x in events[1..] ==> x in events;
  }

  lemma RestingAt(os: Os, drives: seq<Drive>, events: seq<Event>)
    requires Resting(os, drives, events) && events != []
    ensures events[0].Wakeup? || events[0].Reinstated?
    ensures events[0].Reinstated? ==>
      var i := IndexOf(drives, events[0].path);
      i < |drives| ==> Global(os) && Member(os, drives[i]) && Ready(os, drives[i].path, drives[i].driveId)
  {
    var e := events[0];
    assert e in events && PendingOk(os, drives, e);
    hide Global, Expected, EventsApart, Ready, AllRest, AllAsRecorded, AllHomed, Distinct, Member;
    if e.Reinstated? && IndexOf(drives, e.path) < |drives| {
      assert drives[IndexOf(drives, e.path)] in drives;
    }
  }

  lemma HandleRenews(os: Os, drives: seq<Drive>, events: seq<Event>, cfg: Config)
    requires Resting(os, drives, events) && events != [] && Handle(os, drives, events[0], cfg).Some?
    ensures var (os', drives') := Handle(os, drives, events[0], cfg).value; Renewed(os, os', drives, drives', events[1..])
  {
    RestingAt(os, drives, events);
    hide NewDrive, ConvergeDrive, Fleet, Global, Ready, AllRest, AllAsRecorded, AllHomed, Renewed, Member, Renewing;
    if events[0].Reinstated? && IndexOf(drives, events[0].path) < |drives| {
      RenewAt(os, drives, events, IndexOf(drives, events[0].path));
    } else {
      RenewNone(os, drives, events);
    }
  }

  /** One event of such a batch. */
  lemma RenewOne(os: Os, drives: seq<Drive>, events: seq<Event>, cfg: Config)
    requires Resting(os, drives, events) && events != []
    ensures Handle(os, drives, events[0], cfg).Some?
    ensures var (os', drives') := Handle(os, drives, events[0], cfg).value;
      os' == os.(log := os'.log) && Ran(os, os', Glancing) && SamePosts(drives, drives') && Resting(os', drives', events[1..])
  {
    Handlers.HandleStep(os, drives, events, cfg);
    HandleRenews(os, drives, events, cfg);
    hide Handle, Fleet, AllHomed, AllRest, AllAsRecorded, Renewing, Ran, SamePosts;
  }

  lemma PostsTransitive(a: seq<Drive>, b: seq<Drive>, c: seq<Drive>)
    requires SamePosts(a, b) && SamePosts(b, c)
    ensures SamePosts(a, c)
  {
    hide DriveMountedPath;
  }

  /** A whole batch of such events. */
  lemma {:induction false} RenewAll(os: Os, drives: seq<Drive>, events: seq<Event>, cfg: Config) returns (os': Os, drives': seq<Drive>)
    requires Resting(os, drives, events)
    ensures Finish(State(os, drives, Handling(events)), cfg) == Finish(State(os', drives', First(0)), cfg)
    ensures os' == os.(log := os'.log) && Ran(os, os', Glancing) && SamePosts(drives, drives') && Resting(os', drives', [])
    decreases |events|
  {
    hide Finish, Handle, Resting, SamePosts, Ran;
    var st := State(os, drives, Handling(events));
    FinishStep(st, cfg) by { assert Step(st, cfg).Some? by { if events != [] { RenewOne(os, drives, events, cfg); } } }
    if events == [] {
      os', drives' := os, drives;
      RanNothing(os, os, Glancing);
      assert SamePosts(drives, drives) by { PostsSelf(drives); }
    } else {
      RenewOne(os, drives, events, cfg);
      var (os1, drives1) := Handle(os, drives, events[0], cfg).value;
      os', drives' := RenewAll(os1, drives1, events[1..], cfg);
      PostsTransitive(drives, drives1, drives');
      RanTransitive(os, os1, os', Glancing);
    }
  }

  lemma PostsSelf(drives: seq<Drive>)
    ensures SamePosts(drives, drives)
  {
  }

  // ---- theorems ----

  predicate Peeking(c: Cmd) {
    Glancing(c) || c.ReadId?
  }

  lemma StartRests(s: State, events: seq<Event>)
    requires Calm(s) && Sound(s.os) && Tame(s, s.os.k, events) && AllPrepared(s.drives) && AllWritable(s.os.k, s.drives)
    requires BrokenClosed(s.drives) && Renewing(s.os.k, s.drives, events)
    ensures Resting(Refresh(s.os), s.drives, events)
  {
    CalmRests(s, events);
    BeginStep(s, s.os.k, events);
    assert s.os.(k := s.os.k) == s.os;
    SoundAgrees(s.os);
    var os' := Refresh(s.os);
    RefreshKernel(s.os);
    assert Fleet(os', s.drives, events) && Sound(os');
    SoundAgrees(os');
    hide Calm, Tame, Sound, Agree, Fleet, AllRest, AllHomed, Renewing, Refresh, Settled, Cleared, BrokenClosed, AllPrepared, AllWritable, AsRecorded;
    forall d | d in s.drives ensures AsRecorded(os', d) {
      var j :| 0 <= j < |s.drives| && s.drives[j] == d;
      CalmDone(s, j);
      if !d.broken {
        RefreshedSettled(s.os, d, DiskOf(d));
      }
      assert Done(os', d);
      DoneRecorded(os', d, d);
    }
  }

  lemma RestingReads(os: Os, drives: seq<Drive>, events: seq<Event>)
    requires Resting(os, drives, events)
    ensures AllRead(os.k, drives, ReadAll(os, drives).0)
  {
    hide Members, Expected, AllHomed, AllRest, Renewing, AsRecorded, Global;
    ReadAllRecorded(os, drives);
  }

  lemma RestingRests(os: Os, drives: seq<Drive>, events: seq<Event>)
    requires Resting(os, drives, events)
    ensures AllRest(os, drives)
  {
  }

  lemma PostsAssigned(a: seq<Drive>, b: seq<Drive>, c: seq<Drive>)
    requires SamePosts(a, b) && |c| == |b| && forall i :: 0 <= i < |b| ==> c[i] == b[i].(assignment := c[i].assignment)
    ensures SamePosts(a, c)
  {
  }

  lemma PeekingOnly(a: Os, b: Os, c: Os)
    requires Ran(a, b, Glancing) && Ran(b, c, Crashes.ReadingIds)
    ensures Ran(a, c, Peeking)
  {
    RanWider(a, b, Glancing, Peeking);
    RanWider(b, c, Crashes.ReadingIds, Peeking);
    hide Ran;
    RanTransitive(a, b, c, Peeking);
  }

  lemma {:induction false} ReadingTrace(k: Kernel, es: seq<Entry>, k': Kernel)
    requires Trace(k, es, k') && forall e :: e in es ==> Crashes.ReadingIds(e.cmd)
    ensures k' == k
    decreases |es|
  {
    if es != [] {
      assert es[0] in es && Crashes.ReadingIds(es[0].cmd);
      assert forall e :: e in es[1..] ==> e in es;
      ReadingTrace(After(k, es[0]), es[1..], k');
    }
  }

  lemma ReadingKernel(a: Os, b: Os)
    requires Ran(a, b, Crashes.ReadingIds)
    ensures b.k == a.k
  {
    ReadingTrace(a.k, Since(a, b), b.k);
  }

  /** What is left to do of an iteration over a fleet at rest, after one that went through. */
  lemma RestingFinish(cfg: Config, run: seq<State>, m: nat, i: nat, os: Os, drives: seq<Drive>)
    requires IsRun(Tame, cfg, run) && Init(run[0]) && WentThrough(cfg, run, m, i)
    requires Resting(os, drives, []) && SamePosts(run[i].drives, drives) && os.k.disks == run[i].os.k.disks
    ensures var done := Finish(State(os, drives, First(0)), cfg);
      && done.Some? && done.value.phase.Idle? && Ran(os, done.value.os, Crashes.ReadingIds) && SamePosts(run[i].drives, done.value.drives)
      && done.value.os == os.(log := done.value.os.log)
  {
    RestingReads(os, drives, []);
    RestingRests(os, drives, []);
    hide IsRun, Init, Tame, Finish, Resting, Staying, WentThrough, SamePosts, Ran, UpdateAssignments, ReadAll, Steady;
    FinishedSteady(cfg, run, m, i, os, drives);
    SteadyRound(os, drives, cfg.pool);
    ConvergeAgain(os, drives, cfg);
    UpdateCaches(os, drives, cfg.pool);
    var (drives', os') := UpdateAssignments(os, drives, cfg.pool);
    ReadingKernel(os, os');
    PostsAssigned(run[i].drives, drives, drives');
  }

  lemma CalmAt(cfg: Config, run: seq<State>, i: nat)
    requires IsRun(Tame, cfg, run) && Init(run[0]) && 0 < i < |run| && run[i].phase.Idle?
    ensures Calm(run[i]) && Sound(run[i].os) && AllPrepared(run[i].drives)
  {
    hide IsRun, Init, Calm, Tame, Inv, AllPrepared, Sound;
    LastSound(cfg, run, i);
    RunInvariant(cfg, run, i);
    IdleCalm(run[i]);
    NoDrives(cfg, run);
    RunPrepares(Tame, cfg, run, i);
  }

  lemma SameKernel(os: Os)
    ensures os.(k := os.k) == os && Refresh(os).k == os.k
  {
    RefreshKernel(os);
  }

  /** Restart stability over runs: after an iteration that went through, with nothing changed outside, new objects
    are made for any of the working drives, and the next iteration looks at devices and flags and reads
    swift-ids, but mounts, unmounts, opens, closes, formats and writes nothing; each drive stays where it is. */
  lemma RenewedIteration(cfg: Config, run: seq<State>, m: nat, i: nat, events: seq<Event>)
    requires IsRun(Tame, cfg, run) && Init(run[0]) && WentThrough(cfg, run, m, i)
    requires Tame(run[i], run[i].os.k, events) && Renewing(run[i].os.k, run[i].drives, events)
    requires AllWritable(run[i].os.k, run[i].drives) && BrokenClosed(run[i].drives)
    ensures var start := Begin(run[i], run[i].os.k, events);
      var done := Finish(start, cfg);
      && done.Some? && done.value.phase.Idle? && Ran(start.os, done.value.os, Peeking) && SamePosts(run[i].drives, done.value.drives)
      && done.value.os.host == start.os.host && done.value.os.local == start.os.local && done.value.os.k == run[i].os.k
  {
    var s := run[i];
    CalmAt(cfg, run, i);
    SameKernel(s.os);
    hide IsRun, Init, Calm, Tame, Finish, Refresh, Resting, AllPrepared, AllWritable, BrokenClosed, Renewing, WentThrough, SamePosts, Ran, Sound;
    StartRests(s, events);
    var os0 := Refresh(s.os);
    var os', drives' := RenewAll(os0, s.drives, events, cfg);
    RestingFinish(cfg, run, m, i, os', drives');
    PeekingOnly(os0, os', Finish(State(os', drives', First(0)), cfg).value.os);
  }

  /** Idempotence over runs: after an iteration that went through, with nothing changed outside, the next one reads
    swift-ids and runs no other command; each drive stays where it is. */
  lemma QuietIteration(cfg: Config, run: seq<State>, m: nat, i: nat, events: seq<Event>)
    requires IsRun(Tame, cfg, run) && Init(run[0]) && WentThrough(cfg, run, m, i)
    requires Tame(run[i], run[i].os.k, events) && forall e :: e in events ==> e.Wakeup?
    requires AllWritable(run[i].os.k, run[i].drives) && BrokenClosed(run[i].drives)
    ensures var start := Begin(run[i], run[i].os.k, events);
      var done := Finish(start, cfg);
      && done.Some? && done.value.phase.Idle? && Ran(start.os, done.value.os, Crashes.ReadingIds) && SamePosts(run[i].drives, done.value.drives)
      && done.value.os.host == start.os.host && done.value.os.local == start.os.local && done.value.os.k == run[i].os.k
  {
    var s := run[i];
    CalmAt(cfg, run, i);
    SameKernel(s.os);
    hide IsRun, Init, Calm, Tame, Finish, Refresh, Resting, AllPrepared, AllWritable, BrokenClosed, WentThrough, SamePosts, Ran, Sound;
    StartRests(s, events);
    WakeupsRest(Refresh(s.os), s.drives, events);
    PostsSelf(s.drives);
    WakeupsOnly(Refresh(s.os), s.drives, events, cfg);
    RestingFinish(cfg, run, m, i, Refresh(s.os), s.drives);
  }

  lemma WakeupsRest(os: Os, drives: seq<Drive>, events: seq<Event>)
    requires Resting(os, drives, events) && forall e :: e in events ==> e.Wakeup?
    ensures Resting(os, drives, [])
  {
    hide Global, Members, AllHomed, AllRest, AllAsRecorded, Flagged;
  }
}
