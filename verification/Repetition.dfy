/** Idempotence of whole iterations: when every drive is where it belongs and the new round of assignments
  moves none, an iteration only reads and writes swift-ids. */
module Repetition {
  import opened Names
  import opened Tables
  import opened Kernels
  import opened KernelFacts
  import opened Machine
  import opened MountCache
  import opened Devices
  import opened DeviceFacts
  import opened Drives
  import opened Chains
  import opened DriveFacts
  import opened Convergence
  import opened Fleets
  import opened Convergers
  import opened Exclusivity
  import opened Safety
  import opened Stability
  import opened Runs
  import Assignments
  import Allocations
  import Commands

  // ---- working drives are formatted, in every run ----

  predicate Prepared(d: Drive) {
    !d.broken ==> d.device.Some? && Formatted(d.device.value) && (d.device.value.LuksDev? ==> d.keys != [])
  }

  ghost predicate AllPrepared(drives: seq<Drive>) {
    forall d :: d in drives ==> Prepared(d)
  }

  lemma {:induction false} SetupPrepares(os: Os, d: Dev, order: Order)
    requires Setup(os, d, order).2
    ensures Formatted(Setup(os, d, order).0) && (d.LuksDev? ==> order.keys != [])
    decreases Rank(os.k, d)
  {
    hide Validate, OpenUp, SetupXfs, Rank;
    var (d1, os1, ok) := Validate(os, d);
    if d1.XfsDev? {
      XfsPrepares(os1, d1, order);
    } else {
      OpenUpFormats(os1, d1, order);
      var (d2, os2, ok2) := OpenUp(os1, d1, order);
      SetupPrepares(os2, d2.mapped.value, order);
    }
  }

  lemma XfsPrepares(os: Os, d: Dev, order: Order)
    requires d.XfsDev? && SetupXfs(os, d, order).2
    ensures SetupXfs(os, d, order).0.formatted
  {
    hide MoveTo, FormatFirst;
    var (d1, os1, ok) := FormatFirst(os, d, Mkfs(d.path));
    FormattedAfter(os, d, Mkfs(d.path));
    MoveToFormatted(os1, d1, Target(d1.mountPath, order));
  }

  lemma ConvergePrepares(os: Os, d: Drive)
    requires d.device.Some?
    ensures Prepared(ConvergeDrive(os, d).0)
  {
    hide Setup, Teardown, Formatted;
    if !d.broken && Setup(os, d.device.value, OrderOf(d)).2 {
      SetupPrepares(os, d.device.value, OrderOf(d));
    }
  }

  lemma HandlePrepares(os: Os, drives: seq<Drive>, e: Event, cfg: Config)
    requires AllPrepared(drives) && Handle(os, drives, e, cfg).Some?
    ensures AllPrepared(Handle(os, drives, e, cfg).value.1)
  {
    hide NewDrive, ConvergeDrive, TeardownDrive, Prepared;
    match e
    case Added(path, driveId) =>
      var (d, os1) := NewDrive(os, path, driveId, cfg.keys);
      ConvergePrepares(os1, d);
    case Removed(path) =>
      WithoutSubset(drives, path);
    case Errored(path) =>
      var i := IndexOf(drives, path);
      if i < |drives| {
        MarkPrepares(os, drives[i]);
      }
    case Reinstated(path) =>
      var i := IndexOf(drives, path);
      if i < |drives| {
        var (d, os1) := NewDrive(os, path, drives[i].driveId, drives[i].keys);
        ConvergePrepares(os1, d);
      }
    case Wakeup =>
  }

  lemma MarkPrepares(os: Os, d: Drive)
    ensures Prepared(MarkAsBroken(os, d).0)
  {
  }

  lemma {:induction false} WithoutSubset(drives: seq<Drive>, path: DevPath)
    ensures forall d :: d in Without(drives, path) ==> d in drives
  {
    if drives != [] {
      WithoutSubset(drives[1..], path);
    }
  }

  lemma UpdatePrepares(os: Os, drives: seq<Drive>, pool: seq<string>)
    requires AllPrepared(drives)
    ensures AllPrepared(Assignments.UpdateAssignments(os, drives, pool).0)
  {
    Allocations.RoundExact(os, drives, pool);
    hide Assignments.UpdateAssignments, Assignments.Verdict, Assignments.ReadAll, Formatted;
    var readings := Assignments.ReadAll(os, drives).0;
    var judged, after := Assignments.Judged(readings, drives, pool), Assignments.UpdateAssignments(os, drives, pool).0;
    forall i | 0 <= i < |after| ensures Prepared(after[i]) {
      assert after[i].device == drives[i].device && after[i].broken == drives[i].broken && after[i].keys == drives[i].keys;
      assert drives[i] in drives;
    }
  }

  lemma StepPrepares(st: State, cfg: Config)
    requires AllPrepared(st.drives) && Step(st, cfg).Some?
    ensures AllPrepared(Step(st, cfg).value.drives)
  {
    hide Handle, ConvergeDrive, Assignments.UpdateAssignments, Prepared;
    match st.phase
    case Handling(events) =>
      if events != [] {
        HandlePrepares(st.os, st.drives, events[0], cfg);
      }
    case First(i) =>
      if i < |st.drives| {
        ConvergePrepares(st.os, st.drives[i]);
      }
    case Second(i) =>
      if i < |st.drives| && !st.drives[i].broken {
        ConvergePrepares(st.os, st.drives[i]);
      }
    case Assigning =>
      UpdatePrepares(st.os, st.drives, cfg.pool);
    case Idle =>
  }

  /** In every run, whatever fails and whatever the outside world does, all layers of a working drive are
    known to be formatted. */
  lemma {:induction false} RunPrepares(world: World, cfg: Config, run: seq<State>, i: nat)
    requires IsRun(world, cfg, run) && AllPrepared(run[0].drives) && i < |run|
    ensures AllPrepared(run[i].drives)
    decreases i
  {
    hide Step, Begin, AllPrepared;
    if i > 0 {
      RunPrepares(world, cfg, run, i - 1);
      var s := run[i - 1];
      assert Next(world, cfg, s, run[i]);
      if s.phase.Idle? {
        var k, events :| world(s, k, events) && run[i] == Begin(s, k, events);
        BeginDrives(s, k, events);
      } else {
        StepPrepares(s, cfg);
      }
    }
  }

  lemma BeginDrives(s: State, k: Kernel, events: seq<Event>)
    ensures Begin(s, k, events).drives == s.drives
  {
  }

  // ---- quiet iterations ----

  ghost predicate AllQuiet(os: Os, drives: seq<Drive>) {
    forall d :: d in drives && !d.broken ==> Quiet(os, d)
  }

  /** A broken drive that is done is left alone if nothing is open for it. */
  ghost predicate AllRest(os: Os, drives: seq<Drive>) {
    forall d :: d in drives ==> Quiet(os, d)
  }

  lemma {:induction false} FirstRoundIdle(os: Os, drives: seq<Drive>, i: nat, cfg: Config)
    requires AllRest(os, drives) && i <= |drives|
    ensures Finish(State(os, drives, First(i)), cfg) == Finish(State(os, drives, Assigning), cfg)
    decreases |drives| - i
  {
    hide Quiet, ConvergeDrive, Finish;
    var st := State(os, drives, First(i));
    if i < |drives| {
      assert drives[i] in drives;
      QuietConverge(os, drives[i]);
      assert drives[i].device.Some? by { QuietDevice(os, drives[i]); }
      assert drives[i := drives[i]] == drives;
      FinishStep(st, cfg);
      FirstRoundIdle(os, drives, i + 1, cfg);
    } else {
      FinishStep(st, cfg);
    }
  }

  lemma QuietDevice(os: Os, d: Drive)
    requires Quiet(os, d)
    ensures d.device.Some?
  {
  }

  lemma {:induction false} SecondRoundIdle(os: Os, drives: seq<Drive>, i: nat, cfg: Config)
    requires AllQuiet(os, drives) && i <= |drives|
    ensures Finish(State(os, drives, Second(i)), cfg) == Some(State(os, drives, Idle))
    decreases |drives| - i
  {
    hide Quiet, ConvergeDrive, Finish;
    var st := State(os, drives, Second(i));
    if i < |drives| {
      assert drives[i] in drives;
      if !drives[i].broken {
        QuietConverge(os, drives[i]);
        assert drives[i].device.Some? by { QuietDevice(os, drives[i]); }
        assert drives[i := drives[i]] == drives;
      }
      FinishStep(st, cfg);
      SecondRoundIdle(os, drives, i + 1, cfg);
    } else {
      FinishStep(st, cfg);
      IdleFinished(State(os, drives, Idle), cfg);
    }
  }

  lemma IdleFinished(st: State, cfg: Config)
    requires st.phase.Idle?
    ensures Finish(st, cfg) == Some(st)
  {
  }

  /** The new assignments want each working drive where it already is. */
  predicate Staying(drives: seq<Drive>) {
    forall d :: d in drives && !d.broken && AssignedPath(d.assignment).Some? ==> DriveMountedPath(d) == AssignedPath(d.assignment)
  }

  lemma QuietReassigned(os: Os, os': Os, d: Drive, d': Drive)
    requires Quiet(os, d) && os' == os.(k := os'.k, log := os'.log) && d' == d.(assignment := d'.assignment)
    requires !d.broken && (AssignedPath(d'.assignment).Some? ==> DriveMountedPath(d') == AssignedPath(d'.assignment))
    ensures Quiet(os', d')
  {
    hide InOrder, AssignedPath;
    InOrderCaches(os, os', d.device.value);
  }

  lemma {:induction false} InOrderCaches(os: Os, os': Os, d: Dev)
    requires Whole(d) && InOrder(os, d) && os'.host == os.host && os'.local == os.local && os'.luks == os.luks
    ensures InOrder(os', d)
    decreases d
  {
    hide MountsOf, Unmounted;
    LogMounts(os, os', d.path);
    if d.LuksDev? {
      InOrderCaches(os, os', d.mapped.value);
    }
  }

  lemma UpdateCaches(os: Os, drives: seq<Drive>, pool: seq<string>)
    ensures var (drives', os') := Assignments.UpdateAssignments(os, drives, pool);
      && os' == os.(k := os'.k, log := os'.log)
      && (forall i :: 0 <= i < |drives| ==> drives'[i] == drives[i].(assignment := drives'[i].assignment))
  {
    Allocations.RoundExact(os, drives, pool);
    hide Assignments.Verdict, Allocations.Granted, Allocations.GrantedWrites;
    ReadCaches(os, drives);
    var (readings, os1) := Assignments.ReadAll(os, drives);
    var judged := Assignments.Judged(readings, drives, pool);
    AllocateCaches(os1, judged, pool, Assignments.Taken(readings));
  }

  lemma {:induction false} ReadCaches(os: Os, drives: seq<Drive>)
    ensures var os' := Assignments.ReadAll(os, drives).1; os' == os.(k := os'.k, log := os'.log)
    decreases |drives|
  {
    hide Can, Effect;
    if drives != [] {
      ReadCaches(Assignments.ReadOne(os, drives[0]).1, drives[1..]);
    }
  }

  lemma {:induction false} AllocateCaches(os: Os, drives: seq<Drive>, pool: seq<string>, taken: set<string>)
    ensures var os' := Assignments.Allocate(os, drives, pool, taken).1; os' == os.(k := os'.k, log := os'.log)
    decreases |drives|
  {
    hide Can, Effect, Assignments.FirstUnused, MountPath;
    if drives != [] {
      var (_, os1, taken1) := Assignments.AllocateOne(os, drives[0], pool, taken);
      AllocateCaches(os1, drives[1..], pool, taken1);
    }
  }

  /** An iteration over drives that are all quiet, with assignments that move none, is nothing but the
    round of assignments: no mount, umount, format, open or close, and the same tables afterwards. */
  lemma ConvergeAgain(os: Os, drives: seq<Drive>, cfg: Config)
    requires AllRest(os, drives) && Staying(Assignments.UpdateAssignments(os, drives, cfg.pool).0)
    ensures var (drives', os') := Assignments.UpdateAssignments(os, drives, cfg.pool);
      && Finish(State(os, drives, First(0)), cfg) == Some(State(os', drives', Idle))
      && Commands.Ran(os, os', Commands.Assigning)
      && os'.host == os.host && os'.local == os.local && os'.k.host == os.k.host && os'.k.local == os.k.local
      && os'.k.slots == os.k.slots
  {
    FirstRoundIdle(os, drives, 0, cfg);
    UpdateCaches(os, drives, cfg.pool);
    Commands.UpdateRan(os, drives, cfg.pool);
    hide Finish, Quiet, Assignments.UpdateAssignments, AssignedPath, Commands.Ran;
    var (drives', os') := Assignments.UpdateAssignments(os, drives, cfg.pool);
    AssigningTables(os, os');
    FinishAssigning(os, drives, cfg);
    forall d' | d' in drives' && !d'.broken ensures Quiet(os', d') {
      var i :| 0 <= i < |drives'| && drives'[i] == d';
      assert drives[i] in drives;
      QuietReassigned(os, os', drives[i], d');
    }
    SecondRoundIdle(os', drives', 0, cfg);
  }

  lemma FinishAssigning(os: Os, drives: seq<Drive>, cfg: Config)
    ensures var (drives', os') := Assignments.UpdateAssignments(os, drives, cfg.pool);
      Finish(State(os, drives, Assigning), cfg) == Finish(State(os', drives', Second(0)), cfg)
  {
    hide Assignments.UpdateAssignments, Finish;
    FinishStep(State(os, drives, Assigning), cfg);
  }

  lemma {:induction false} TraceTables(k: Kernel, es: seq<Entry>, k': Kernel)
    requires Trace(k, es, k') && forall e :: e in es ==> Commands.Assigning(e.cmd)
    ensures k'.host == k.host && k'.local == k.local && k'.slots == k.slots
    decreases |es|
  {
    if es != [] {
      assert es[0] in es;
      assert forall e :: e in es[1..] ==> e in es;
      EntryTables(k, es[0]);
      hide After, Legal;
      TraceTables(After(k, es[0]), es[1..], k');
    }
  }

  lemma EntryTables(k: Kernel, e: Entry)
    requires Legal(k, e) && Commands.Assigning(e.cmd)
    ensures After(k, e).host == k.host && After(k, e).local == k.local && After(k, e).slots == k.slots
  {
  }

  lemma AssigningTables(os: Os, os': Os)
    requires Commands.Ran(os, os', Commands.Assigning)
    ensures os'.k.host == os.k.host && os'.k.local == os.k.local && os'.k.slots == os.k.slots
  {
    TraceTables(os.k, Since(os, os'), os'.k);
  }

  // ---- in runs ----

  lemma {:induction false} LeafWhole(d: Dev)
    requires Leaf(d).Some? && MountedPath(d).Some?
    ensures Whole(d)
    decreases d
  {
    if d.LuksDev? {
      LeafWhole(d.mapped.value);
    }
  }

  lemma SettledOnly(os: Os, d: Drive)
    requires Agree(os) && Settled(os, d, DiskOf(d))
    ensures OnlyAt(os, Leaf(d.device.value).value, MountPath(d))
  {
    var leaf := Leaf(d.device.value).value;
    hide Pairs, MountsOf;
    EntriesOf(os, leaf, Host);
    EntriesOf(os, leaf, Local);
    forall s: Scope, m | m in MountsOf(os, leaf, s) ensures m.path == MountPath(d) {
      assert MountedOn(Table(os.k, s), leaf, m.path);
      var e :| e in Table(os.k, s) && e.dev == leaf && e.path == m.path;
      assert From(os.k, e, DiskOf(d));
    }
  }

  lemma WorkingQuiet(os: Os, d: Drive)
    requires Sound(os) && WfK(os.k) && LuksOk(os) && Member(os, d) && Settled(os, d, DiskOf(d)) && !d.broken && Prepared(d)
    requires Writable(os, Leaf(d.device.value).value)
    ensures Quiet(os, d)
  {
    SoundAgrees(os);
    SettledOnly(os, d);
    LeafWhole(d.device.value);
    hide Sound, Agree, WfK, LuksOk, OnlyAt, Shown, Writable, Reserved, Accounted, From, On, MountPath, Fresh;
    ChainInOrder(os, d.device.value, Loc(DiskOf(d), 0), d.driveId);
  }

  /** No mount of a managed disk is read-only. */
  ghost predicate AllWritable(k: Kernel, drives: seq<Drive>) {
    forall d, m :: d in drives && From(k, m, DiskOf(d)) ==> !m.ro
  }

  /** No broken drive still knows of an open container. */
  ghost predicate BrokenClosed(drives: seq<Drive>) {
    forall d :: d in drives && d.broken ==> d.device.Some? && (d.device.value.LuksDev? ==> d.device.value.mapped.None? && d.device.value.mappingName.None?)
  }

  lemma RefreshedWritable(os: Os, n: string, dev: DevPath)
    requires On(os.k, dev, n) && forall m :: From(os.k, m, n) ==> !m.ro
    ensures Writable(Refresh(os), dev)
  {
    OfDeviceMember(Refresh(os).host, dev);
    OfDeviceMember(Refresh(os).local, dev);
    hide OpenMappings;
    assert forall m :: IsEntry(os.k, m) && m.dev == dev ==> From(os.k, m, n);
  }

  lemma RefreshedSettled(os: Os, d: Drive, disk: string)
    requires Agree(os) && Agree(Refresh(os)) && Settled(os, d, disk)
    ensures Settled(Refresh(os), d, disk)
  {
    var leaf := Leaf(d.device.value).value;
    ShownKernel(os, leaf);
    ShownKernel(Refresh(os), leaf);
    hide MountsOf, Shown, Present;
  }

  lemma ClearedQuiet(os: Os, d: Drive)
    requires Agree(os) && d.broken && Cleared(os.k, DiskOf(d)) && DriveMountedPath(d) == None && Member(os, d)
    requires d.device.value.LuksDev? ==> d.device.value.mapped.None? && d.device.value.mappingName.None?
    ensures Quiet(os, d)
  {
    if d.device.value.XfsDev? {
      EntriesOf(os, d.path, Host);
      EntriesOf(os, d.path, Local);
      EmptyOrNot(MountsOf(os, d.path, Host));
      EmptyOrNot(MountsOf(os, d.path, Local));
    }
  }

  lemma CalmRests(s: State, events: seq<Event>)
    requires Calm(s) && Sound(s.os) && Tame(s, s.os.k, events) && AllPrepared(s.drives) && AllWritable(s.os.k, s.drives) && BrokenClosed(s.drives)
    ensures AllRest(Refresh(s.os), s.drives)
  {
    BeginStep(s, s.os.k, events);
    var os' := Refresh(s.os);
    assert s.os.(k := s.os.k) == s.os;
    assert Global(os') && Members(os', s.drives);
    SoundAgrees(s.os);
    SoundAgrees(os');
    hide Calm, Tame, Sound, WfK, LuksOk, CrossOwned, Labelled, Reliable, Member, Agree, Writable, Settled, Cleared, Quiet, Prepared, Refresh, AllWritable, Distinct;
    forall d | d in s.drives ensures Quiet(os', d) {
      var j :| 0 <= j < |s.drives| && s.drives[j] == d;
      CalmDone(s, j);
      if d.broken {
        RefreshKernel(s.os);
        ClearedQuiet(os', d);
      } else {
        RefreshedSettled(s.os, d, DiskOf(d));
        assert d.device.Some? && Leaf(d.device.value).Some? by { SettledLeaf(s.os, d); }
        assert On(s.os.k, Leaf(d.device.value).value, DiskOf(d)) by { SettledLeaf(s.os, d); }
        DiskWritable(s.os.k, s.drives, d);
        RefreshedWritable(s.os, DiskOf(d), Leaf(d.device.value).value);
        WorkingQuiet(os', d);
      }
    }
  }

  lemma SettledLeaf(os: Os, d: Drive)
    requires Settled(os, d, DiskOf(d))
    ensures d.device.Some? && Leaf(d.device.value).Some? && On(os.k, Leaf(d.device.value).value, DiskOf(d))
  {
  }

  lemma DiskWritable(k: Kernel, drives: seq<Drive>, d: Drive)
    requires AllWritable(k, drives) && d in drives
    ensures forall m :: From(k, m, DiskOf(d)) ==> !m.ro
  {
  }

  lemma RefreshKernel(os: Os)
    ensures Refresh(os).k == os.k
  {
  }

  lemma CalmDone(s: State, j: nat)
    requires Calm(s) && j < |s.drives|
    ensures Done(s.os, s.drives[j])
  {
    hide Members, WfK, Labelled, Reliable, CrossOwned;
  }

  lemma NoDrives(cfg: Config, run: seq<State>)
    requires IsRun(Tame, cfg, run) && Init(run[0])
    ensures AllPrepared(run[0].drives)
  {
  }

  lemma LastSound(cfg: Config, run: seq<State>, i: nat)
    requires IsRun(Tame, cfg, run) && Init(run[0]) && 0 < i < |run| && run[i].phase.Idle?
    ensures Sound(run[i].os)
  {
    hide IsRun, Inv, Init, Step, Tame, Sound;
    var s := run[i - 1];
    RunNext(cfg, run, i);
    RunInvariant(cfg, run, i - 1);
    if !s.phase.Idle? {
      LastStep(s, cfg);
      SecondSound(s);
    }
  }

  lemma SecondSound(s: State)
    requires Inv(s) && s.phase.Second?
    ensures Sound(s.os)
  {
    hide Sound, Members, WfK, Labelled, Reliable, CrossOwned, LuksOk, Expected;
  }

  lemma {:induction false} WakeupsOnly(os: Os, drives: seq<Drive>, events: seq<Event>, cfg: Config)
    requires forall e :: e in events ==> e.Wakeup?
    ensures Finish(State(os, drives, Handling(events)), cfg) == Finish(State(os, drives, First(0)), cfg)
    decreases |events|
  {
    hide Finish;
    if events == [] {
      FinishStep(State(os, drives, Handling(events)), cfg);
    } else {
      assert events[0] in events && events[0].Wakeup?;
      FinishStep(State(os, drives, Handling(events)), cfg);
      assert forall e :: e in events[1..] ==> e in events;
      WakeupsOnly(os, drives, events[1..], cfg);
    }
  }
}
