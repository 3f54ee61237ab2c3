/** Safety over whole runs: what holds in every state the converger ever reaches. */
module Safety {
  import opened Names
  import opened Tables
  import opened Kernels
  import opened KernelFacts
  import opened Machine
  import opened MountCache
  import opened Devices
  import opened DeviceFacts
  import opened Drives
  import opened Commands
  import opened Chains
  import opened DriveFacts
  import opened Convergence
  import opened Fleets
  import opened Convergers
  import opened Exclusivity
  import opened Handlers
  import opened AssignSteps
  import opened Runs
  import Assignments

  // ---- the world outside ----

  ghost predicate SameLayers(c: Content, d: Content) {
    match c
    case Blank => d.Blank?
    case Xfs(_) => d.Xfs?
    case Luks(key, inner) => d.Luks? && d.key == key && SameLayers(inner, d.inner)
  }

  ghost predicate StillThere(k: Kernel, m: Mount) {
    exists m' :: IsEntry(k, m') && m'.dev == m.dev && m'.path == m.path
  }

  /** What may happen between two iterations. Mounts may vanish or turn read-only, flags may come and go,
    disks may appear, and swift-ids may be edited, but not on a disk mounted below `/srv/node`; nobody else
    mounts anything or touches the LUKS mappings, and managed disks keep their layers. Events name each
    device once; a disk that gets a new drive object is not both flagged and mounted; and whatever is
    mounted below `/srv/node` comes from a disk that is managed or being added. */
  ghost predicate Tame(s: State, k: Kernel, events: seq<Event>) {
    && k.mode == s.os.k.mode && k.slots == s.os.k.slots && WfK(k) && (!k.mode.Separate? ==> k.host == k.local)
    && (forall m :: IsEntry(k, m) ==> StillThere(s.os.k, m))
    && (forall m :: IsEntry(k, m) && m.path.SrvNode? ==> ContentAt(k, m.dev) == ContentAt(s.os.k, m.dev))
    && (forall d :: d in s.drives && DiskOf(d) in s.os.k.disks ==>
         DiskOf(d) in k.disks && SameLayers(s.os.k.disks[DiskOf(d)], k.disks[DiskOf(d)]))
    && EventsApart(events) && (forall e :: e in events ==> PendingOk(Refresh(s.os.(k := k)), s.drives, e))
    && Expected(k, s.drives, events)
  }

  /** At the start nothing is managed; what is mounted at `/srv/node/<id>` carries that id, and no path has
    mounts of two devices. */
  ghost predicate Init(s: State) {
    && s.phase.Idle? && s.drives == [] && Reliable(s.os.fate)
    && WfK(s.os.k) && CrossOwned(s.os.k) && Labelled(s.os.k)
  }

  ghost predicate Calm(s: State) {
    && Reliable(s.os.fate) && WfK(s.os.k) && CrossOwned(s.os.k) && Labelled(s.os.k)
    && Members(s.os, s.drives) && DoneUpTo(s.os, s.drives, |s.drives|)
  }

  ghost predicate Inv(s: State) {
    match s.phase
    case Idle => Calm(s)
    case Handling(events) => Fleet(s.os, s.drives, events) && AllHomed(s.drives)
    case First(i) => Fleet(s.os, s.drives, []) && AllHomed(s.drives) && DoneUpTo(s.os, s.drives, i)
    case Assigning => Fleet(s.os, s.drives, []) && DoneUpTo(s.os, s.drives, |s.drives|)
    case Second(i) => Fleet(s.os, s.drives, []) && DoneUpTo(s.os, s.drives, i) && EntitledFrom(s.os, s.drives, i)
  }

  // ---- a new iteration ----

  lemma {:induction false} LayersPeel(c: Content, d: Content, depth: nat)
    requires SameLayers(c, d)
    ensures Peel(c, depth).Some? == Peel(d, depth).Some?
    ensures Peel(c, depth).Some? ==> Peel(c, depth).value.Luks? == Peel(d, depth).value.Luks?
    ensures Peel(c, depth).Some? ==> Peel(c, depth).value.Xfs? == Peel(d, depth).value.Xfs?
    decreases depth
  {
    if depth > 0 && c.Luks? {
      LayersPeel(c.inner, d.inner, depth - 1);
    }
  }

  lemma {:induction false} ChainOkEdited(k: Kernel, k': Kernel, d: Dev, at: Loc, driveId: string)
    requires k'.slots == k.slots && ChainOk(k, d, at, driveId)
    requires at.disk in k.disks && at.disk in k'.disks && SameLayers(k.disks[at.disk], k'.disks[at.disk])
    ensures ChainOk(k', d, at, driveId)
    decreases d
  {
    LayersPeel(k.disks[at.disk], k'.disks[at.disk], at.depth);
    hide Peel, SameLayers;
    if d.LuksDev? && d.mapped.Some? {
      ChainOkEdited(k, k', d.mapped.value, Deeper(at), driveId);
    }
  }

  lemma RefreshedLuks(os: Os)
    requires SlotsOk(os.k)
    ensures LuksOk(Refresh(os))
    ensures forall name :: Fresh(Refresh(os), name)
  {
    var os' := Refresh(os);
    hide Peel;
    forall m | m in os.k.slots
      ensures os.k.slots[m].backing in os'.luks && os'.luks[os.k.slots[m].backing] == Mapper(m)
    {
      var p := os.k.slots[m].backing;
      assert p in Backings(os.k);
      var x := NameFor(os.k, p);
      assert SlotOk(os.k, os.k.slots[m]) && SlotOk(os.k, os.k.slots[x]);
      assert Deeper(Below(os.k.slots[m].at)) == os.k.slots[m].at;
      assert Deeper(Below(os.k.slots[x].at)) == os.k.slots[x].at;
    }
  }

  lemma RefreshedSound(os: Os)
    requires CrossOwned(os.k) && (!os.k.mode.Separate? ==> os.k.host == os.k.local)
    ensures Sound(Refresh(os))
  {
    hide Pairs, OpenMappings;
    var os' := Refresh(os);
    assert forall m :: m in os'.host || m in os'.local ==> IsEntry(os.k, m);
  }

  lemma TameCrossOwned(s: State, k: Kernel, events: seq<Event>)
    requires Tame(s, k, events) && CrossOwned(s.os.k)
    ensures CrossOwned(k)
  {
    hide WfK, PendingOk, Expected, EventsApart, Refresh, SameLayers;
    forall m, m' | IsEntry(k, m) && IsEntry(k, m') && m.path == m'.path ensures m.dev == m'.dev {
      assert StillThere(s.os.k, m) && StillThere(s.os.k, m');
    }
  }

  lemma TameLabelled(s: State, k: Kernel, events: seq<Event>)
    requires Tame(s, k, events) && Labelled(s.os.k) && WfK(s.os.k)
    ensures Labelled(k)
  {
    hide SlotsOk, PendingOk, Expected, EventsApart, Refresh, SameLayers, Branded, Peel;
    forall m, n | From(k, m, n) && m.path.SrvNode? ensures m.path.id != "" && Branded(k, n, m.path.id) {
      assert StillThere(s.os.k, m);
      var m' :| IsEntry(s.os.k, m') && m'.dev == m.dev && m'.path == m.path;
      assert From(s.os.k, m', n);
      var depth, id := LocOf(k, m.dev).value.depth, ContentAt(k, m.dev).value.id;
      BrandAt(s.os.k, n, depth, id);
      BrandAt(k, n, depth, id);
      BrandUnique(s.os.k, n, id, m.path.id);
    }
  }

  lemma BrandAt(k: Kernel, n: string, depth: nat, id: string)
    requires HoldsId(k, Loc(n, depth), id)
    ensures Branded(k, n, id)
  {
  }

  lemma TameMember(s: State, k: Kernel, events: seq<Event>, d: Drive)
    requires Tame(s, k, events) && d in s.drives && Member(s.os, d)
    ensures Member(Refresh(s.os.(k := k)), d)
  {
    var n := DiskOf(d);
    assert n in s.os.k.disks;
    ChainOkEdited(s.os.k, k, d.device.value, Loc(n, 0), d.driveId);
    RefreshedLuks(s.os.(k := k));
    hide WfK, PendingOk, Expected, EventsApart, SameLayers, ChainOk, LuksOk, Fresh, OpenMappings;
    var os' := Refresh(s.os.(k := k));
    forall m | IsEntry(k, m) && On(k, m.dev, n) ensures Leaf(d.device.value) == Some(m.dev) {
      assert StillThere(s.os.k, m);
    }
    TameReserved(s, k, events, n, RunTemp(d.driveId));
    if Claim(d).Some? {
      TameReserved(s, k, events, n, Claim(d).value);
    }
  }

  lemma TameReserved(s: State, k: Kernel, events: seq<Event>, n: string, path: Path)
    requires Tame(s, k, events) && Reserved(s.os.k, n, path)
    ensures Reserved(k, n, path)
  {
    hide WfK, PendingOk, Expected, EventsApart, SameLayers, Refresh;
    forall m | IsEntry(k, m) && m.path == path ensures On(k, m.dev, n) {
      assert StillThere(s.os.k, m);
    }
  }

  lemma BeginStep(s: State, k: Kernel, events: seq<Event>)
    requires Calm(s) && Tame(s, k, events)
    ensures Inv(Begin(s, k, events))
  {
    var os' := Refresh(s.os.(k := k));
    TameCrossOwned(s, k, events);
    TameLabelled(s, k, events);
    RefreshedSound(s.os.(k := k));
    WfSlots(k);
    RefreshedLuks(s.os.(k := k));
    hide WfK, PendingOk, Expected, EventsApart, SameLayers, Labelled, CrossOwned, Sound, LuksOk, Member, Done, Reliable, OpenMappings, Homed, Distinct;
    forall d | d in s.drives ensures Member(os', d) && Homed(d) {
      TameMember(s, k, events, d);
      var j :| 0 <= j < |s.drives| && s.drives[j] == d;
    }
  }

  // ---- steps ----

  lemma AllDone(os: Os, drives: seq<Drive>)
    requires DoneUpTo(os, drives, |drives|)
    ensures forall d :: d in drives ==> Done(os, d) && Homed(d)
  {
    hide Done, Homed;
  }

  /** The process never dies on an unreadable device, and every step keeps the invariant. */
  lemma StepKeeps(s: State, cfg: Config)
    requires Inv(s) && !s.phase.Idle?
    ensures Step(s, cfg).Some? && Inv(Step(s, cfg).value)
  {
    hide Handle, ConvergeDrive, Fleet, Done, Homed, Entitled;
    match s.phase
    case Handling(events) =>
      if events != [] {
        HandleStep(s.os, s.drives, events, cfg);
      }
    case First(i) =>
      if i < |s.drives| {
        FirstStep(s.os, s.drives, i);
      }
    case Assigning => AssigningKeeps(s, cfg);
    case Second(i) =>
      if i >= |s.drives| {
        FleetCalm(s);
      } else if s.drives[i].broken {
        SkippedStep(s.os, s.drives, i);
      } else {
        SecondStep(s.os, s.drives, i);
      }
  }

  lemma AssigningKeeps(s: State, cfg: Config)
    requires s.phase.Assigning? && Inv(s)
    ensures Inv(Step(s, cfg).value)
  {
    hide Step, Assignments.UpdateAssignments, Fleet, Done, Homed, EntitledFrom, Calm, AllHomed;
    AllDone(s.os, s.drives);
    AssignStep(s.os, s.drives, cfg.pool);
    AssigningIs(s, cfg);
  }

  lemma AssigningIs(s: State, cfg: Config)
    requires s.phase.Assigning?
    ensures var (drives, os) := Assignments.UpdateAssignments(s.os, s.drives, cfg.pool);
      Step(s, cfg) == Some(State(os, drives, Second(0)))
  {
    hide Assignments.UpdateAssignments;
  }

  lemma FleetCalm(s: State)
    requires s.phase.Second? && Inv(s) && s.phase.i >= |s.drives|
    ensures Calm(s.(phase := Idle))
  {
    hide Members, Done, Homed, Sound, WfK, LuksOk, CrossOwned, Labelled, Reliable, Entitled;
  }

  lemma SkippedStep(os: Os, drives: seq<Drive>, i: nat)
    requires i < |drives| && drives[i].broken && DoneUpTo(os, drives, i) && EntitledFrom(os, drives, i)
    ensures DoneUpTo(os, drives, i + 1) && EntitledFrom(os, drives, i + 1)
  {
    assert Homed(drives[i]);
    hide Done, Homed, Entitled;
  }

  lemma InitCalm(s: State)
    requires Init(s)
    ensures Inv(s)
  {
  }

  /** Every state of every run satisfies the invariant. */
  lemma {:induction false} RunInvariant(cfg: Config, run: seq<State>, i: nat)
    requires IsRun(Tame, cfg, run) && Init(run[0]) && i < |run|
    ensures Inv(run[i])
    decreases i
  {
    hide Inv, Step, Begin, Tame, Init;
    if i == 0 {
      InitCalm(run[0]);
    } else {
      RunInvariant(cfg, run, i - 1);
      var s := run[i - 1];
      assert Next(Tame, cfg, s, run[i]);
      if s.phase.Idle? {
        var k, events :| Tame(s, k, events) && run[i] == Begin(s, k, events);
        IdleCalm(s);
        BeginStep(s, k, events);
      } else {
        StepKeeps(s, cfg);
      }
    }
  }

  lemma IdleCalm(s: State)
    requires Inv(s) && s.phase.Idle?
    ensures Calm(s)
  {
  }

  // ---- theorems ----

  /** No path ever has mounts of two devices, in either namespace or across both. */
  ghost predicate Exclusive(k: Kernel) {
    forall m, m' :: (m in k.host || m in k.local) && (m' in k.host || m' in k.local) && m.path == m'.path ==> m.dev == m'.dev
  }

  /** What is mounted at `/srv/node/<id>` is a filesystem that carries this id. */
  ghost predicate RightlyPlaced(k: Kernel) {
    forall m :: (m in k.host || m in k.local) && m.path.SrvNode? ==> ContentAt(k, m.dev) == Some(Xfs(m.path.id))
  }

  lemma InvExclusive(s: State)
    requires Inv(s)
    ensures Exclusive(s.os.k)
  {
    hide Sound, LuksOk, Members, WfK, Labelled, DoneUpTo, EntitledFrom, AllHomed, Expected, PendingOk;
    assert CrossOwned(s.os.k);
  }

  lemma InvRightlyPlaced(s: State)
    requires Inv(s)
    ensures RightlyPlaced(s.os.k)
  {
    hide Sound, LuksOk, Members, CrossOwned, SlotsOk, DoneUpTo, EntitledFrom, AllHomed, Expected, PendingOk, Branded, Peel;
    var k := s.os.k;
    assert Labelled(k) && MountsOk(k);
    forall m | IsEntry(k, m) && m.path.SrvNode? ensures ContentAt(k, m.dev) == Some(Xfs(m.path.id)) {
      var loc := LocOf(k, m.dev).value;
      assert From(k, m, loc.disk);
      BrandAt(k, loc.disk, loc.depth, ContentAt(k, m.dev).value.id);
      BrandUnique(k, loc.disk, ContentAt(k, m.dev).value.id, m.path.id);
    }
  }

  /** Mount exclusivity: in every state of every run, between any two steps of an iteration, whatever
    commands fail other than umounts and reads, no two devices share a mount path, and each mount below
    `/srv/node` is of a disk with that swift-id. */
  lemma MountsExclusive(cfg: Config, run: seq<State>)
    requires IsRun(Tame, cfg, run) && Init(run[0])
    ensures forall i :: 0 <= i < |run| ==> Exclusive(run[i].os.k) && RightlyPlaced(run[i].os.k)
  {
    hide IsRun, Exclusive, RightlyPlaced, Inv;
    forall i | 0 <= i < |run| ensures Exclusive(run[i].os.k) && RightlyPlaced(run[i].os.k) {
      RunInvariant(cfg, run, i);
      InvExclusive(run[i]);
      InvRightlyPlaced(run[i]);
    }
  }

  /** Where a finished iteration leaves a drive. */
  ghost predicate AtGoal(os: Os, d: Drive) {
    if d.broken then forall m :: IsEntry(os.k, m) ==> !On(os.k, m.dev, DiskOf(d))
    else
      && (exists m :: m in os.k.host && On(os.k, m.dev, DiskOf(d)))
      && (exists m :: m in os.k.local && On(os.k, m.dev, DiskOf(d)))
      && (forall m :: IsEntry(os.k, m) && On(os.k, m.dev, DiskOf(d)) ==> m.path == MountPath(d))
      && (forall m, m' :: IsEntry(os.k, m) && IsEntry(os.k, m') && m.path == MountPath(d) == m'.path ==> m.dev == m'.dev)
  }

  lemma DoneAtGoal(os: Os, d: Drive)
    requires Sound(os) && CrossOwned(os.k) && Done(os, d)
    ensures AtGoal(os, d)
  {
    hide Pairs, OfDevice, Owned, CrossOwned;
    if !d.broken {
      var leaf := Leaf(d.device.value).value;
      SoundAgrees(os);
      ShownKernel(os, leaf);
      var h :| h in os.k.host && h.dev == leaf;
      var l :| l in os.k.local && l.dev == leaf;
      assert forall m :: From(os.k, m, DiskOf(d)) ==> m.path == MountPath(d);
      assert forall m :: IsEntry(os.k, m) && On(os.k, m.dev, DiskOf(d)) ==> From(os.k, m, DiskOf(d));
      CrossOwnedAt(os.k, MountPath(d));
    }
  }

  lemma CrossOwnedAt(k: Kernel, path: Path)
    requires CrossOwned(k)
    ensures forall m, m' :: IsEntry(k, m) && IsEntry(k, m') && m.path == path == m'.path ==> m.dev == m'.dev
  {
  }

  lemma LastStep(s: State, cfg: Config)
    requires Inv(s) && !s.phase.Idle? && Step(s, cfg).Some? && Step(s, cfg).value.phase.Idle?
    ensures s.phase.Second? && s.phase.i >= |s.drives| && Step(s, cfg).value == s.(phase := Idle)
  {
    hide Handle, ConvergeDrive, Inv, Assignments.UpdateAssignments;
  }

  lemma LastInv(s: State, d: Drive)
    requires Inv(s) && s.phase.Second? && s.phase.i >= |s.drives| && d in s.drives
    ensures Sound(s.os) && CrossOwned(s.os.k) && Done(s.os, d)
  {
    hide Sound, CrossOwned, Done, Homed, LuksOk, WfK, Labelled, Members, Expected, Reliable, Entitled;
  }

  /** Goal state: when an iteration ends, every working drive is mounted in both scopes at its mount path
    and nowhere else, and no broken drive has a mount left. */
  lemma IterationReachesGoal(cfg: Config, run: seq<State>, i: nat)
    requires IsRun(Tame, cfg, run) && Init(run[0]) && 0 < i < |run|
    requires run[i].phase.Idle?
    ensures forall d :: d in run[i].drives ==> AtGoal(run[i].os, d)
  {
    hide IsRun, Inv, AtGoal, Init, Step, Tame, Sound, CrossOwned, Done;
    var s := run[i - 1];
    RunNext(cfg, run, i);
    RunInvariant(cfg, run, i - 1);
    LastStep(s, cfg);
    forall d | d in run[i].drives ensures AtGoal(run[i].os, d) {
      LastInv(s, d);
      DoneAtGoal(s.os, d);
    }
  }

  lemma RunNext(cfg: Config, run: seq<State>, i: nat)
    requires IsRun(Tame, cfg, run) && 0 < i < |run|
    ensures Next(Tame, cfg, run[i - 1], run[i])
  {
  }

  /** The process never dies on a drive whose device it cannot read. */
  lemma NeverDies(cfg: Config, run: seq<State>, i: nat)
    requires IsRun(Tame, cfg, run) && Init(run[0]) && i < |run|
    ensures Step(run[i], cfg).Some?
  {
    hide IsRun, Inv, Init, Handle, ConvergeDrive;
    RunInvariant(cfg, run, i);
    if !run[i].phase.Idle? {
      StepKeeps(run[i], cfg);
    }
  }
}
