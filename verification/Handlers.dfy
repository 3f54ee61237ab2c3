/** Handling a batch of events keeps the fleet in order. */
module Handlers {
  import opened Names
  import opened Tables
  import opened Kernels
  import opened KernelFacts
  import opened Machine
  import opened MountCache
  import opened Devices
  import opened DeviceFacts
  import opened Drives
  import opened Commands
  import opened Chains
  import opened DriveFacts
  import opened Convergence
  import opened Origins
  import opened Fleets
  import opened Convergers
  import opened Exclusivity

  // ---- a new drive object ----

  /** The mounts, contents and mappings are the same; flags of this drive may have been set. */
  ghost predicate Unmoved(os: Os, os': Os, driveId: string) {
    && os' == os.(log := os'.log, k := os.k.(transient := os'.k.transient))
    && FlagsConfined(os.k, os'.k, driveId)
  }

  lemma UnmovedTransitive(a: Os, b: Os, c: Os, driveId: string)
    requires Unmoved(a, b, driveId) && Unmoved(b, c, driveId)
    ensures Unmoved(a, c, driveId)
  {
  }

  lemma MarkUnmoved(os: Os, d: Drive)
    ensures var (d', os') := MarkAsBroken(os, d);
      Unmoved(os, os', d.driveId) && d' == d.(broken := true, assignment := None)
  {
    RunFlagShape(os, d.driveId);
  }

  lemma CheckFlagUnmoved(os: Os, d: Drive, fromDurable: bool)
    ensures var (d', os') := CheckFlag(os, d, fromDurable);
      && Unmoved(os, os', d.driveId)
      && (d' == d || (d' == d.(broken := true, assignment := None) && Flagged(os.k, d.driveId)))
  {
    RunReadFlagShape(os, d.driveId, fromDurable);
    hide Run, MarkAsBroken;
    var (os1, found) := Run(os, ReadFlag(d.driveId, fromDurable));
    MarkUnmoved(os1, d);
    UnmovedTransitive(os, os1, MarkAsBroken(os1, d).1, d.driveId);
  }

  lemma RunReadFlagShape(os: Os, driveId: string, fromDurable: bool)
    ensures var (os', ok) := Run(os, ReadFlag(driveId, fromDurable));
      os' == os.(log := os'.log) && (ok ==> Flagged(os.k, driveId))
  {
  }

  /** `NewDrive` on a readable disk: a drive that is broken only if it was flagged so. */
  lemma NewDriveShape(os: Os, path: DevPath, driveId: string, keys: seq<string>)
    requires Reliable(os.fate) && path.Disk? && path.name in os.k.disks
    ensures var (d, os') := NewDrive(os, path, driveId, keys);
      && Unmoved(os, os', driveId) && d.path == path && d.driveId == driveId && d.keys == keys && d.assignment == None
      && d.device.Some? && d.device.value.path == path && ChainOk(os.k, d.device.value, Loc(path.name, 0), driveId)
      && (d.broken ==> Flagged(os.k, driveId))
  {
    NewDeviceOk(os, path, Loc(path.name, 0), driveId, keys != []);
    hide NewDevice, CheckFlag, ChainOk, Reliable;
    var (device, os1) := NewDevice(os, path, keys != []);
    var d0 := Drive(path, driveId, keys, device, device.None?, None);
    CheckFlagUnmoved(os1, d0, false);
    var (d1, os2) := CheckFlag(os1, d0, false);
    CheckFlagUnmoved(os2, d1, true);
    UnmovedTransitive(os, os1, os2, driveId);
    UnmovedTransitive(os, os2, CheckFlag(os2, d1, true).1, driveId);
  }

  lemma UnmovedGlobal(os: Os, os': Os, driveId: string)
    requires Unmoved(os, os', driveId) && Global(os)
    ensures Global(os')
  {
    hide Peel;
    SoundSame(os, os');
    TablesWf(os.k, os'.k);
    LuksOkSlots(os, os');
    CrossOwnedSame(os.k, os'.k);
    LabelledSame(os.k, os'.k);
  }

  lemma CrossOwnedSame(k: Kernel, k': Kernel)
    requires CrossOwned(k) && k'.host == k.host && k'.local == k.local
    ensures CrossOwned(k')
  {
  }

  lemma LabelledSame(k: Kernel, k': Kernel)
    requires Labelled(k) && k' == k.(transient := k'.transient)
    ensures Labelled(k')
  {
    forall m, n | From(k', m, n) && m.path.SrvNode? ensures m.path.id != "" && Branded(k', n, m.path.id) {
      assert From(k, m, n);
      BrandSame(k, k', n, m.path.id);
    }
  }

  lemma BrandSame(k: Kernel, k': Kernel, n: string, id: string)
    requires k'.disks == k.disks && Branded(k, n, id)
    ensures Branded(k', n, id)
  {
    var depth: nat :| HoldsId(k, Loc(n, depth), id);
    assert HoldsId(k', Loc(n, depth), id);
  }

  lemma UnmovedCandidate(os: Os, os': Os, d: Drive)
    requires Unmoved(os, os', d.driveId) && Ready(os, d.path, d.driveId)
    requires d.device.Some? && d.device.value.path == d.path && d.assignment == None
    requires ChainOk(os.k, d.device.value, Loc(d.path.name, 0), d.driveId) && (d.broken ==> Flagged(os.k, d.driveId))
    ensures Candidate(os', d)
  {
    ChainOkSame(os.k, os'.k, d.device.value, Loc(d.path.name, 0), d.driveId);
    hide ChainOk, Peel;
    FreshSlots(os, os', d.driveId);
    if d.broken {
      ClearedAccounts(os.k, d.device.value, d.path.name);
      AccountedSame(os.k, os'.k, d.device.value, d.path.name);
    }
    hide Fresh, Accounted, Cleared;
    ReservedSame(os.k, os'.k, d.path.name, RunTemp(d.driveId));
  }

  lemma ReservedSame(k: Kernel, k': Kernel, disk: string, path: Path)
    requires Reserved(k, disk, path) && k' == k.(transient := k'.transient)
    ensures Reserved(k', disk, path)
  {
  }

  lemma UnmovedForeign(a: Os, b: Os, c: Os, d: Drive, disk: string)
    requires Unmoved(a, b, d.driveId) && Global(a) && Global(b) && Foreign(b, c, d, disk)
    ensures Foreign(a, c, d, disk)
  {
    hide Sound, WfK, CrossOwned, Labelled, Reliable, Peel;
    WithinTables(a, b, disk, d.driveId);
    OthersStaySame(a.k, b.k, disk);
    OthersStayTransitive(a.k, b.k, c.k, disk);
    FlagsConfinedTransitive(a.k, b.k, c.k, d.driveId);
    WithinTransitive(a, b, c, disk, d.driveId);
    hide Within, OthersStay, LuksOk, FlagsConfined;
    forall m | From(c.k, m, disk) ensures !d.broken && Origin(a.k, d, disk, m.path) {
      OriginSame(a.k, b.k, d, disk, m.path);
    }
  }

  lemma OriginSame(k: Kernel, k': Kernel, d: Drive, disk: string, path: Path)
    requires k' == k.(transient := k'.transient) && Origin(k', d, disk, path)
    ensures Origin(k, d, disk, path)
  {
    if HasMount(k', disk, path) {
      var m :| From(k', m, disk) && m.path == path;
      assert From(k, m, disk);
    }
  }

  /** A new drive object for a ready disk, converged for the first time. */
  lemma Newcomer(os: Os, path: DevPath, driveId: string, keys: seq<string>)
    requires Global(os) && Ready(os, path, driveId)
    ensures var (d, os1) := NewDrive(os, path, driveId, keys);
      && d.device.Some? && d.path == path && d.driveId == driveId && d.assignment == None
      && var (d', os2) := ConvergeDrive(os1, d);
         && Global(os2) && Member(os2, d') && Foreign(os, os2, d, path.name)
         && d'.path == path && d'.driveId == driveId && Claim(d') == None && Homed(d') && Done(os2, d')
  {
    NewDriveShape(os, path, driveId, keys);
    hide NewDrive, ConvergeDrive, Global, ChainOk, Foreign, Candidate, Member, Ready, Homed, Reliable, Done;
    var (d, os1) := NewDrive(os, path, driveId, keys);
    UnmovedCandidate(os, os1, d);
    UnmovedGlobal(os, os1, driveId);
    assert Homed(d) by { UnclaimedHomed(d); }
    ConvergedReplaces(os1, d);
    var (d', os2) := ConvergeDrive(os1, d);
    assert Foreign(os1, os2, d, path.name);
    UnmovedForeign(os, os1, os2, d, path.name);
  }

  lemma UnclaimedHomed(d: Drive)
    requires d.assignment == None
    ensures Homed(d)
  {
  }

  // ---- a drive added ----

  /** What handling an added drive must tell about it. */
  ghost predicate Joined(os: Os, os': Os, actor: Drive, d': Drive) {
    && Global(os') && Member(os', d') && Foreign(os, os', actor, DiskOf(d'))
    && actor.path == d'.path && actor.driveId == d'.driveId && Claim(actor) == None && Claim(d') == None
  }

  ghost predicate Newly(drives: seq<Drive>, d: Drive) {
    forall e :: e in drives ==> e.path != d.path && e.driveId != d.driveId
  }

  lemma MembersGrow(os: Os, os': Os, drives: seq<Drive>, actor: Drive, d': Drive)
    requires Members(os, drives) && Joined(os, os', actor, d') && Newly(drives, d')
    ensures Members(os', drives + [d'])
  {
    hide Global, Foreign;
    forall e | e in drives + [d'] ensures Member(os', e) {
      if e != d' {
        BystanderJoins(os, os', drives, actor, d', e);
      }
    }
    hide Member;
    var ds := drives + [d'];
    forall i, j | 0 <= i < |ds| && 0 <= j < |ds| && i != j ensures Distinct(ds[i], ds[j]) {
      assert i < |drives| ==> ds[i] in drives;
      assert j < |drives| ==> ds[j] in drives;
    }
  }

  lemma BystanderJoins(os: Os, os': Os, drives: seq<Drive>, actor: Drive, d': Drive, e: Drive)
    requires Members(os, drives) && Joined(os, os', actor, d') && Newly(drives, d') && e in drives
    ensures Member(os', e)
  {
    hide Global, Foreign;
    assert DiskOf(e) != DiskOf(d');
    BystanderStays(os, os', actor, DiskOf(d'), e);
  }

  lemma PendingJoins(os: Os, os': Os, drives: seq<Drive>, actor: Drive, d': Drive, e: Event)
    requires Joined(os, os', actor, d') && Newly(drives, d') && PendingOk(os, drives, e) && d'.path.Disk?
    requires PathOf(e) != Some(d'.path) && (e.Added? ==> e.driveId != d'.driveId)
    ensures PendingOk(os', drives + [d'], e)
  {
    hide Global, Foreign, Member, Ready;
    var disk := DiskOf(d');
    match e
    case Added(path, driveId) =>
      ReadyDisk(os, path, driveId);
      ReadyElsewhere(os, os', actor, disk, path, driveId);
    case Reinstated(path) =>
      forall d | d in drives + [d'] && d.path == path ensures Ready(os', path, d.driveId) {
        assert d in drives;
        ReadyDisk(os, path, d.driveId);
        ReadyElsewhere(os, os', actor, disk, path, d.driveId);
      }
    case _ =>
  }

  lemma ExpectedJoins(os: Os, os': Os, drives: seq<Drive>, actor: Drive, d': Drive, events: seq<Event>)
    requires events != [] && events[0] == Added(d'.path, d'.driveId)
    requires Joined(os, os', actor, d') && Expected(os.k, drives, events)
    ensures Expected(os'.k, drives + [d'], events[1..])
  {
    hide Global, Member, WfK, LuksOk, Placed, OthersStay, Confined, CacheConfined;
    forall m, n | From(os'.k, m, n) && m.path.SrvNode? ensures Owner(drives + [d'], events[1..], n) {
      if n == DiskOf(d') {
        assert d' in drives + [d'];
      } else {
        OthersFrom(os.k, os'.k, DiskOf(d'), m, n);
        OwnerRest(drives, d', events, n);
      }
    }
  }

  lemma OwnerRest(drives: seq<Drive>, d': Drive, events: seq<Event>, n: string)
    requires events != [] && events[0] == Added(d'.path, d'.driveId) && n != DiskOf(d') && Owner(drives, events, n)
    ensures Owner(drives + [d'], events[1..], n)
  {
    if d :| d in drives && DiskOf(d) == n {
      assert d in drives + [d'];
    } else {
      var e :| e in events && e.Added? && e.path.name == n;
      assert e in events[1..];
    }
  }

  lemma RestApart(events: seq<Event>)
    requires EventsApart(events) && events != []
    ensures EventsApart(events[1..])
    ensures forall e :: e in events[1..] && PathOf(events[0]).Some? ==> PathOf(e) != PathOf(events[0])
    ensures forall e :: e in events[1..] && e.Added? && events[0].Added? ==> e.driveId != events[0].driveId
  {
    forall e | e in events[1..]
      ensures (PathOf(events[0]).Some? ==> PathOf(e) != PathOf(events[0])) && (e.Added? && events[0].Added? ==> e.driveId != events[0].driveId)
    {
      var j :| 0 <= j < |events[1..]| && events[1..][j] == e;
      assert events[j + 1] == e;
    }
  }

  lemma FleetJoins(os: Os, os': Os, drives: seq<Drive>, actor: Drive, d': Drive, events: seq<Event>)
    requires events != [] && events[0] == Added(d'.path, d'.driveId) && d'.path.Disk?
    requires Fleet(os, drives, events) && Joined(os, os', actor, d') && Newly(drives, d')
    ensures Fleet(os', drives + [d'], events[1..])
  {
    MembersGrow(os, os', drives, actor, d');
    ExpectedJoins(os, os', drives, actor, d', events);
    RestApart(events);
    hide EventsApart, Members, Member, Expected, Global, PendingOk, Foreign, Newly;
    forall e | e in events[1..] ensures PendingOk(os', drives + [d'], e) {
      assert e in events;
      PendingJoins(os, os', drives, actor, d', e);
    }
  }

  lemma AddedStep(os: Os, drives: seq<Drive>, events: seq<Event>, cfg: Config)
    requires events != [] && events[0].Added? && Fleet(os, drives, events) && AllHomed(drives)
    ensures var r := Handle(os, drives, events[0], cfg);
      r.Some? && Fleet(r.value.0, r.value.1, events[1..]) && AllHomed(r.value.1)
  {
    var path, driveId := events[0].path, events[0].driveId;
    assert events[0] in events && PendingOk(os, drives, events[0]);
    Newcomer(os, path, driveId, cfg.keys);
    ReadyDisk(os, path, driveId);
    hide NewDrive, ConvergeDrive, Global, Foreign, Ready, Homed, Members, Expected, Member, EventsApart;
    var (d, os1) := NewDrive(os, path, driveId, cfg.keys);
    var (d', os2) := ConvergeDrive(os1, d);
    assert Newly(drives, d');
    hide PendingOk;
    FleetJoins(os, os2, drives, d, d', events);
    HomedGrow(drives, d');
  }

  lemma HomedGrow(drives: seq<Drive>, d: Drive)
    requires AllHomed(drives) && Homed(d)
    ensures AllHomed(drives + [d])
  {
    hide Homed;
  }

  // ---- a drive reinstated ----

  /** What the handler does when the device is managed and readable. */
  lemma ReinstatedIs(os: Os, drives: seq<Drive>, e: Event, cfg: Config)
    requires e.Reinstated? && IndexOf(drives, e.path) < |drives|
    ensures var i := IndexOf(drives, e.path);
      var (d, os1) := NewDrive(os, e.path, drives[i].driveId, drives[i].keys);
      d.device.Some? ==>
        var (d', os2) := ConvergeDrive(os1, d);
        Handle(os, drives, e, cfg) == Some((os2, drives[i := d']))
  {
    hide NewDrive, ConvergeDrive, IndexOf;
  }

  lemma ReinstatedReady(os: Os, drives: seq<Drive>, events: seq<Event>)
    requires events != [] && events[0].Reinstated? && Fleet(os, drives, events) && IndexOf(drives, events[0].path) < |drives|
    ensures var d := drives[IndexOf(drives, events[0].path)];
      Global(os) && d.path == events[0].path && Ready(os, d.path, d.driveId)
  {
    hide Global, Members, Expected, EventsApart, Ready;
    assert events[0] in events && PendingOk(os, drives, events[0]);
    assert drives[IndexOf(drives, events[0].path)] in drives;
  }

  /** A new object takes the place of an old one in the fleet. */
  lemma ReinstatedKeeps(os: Os, drives: seq<Drive>, rest: seq<Event>, i: nat)
    requires Fleet(os, drives, rest) && AllHomed(drives) && i < |drives|
    requires Global(os) && Ready(os, drives[i].path, drives[i].driveId) && forall e :: e in rest ==> PathOf(e) != Some(drives[i].path)
    ensures var (d, os1) := NewDrive(os, drives[i].path, drives[i].driveId, drives[i].keys);
      d.device.Some? &&
      var (d', os2) := ConvergeDrive(os1, d);
      Fleet(os2, drives[i := d'], rest) && AllHomed(drives[i := d'])
  {
    var was := drives[i];
    Newcomer(os, was.path, was.driveId, was.keys);
    assert was in drives && Member(os, was);
    hide NewDrive, ConvergeDrive, Global, Foreign, Ready, Homed, AllHomed, Fleet, Member, PathOf;
    var (d, os1) := NewDrive(os, was.path, was.driveId, was.keys);
    var (d', os2) := ConvergeDrive(os1, d);
    FleetStays(os, os2, drives, rest, i, d, d');
    HomedUpdate(drives, i, d');
  }

  lemma ReinstatedStep(os: Os, drives: seq<Drive>, events: seq<Event>, cfg: Config)
    requires events != [] && events[0].Reinstated? && Fleet(os, drives, events) && AllHomed(drives)
    ensures var r := Handle(os, drives, events[0], cfg);
      r.Some? && Fleet(r.value.0, r.value.1, events[1..]) && AllHomed(r.value.1)
  {
    var e, i := events[0], IndexOf(drives, events[0].path);
    FleetRest(os, drives, events);
    if i < |drives| {
      RestApart(events);
      ReinstatedReady(os, drives, events);
      ReinstatedIs(os, drives, e, cfg);
      hide Handle, NewDrive, ConvergeDrive, Global, Ready, AllHomed, Fleet, IndexOf, EventsApart;
      ReinstatedKeeps(os, drives, events[1..], i);
    }
  }

  lemma HomedUpdate(drives: seq<Drive>, i: nat, d: Drive)
    requires AllHomed(drives) && Homed(d) && i < |drives|
    ensures AllHomed(drives[i := d])
  {
    hide Homed;
    forall e | e in drives[i := d] ensures Homed(e) {
      var j :| 0 <= j < |drives| && drives[i := d][j] == e;
      assert j != i ==> drives[j] in drives;
    }
  }

  /** The rest of a batch, when its first event is not about a new drive. */
  lemma FleetRest(os: Os, drives: seq<Drive>, events: seq<Event>)
    requires events != [] && !events[0].Added? && Fleet(os, drives, events)
    ensures Fleet(os, drives, events[1..])
  {
    RestApart(events);
    hide EventsApart, Members, Global, PendingOk;
    assert forall e :: e in events[1..] ==> e in events;
    forall m, n | From(os.k, m, n) && m.path.SrvNode? ensures Owner(drives, events[1..], n) {
      assert Owner(drives, events, n);
      if e :| e in events && e.Added? && e.path.name == n {
        assert e in events[1..];
      }
    }
  }

  // ---- a drive error ----

  lemma ErroredReplaces(os: Os, d: Drive)
    requires Global(os) && Member(os, d)
    ensures var (d', os') := MarkAsBroken(os, d);
      Replaced(os, os', d, d.(broken := false, assignment := None), d') && Homed(d')
  {
    MarkKeeps(os, d, DiskOf(d));
    MarkUnmoved(os, d);
    hide MarkAsBroken, ChainOk, Accounted, OthersStay, WfK, LuksOk, Sound, CrossOwned, Labelled, Reliable, Fresh, Reserved;
    var (d', os') := MarkAsBroken(os, d);
    UnmovedGlobal(os, os', d.driveId);
    ReservedSame(os.k, os'.k, DiskOf(d), RunTemp(d.driveId));
    var actor := d.(broken := false, assignment := None);
    forall m | From(os'.k, m, DiskOf(d)) ensures Origin(os.k, actor, DiskOf(d), m.path) {
      assert From(os.k, m, DiskOf(d));
      assert HasMount(os.k, DiskOf(d), m.path);
    }
  }

  lemma ErroredStep(os: Os, drives: seq<Drive>, events: seq<Event>, cfg: Config)
    requires events != [] && events[0].Errored? && Fleet(os, drives, events) && AllHomed(drives)
    ensures var r := Handle(os, drives, events[0], cfg);
      r.Some? && Fleet(r.value.0, r.value.1, events[1..]) && AllHomed(r.value.1)
  {
    var i := IndexOf(drives, events[0].path);
    FleetRest(os, drives, events);
    if i < |drives| {
      assert drives[i] in drives;
      ErroredReplaces(os, drives[i]);
      RestApart(events);
      hide MarkAsBroken, Global, Foreign, Homed, Members, Expected, Member, EventsApart, PendingOk, IndexOf;
      var (d', os') := MarkAsBroken(os, drives[i]);
      FleetStays(os, os', drives, events[1..], i, drives[i].(broken := false, assignment := None), d');
      HomedUpdate(drives, i, d');
    }
  }

  // ---- a drive removed ----

  lemma {:induction false} WithoutMember(drives: seq<Drive>, path: DevPath)
    ensures forall d :: d in Without(drives, path) <==> d in drives && d.path != path
    decreases |drives|
  {
    if drives != [] {
      WithoutMember(drives[1..], path);
    }
  }

  ghost predicate Pairwise(drives: seq<Drive>) {
    forall i, j :: 0 <= i < |drives| && 0 <= j < |drives| && i != j ==> Distinct(drives[i], drives[j])
  }

  lemma ApartFromRest(drives: seq<Drive>, kept: seq<Drive>)
    requires Pairwise(drives) && drives != [] && (forall d :: d in kept ==> d in drives[1..]) && Pairwise(kept)
    ensures Pairwise([drives[0]] + kept)
  {
    hide Distinct;
    forall j | 0 <= j < |kept| ensures Distinct(drives[0], kept[j]) && Distinct(kept[j], drives[0]) {
      assert kept[j] in drives[1..];
      var x :| 0 <= x < |drives[1..]| && drives[1..][x] == kept[j];
      assert drives[x + 1] == kept[j];
    }
  }

  lemma {:induction false} WithoutPairwise(drives: seq<Drive>, path: DevPath)
    requires Pairwise(drives)
    ensures Pairwise(Without(drives, path))
    decreases |drives|
  {
    hide Distinct;
    if drives != [] {
      var rest := drives[1..];
      assert Pairwise(rest);
      WithoutPairwise(rest, path);
      WithoutMember(rest, path);
      hide Pairwise;
      ApartFromRest(drives, Without(rest, path));
      assert [] + Without(rest, path) == Without(rest, path);
    }
  }

  lemma {:induction false} LastAtMember(drives: seq<Drive>, path: DevPath)
    ensures var d := LastAt(drives, path);
      && (d.Some? ==> d.value in drives && d.value.path == path)
      && (d.None? ==> forall e :: e in drives ==> e.path != path)
    decreases |drives|
  {
    if drives != [] {
      var n := |drives| - 1;
      assert drives == drives[..n] + [drives[n]];
      LastAtMember(drives[..n], path);
    }
  }

  lemma RemovedLeaves(os: Os, d: Drive)
    requires Global(os) && Member(os, d)
    ensures var (_, os') := TeardownDrive(os, d);
      Global(os') && Foreign(os, os', d, DiskOf(d)) && Cleared(os'.k, DiskOf(d))
  {
    var disk := DiskOf(d);
    TeardownClears(os, d.device.value, disk, d.driveId);
    TeardownDriveRan(os, d);
    hide Teardown, ChainOk, Accounted, OthersStay, WfK, LuksOk, Sound, Labelled, Reliable, Fresh, Reserved, Within, Ran, Cleared, CrossOwned, MountsOk, FlagsConfined;
    var (_, os') := TeardownDrive(os, d);
    RanFlags(os, os', Tearing);
    FlagsSame(os.k, os'.k, d.driveId);
    WithinWf(os, os', disk, d.driveId);
    WfMounts(os'.k);
    CrossOwnedCleared(os.k, os'.k, disk);
    forall m ensures !From(os'.k, m, disk) {
      NoneFrom(os'.k, disk, m);
    }
    LabelledStays(os, os', d, disk, Tearing);
  }

  lemma NoneFrom(k: Kernel, disk: string, m: Mount)
    requires Cleared(k, disk)
    ensures !From(k, m, disk)
  {
  }

  lemma MembersShrink(os: Os, os': Os, drives: seq<Drive>, d: Drive)
    requires Members(os, drives) && d in drives && Foreign(os, os', d, DiskOf(d))
    ensures Members(os', Without(drives, d.path))
  {
    hide Foreign;
    var kept := Without(drives, d.path);
    WithoutMember(drives, d.path);
    assert Pairwise(drives);
    WithoutPairwise(drives, d.path);
    hide Without;
    assert Pairwise(kept);
    forall e | e in kept ensures Member(os', e) {
      PairOf(drives, d, e);
      assert Member(os, d) && Member(os, e);
      OtherDisk(os, d, e);
      BystanderStays(os, os', d, DiskOf(d), e);
    }
  }

  lemma PairOf(drives: seq<Drive>, d: Drive, e: Drive)
    requires Pairwise(drives) && d in drives && e in drives && d.path != e.path
    ensures Distinct(d, e) && Distinct(e, d)
  {
    var i :| 0 <= i < |drives| && drives[i] == d;
    var j :| 0 <= j < |drives| && drives[j] == e;
    assert i != j;
  }

  lemma PendingShrinks(os: Os, os': Os, drives: seq<Drive>, d: Drive, e: Event)
    requires Foreign(os, os', d, DiskOf(d)) && d in drives && d.path.Disk? && Pairwise(drives)
    requires PendingOk(os, drives, e) && PathOf(e) != Some(d.path)
    ensures PendingOk(os', Without(drives, d.path), e)
  {
    hide Foreign, Ready;
    WithoutMember(drives, d.path);
    hide Without;
    match e
    case Added(path, driveId) =>
      ReadyDisk(os, path, driveId);
      ReadyElsewhere(os, os', d, DiskOf(d), path, driveId);
    case Reinstated(path) =>
      forall x | x in Without(drives, d.path) && x.path == path ensures Ready(os', path, x.driveId) {
        PairOf(drives, d, x);
        ReadyDisk(os, path, x.driveId);
        ReadyElsewhere(os, os', d, DiskOf(d), path, x.driveId);
      }
    case _ =>
  }

  lemma AllPendingShrink(os: Os, os': Os, drives: seq<Drive>, d: Drive, events: seq<Event>)
    requires Foreign(os, os', d, DiskOf(d)) && d in drives && Member(os, d) && Members(os, drives)
    requires forall e :: e in events ==> PendingOk(os, drives, e) && PathOf(e) != Some(d.path)
    ensures forall e :: e in events ==> PendingOk(os', Without(drives, d.path), e)
  {
    hide Foreign, PendingOk, Without, Member;
    assert d.path.Disk? by { MemberDisk(os, d); }
    assert Pairwise(drives);
    forall e | e in events ensures PendingOk(os', Without(drives, d.path), e) {
      PendingShrinks(os, os', drives, d, e);
    }
  }

  lemma ExpectedShrinks(os: Os, os': Os, drives: seq<Drive>, d: Drive, events: seq<Event>)
    requires Foreign(os, os', d, DiskOf(d)) && Cleared(os'.k, DiskOf(d)) && Expected(os.k, drives, events)
    ensures Expected(os'.k, Without(drives, d.path), events)
  {
    hide WfK, LuksOk, Placed, OthersStay, Confined, CacheConfined;
    WithoutMember(drives, d.path);
    hide Without;
    forall m, n | From(os'.k, m, n) && m.path.SrvNode? ensures Owner(Without(drives, d.path), events, n) {
      assert n != DiskOf(d);
      OthersFrom(os.k, os'.k, DiskOf(d), m, n);
      assert Owner(drives, events, n);
      if x :| x in drives && DiskOf(x) == n {
        assert x in Without(drives, d.path);
      }
    }
  }

  /** The fleet without a drive that has been torn down. */
  lemma FleetWithout(os: Os, drives: seq<Drive>, d: Drive, events: seq<Event>)
    requires Fleet(os, drives, events) && d in drives && forall e :: e in events ==> PathOf(e) != Some(d.path)
    ensures Fleet(TeardownDrive(os, d).1, Without(drives, d.path), events)
  {
    assert Member(os, d);
    RemovedLeaves(os, d);
    hide TeardownDrive, Global, Foreign, Expected, Member, EventsApart, PendingOk, Without, Distinct;
    var os' := TeardownDrive(os, d).1;
    MembersShrink(os, os', drives, d);
    ExpectedShrinks(os, os', drives, d, events);
    AllPendingShrink(os, os', drives, d, events);
  }

  lemma HomedWithout(drives: seq<Drive>, path: DevPath)
    requires AllHomed(drives)
    ensures AllHomed(Without(drives, path))
  {
    WithoutMember(drives, path);
    hide Without, Homed;
  }

  lemma RemovedStep(os: Os, drives: seq<Drive>, events: seq<Event>, cfg: Config)
    requires events != [] && events[0].Removed? && Fleet(os, drives, events) && AllHomed(drives)
    ensures var r := Handle(os, drives, events[0], cfg);
      r.Some? && Fleet(r.value.0, r.value.1, events[1..]) && AllHomed(r.value.1)
  {
    var path := events[0].path;
    LastAtMember(drives, path);
    FleetRest(os, drives, events);
    assert forall e :: e in events[1..] ==> PathOf(e) != Some(path) by { RestApart(events); }
    hide Fleet, AllHomed, LastAt, Without, TeardownDrive, EventsApart;
    HomedWithout(drives, path);
    if LastAt(drives, path).Some? {
      FleetWithout(os, drives, LastAt(drives, path).value, events[1..]);
    }
  }

  lemma MemberDisk(os: Os, d: Drive)
    requires Member(os, d)
    ensures d.path.Disk?
  {
  }

  /** Handling any event of a batch. */
  lemma HandleStep(os: Os, drives: seq<Drive>, events: seq<Event>, cfg: Config)
    requires events != [] && Fleet(os, drives, events) && AllHomed(drives)
    ensures var r := Handle(os, drives, events[0], cfg);
      r.Some? && Fleet(r.value.0, r.value.1, events[1..]) && AllHomed(r.value.1)
  {
    hide Handle, Fleet, AllHomed;
    match events[0]
    case Added(_, _) => AddedStep(os, drives, events, cfg);
    case Removed(_) => RemovedStep(os, drives, events, cfg);
    case Errored(_) => ErroredStep(os, drives, events, cfg);
    case Reinstated(_) => ReinstatedStep(os, drives, events, cfg);
    case Wakeup =>
      FleetRest(os, drives, events);
      HandleWakeup(os, drives, cfg);
  }

  lemma HandleWakeup(os: Os, drives: seq<Drive>, cfg: Config)
    ensures Handle(os, drives, Wakeup, cfg) == Some((os, drives))
  {
  }
}
