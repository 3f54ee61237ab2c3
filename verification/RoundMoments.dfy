/** A round of assignments, as a step of the fleet: whatever part of it has been carried out, the disks lead
  to the same end. */
module RoundMoments {
  import opened Names
  import opened Tables
  import opened Kernels
  import opened KernelFacts
  import opened Machine
  import opened Devices
  import opened DeviceFacts
  import opened Drives
  import opened Commands
  import opened Convergence
  import opened Fleets
  import opened Convergers
  import opened Exclusivity
  import opened Handlers
  import opened AssignSteps
  import opened Moments
  import opened Crashes
  import opened Recovery
  import opened Outcomes
  import opened Pools
  import opened Allocations
  import opened Restarts
  import Assignments
  import Chains
  import DriveFacts
  import opened MountCache

  // ---- commands that change nothing the fleet depends on ----

  predicate Inert(c: Cmd) {
    c.Classify? || c.ReadId? || c.ReadFlag? || c.SetFlag?
  }

  ghost predicate SameSystem(k: Kernel, k': Kernel) {
    k' == k.(transient := k'.transient)
  }

  lemma HeldSame(pl: Plan, k: Kernel, k': Kernel, ids: seq<string>, places: seq<Option<Path>>)
    requires SameSystem(k, k') && Held(pl, k, ids, places)
    ensures Held(pl, k', ids, places)
  {
    hide DiskShape, LeafId, On;
    forall i | 0 <= i < |pl.disks| ensures At(k', pl.disks[i].disk, places[i]) {
      AtSame(k, k', pl.disks[i].disk, places[i]);
    }
  }

  lemma AtSame(k: Kernel, k': Kernel, n: string, at: Option<Path>)
    requires k'.slots == k.slots && k'.host == k.host && k'.local == k.local && At(k, n, at)
    ensures At(k', n, at)
  {
    ReservedSlots(k, k');
    hide From;
    forall m | From(k', m, n) ensures at == Some(m.path) {
      assert From(k, m, n);
    }
    if at.Some? {
      var m :| From(k, m, n);
      assert From(k', m, n);
    }
  }

  lemma {:induction false} InertThroughout(pl: Plan, k: Kernel, es: seq<Entry>, k': Kernel, ids: seq<string>, places: seq<Option<Path>>)
    requires Trace(k, es, k') && Held(pl, k, ids, places) && SameFate(pl, ids, places) && forall e :: e in es ==> Inert(e.cmd)
    ensures Throughout(k, es, RecoverableFor(pl)) && Held(pl, k', ids, places)
    decreases |es|
  {
    hide Held, SameFate;
    if es != [] {
      assert es[0] in es;
      assert forall e :: e in es[1..] ==> e in es;
      HeldSame(pl, k, After(k, es[0]), ids, places);
      InertThroughout(pl, After(k, es[0]), es[1..], k', ids, places);
    }
  }

  lemma InertStep(pl: Plan, os: Os, os': Os, ids: seq<string>, places: seq<Option<Path>>, p: Cmd -> bool)
    requires Ran(os, os', p) && (forall c :: p(c) ==> Inert(c)) && Held(pl, os.k, ids, places) && SameFate(pl, ids, places)
    ensures Always(os, os', RecoverableFor(pl)) && Held(pl, os'.k, ids, places)
  {
    hide Held, SameFate, Trace, Throughout, Recoverable;
    InertThroughout(pl, os.k, Since(os, os'), os'.k, ids, places);
  }

  /** At most one command. */
  lemma OneWrite(pl: Plan, os: Os, cmd: Cmd)
    requires Safe(os.k, cmd) && Recoverable(pl, os.k) && Recoverable(pl, Run(os, cmd).0.k)
    ensures Always(os, Run(os, cmd).0, RecoverableFor(pl))
  {
    hide Recoverable;
    RunSteps(os, cmd);
    var (os', ok) := Run(os, cmd);
    var e := Entry(cmd, ok);
    assert Since(os, os') == [e] && [e][1..] == [];
    assert Throughout(After(os.k, e), [], RecoverableFor(pl));
  }

  // ---- one write ----

  lemma BrandIsLeaf(k: Kernel, n: string, id: string)
    requires n in k.disks && Branded(k, n, id)
    ensures LeafId(k.disks[n]) == id
  {
    var depth: nat :| HoldsId(k, Loc(n, depth), id);
    assert Shape(Xfs(id)) == Xfs("");
    GraftShape(k.disks[n], depth, Xfs(id));
  }

  lemma WrittenShape(k: Kernel, k': Kernel, leaf: DevPath, n: string, id: string, keys: seq<string>)
    requires Written(k, k', leaf, id) && On(k, leaf, n)
    ensures n in k.disks && n in k'.disks && DiskShape(k'.disks[n], keys) == DiskShape(k.disks[n], keys) && LeafId(k'.disks[n]) == id
    ensures forall m :: m != n && m in k.disks ==> m in k'.disks && k'.disks[m] == k.disks[m]
  {
    var loc := LocOf(k, leaf).value;
    var c := k.disks[n];
    assert Shape(Xfs(id)) == Shape(Peel(c, loc.depth).value);
    GraftShape(c, loc.depth, Xfs(id));
    assert LeafId(Xfs(id)) == id;
    assert !c.Blank? && !Graft(c, loc.depth, Xfs(id)).Blank?;
  }

  lemma HeldWritten(pl: Plan, k: Kernel, k': Kernel, leaf: DevPath, ids: seq<string>, places: seq<Option<Path>>, i: nat, id: string)
    requires Planned(pl) && Held(pl, k, ids, places) && i < |pl.disks| && Written(k, k', leaf, id) && On(k, leaf, pl.disks[i].disk)
    ensures Held(pl, k', ids[i := id], places)
  {
    var n := pl.disks[i].disk;
    WrittenTables(k, k', leaf, id);
    WrittenShape(k, k', leaf, n, id, pl.cfg.keys);
    hide Written, On, DiskShape, LeafId, At;
    forall j | 0 <= j < |pl.disks|
      ensures pl.disks[j].disk in k'.disks && IdOn(k', pl.disks[j].disk) == ids[i := id][j]
      ensures DiskShape(k'.disks[pl.disks[j].disk], pl.cfg.keys) == DiskShape(pl.k0.disks[pl.disks[j].disk], pl.cfg.keys)
      ensures At(k', pl.disks[j].disk, places[j])
    {
      AtSame(k, k', pl.disks[j].disk, places[j]);
      assert j != i ==> pl.disks[j].disk != n;
      assert IdsOf(k, pl.disks)[j] == ids[j];
    }
  }

  // ---- the disks one after the other ----

  /** The objects are those of the disks, in order. */
  ghost predicate Listed(pl: Plan, drives: seq<Drive>) {
    |drives| == |pl.disks| && forall j :: 0 <= j < |drives| ==> drives[j].path == Disk(pl.disks[j].disk)
  }

  /** The first `i` disks have been dealt with, and the others are waiting. */
  ghost predicate Awaiting(pl: Plan, os: Os, drives: seq<Drive>, taken: set<string>, i: nat, places: seq<Option<Path>>) {
    var ids, pool := Ids0(pl), pl.cfg.pool;
    && Allocating(os, drives, taken) && WritesWork(os.fate) && Listed(pl, drives) && i <= |drives|
    && Fill(ids[i..], pool, taken) == Final(ids, pool)[i..]
    && (forall j :: i <= j < |drives| ==> (Eligible(drives[j]) <==> ids[j] == ""))
    && Held(pl, os.k, Halfway(ids, pool, i), places)
  }

  /** What a round makes of a drive that its scan has judged. */
  function Served(d: Drive, id: string): Drive {
    if Eligible(d) && id != "" then d.(assignment := Some(Assignment(id, NoFault))) else d
  }

  lemma FinalNext(ids: seq<string>, pool: seq<string>, taken: set<string>, i: nat)
    requires i < |ids| && Fill(ids[i..], pool, taken) == Final(ids, pool)[i..]
    ensures var x := Final(ids, pool)[i];
      && x == (if ids[i] != "" then ids[i] else Assignments.OnDisk(Assignments.FirstUnused(pool, taken)))
      && Fill(ids[i + 1..], pool, if ids[i] == "" && x != "" then taken + {Assignments.FirstUnused(pool, taken)} else taken)
         == Final(ids, pool)[i + 1..]
  {
    FillHead(ids[i..], pool, taken);
    hide Fill, Assignments.FirstUnused, Assignments.OnDisk, Final;
    var f := Final(ids, pool);
    assert ids[i..][1..] == ids[i + 1..];
    assert f[i..][1..] == f[i + 1..] && f[i..][0] == f[i];
  }

  lemma HalfwayNext(ids: seq<string>, pool: seq<string>, i: nat)
    requires i < |ids|
    ensures Halfway(ids, pool, i + 1) == Halfway(ids, pool, i)[i := Final(ids, pool)[i]]
  {
    hide Final;
    assert ids[i..][1..] == ids[i + 1..];
  }

  lemma ServedAwaiting(pl: Plan, os: Os, drives: seq<Drive>, taken: set<string>, i: nat, places: seq<Option<Path>>, d: Drive, os': Os, taken': set<string>)
    requires Awaiting(pl, os, drives, taken, i, places) && i < |drives| && d.path == drives[i].path && os'.fate == os.fate
    requires Allocating(os', drives[i := d], taken') && Held(pl, os'.k, Halfway(Ids0(pl), pl.cfg.pool, i + 1), places)
    requires Fill(Ids0(pl)[i + 1..], pl.cfg.pool, taken') == Final(Ids0(pl), pl.cfg.pool)[i + 1..]
    ensures Awaiting(pl, os', drives[i := d], taken', i + 1, places)
  {
    hide Allocating, Fill, Final, Held, Eligible, Halfway, Ids0;
  }

  /** One drive of the round: it is given the id it is to have in the end, if it is to have one. */
  lemma AwaitingOne(pl: Plan, os: Os, drives: seq<Drive>, taken: set<string>, i: nat, places: seq<Option<Path>>)
    requires Planned(pl) && Awaiting(pl, os, drives, taken, i, places) && i < |drives|
    ensures var (d, os', taken') := Assignments.AllocateOne(os, drives[i], pl.cfg.pool, taken);
      && Awaiting(pl, os', drives[i := d], taken', i + 1, places)
      && d == Served(drives[i], Final(Ids0(pl), pl.cfg.pool)[i])
      && (os' == os || exists cmd: Cmd :: cmd.WriteId? && os' == Run(os, cmd).0)
  {
    var ids, pool, d := Ids0(pl), pl.cfg.pool, drives[i];
    var poolId := Assignments.FirstUnused(pool, taken);
    AllocateAt(os, drives, taken, i, pool);
    AllocateOneFills(os, d, pool, taken);
    FinalNext(ids, pool, taken, i);
    HalfwayNext(ids, pool, i);
    hide Fill, Assignments.FirstUnused, Final, Held, Allocating, Planned, MountPath, Eligible, Halfway, Ids0, Run, Assignments.OnDisk;
    var (d', os', taken') := Assignments.AllocateOne(os, d, pool, taken);
    if Eligible(d) && poolId != "" {
      AllocateOneWrites(os, drives, taken, i, pool);
      assert d.path == Disk(pl.disks[i].disk);
      HeldWritten(pl, os.k, os'.k, Leaf(d.device.value).value, Halfway(ids, pool, i), places, i, Assignments.OnDisk(poolId));
    } else {
      UnservedStays(ids, pool, i);
    }
    ServedAwaiting(pl, os, drives, taken, i, places, d', os', taken');
  }

  lemma UnservedStays(ids: seq<string>, pool: seq<string>, i: nat)
    requires i < |ids| && Final(ids, pool)[i] == ids[i]
    ensures Halfway(ids, pool, i)[i := Final(ids, pool)[i]] == Halfway(ids, pool, i)
  {
    hide Final;
  }

  lemma AllocateOneWrites(os: Os, drives: seq<Drive>, taken: set<string>, i: nat, pool: seq<string>)
    requires Allocating(os, drives, taken) && i < |drives| && WritesWork(os.fate)
    requires Eligible(drives[i]) && Assignments.FirstUnused(pool, taken) != ""
    ensures var d, id := drives[i], Assignments.OnDisk(Assignments.FirstUnused(pool, taken));
      var os' := Run(os, WriteId(MountPath(d), id)).0;
      && Assignments.AllocateOne(os, d, pool, taken).1 == os' && d.device.Some? && Leaf(d.device.value).Some?
      && Written(os.k, os'.k, Leaf(d.device.value).value, id) && On(os.k, Leaf(d.device.value).value, DiskOf(d))
      && Assignments.AllocateOne(os, d, pool, taken).0 == d.(assignment := Some(Assignment(id, NoFault)))
  {
    var d := drives[i];
    assert d in drives && Waiting(os, d);
    PendingMountPath(d);
    RunWriteShape(os, d, MountPath(d), Assignments.OnDisk(Assignments.FirstUnused(pool, taken)));
    hide Written, MountPath, Assignments.FirstUnused, Assignments.OnDisk, Global, Members, Expected, AllTaken;
    assert Parked(os, d, MountPath(d));
  }

  lemma AwaitingRecovers(pl: Plan, os: Os, drives: seq<Drive>, taken: set<string>, i: nat, places: seq<Option<Path>>)
    requires Awaiting(pl, os, drives, taken, i, places) && |pl.ats| == |pl.disks| && SamePlaces(pl, places)
    ensures Recoverable(pl, os.k)
  {
    hide Allocating, Held, Fill, Final, PlaceAt, Eligible, Halfway;
    assert SameFate(pl, Halfway(Ids0(pl), pl.cfg.pool, i), places);
  }

  /** The disks lead where they led at the start. */
  ghost predicate SamePlaces(pl: Plan, places: seq<Option<Path>>) {
    |places| == |pl.disks| && forall i :: 0 <= i < |pl.disks| && i < |pl.ats| ==> PlaceAt(pl, i, places[i]) == PlaceAt(pl, i, pl.ats[i])
  }

  lemma AwaitingOneAlways(pl: Plan, os: Os, drives: seq<Drive>, taken: set<string>, i: nat, places: seq<Option<Path>>)
    requires Planned(pl) && Awaiting(pl, os, drives, taken, i, places) && i < |drives| && SamePlaces(pl, places)
    ensures var os' := Assignments.AllocateOne(os, drives[i], pl.cfg.pool, taken).1;
      Always(os, os', RecoverableFor(pl)) && Steps(os, os')
  {
    AwaitingOne(pl, os, drives, taken, i, places);
    hide Assignments.AllocateOne, Awaiting, Planned, SamePlaces, Recoverable, Run, Always, Steps;
    var (d, os', taken') := Assignments.AllocateOne(os, drives[i], pl.cfg.pool, taken);
    assert |pl.ats| == |pl.disks| by { PlannedLength(pl); }
    AwaitingRecovers(pl, os, drives, taken, i, places);
    AwaitingRecovers(pl, os', drives[i := d], taken', i + 1, places);
    if os' == os {
      AlwaysNothing(os, os, RecoverableFor(pl));
      StepsReflexive(os, os);
    } else {
      var cmd: Cmd :| cmd.WriteId? && os' == Run(os, cmd).0;
      OneWrite(pl, os, cmd);
      RunSteps(os, cmd);
    }
  }

  lemma PlannedLength(pl: Plan)
    requires Planned(pl)
    ensures |pl.ats| == |pl.disks|
  {
  }

  /** The rest of the round. */
  lemma {:induction false} AwaitingAll(pl: Plan, os: Os, drives: seq<Drive>, taken: set<string>, i: nat, places: seq<Option<Path>>)
    requires Planned(pl) && Awaiting(pl, os, drives, taken, i, places) && i <= |drives| && SamePlaces(pl, places)
    ensures var (rest, os') := Assignments.Allocate(os, drives[i..], pl.cfg.pool, taken);
      && Always(os, os', RecoverableFor(pl)) && Steps(os, os')
      && Held(pl, os'.k, Final(Ids0(pl), pl.cfg.pool), places)
      && ServedAll(drives[i..], rest, Final(Ids0(pl), pl.cfg.pool)[i..])
    decreases |drives| - i
  {
    var ids, pool := Ids0(pl), pl.cfg.pool;
    assert |Final(ids, pool)| == |drives|;
    hide Assignments.AllocateOne, Awaiting, Planned, SamePlaces, Recoverable, Always, Steps, Held, Served, ServedAll, Ids0, Final;
    if i == |drives| {
      assert drives[i..] == [] && Final(ids, pool)[i..] == [];
      assert ServedAll([], [], []) by { ServedNone(); }
      assert |pl.ats| == |pl.disks| by { PlannedLength(pl); }
      AwaitingEnds(pl, os, drives, taken, places);
      AlwaysNothing(os, os, RecoverableFor(pl));
      StepsReflexive(os, os);
    } else {
      AwaitingOne(pl, os, drives, taken, i, places);
      AwaitingOneAlways(pl, os, drives, taken, i, places);
      var (d, os1, taken1) := Assignments.AllocateOne(os, drives[i], pool, taken);
      var ds := drives[i := d];
      AwaitingAll(pl, os1, ds, taken1, i + 1, places);
      assert drives[i..][0] == drives[i] && drives[i..][1..] == ds[i + 1..];
      AllocateHead(os, drives[i..], pool, taken);
      var (tail, os2) := Assignments.Allocate(os1, ds[i + 1..], pool, taken1);
      AlwaysTransitive(os, os1, os2, RecoverableFor(pl));
      StepsTransitive(os, os1, os2);
      var f := Final(ids, pool);
      assert f[i..][0] == f[i] && f[i..][1..] == f[i + 1..];
      ServedCons(drives[i..], f[i..], d, tail);
    }
  }

  predicate ServedAll(drives: seq<Drive>, after: seq<Drive>, ids: seq<string>) {
    |drives| == |after| == |ids| && forall j :: 0 <= j < |drives| ==> after[j] == Served(drives[j], ids[j])
  }

  lemma ServedNone()
    ensures ServedAll([], [], [])
  {
  }

  lemma ServedCons(drives: seq<Drive>, ids: seq<string>, d: Drive, rest: seq<Drive>)
    requires drives != [] && ids != [] && d == Served(drives[0], ids[0]) && ServedAll(drives[1..], rest, ids[1..])
    ensures ServedAll(drives, [d] + rest, ids)
  {
    hide Served;
  }

  lemma AwaitingWhole(pl: Plan, os: Os, drives: seq<Drive>, taken: set<string>, places: seq<Option<Path>>)
    requires Planned(pl) && Awaiting(pl, os, drives, taken, 0, places) && SamePlaces(pl, places)
    ensures var (drives', os') := Assignments.Allocate(os, drives, pl.cfg.pool, taken);
      && Always(os, os', RecoverableFor(pl)) && Steps(os, os') && Held(pl, os'.k, Final(Ids0(pl), pl.cfg.pool), places)
      && ServedAll(drives, drives', Final(Ids0(pl), pl.cfg.pool))
  {
    var f := Final(Ids0(pl), pl.cfg.pool);
    hide Awaiting, Planned, SamePlaces, Always, Steps, Held, ServedAll, Ids0, Final, Assignments.Allocate;
    AwaitingAll(pl, os, drives, taken, 0, places);
    assert drives[0..] == drives && f[0..] == f;
  }

  lemma AwaitingEnds(pl: Plan, os: Os, drives: seq<Drive>, taken: set<string>, places: seq<Option<Path>>)
    requires Awaiting(pl, os, drives, taken, |drives|, places) && |pl.ats| == |pl.disks| && SamePlaces(pl, places)
    ensures Held(pl, os.k, Final(Ids0(pl), pl.cfg.pool), places) && Recoverable(pl, os.k)
  {
    AwaitingRecovers(pl, os, drives, taken, |drives|, places);
    hide Allocating, Held, Fill, Final, PlaceAt, Eligible, Recoverable;
    var ids, f := Ids0(pl), Final(Ids0(pl), pl.cfg.pool);
    assert f[..|ids|] + ids[|ids|..] == f;
  }

  // ---- the whole round ----

  /** Every drive is working and every disk was read. */
  ghost predicate AllGot(drives: seq<Drive>, readings: seq<Assignments.Reading>, ids: seq<string>) {
    && |readings| == |drives| == |ids|
    && forall j :: 0 <= j < |drives| ==> !drives[j].broken && readings[j] == Assignments.Got(ids[j])
  }

  lemma SharedGot(drives: seq<Drive>, readings: seq<Assignments.Reading>, ids: seq<string>, i: nat)
    requires AllGot(drives, readings, ids) && i < |ids| && ProperId(ids[i])
    ensures Assignments.Shared(readings, i) <==> SharedId(ids, i)
  {
    if Assignments.Shared(readings, i) {
      var j :| 0 <= j < |readings| && j != i && readings[j] == readings[i];
      assert ids[j] == ids[i];
    }
    if SharedId(ids, i) {
      var j :| 0 <= j < |ids| && j != i && ids[j] == ids[i];
      assert readings[j] == readings[i];
    }
  }

  lemma NoneBroken(drives: seq<Drive>, readings: seq<Assignments.Reading>, ids: seq<string>)
    requires AllGot(drives, readings, ids)
    ensures !Assignments.AnyBroken(drives)
  {
    forall d | d in drives ensures !d.broken {
      var j :| 0 <= j < |drives| && drives[j] == d;
    }
  }

  /** A drive is assigned what the ids on the disks at the start call for. */
  lemma VerdictWants(drives: seq<Drive>, readings: seq<Assignments.Reading>, ids: seq<string>, pool: seq<string>, i: nat)
    requires AllGot(drives, readings, ids) && i < |ids| && !Assignments.AnyMisplaced(readings, drives)
    ensures var d := Assignments.Judged(readings, drives, pool)[i];
      && (pool != [] ==> (Eligible(d) <==> ids[i] == ""))
      && AssignedPath((if pool == [] then d else Served(d, Final(ids, pool)[i])).assignment) == Want(ids, pool, i)
  {
    NoneBroken(drives, readings, ids);
    var d := Assignments.Judged(readings, drives, pool)[i];
    if ids[i] != "" {
      FinalKeeps(ids, pool, i);
    } else {
      assert !SharedId(ids, i);
    }
    if ProperId(ids[i]) {
      SharedGot(drives, readings, ids, i);
      assert !Assignments.Misplaced(drives[i], ids[i]);
    }
    hide Assignments.AnyMisplaced, Assignments.AnyBroken, Assignments.Misplaced, Assignments.Shared, SharedId, Final;
    assert drives[i].broken == false && readings[i] == Assignments.Got(ids[i]);
  }

  lemma ReadingIsLeaf(k: Kernel, d: Drive, r: Assignments.Reading, t: NamedDisk)
    requires ReadingOk(k, d, r) && !d.broken && d.path == Disk(t.disk) && t.disk in k.disks
    ensures r == Assignments.Got(IdOn(k, t.disk))
  {
    BrandIsLeaf(k, t.disk, r.id);
  }

  lemma AllRead0(pl: Plan, k: Kernel, drives: seq<Drive>, readings: seq<Assignments.Reading>, places: seq<Option<Path>>)
    requires Held(pl, k, Ids0(pl), places) && Listed(pl, drives) && AllRead(k, drives, readings)
    requires forall d :: d in drives ==> !d.broken
    ensures AllGot(drives, readings, Ids0(pl))
  {
    hide ReadingOk, At, DiskShape, LeafId;
    forall j | 0 <= j < |drives| ensures !drives[j].broken && readings[j] == Assignments.Got(Ids0(pl)[j]) {
      assert drives[j] in drives;
      assert IdsOf(k, pl.disks)[j] == Ids0(pl)[j];
      ReadingIsLeaf(k, drives[j], readings[j], pl.disks[j]);
    }
  }

  /** Nothing mounted below `/srv/node` is in the wrong place. */
  lemma NoneMisplaced(os: Os, drives: seq<Drive>, readings: seq<Assignments.Reading>)
    requires Global(os) && (forall d :: d in drives ==> Done(os, d)) && AllRead(os.k, drives, readings)
    ensures !Assignments.AnyMisplaced(readings, drives)
  {
    hide Sound, WfK, Chains.LuksOk, DriveFacts.CrossOwned, Chains.Reliable, Branded, Settled, DriveFacts.Cleared, Labelled, Parked;
    if i :| 0 <= i < |drives| && Assignments.Proper(readings[i]) && Assignments.Misplaced(drives[i], readings[i].id) {
      var d := drives[i];
      assert d in drives && Done(os, d) && ReadingOk(os.k, d, readings[i]);
      DoneIsParked(os, d);
      ParkedBrand(os, d, MountPath(d));
      ParkedAt(os, d, MountPath(d));
      BrandUnique(os.k, DiskOf(d), readings[i].id, MountPath(d).id);
    }
  }

  lemma ParkedBrand(os: Os, d: Drive, path: Path)
    requires Global(os) && Parked(os, d, path) && path.SrvNode?
    ensures Branded(os.k, DiskOf(d), path.id)
  {
    Chains.SoundAgrees(os);
    ShownKernel(os, Leaf(d.device.value).value);
    hide Branded, Sound, WfK, Chains.LuksOk, DriveFacts.CrossOwned, Chains.Reliable, Shown;
    var m :| m in os.k.local && m.dev == Leaf(d.device.value).value;
    assert From(os.k, m, DiskOf(d));
  }

  lemma GotIds(drives: seq<Drive>, readings: seq<Assignments.Reading>, ids: seq<string>)
    requires AllGot(drives, readings, ids)
    ensures Ids(readings) == ids
  {
  }

  /** Before the round, no disk has been dealt with. */
  lemma NoneDealtWith(ids: seq<string>, pool: seq<string>)
    requires pool != []
    ensures Halfway(ids, pool, 0) == ids && Fill(ids[0..], pool, TakenIds(ids)) == Final(ids, pool)[0..]
  {
    hide Fill, TakenIds;
    assert ids[0..] == ids && Final(ids, pool)[0..] == Final(ids, pool);
    assert Final(ids, pool)[..0] + ids[0..] == ids;
  }

  lemma AwaitingStarts(pl: Plan, os: Os, judged: seq<Drive>, taken: set<string>, places: seq<Option<Path>>)
    requires Allocating(os, judged, taken) && WritesWork(os.fate) && Listed(pl, judged)
    requires Fill(Ids0(pl)[0..], pl.cfg.pool, taken) == Final(Ids0(pl), pl.cfg.pool)[0..]
    requires forall j :: 0 <= j < |judged| && j < |Ids0(pl)| ==> (Eligible(judged[j]) <==> Ids0(pl)[j] == "")
    requires Held(pl, os.k, Halfway(Ids0(pl), pl.cfg.pool, 0), places)
    ensures Awaiting(pl, os, judged, taken, 0, places)
  {
    hide Allocating, WritesWork, Fill, Final, Eligible, Held, Halfway;
  }

  lemma JudgedEligible(drives: seq<Drive>, readings: seq<Assignments.Reading>, ids: seq<string>, pool: seq<string>)
    requires AllGot(drives, readings, ids) && !Assignments.AnyMisplaced(readings, drives) && pool != []
    ensures |ids| == |drives|
    ensures forall j :: 0 <= j < |drives| ==> (Eligible(Assignments.Judged(readings, drives, pool)[j]) <==> ids[j] == "")
  {
    hide Assignments.Judged, Assignments.AnyMisplaced, Want, Served, Eligible, Final;
    forall j | 0 <= j < |drives| ensures Eligible(Assignments.Judged(readings, drives, pool)[j]) <==> ids[j] == "" {
      VerdictWants(drives, readings, ids, pool, j);
    }
  }

  lemma FirstAwaiting(pl: Plan, os: Os, drives: seq<Drive>, readings: seq<Assignments.Reading>, places: seq<Option<Path>>)
    requires AllGot(drives, readings, Ids0(pl)) && Listed(pl, drives) && WritesWork(os.fate) && pl.cfg.pool != []
    requires !Assignments.AnyMisplaced(readings, drives) && Held(pl, os.k, Ids0(pl), places)
    requires Allocating(os, Assignments.Judged(readings, drives, pl.cfg.pool), Assignments.Taken(readings))
    ensures Awaiting(pl, os, Assignments.Judged(readings, drives, pl.cfg.pool), Assignments.Taken(readings), 0, places)
  {
    var ids, pool := Ids0(pl), pl.cfg.pool;
    TakenReadings(readings);
    GotIds(drives, readings, ids);
    NoneDealtWith(ids, pool);
    JudgedIs(drives, readings, pool);
    JudgedEligible(drives, readings, ids, pool);
    hide Ids0, Halfway, Fill, Final, TakenIds, Assignments.Taken, Assignments.Judged, Allocating, Held, Eligible, Assignments.AnyMisplaced, WritesWork, AllGot, Awaiting;
    AwaitingStarts(pl, os, Assignments.Judged(readings, drives, pool), Assignments.Taken(readings), places);
  }

  /** The scan that a round starts with. */
  lemma RoundReads(pl: Plan, os: Os, drives: seq<Drive>, places: seq<Option<Path>>)
    requires Planned(pl) && Held(pl, os.k, Ids0(pl), places) && SamePlaces(pl, places) && Listed(pl, drives)
    requires Fleet(os, drives, []) && forall d :: d in drives ==> Done(os, d) && !d.broken
    ensures var (readings, os1) := Assignments.ReadAll(os, drives);
      && Always(os, os1, RecoverableFor(pl)) && Steps(os, os1) && Held(pl, os1.k, Ids0(pl), places)
      && AllGot(drives, readings, Ids0(pl)) && AllRead(os1.k, drives, readings) && !Assignments.AnyMisplaced(readings, drives)
      && Fleet(os1, drives, []) && (forall d :: d in drives ==> Done(os1, d)) && os1.fate == os.fate
  {
    ReadAllOk(os, drives);
    ReadAllReads(os, drives);
    StartFate(pl, places);
    hide Assignments.ReadAll, Global, Members, Member, Done, Expected, ReadingOk, Assignments.AnyMisplaced, Always, Ran, Held, Planned, SameFate, SamePlaces, Ids0, Recoverable, Listed, Steps;
    var (readings, os1) := Assignments.ReadAll(os, drives);
    InertStep(pl, os, os1, Ids0(pl), places, ReadingIds);
    LogGlobal(os, os1);
    LogFleet(os, os1, drives);
    AllRead0(pl, os1.k, drives, readings, places);
    NoneMisplaced(os1, drives, readings);
    RanSteps(os, os1, ReadingIds);
  }

  lemma RoundAllocates(os: Os, drives: seq<Drive>, readings: seq<Assignments.Reading>, pool: seq<string>)
    requires Fleet(os, drives, []) && (forall d :: d in drives ==> Done(os, d) && !d.broken) && AllRead(os.k, drives, readings)
    ensures Allocating(os, Assignments.Judged(readings, drives, pool), Assignments.Taken(readings))
  {
    hide Assignments.Judged, Global, Members, Member, Done, Expected, Assignments.Taken, ReadingOk, Assignments.AnyBroken;
    JudgedWaiting(os, drives, readings, pool);
    ReadTaken(os.k, drives, readings);
    JudgedTaken(os.k, drives, readings, pool, Assignments.Taken(readings));
    JudgedMembers(os, drives, readings, pool);
    hide Waiting, AllTaken;
  }

  /** What follows the scan. */
  lemma RoundServes(pl: Plan, os: Os, drives: seq<Drive>, readings: seq<Assignments.Reading>, places: seq<Option<Path>>)
    requires Planned(pl) && Held(pl, os.k, Ids0(pl), places) && SamePlaces(pl, places) && Listed(pl, drives) && WritesWork(os.fate)
    requires Fleet(os, drives, []) && (forall d :: d in drives ==> Done(os, d) && !d.broken) && AllRead(os.k, drives, readings)
    requires AllGot(drives, readings, Ids0(pl)) && !Assignments.AnyMisplaced(readings, drives) && pl.cfg.pool != []
    ensures var judged := Assignments.Judged(readings, drives, pl.cfg.pool);
      var (drives', os') := Assignments.Allocate(os, judged, pl.cfg.pool, Assignments.Taken(readings));
      && Always(os, os', RecoverableFor(pl)) && Steps(os, os') && Held(pl, os'.k, Final(Ids0(pl), pl.cfg.pool), places)
      && ServedAll(judged, drives', Final(Ids0(pl), pl.cfg.pool))
  {
    var ids, pool := Ids0(pl), pl.cfg.pool;
    var judged, taken := Assignments.Judged(readings, drives, pool), Assignments.Taken(readings);
    hide Assignments.Judged, Assignments.Allocate, Fleet, Done, Allocating, Assignments.Taken, AllRead, Assignments.AnyMisplaced, Assignments.AnyBroken, Always, Held, Planned, SamePlaces, Ids0, Final, Recoverable, Awaiting, Listed, AllGot, Served, Steps, WritesWork;
    FinalLength(ids, pool, drives, readings);
    RoundAllocates(os, drives, readings, pool);
    FirstAwaiting(pl, os, drives, readings, places);
    AwaitingWhole(pl, os, judged, taken, places);
  }

  lemma JudgedWants(drives: seq<Drive>, readings: seq<Assignments.Reading>, ids: seq<string>, pool: seq<string>)
    requires AllGot(drives, readings, ids) && !Assignments.AnyMisplaced(readings, drives)
    ensures |Assignments.Judged(readings, drives, pool)| == |drives| == |ids| == |Final(ids, pool)|
    ensures forall j :: 0 <= j < |drives| ==>
      var d := Assignments.Judged(readings, drives, pool)[j];
      AssignedPath((if pool == [] then d else Served(d, Final(ids, pool)[j])).assignment) == Want(ids, pool, j)
  {
    FinalLength(ids, pool, drives, readings);
    hide Assignments.Verdict, Assignments.AnyMisplaced, Want, Served, Eligible, Final, AssignedPath;
    forall j | 0 <= j < |drives| ensures
      (var d := Assignments.Judged(readings, drives, pool)[j];
      AssignedPath((if pool == [] then d else Served(d, Final(ids, pool)[j])).assignment) == Want(ids, pool, j))
    {
      VerdictWants(drives, readings, ids, pool, j);
    }
  }

  /** Each drive has the assignment that the ids call for, and is otherwise the same. */
  ghost predicate AsWanted(drives: seq<Drive>, after: seq<Drive>, ids: seq<string>, pool: seq<string>) {
    && |after| == |drives| == |ids|
    && forall j :: 0 <= j < |drives| ==>
         AssignedPath(after[j].assignment) == Want(ids, pool, j) && after[j] == drives[j].(assignment := after[j].assignment)
  }

  lemma JudgedAsWanted(drives: seq<Drive>, readings: seq<Assignments.Reading>, ids: seq<string>, pool: seq<string>, after: seq<Drive>)
    requires AllGot(drives, readings, ids) && !Assignments.AnyMisplaced(readings, drives)
    requires var judged := Assignments.Judged(readings, drives, pool);
      if pool == [] then after == judged else ServedAll(judged, after, Final(ids, pool))
    ensures AsWanted(drives, after, ids, pool)
  {
    JudgedWants(drives, readings, ids, pool);
    JudgedIs(drives, readings, pool);
    hide Assignments.Judged, Assignments.AnyMisplaced, AllGot, Want, Final, AssignedPath, Eligible;
  }

  /** A round of assignments over working drives: at every moment the fleet is on its way to the same end,
    and afterwards each disk carries, and each drive is assigned, what the ids at the start call for. */
  lemma RoundStep(pl: Plan, os: Os, drives: seq<Drive>, places: seq<Option<Path>>)
    requires Planned(pl) && Held(pl, os.k, Ids0(pl), places) && SamePlaces(pl, places) && Listed(pl, drives)
    requires Fleet(os, drives, []) && (forall d :: d in drives ==> Done(os, d) && !d.broken) && WritesWork(os.fate)
    ensures var (drives', os') := Assignments.UpdateAssignments(os, drives, pl.cfg.pool);
      && Always(os, os', RecoverableFor(pl)) && Held(pl, os'.k, Final(Ids0(pl), pl.cfg.pool), places)
      && AsWanted(drives, drives', Ids0(pl), pl.cfg.pool)
  {
    var ids, pool := Ids0(pl), pl.cfg.pool;
    RoundReads(pl, os, drives, places);
    var (readings, os1) := Assignments.ReadAll(os, drives);
    NoneBroken(drives, readings, ids);
    hide Assignments.ReadAll, Assignments.Judged, Assignments.Allocate, Fleet, Done, Assignments.Taken, ReadingOk, Assignments.AnyMisplaced, Assignments.AnyBroken, Always, Held, Planned, SamePlaces, Ids0, Final, Recoverable, Listed, AllRead, AllGot, ServedAll, Steps, AsWanted;
    var judged := Assignments.Judged(readings, drives, pool);
    if pool == [] {
      FinalEmpty(ids);
      JudgedAsWanted(drives, readings, ids, pool, judged);
    } else {
      RoundServes(pl, os1, drives, readings, places);
      var (drives', os') := Assignments.Allocate(os1, judged, pool, Assignments.Taken(readings));
      AlwaysTransitive(os, os1, os', RecoverableFor(pl));
      JudgedAsWanted(drives, readings, ids, pool, drives');
    }
  }

  lemma FinalEmpty(ids: seq<string>)
    ensures Final(ids, []) == ids
  {
  }

  lemma FinalLength(ids: seq<string>, pool: seq<string>, drives: seq<Drive>, readings: seq<Assignments.Reading>)
    requires AllGot(drives, readings, ids)
    ensures |ids| == |Final(ids, pool)| == |drives|
  {
  }

  lemma JudgedIs(drives: seq<Drive>, readings: seq<Assignments.Reading>, pool: seq<string>)
    requires |readings| == |drives|
    ensures var judged := Assignments.Judged(readings, drives, pool);
      |judged| == |drives| && forall j :: 0 <= j < |drives| ==> judged[j] == drives[j].(assignment := judged[j].assignment)
  {
    hide Assignments.Verdict;
  }

  lemma StartFate(pl: Plan, places: seq<Option<Path>>)
    requires Planned(pl) && SamePlaces(pl, places)
    ensures SameFate(pl, Ids0(pl), places)
  {
    hide Ids0, Final, PlaceAt;
    assert Halfway(Ids0(pl), pl.cfg.pool, 0) == Ids0(pl);
  }
}
