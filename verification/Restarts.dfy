/** The disks of a fleet on their way through an iteration: which contents, swift-ids and places still lead to the end that
  they led to at the start, and that a drive that converges keeps to them at every moment. */
module Restarts {
  import opened Names
  import opened Tables
  import opened Kernels
  import opened KernelFacts
  import opened Machine
  import opened MountCache
  import opened Devices
  import opened Drives
  import opened Commands
  import opened Chains
  import opened DriveFacts
  import opened Convergence
  import opened Fleets
  import opened Convergers
  import opened Exclusivity
  import opened Safety
  import opened Runs
  import opened Moments
  import opened Recovery
  import opened Outcomes
  import opened Pools
  import opened Stability
  import Assignments

  /** A disk and the name of its drive. */
  datatype NamedDisk = NamedDisk(disk: string, driveId: string)

  /** The disks to be managed, in order, what they are like at the start of an iteration, where they are mounted
    then, and how many of them have drive objects already. */
  datatype Plan = Plan(k0: Kernel, disks: seq<NamedDisk>, cfg: Config, ats: seq<Option<Path>>, known: nat)

  function IdOn(k: Kernel, n: string): string {
    if n in k.disks then LeafId(k.disks[n]) else ""
  }

  function IdsOf(k: Kernel, disks: seq<NamedDisk>): (r: seq<string>)
    ensures |r| == |disks|
    ensures forall i :: 0 <= i < |r| ==> r[i] == IdOn(k, disks[i].disk)
  {
    seq(|disks|, i requires 0 <= i < |disks| => IdOn(k, disks[i].disk))
  }

  function Ids0(pl: Plan): (r: seq<string>)
    ensures |r| == |pl.disks|
  {
    IdsOf(pl.k0, pl.disks)
  }

  function PlaceAt(pl: Plan, i: nat, at: Option<Path>): Path
    requires i < |pl.disks|
  {
    Place(Ids0(pl), pl.cfg.pool, i, at, pl.disks[i].driveId)
  }

  ghost predicate Planned(pl: Plan) {
    && |pl.ats| == |pl.disks| && pl.known <= |pl.disks| && SpareOrdered(pl.cfg.pool, 0) && Plain(Ids0(pl))
    && (forall i, j :: 0 <= i < j < |pl.disks| ==> pl.disks[i].disk != pl.disks[j].disk)
  }

  ghost predicate Shapes(pl: Plan, p: Kernel) {
    forall i :: 0 <= i < |pl.disks| ==>
      var n := pl.disks[i].disk;
      n in pl.k0.disks && n in p.disks && DiskShape(p.disks[n], pl.cfg.keys) == DiskShape(pl.k0.disks[n], pl.cfg.keys)
  }

  /** The disks carry these ids and are mounted there. */
  ghost predicate Held(pl: Plan, p: Kernel, ids: seq<string>, places: seq<Option<Path>>) {
    && Shapes(pl, p) && IdsOf(p, pl.disks) == ids && |places| == |pl.disks|
    && forall i :: 0 <= i < |pl.disks| ==> At(p, pl.disks[i].disk, places[i])
  }

  /** Every disk still leads to the place and the id it led to at the start. */
  ghost predicate SameFate(pl: Plan, ids: seq<string>, places: seq<Option<Path>>) {
    && |places| == |pl.disks|
    && (exists c: nat :: c <= |pl.disks| && ids == Halfway(Ids0(pl), pl.cfg.pool, c))
    && forall i :: 0 <= i < |pl.disks| && i < |pl.ats| ==> PlaceAt(pl, i, places[i]) == PlaceAt(pl, i, pl.ats[i])
  }

  ghost predicate Recoverable(pl: Plan, p: Kernel) {
    exists ids, places :: Held(pl, p, ids, places) && SameFate(pl, ids, places)
  }

  ghost function RecoverableFor(pl: Plan): Kernel -> bool {
    p => Recoverable(pl, p)
  }

  // ---- one drive ----

  lemma AtOthers(k: Kernel, p: Kernel, n: string, n': string, at: Option<Path>)
    requires OthersStay(k, p, n) && n' != n && At(k, n', at)
    ensures At(p, n', at)
  {
    hide OthersStay, From;
    forall m | From(p, m, n') ensures at == Some(m.path) {
      OthersFrom(k, p, n, m, n');
    }
    if at.Some? {
      var m :| From(k, m, n');
      OthersFrom(k, p, n, m, n');
    }
  }

  lemma AtTwice(k: Kernel, n: string, a: Option<Path>, b: Option<Path>)
    requires At(k, n, a) && At(k, n, b)
    ensures a == b
  {
    hide From;
    if a.Some? {
      var m :| From(k, m, n);
    }
  }

  /** Where the disk is at some moment on the way. */
  lemma AtDuring(k: Kernel, p: Kernel, n: string, keys: seq<string>, cur: Option<Path>, target: Path) returns (at: Option<Path>)
    requires Underway(k, p, n, keys, cur, target) && At(k, n, cur) && Orderly(k) && Orderly(p)
    ensures At(p, n, at) && (at == None || at == cur || at == Some(target))
    ensures cur == Some(target) ==> at == cur
  {
    hide SameDisks, WfK, CrossOwned, Labelled;
    if m :| From(p, m, n) {
      at := Some(m.path);
    } else {
      at := None;
      if cur == Some(target) {
        var m :| From(k, m, n);
        KeptOn(k, p, n, m);
      }
    }
  }

  lemma KeptOn(k: Kernel, p: Kernel, n: string, m: Mount)
    requires OthersStay(k, p, n) && EntriesKept(k, p) && From(k, m, n) && WfK(p)
    ensures From(p, m, n)
  {
    hide OthersStay, SlotsOk;
    assert IsEntry(p, m);
    var n' := LocOf(p, m.dev).value.disk;
    assert From(p, m, n');
    if n' != n {
      OthersFrom(k, p, n, m, n');
    }
  }

  lemma SameIds(pl: Plan, k: Kernel, p: Kernel, n: string)
    requires SameDisks(k, p, n, pl.cfg.keys) && Shapes(pl, k)
    ensures Shapes(pl, p) && IdsOf(p, pl.disks) == IdsOf(k, pl.disks)
  {
    hide DiskShape, LeafId;
    forall i | 0 <= i < |pl.disks| ensures
      var x := pl.disks[i].disk;
      x in p.disks && DiskShape(p.disks[x], pl.cfg.keys) == DiskShape(k.disks[x], pl.cfg.keys) && IdOn(p, x) == IdOn(k, x)
    {
    }
  }

  /** One disk moves, all else is held. */
  lemma HeldAfter(pl: Plan, k: Kernel, p: Kernel, ids: seq<string>, places: seq<Option<Path>>, i: nat, at: Option<Path>)
    requires Planned(pl) && Held(pl, k, ids, places) && i < |pl.disks|
    requires var n := pl.disks[i].disk;
      SameDisks(k, p, n, pl.cfg.keys) && OthersStay(k, p, n) && At(p, n, at)
    ensures Held(pl, p, ids, places[i := at])
  {
    var n := pl.disks[i].disk;
    SameIds(pl, k, p, n);
    hide OthersStay, SameDisks, Shapes, At, DiskShape, LeafId, IdsOf;
    forall j | 0 <= j < |pl.disks| ensures At(p, pl.disks[j].disk, places[i := at][j]) {
      if j != i {
        AtOthers(k, p, n, pl.disks[j].disk, places[j]);
      }
    }
  }

  /** A place on the way, from which the disk leads where it led before. */
  lemma PlaceOnTheWay(pl: Plan, i: nat, cur: Option<Path>, target: Path, at: Option<Path>)
    requires i < |pl.disks|
    requires Want(Ids0(pl), pl.cfg.pool, i).None? ==> target == Here(cur, pl.disks[i].driveId)
    requires (at == None || at == cur || at == Some(target)) && (cur == Some(target) ==> at == cur)
    ensures PlaceAt(pl, i, at) == PlaceAt(pl, i, cur)
  {
    hide Want, Ids0;
  }

  lemma SameFateAfter(pl: Plan, ids: seq<string>, places: seq<Option<Path>>, i: nat, at: Option<Path>)
    requires SameFate(pl, ids, places) && i < |pl.disks| && PlaceAt(pl, i, at) == PlaceAt(pl, i, places[i])
    ensures SameFate(pl, ids, places[i := at])
  {
    hide PlaceAt, Halfway, Ids0;
  }

  lemma UnderwayRecovers(pl: Plan, k: Kernel, p: Kernel, ids: seq<string>, places: seq<Option<Path>>, i: nat, cur: Option<Path>, target: Path)
    requires Planned(pl) && Held(pl, k, ids, places) && SameFate(pl, ids, places) && i < |pl.disks|
    requires Underway(k, p, pl.disks[i].disk, pl.cfg.keys, cur, target) && At(k, pl.disks[i].disk, cur) && Orderly(k) && Orderly(p)
    requires Want(Ids0(pl), pl.cfg.pool, i).None? ==> target == Here(cur, pl.disks[i].driveId)
    ensures Recoverable(pl, p)
  {
    var n := pl.disks[i].disk;
    var at := AtDuring(k, p, n, pl.cfg.keys, cur, target);
    AtTwice(k, n, cur, places[i]);
    hide Orderly, At, OthersStay, SameDisks, Want, Planned, Shapes, PlaceAt, Halfway, Ids0, EntriesKept, PathIs;
    HeldAfter(pl, k, p, ids, places, i, at);
    PlaceOnTheWay(pl, i, cur, target, at);
    SameFateAfter(pl, ids, places, i, at);
  }

  // ---- one drive, as a step of the fleet ----

  /** The object for this disk, in working order. */
  predicate Working(d: Drive, t: NamedDisk, keys: seq<string>) {
    && d.path == Disk(t.disk) && d.driveId == t.driveId && d.keys == keys
    && !d.broken && d.device.Some? && Suits(d.device.value, t.disk, keys)
  }

  lemma {:induction false} ThroughoutBoth(k: Kernel, es: seq<Entry>, P: Kernel -> bool, Q: Kernel -> bool, R: Kernel -> bool)
    requires Throughout(k, es, P) && Throughout(k, es, Q) && forall p :: P(p) && Q(p) ==> R(p)
    ensures Throughout(k, es, R)
    decreases |es|
  {
    hide Legal, After;
    if es != [] {
      ThroughoutBoth(After(k, es[0]), es[1..], P, Q, R);
    }
  }

  lemma UnderwayAlways(pl: Plan, os: Os, os': Os, ids: seq<string>, places: seq<Option<Path>>, i: nat, cur: Option<Path>, target: Path)
    requires Planned(pl) && Held(pl, os.k, ids, places) && SameFate(pl, ids, places) && i < |pl.disks|
    requires Always(os, os', UnderwayFrom(os.k, pl.disks[i].disk, pl.cfg.keys, cur, target)) && Always(os, os', Orderly)
    requires At(os.k, pl.disks[i].disk, cur) && Orderly(os.k)
    requires Want(Ids0(pl), pl.cfg.pool, i).None? ==> target == Here(cur, pl.disks[i].driveId)
    ensures Always(os, os', RecoverableFor(pl))
  {
    var P := UnderwayFrom(os.k, pl.disks[i].disk, pl.cfg.keys, cur, target);
    hide Planned, Held, SameFate, Want, Here, At, Orderly, Underway, Recoverable, Throughout, Ids0;
    forall p | P(p) && Orderly(p) ensures RecoverableFor(pl)(p) {
      UnderwayRecovers(pl, os.k, p, ids, places, i, cur, target);
    }
    ThroughoutBoth(os.k, Since(os, os'), P, Orderly, RecoverableFor(pl));
  }

  lemma WhitherIs(d: Drive, cur: Option<Path>)
    ensures Whither(d, cur) == if AssignedPath(d.assignment).Some? then AssignedPath(d.assignment).value else Here(cur, d.driveId)
  {
  }

  lemma WorkingStays(os: Os, d: Drive, t: NamedDisk, keys: seq<string>)
    requires LuksMappers(os) && Working(d, t, keys) && !ConvergeDrive(os, d).0.broken
    ensures Working(ConvergeDrive(os, d).0, t, keys) && ConvergeDrive(os, d).0.assignment == d.assignment
  {
    WorkingIsSetup(os, d);
    SetupSuits(os, d.device.value, OrderOf(d), t.disk);
    hide Setup, ConvergeDrive;
  }

  /** A drive of the fleet converges: at every moment the fleet is on its way to the same end, and afterwards
    this drive is where its assignment says, or where it was. */
  lemma DriveStep(pl: Plan, os: Os, d: Drive, i: nat, ids: seq<string>, places: seq<Option<Path>>)
    requires Planned(pl) && Held(pl, os.k, ids, places) && SameFate(pl, ids, places) && i < |pl.disks|
    requires Working(d, pl.disks[i], pl.cfg.keys) && Global(os) && Candidate(os, d) && (Homed(d) || Entitled(os.k, d))
    requires |places| == |pl.disks| && AssignedPath(d.assignment) in {None, Want(Ids0(pl), pl.cfg.pool, i), places[i]}
    requires !ConvergeDrive(os, d).0.broken
    ensures var (d', os') := ConvergeDrive(os, d);
      var n := pl.disks[i].disk;
      && Held(pl, os'.k, ids, places[i := Some(Whither(d, places[i]))]) && Always(os, os', RecoverableFor(pl))
      && Working(d', pl.disks[i], pl.cfg.keys) && d'.assignment == d.assignment
      && SameDisks(os.k, os'.k, n, pl.cfg.keys) && Full(os'.k.disks[n])
  {
    var n := pl.disks[i].disk;
    ConvergeMoments(os, d);
    GlobalProper(os);
    assert LuksMappers(os) by { LuksOkMappers(os); }
    WorkingStays(os, d, pl.disks[i], pl.cfg.keys);
    MemberConverges(os, d);
    hide ConvergeDrive, Global, Candidate, Homed, Entitled, Planned, SameFate, Want, Always, Orderly, Suits, Foreign, Converged, Member, Full, SameDisks, At, Shapes, Done, Underway, Ids0, IdsOf;
    var cur := ConvergeUnderway(os, d);
    assert At(os.k, n, places[i]);
    AtTwice(os.k, n, cur, places[i]);
    WhitherIs(d, cur);
    var (d', os') := ConvergeDrive(os, d);
    UnderwayAlways(pl, os, os', ids, places, i, cur, Whither(d, cur));
    ForeignOthers(os, os', d);
    HeldAfter(pl, os.k, os'.k, ids, places, i, Some(Whither(d, cur)));
  }

  lemma ForeignOthers(os: Os, os': Os, d: Drive)
    requires Foreign(os, os', d, DiskOf(d))
    ensures OthersStay(os.k, os'.k, DiskOf(d))
  {
  }
}
