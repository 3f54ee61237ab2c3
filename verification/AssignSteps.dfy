/** A round of assignments hands out claims that nobody else holds or sits on. */
module AssignSteps {
  import opened Names
  import opened Tables
  import opened Kernels
  import opened KernelFacts
  import opened Machine
  import opened MountCache
  import opened Devices
  import opened DeviceFacts
  import opened Drives
  import opened Commands
  import opened Chains
  import opened DriveFacts
  import opened Convergence
  import opened Origins
  import opened Fleets
  import opened Convergers
  import opened Exclusivity
  import opened Handlers
  import opened Assignments

  /** A working drive, mounted from its leaf at `path` in both scopes and nowhere else. */
  ghost predicate Parked(os: Os, d: Drive, path: Path) {
    && d.device.Some? && DriveMountedPath(d) == Some(path)
    && (forall m :: From(os.k, m, DiskOf(d)) ==> m.path == path)
    && Leaf(d.device.value).Some? && On(os.k, Leaf(d.device.value).value, DiskOf(d)) && Shown(os, Leaf(d.device.value).value)
  }

  lemma DoneIsParked(os: Os, d: Drive)
    requires Done(os, d) && !d.broken
    ensures Parked(os, d, MountPath(d))
  {
  }

  // ---- reading ----

  /** What is read off a drive: nothing if it is broken, the id its disk carries otherwise. */
  ghost predicate ReadingOk(k: Kernel, d: Drive, r: Reading) {
    if d.broken then r == Skipped else r.Got? && Branded(k, DiskOf(d), r.id)
  }

  /** The files visible at a drive's mount path are those of its leaf. */
  lemma VisibleIsLeaf(os: Os, d: Drive, path: Path)
    requires Global(os) && Parked(os, d, path)
    ensures TopAt(os.k.local, path) == Leaf(d.device.value)
    ensures ContentAt(os.k, Leaf(d.device.value).value).Some? && ContentAt(os.k, Leaf(d.device.value).value).value.Xfs?
  {
    var leaf := Leaf(d.device.value).value;
    SoundAgrees(os);
    ShownKernel(os, leaf);
    hide Agree, Sound, Shown, LuksOk, Labelled, SlotsOk, Reliable, Peel;
    var m :| m in os.k.local && m.dev == leaf;
    assert From(os.k, m, DiskOf(d));
    TopAtMember(os.k.local, path);
    assert MountedAt(os.k.local, path);
    var t :| t in os.k.local && t.dev == TopAt(os.k.local, path).value && t.path == path;
    assert IsEntry(os.k, t) && IsEntry(os.k, m);
  }

  lemma ReadsBrand(os: Os, d: Drive, path: Path)
    requires Global(os) && Parked(os, d, path)
    ensures Branded(os.k, DiskOf(d), IdAt(os.k, path))
  {
    VisibleIsLeaf(os, d, path);
    hide Global, Shown, Peel;
    var leaf := Leaf(d.device.value).value;
    assert HoldsId(os.k, Loc(DiskOf(d), LocOf(os.k, leaf).value.depth), IdAt(os.k, path));
  }

  lemma RunReadShape(os: Os, path: Path)
    requires Reliable(os.fate)
    ensures Run(os, ReadId(path)).1 && Run(os, ReadId(path)).0 == os.(log := Run(os, ReadId(path)).0.log)
  {
    var c := ReadId(path);
    assert os.fate(|os.log|, c);
  }

  lemma ReadOneOk(os: Os, d: Drive)
    requires Global(os) && Done(os, d)
    ensures var (r, os') := ReadOne(os, d);
      ReadingOk(os.k, d, r) && os' == os.(log := os'.log)
  {
    hide Run, Settled, Cleared, Branded, Sound, WfK, LuksOk, CrossOwned, Labelled, Parked;
    if !d.broken {
      var path := MountPath(d);
      DoneIsParked(os, d);
      ReadsBrand(os, d, path);
      assert DriveMountedPath(d) == Some(path) by { ParkedAt(os, d, path); }
      RunReadShape(os, path);
    }
  }

  lemma ParkedAt(os: Os, d: Drive, path: Path)
    requires Parked(os, d, path)
    ensures DriveMountedPath(d) == Some(path)
  {
  }

  lemma LogGlobal(os: Os, os': Os)
    requires os' == os.(log := os'.log)
    ensures Global(os) ==> Global(os')
    ensures forall d :: Done(os, d) ==> Done(os', d)
    ensures forall d :: Member(os, d) ==> Member(os', d)
  {
    if Global(os) {
      UnmovedGlobal(os, os', "");
    }
    forall d | Done(os, d) ensures Done(os', d) {
    }
    forall d | Member(os, d) ensures Member(os', d) {
    }
  }

  lemma {:induction false} ReadAllOk(os: Os, drives: seq<Drive>)
    requires Global(os) && forall d :: d in drives ==> Done(os, d)
    ensures var (readings, os') := ReadAll(os, drives);
      && (forall i :: 0 <= i < |drives| ==> ReadingOk(os.k, drives[i], readings[i]))
      && os' == os.(log := os'.log)
    decreases |drives|
  {
    hide ReadOne, Global, Done, ReadingOk;
    if drives != [] {
      assert drives[0] in drives;
      ReadOneOk(os, drives[0]);
      var (_, os1) := ReadOne(os, drives[0]);
      LogGlobal(os, os1);
      assert forall d :: d in drives[1..] ==> d in drives;
      ReadAllOk(os1, drives[1..]);
    }
  }

  // ---- judging ----

  ghost predicate AllRead(k: Kernel, drives: seq<Drive>, readings: seq<Reading>) {
    |readings| == |drives| && forall i :: 0 <= i < |drives| ==> ReadingOk(k, drives[i], readings[i])
  }

  /** A claim comes from the id on the drive's own disk, which no other drive's disk shows. */
  lemma JudgedClaim(k: Kernel, drives: seq<Drive>, readings: seq<Reading>, pool: seq<string>, i: nat)
    requires AllRead(k, drives, readings) && i < |drives|
    ensures var d := Judged(readings, drives, pool)[i];
      && (Claim(d).Some? ==> Claim(d).value.SrvNode? && readings[i] == Got(Claim(d).value.id) && Proper(readings[i]))
      && (Claim(d).Some? ==> !Shared(readings, i) && Branded(k, DiskOf(d), Claim(d).value.id))
      && (Eligible(d) ==> readings[i] == Got(""))
  {
    hide Branded, Shared;
    assert ReadingOk(k, drives[i], readings[i]);
  }

  /** Nobody else sits where a claim points. */
  lemma ClaimReserved(os: Os, drives: seq<Drive>, readings: seq<Reading>, i: nat, id: string)
    requires Fleet(os, drives, []) && (forall d :: d in drives ==> Done(os, d))
    requires AllRead(os.k, drives, readings) && i < |drives| && readings[i] == Got(id) && !Shared(readings, i)
    ensures Reserved(os.k, DiskOf(drives[i]), SrvNode(id))
  {
    hide Sound, LuksOk, Members, CrossOwned, Reliable, Branded, Settled, Shared, SlotsOk;
    forall m | IsEntry(os.k, m) && m.path == SrvNode(id) ensures On(os.k, m.dev, DiskOf(drives[i])) {
      var n := LocOf(os.k, m.dev).value.disk;
      assert From(os.k, m, n);
      assert Owner(drives, [], n);
      var d :| d in drives && DiskOf(d) == n;
      var j :| 0 <= j < |drives| && drives[j] == d;
      assert Done(os, d) && ReadingOk(os.k, drives[j], readings[j]);
      assert !d.broken by { OwnerWorking(os, d, m); }
      BrandUnique(os.k, n, id, readings[j].id);
      SharedBy(readings, i, j);
    }
  }

  lemma OwnerWorking(os: Os, d: Drive, m: Mount)
    requires Done(os, d) && From(os.k, m, DiskOf(d))
    ensures !d.broken
  {
  }

  lemma SharedBy(readings: seq<Reading>, i: nat, j: nat)
    requires i < |readings| && j < |readings| && readings[i] == readings[j] && !Shared(readings, i)
    ensures i == j
  {
  }

  /** The drives after judging: the same in all but their assignments. */
  lemma JudgedMember(os: Os, drives: seq<Drive>, readings: seq<Reading>, pool: seq<string>, i: nat)
    requires Fleet(os, drives, []) && (forall d :: d in drives ==> Done(os, d))
    requires AllRead(os.k, drives, readings) && i < |drives|
    ensures var d := Judged(readings, drives, pool)[i];
      && Member(os, d) && Entitled(os.k, d) && (d.broken ==> Done(os, d))
      && d == drives[i].(assignment := d.assignment)
  {
    JudgedClaim(os.k, drives, readings, pool, i);
    hide Global, Expected, Branded, Shared, Verdict, ReadingOk;
    assert drives[i] in drives;
    assert Member(os, drives[i]) && Done(os, drives[i]);
    var d := Judged(readings, drives, pool)[i];
    if Claim(d).Some? {
      ClaimReserved(os, drives, readings, i, Claim(d).value.id);
    }
  }

  lemma JudgedMembers(os: Os, drives: seq<Drive>, readings: seq<Reading>, pool: seq<string>)
    requires Fleet(os, drives, []) && (forall d :: d in drives ==> Done(os, d))
    requires AllRead(os.k, drives, readings)
    ensures var ds := Judged(readings, drives, pool);
      Members(os, ds) && EntitledFrom(os, ds, 0) && Expected(os.k, ds, [])
  {
    hide Global, Fleet, Done, Member, Entitled, ReadingOk;
    var ds := Judged(readings, drives, pool);
    forall i | 0 <= i < |ds| ensures Member(os, ds[i]) && Entitled(os.k, ds[i]) && (ds[i].broken ==> Done(os, ds[i])) {
      JudgedMember(os, drives, readings, pool, i);
    }
    forall d | d in ds ensures Member(os, d) {
      var i :| 0 <= i < |ds| && ds[i] == d;
    }
    JudgedExpected(os, drives, readings, pool);
    hide EntitledFrom, Expected;
    forall i, j | 0 <= i < |ds| && 0 <= j < |ds| && i != j ensures Distinct(ds[i], ds[j]) {
      JudgedDistinct(os, drives, readings, pool, i, j);
    }
  }

  lemma JudgedExpected(os: Os, drives: seq<Drive>, readings: seq<Reading>, pool: seq<string>)
    requires Fleet(os, drives, []) && |readings| == |drives|
    ensures Expected(os.k, Judged(readings, drives, pool), [])
  {
    hide Global, Members, Verdict;
    var ds := Judged(readings, drives, pool);
    forall m, n | From(os.k, m, n) && m.path.SrvNode? ensures Owner(ds, [], n) {
      assert Owner(drives, [], n);
      var d :| d in drives && DiskOf(d) == n;
      var i :| 0 <= i < |drives| && drives[i] == d;
      assert ds[i] in ds && DiskOf(ds[i]) == n;
    }
  }

  lemma JudgedDistinct(os: Os, drives: seq<Drive>, readings: seq<Reading>, pool: seq<string>, i: nat, j: nat)
    requires Fleet(os, drives, []) && AllRead(os.k, drives, readings) && i < |drives| && j < |drives| && i != j
    ensures Distinct(Judged(readings, drives, pool)[i], Judged(readings, drives, pool)[j])
  {
    JudgedClaim(os.k, drives, readings, pool, i);
    JudgedClaim(os.k, drives, readings, pool, j);
    hide Global, Expected, Branded, Shared, Verdict, ReadingOk, Member, Claim;
    assert Distinct(drives[i], drives[j]);
    var d, e := Judged(readings, drives, pool)[i], Judged(readings, drives, pool)[j];
    if Claim(d).Some? && Claim(e) == Claim(d) {
      SharedBy(readings, i, j);
    }
  }

  // ---- allocating ----

  /** Every id on the disks of the fleet is taken. */
  ghost predicate AllTaken(k: Kernel, drives: seq<Drive>, taken: set<string>) {
    forall d, id :: d in drives && Branded(k, DiskOf(d), id) && id != "" && id != "spare" ==> id in taken
  }

  ghost predicate Waiting(os: Os, d: Drive) {
    && !d.broken && DriveMountedPath(d).Some? && Parked(os, d, DriveMountedPath(d).value)
    && Entitled(os.k, d) && (Eligible(d) ==> Branded(os.k, DiskOf(d), ""))
  }

  ghost predicate Allocating(os: Os, drives: seq<Drive>, taken: set<string>) {
    && Global(os) && Members(os, drives) && Expected(os.k, drives, [])
    && (forall d :: d in drives ==> Waiting(os, d)) && AllTaken(os.k, drives, taken)
  }

  /** The kernel after swift-id `id` has been written to the filesystem on `disk`. */
  ghost predicate Written(k: Kernel, k': Kernel, leaf: DevPath, id: string) {
    && ContentAt(k, leaf).Some? && ContentAt(k, leaf).value.Xfs? && k' == WithContent(k, leaf, Xfs(id))
  }

  lemma RunWriteShape(os: Os, d: Drive, path: Path, id: string)
    requires Global(os) && Parked(os, d, path)
    ensures var (os', ok) := Run(os, WriteId(path, id));
      && os' == os.(log := os'.log, k := os'.k)
      && (if ok then Written(os.k, os'.k, Leaf(d.device.value).value, id) else os'.k == os.k)
  {
    VisibleIsLeaf(os, d, path);
    hide Global, Parked, WithContent;
  }

  lemma WrittenBrands(k: Kernel, k': Kernel, leaf: DevPath, disk: string, id: string)
    requires Written(k, k', leaf, id) && On(k, leaf, disk)
    ensures Confined(k, k', disk) && Branded(k', disk, id)
    ensures forall b :: Branded(k', disk, b) ==> b == id
  {
    var loc := LocOf(k, leaf).value;
    PeelGraft(k.disks[disk], loc.depth, Xfs(id));
    assert HoldsId(k', loc, id);
    assert loc == Loc(disk, loc.depth);
    hide Graft, Peel, HoldsId;
    forall b | Branded(k', disk, b) ensures b == id {
      BrandUnique(k', disk, b, id);
    }
  }

  lemma {:induction false} WrittenChain(k: Kernel, k': Kernel, leaf: DevPath, id: string, d: Dev, at: Loc, driveId: string)
    requires Written(k, k', leaf, id) && ChainOk(k, d, at, driveId)
    ensures ChainOk(k', d, at, driveId)
    decreases d
  {
    WriteElsewhere(k, leaf, Xfs(id), at);
    KindKept(k, leaf, Xfs(id), at);
    hide WithContent, ContentOf;
    if d.LuksDev? && d.mapped.Some? {
      WrittenChain(k, k', leaf, id, d.mapped.value, Deeper(at), driveId);
    }
  }

  lemma KindKept(k: Kernel, leaf: DevPath, x: Content, at: Loc)
    requires ContentAt(k, leaf).Some? && ContentAt(k, leaf).value.Xfs? && x.Xfs? && ContentOf(k, at).Some?
    ensures ContentOf(WithContent(k, leaf, x), at).Some?
    ensures ContentOf(WithContent(k, leaf, x), at).value.Luks? == ContentOf(k, at).value.Luks?
    ensures ContentOf(WithContent(k, leaf, x), at).value.Xfs? == ContentOf(k, at).value.Xfs?
  {
    WriteElsewhere(k, leaf, x, at);
    hide WithContent, Peel;
  }

  /** A disk whose filesystem has no id is not mounted below `/srv/node`. */
  lemma UnbrandedElsewhere(k: Kernel, disk: string, m: Mount)
    requires Labelled(k) && Branded(k, disk, "") && From(k, m, disk)
    ensures !m.path.SrvNode?
  {
    if m.path.SrvNode? {
      BrandUnique(k, disk, "", m.path.id);
    }
  }

  lemma WrittenLabelled(k: Kernel, k': Kernel, leaf: DevPath, disk: string, id: string)
    requires Written(k, k', leaf, id) && On(k, leaf, disk) && Labelled(k) && Branded(k, disk, "")
    ensures Labelled(k')
  {
    WrittenBrands(k, k', leaf, disk, id);
    assert k'.slots == k.slots && k'.host == k.host && k'.local == k.local;
    hide Written, Branded, Peel, Graft;
    forall m, n | From(k', m, n) && m.path.SrvNode? ensures m.path.id != "" && Branded(k', n, m.path.id) {
      assert From(k, m, n);
      if n == disk {
        UnbrandedElsewhere(k, disk, m);
      } else {
        BrandElsewhere(k, k', disk, n, m.path.id);
      }
    }
  }

  lemma WrittenGlobal(os: Os, os': Os, leaf: DevPath, disk: string, id: string)
    requires Global(os) && os' == os.(log := os'.log, k := os'.k) && Written(os.k, os'.k, leaf, id)
    requires Ran(os, os', Commands.Assigning) && On(os.k, leaf, disk) && Branded(os.k, disk, "")
    ensures Global(os')
  {
    WrittenLabelled(os.k, os'.k, leaf, disk, id);
    hide Labelled, Ran, WfK, Branded, Peel, Graft;
    RanWf(os, os', Commands.Assigning);
    SoundSame(os, os');
    LuksOkSlots(os, os');
    CrossOwnedSame(os.k, os'.k);
  }

  lemma MemberWritten(os: Os, os': Os, leaf: DevPath, id: string, d: Drive)
    requires os' == os.(log := os'.log, k := os'.k) && Written(os.k, os'.k, leaf, id) && Member(os, d)
    ensures Member(os', d)
  {
    WrittenChain(os.k, os'.k, leaf, id, d.device.value, Loc(DiskOf(d), 0), d.driveId);
    assert os'.k.slots == os.k.slots && os'.k.host == os.k.host && os'.k.local == os.k.local;
    hide Written, ChainOk;
    AccountedSame(os.k, os'.k, d.device.value, DiskOf(d));
    if !d.broken {
      FreshSlots(os, os', d.driveId);
    }
    ReservedSlots(os.k, os'.k);
  }

  lemma ReservedSlots(k: Kernel, k': Kernel)
    requires k'.slots == k.slots && k'.host == k.host && k'.local == k.local
    ensures forall disk, path :: Reserved(k, disk, path) ==> Reserved(k', disk, path)
    ensures forall m, n :: From(k, m, n) == From(k', m, n)
  {
  }

  lemma EntryTaken(os: Os, drives: seq<Drive>, taken: set<string>, m: Mount)
    requires Allocating(os, drives, taken) && IsEntry(os.k, m) && m.path.SrvNode? && m.path.id != "spare"
    ensures m.path.id in taken
  {
    hide Sound, LuksOk, Members, CrossOwned, Reliable, Branded, SlotsOk, Waiting;
    var n := LocOf(os.k, m.dev).value.disk;
    assert From(os.k, m, n);
    assert Owner(drives, [], n);
  }

  /** An id that is not taken is carried by no disk of the fleet, so nobody is at its place or claims it. */
  lemma UntakenFree(os: Os, drives: seq<Drive>, taken: set<string>, id: string)
    requires Allocating(os, drives, taken) && id !in taken && id != "" && id != "spare"
    ensures forall m :: IsEntry(os.k, m) ==> m.path != SrvNode(id)
    ensures forall d :: d in drives ==> Claim(d) != Some(SrvNode(id))
  {
    forall m | IsEntry(os.k, m) ensures m.path != SrvNode(id) {
      if m.path.SrvNode? && m.path.id != "spare" {
        EntryTaken(os, drives, taken, m);
      }
    }
    hide Global, Members, Branded, Parked, Eligible, Expected;
    forall d | d in drives ensures Claim(d) != Some(SrvNode(id)) {
      assert Waiting(os, d);
    }
  }

  /** The drive that an id has been written to. */
  function Awarded(d: Drive, poolId: string): Drive {
    d.(assignment := Some(Assignment(OnDisk(poolId), NoFault)))
  }

  lemma GrantedClaim(d: Drive, poolId: string)
    ensures Claim(Awarded(d, poolId)).Some? ==> OnDisk(poolId) == poolId && poolId != "spare"
    ensures Claim(Awarded(d, poolId)).Some? ==> Claim(Awarded(d, poolId)) == Some(SrvNode(poolId))
  {
    hide IsSpareName;
  }

  lemma GrantedMember(os: Os, drives: seq<Drive>, taken: set<string>, i: nat, poolId: string)
    requires Allocating(os, drives, taken) && i < |drives| && poolId !in taken && poolId != ""
    ensures Member(os, Awarded(drives[i], poolId))
  {
    var d := Awarded(drives[i], poolId);
    GrantedClaim(drives[i], poolId);
    if Claim(d).Some? {
      UntakenFree(os, drives, taken, poolId);
    }
    hide Global, Expected, Waiting, AllTaken, Fits, Accounted, IdKept, OnDisk;
    assert drives[i] in drives && Member(os, drives[i]);
  }

  lemma GrantedMembers(os: Os, drives: seq<Drive>, taken: set<string>, i: nat, poolId: string)
    requires Allocating(os, drives, taken) && i < |drives| && poolId !in taken && poolId != ""
    ensures Members(os, drives[i := Awarded(drives[i], poolId)])
  {
    var d := Awarded(drives[i], poolId);
    var ds := drives[i := d];
    GrantedMember(os, drives, taken, i, poolId);
    GrantedClaim(drives[i], poolId);
    if Claim(d).Some? {
      UntakenFree(os, drives, taken, poolId);
    }
    hide Global, Expected, Waiting, AllTaken, Member, OnDisk;
    forall e | e in ds ensures Member(os, e) {
      var j :| 0 <= j < |ds| && ds[j] == e;
      assert j != i ==> drives[j] in drives;
    }
    hide Claim;
    forall a, b | 0 <= a < |ds| && 0 <= b < |ds| && a != b ensures Distinct(ds[a], ds[b]) {
      assert Distinct(drives[a], drives[b]);
      assert drives[a] in drives && drives[b] in drives;
    }
  }

  lemma WaitingWritten(os: Os, os': Os, leaf: DevPath, disk: string, id: string, e: Drive)
    requires os' == os.(log := os'.log, k := os'.k) && Written(os.k, os'.k, leaf, id) && On(os.k, leaf, disk)
    requires Waiting(os, e) && DiskOf(e) != disk
    ensures Waiting(os', e)
  {
    WrittenBrands(os.k, os'.k, leaf, disk, id);
    assert os'.k.slots == os.k.slots && os'.k.host == os.k.host && os'.k.local == os.k.local;
    hide Written, Branded, Eligible;
    ReservedSlots(os.k, os'.k);
    BrandElsewhere(os.k, os'.k, disk, DiskOf(e), "");
    if Claim(e).Some? {
      BrandElsewhere(os.k, os'.k, disk, DiskOf(e), Claim(e).value.id);
    }
  }

  lemma WaitingGranted(os: Os, os': Os, leaf: DevPath, d: Drive, poolId: string)
    requires os' == os.(log := os'.log, k := os'.k) && Written(os.k, os'.k, leaf, OnDisk(poolId)) && On(os.k, leaf, DiskOf(d))
    requires Waiting(os, d) && poolId != ""
    ensures Waiting(os', Awarded(d, poolId))
  {
    WrittenBrands(os.k, os'.k, leaf, DiskOf(d), OnDisk(poolId));
    assert os'.k.slots == os.k.slots && os'.k.host == os.k.host && os'.k.local == os.k.local;
    hide Written, Branded, IsSpareName;
    ReservedSlots(os.k, os'.k);
  }

  lemma TakenWritten(k: Kernel, k': Kernel, leaf: DevPath, drives: seq<Drive>, i: nat, poolId: string, taken: set<string>)
    requires i < |drives| && Written(k, k', leaf, OnDisk(poolId)) && On(k, leaf, DiskOf(drives[i])) && AllTaken(k, drives, taken)
    ensures AllTaken(k', drives[i := Awarded(drives[i], poolId)], taken + {poolId})
  {
    var disk := DiskOf(drives[i]);
    WrittenBrands(k, k', leaf, disk, OnDisk(poolId));
    hide Written, Branded, IsSpareName;
    var ds := drives[i := Awarded(drives[i], poolId)];
    forall d, id | d in ds && Branded(k', DiskOf(d), id) && id != "" && id != "spare" ensures id in taken + {poolId} {
      if DiskOf(d) != disk {
        var j :| 0 <= j < |ds| && ds[j] == d;
        assert drives[j] in drives;
        BrandElsewhere(k, k', disk, DiskOf(d), id);
      }
    }
  }

  lemma LogAllocating(os: Os, os': Os, drives: seq<Drive>, taken: set<string>)
    requires Allocating(os, drives, taken) && os' == os.(log := os'.log)
    ensures Allocating(os', drives, taken)
  {
    LogGlobal(os, os');
    hide Global, Member, Done, Expected, AllTaken, Waiting;
    forall d | d in drives ensures Waiting(os', d) {
      LogWaiting(os, os', d);
    }
  }

  lemma LogWaiting(os: Os, os': Os, d: Drive)
    requires Waiting(os, d) && os' == os.(log := os'.log)
    ensures Waiting(os', d)
  {
  }

  lemma GrantedAllocating(os: Os, os': Os, drives: seq<Drive>, taken: set<string>, i: nat, poolId: string, leaf: DevPath)
    requires Allocating(os, drives, taken) && i < |drives| && Eligible(drives[i]) && poolId !in taken && poolId != ""
    requires os' == os.(log := os'.log, k := os'.k) && Written(os.k, os'.k, leaf, OnDisk(poolId))
    requires Ran(os, os', Commands.Assigning) && On(os.k, leaf, DiskOf(drives[i]))
    ensures Allocating(os', drives[i := Awarded(drives[i], poolId)], taken + {poolId})
  {
    var d := drives[i];
    assert d in drives && Waiting(os, d);
    assert Branded(os.k, DiskOf(d), "");
    GrantedMembers(os, drives, taken, i, poolId);
    hide Global, Expected, AllTaken, Member, Members, Written, Waiting, Ran, OnDisk, Awarded, Branded, On, Eligible;
    WrittenGlobal(os, os', leaf, DiskOf(d), OnDisk(poolId));
    TakenWritten(os.k, os'.k, leaf, drives, i, poolId, taken);
    WrittenTables(os.k, os'.k, leaf, OnDisk(poolId));
    GrantedPath(d, poolId);
    GrantedExpected(os.k, os'.k, drives, i, Awarded(d, poolId));
    MembersWritten(os, os', leaf, OnDisk(poolId), drives[i := Awarded(d, poolId)]);
    AllWaiting(os, os', drives, i, poolId, leaf);
  }

  lemma GrantedPath(d: Drive, poolId: string)
    ensures Awarded(d, poolId).path == d.path
  {
  }

  lemma WrittenTables(k: Kernel, k': Kernel, leaf: DevPath, id: string)
    requires Written(k, k', leaf, id)
    ensures k'.slots == k.slots && k'.host == k.host && k'.local == k.local
  {
  }

  lemma MembersWritten(os: Os, os': Os, leaf: DevPath, id: string, drives: seq<Drive>)
    requires os' == os.(log := os'.log, k := os'.k) && Written(os.k, os'.k, leaf, id) && Members(os, drives)
    ensures Members(os', drives)
  {
    hide Member, Written, Distinct;
    forall e | e in drives ensures Member(os', e) {
      MemberWritten(os, os', leaf, id, e);
    }
  }

  lemma AllWaiting(os: Os, os': Os, drives: seq<Drive>, i: nat, poolId: string, leaf: DevPath)
    requires i < |drives| && Members(os, drives) && (forall d :: d in drives ==> Waiting(os, d)) && poolId != ""
    requires os' == os.(log := os'.log, k := os'.k) && Written(os.k, os'.k, leaf, OnDisk(poolId))
    requires On(os.k, leaf, DiskOf(drives[i]))
    ensures forall e :: e in drives[i := Awarded(drives[i], poolId)] ==> Waiting(os', e)
  {
    hide Members, Written, Waiting, OnDisk, Awarded, On;
    var ds := drives[i := Awarded(drives[i], poolId)];
    assert drives[i] in drives;
    WaitingGranted(os, os', leaf, drives[i], poolId);
    forall e | e in ds ensures Waiting(os', e) {
      var j :| 0 <= j < |ds| && ds[j] == e;
      if j != i {
        OtherThan(os, drives, i, j);
        WaitingWritten(os, os', leaf, DiskOf(drives[i]), OnDisk(poolId), e);
      }
    }
  }

  lemma OtherThan(os: Os, drives: seq<Drive>, i: nat, j: nat)
    requires Members(os, drives) && i < |drives| && j < |drives| && i != j
    ensures drives[j] in drives && DiskOf(drives[j]) != DiskOf(drives[i])
  {
    assert drives[i] in drives && drives[j] in drives;
    assert Distinct(drives[i], drives[j]);
    OtherDisk(os, drives[i], drives[j]);
  }

  lemma GrantedExpected(k: Kernel, k': Kernel, drives: seq<Drive>, i: nat, d': Drive)
    requires i < |drives| && d'.path == drives[i].path && Expected(k, drives, [])
    requires k'.slots == k.slots && k'.host == k.host && k'.local == k.local
    ensures Expected(k', drives[i := d'], [])
  {
    ReservedSlots(k, k');
    forall m, n | From(k', m, n) && m.path.SrvNode? ensures Owner(drives[i := d'], [], n) {
      assert From(k, m, n);
      OwnerIndex(drives, i, d', [], n);
    }
  }

  /** One allocation, whether or not its write succeeds. */
  lemma AllocateAt(os: Os, drives: seq<Drive>, taken: set<string>, i: nat, pool: seq<string>)
    requires Allocating(os, drives, taken) && i < |drives|
    ensures var (d, os', taken') := AllocateOne(os, drives[i], pool, taken);
      Allocating(os', drives[i := d], taken')
  {
    var d := drives[i];
    var poolId := FirstUnused(pool, taken);
    FirstUnusedFree(pool, taken);
    assert drives[i := d] == drives;
    if Eligible(d) && poolId != "" {
      assert d in drives && Waiting(os, d);
      var path := DriveMountedPath(d).value;
      PendingMountPath(d);
      RunWriteShape(os, d, path, OnDisk(poolId));
      RanOne(os, WriteId(path, OnDisk(poolId)), Commands.Assigning);
      hide Run, Allocating, FirstUnused, MountPath, Written, OnDisk, Waiting, Ran;
      var (os', ok) := Run(os, WriteId(path, OnDisk(poolId)));
      if ok {
        GrantedAllocating(os, os', drives, taken, i, poolId, Leaf(d.device.value).value);
      } else {
        LogAllocating(os, os', drives, taken);
      }
    }
  }

  lemma PendingMountPath(d: Drive)
    requires Eligible(d) && DriveMountedPath(d).Some?
    ensures MountPath(d) == DriveMountedPath(d).value
  {
  }

  /** A whole round of allocation. */
  lemma {:induction false} AllocateKeeps(os: Os, drives: seq<Drive>, i: nat, pool: seq<string>, taken: set<string>)
    returns (taken': set<string>)
    requires Allocating(os, drives, taken) && i <= |drives|
    ensures var (rest, os') := Allocate(os, drives[i..], pool, taken); Allocating(os', drives[..i] + rest, taken')
    decreases |drives| - i
  {
    hide AllocateOne, Allocating;
    if i == |drives| {
      taken' := taken;
      assert drives[i..] == [] && drives[..i] + [] == drives;
      assert Allocate(os, drives[i..], pool, taken) == ([], os);
    } else {
      AllocateAt(os, drives, taken, i, pool);
      var (d, os1, taken1) := AllocateOne(os, drives[i], pool, taken);
      var ds := drives[i := d];
      taken' := AllocateKeeps(os1, ds, i + 1, pool, taken1);
      assert drives[i..][0] == drives[i] && drives[i..][1..] == ds[i + 1..];
      var (rest, os') := Allocate(os1, ds[i + 1..], pool, taken1);
      assert ds[..i + 1] + rest == drives[..i] + ([d] + rest);
      assert Allocate(os, drives[i..], pool, taken) == ([d] + rest, os');
    }
  }

  /** All ids that were read are taken. */
  lemma ReadTaken(k: Kernel, drives: seq<Drive>, readings: seq<Reading>)
    requires AllRead(k, drives, readings) && forall d :: d in drives ==> !d.broken
    ensures AllTaken(k, drives, Taken(readings))
  {
    hide Branded, SpareNames, CountSpares;
    forall d, id | d in drives && Branded(k, DiskOf(d), id) && id != "" && id != "spare" ensures id in Taken(readings) {
      var i :| 0 <= i < |drives| && drives[i] == d;
      assert ReadingOk(k, drives[i], readings[i]);
      BrandUnique(k, DiskOf(d), id, readings[i].id);
      assert readings[i] in readings;
    }
  }

  lemma JudgedWaiting(os: Os, drives: seq<Drive>, readings: seq<Reading>, pool: seq<string>)
    requires Fleet(os, drives, []) && (forall d :: d in drives ==> Done(os, d) && !d.broken)
    requires AllRead(os.k, drives, readings)
    ensures forall d :: d in Judged(readings, drives, pool) ==> Waiting(os, d)
  {
    hide Global, Members, Expected, Verdict, Branded, Settled;
    var ds := Judged(readings, drives, pool);
    forall d | d in ds ensures Waiting(os, d) {
      var i :| 0 <= i < |ds| && ds[i] == d;
      assert drives[i] in drives;
      JudgedMember(os, drives, readings, pool, i);
      JudgedClaim(os.k, drives, readings, pool, i);
      assert ReadingOk(os.k, drives[i], readings[i]);
      JudgedParked(os, drives[i], d);
    }
  }

  lemma JudgedParked(os: Os, d: Drive, d': Drive)
    requires Done(os, d) && !d.broken && d' == d.(assignment := d'.assignment)
    ensures DriveMountedPath(d').Some? && Parked(os, d', DriveMountedPath(d').value)
  {
  }

  lemma JudgedTaken(k: Kernel, drives: seq<Drive>, readings: seq<Reading>, pool: seq<string>, taken: set<string>)
    requires |readings| == |drives| && AllTaken(k, drives, taken)
    ensures AllTaken(k, Judged(readings, drives, pool), taken)
  {
    hide Branded, Verdict;
    var ds := Judged(readings, drives, pool);
    forall d, id | d in ds && Branded(k, DiskOf(d), id) && id != "" && id != "spare" ensures id in taken {
      var i :| 0 <= i < |ds| && ds[i] == d;
      assert drives[i] in drives && DiskOf(drives[i]) == DiskOf(d);
    }
  }

  lemma AllocatingEntitled(os: Os, drives: seq<Drive>, taken: set<string>)
    requires Allocating(os, drives, taken)
    ensures Fleet(os, drives, []) && EntitledFrom(os, drives, 0)
  {
    hide Global, Members, Expected, AllTaken, Parked, Entitled;
    forall j | 0 <= j < |drives| ensures Entitled(os.k, drives[j]) && !drives[j].broken {
      assert drives[j] in drives;
    }
  }

  /** A round of assignments after all drives have converged: the fleet stays in order, and every claim
    made is one its drive is entitled to. */
  lemma AssignStep(os: Os, drives: seq<Drive>, pool: seq<string>)
    requires Fleet(os, drives, []) && forall d :: d in drives ==> Done(os, d)
    ensures var (drives', os') := UpdateAssignments(os, drives, pool);
      Fleet(os', drives', []) && EntitledFrom(os', drives', 0)
  {
    ReadAllOk(os, drives);
    hide ReadAll, Judged, Allocate, Global, Members, Member, Done, Expected, Taken, ReadingOk, AnyMisplaced, EntitledFrom;
    var (readings, os1) := ReadAll(os, drives);
    LogGlobal(os, os1);
    LogFleet(os, os1, drives);
    JudgedMembers(os1, drives, readings, pool);
    var judged := Judged(readings, drives, pool);
    if !(AnyBroken(drives) || AnyMisplaced(readings, drives) || pool == []) {
      JudgedWaiting(os1, drives, readings, pool);
      ReadTaken(os1.k, drives, readings);
      JudgedTaken(os1.k, drives, readings, pool, Taken(readings));
      hide Waiting, AllTaken;
      var taken' := AllocateKeeps(os1, judged, 0, pool, Taken(readings));
      assert judged[0..] == judged;
      var (rest, os2) := Allocate(os1, judged, pool, Taken(readings));
      assert judged[..0] + rest == rest;
      hide Allocating;
      AllocatingEntitled(os2, rest, taken');
    }
  }

  lemma LogFleet(os: Os, os': Os, drives: seq<Drive>)
    requires Fleet(os, drives, []) && os' == os.(log := os'.log)
    ensures Fleet(os', drives, [])
  {
    hide Global, Member, Done;
    LogGlobal(os, os');
  }
}
