/** What a round of assignments leaves on the disks is what the next scan reads: the link between the drive
  objects and the passes over ids of module `Pools`. */
module Rescan {
  import opened Names
  import opened Tables
  import opened Kernels
  import opened KernelFacts
  import opened Machine
  import opened MountCache
  import opened Devices
  import opened Drives
  import opened Commands
  import opened Convergence
  import opened Fleets
  import opened Exclusivity
  import opened AssignSteps
  import opened Assignments
  import opened Pools
  import opened Allocations
  import DeviceFacts
  import Chains

  /** Each working drive's assignment names the id on its disk. */
  ghost predicate AllBranded(k: Kernel, drives: seq<Drive>) {
    forall d :: d in drives && !d.broken ==> Branded(k, DiskOf(d), IdOf(d))
  }

  lemma GrantBrands(os: Os, k': Kernel, leaf: DevPath, drives: seq<Drive>, i: nat, poolId: string)
    requires i < |drives| && Members(os, drives) && AllBranded(os.k, drives)
    requires Written(os.k, k', leaf, OnDisk(poolId)) && On(os.k, leaf, DiskOf(drives[i]))
    ensures AllBranded(k', drives[i := Awarded(drives[i], poolId)])
  {
    var disk := DiskOf(drives[i]);
    var ds := drives[i := Awarded(drives[i], poolId)];
    WrittenBrands(os.k, k', leaf, disk, OnDisk(poolId));
    hide Written, Branded, OnDisk, Members;
    forall d | d in ds && !d.broken ensures Branded(k', DiskOf(d), IdOf(d)) {
      var j :| 0 <= j < |ds| && ds[j] == d;
      if j != i {
        OtherThan(os, drives, i, j);
        BrandElsewhere(os.k, k', disk, DiskOf(d), IdOf(d));
      }
    }
  }

  lemma AllocateOneBrands(os: Os, drives: seq<Drive>, taken: set<string>, i: nat, pool: seq<string>)
    requires Allocating(os, drives, taken) && i < |drives| && AllBranded(os.k, drives)
    ensures var (d, os', _) := AllocateOne(os, drives[i], pool, taken);
      AllBranded(os'.k, drives[i := d])
  {
    var d := drives[i];
    var poolId := FirstUnused(pool, taken);
    assert drives[i := d] == drives;
    if Eligible(d) && poolId != "" {
      assert d in drives && Waiting(os, d);
      var path := DriveMountedPath(d).value;
      PendingMountPath(d);
      RunWriteShape(os, d, path, OnDisk(poolId));
      hide Run, FirstUnused, MountPath, Written, OnDisk, Global, Members, Expected, AllTaken, AllBranded;
      var (os', ok) := Run(os, WriteId(path, OnDisk(poolId)));
      if ok {
        GrantBrands(os, os'.k, DeviceFacts.Leaf(d.device.value).value, drives, i, poolId);
      }
    }
  }

  lemma {:induction false} AllocateBrands(os: Os, drives: seq<Drive>, i: nat, pool: seq<string>, taken: set<string>)
    requires Allocating(os, drives, taken) && i <= |drives| && AllBranded(os.k, drives)
    ensures var (rest, os') := Allocate(os, drives[i..], pool, taken);
      AllBranded(os'.k, drives[..i] + rest)
    decreases |drives| - i
  {
    hide AllocateOne, Allocating, AllBranded;
    if i == |drives| {
      assert drives[i..] == [];
      assert drives[..i] + [] == drives;
    } else {
      AllocateAt(os, drives, taken, i, pool);
      AllocateOneBrands(os, drives, taken, i, pool);
      var (d, os1, taken1) := AllocateOne(os, drives[i], pool, taken);
      var ds := drives[i := d];
      AllocateBrands(os1, ds, i + 1, pool, taken1);
      assert drives[i..][0] == drives[i] && drives[i..][1..] == ds[i + 1..];
      var (rest, os') := Allocate(os1, ds[i + 1..], pool, taken1);
      assert ds[..i + 1] + rest == drives[..i] + ([d] + rest);
      assert Allocate(os, drives[i..], pool, taken) == ([d] + rest, os');
    }
  }

  lemma JudgedBranded(k: Kernel, drives: seq<Drive>, readings: seq<Reading>, pool: seq<string>)
    requires AllRead(k, drives, readings)
    ensures AllBranded(k, Judged(readings, drives, pool))
  {
    hide Branded, Shared, Misplaced;
    var ds := Judged(readings, drives, pool);
    forall d | d in ds && !d.broken ensures Branded(k, DiskOf(d), IdOf(d)) {
      var i :| 0 <= i < |ds| && ds[i] == d;
      assert ReadingOk(k, drives[i], readings[i]);
    }
  }

  // ---- reading again ----

  /** Mounted, and nowhere but where the drive object says. */
  ghost predicate AsRecorded(os: Os, d: Drive) {
    if d.broken then DriveMountedPath(d) == None
    else DriveMountedPath(d).Some? && Parked(os, d, DriveMountedPath(d).value)
  }

  ghost predicate AllAsRecorded(os: Os, drives: seq<Drive>) {
    forall d :: d in drives ==> AsRecorded(os, d)
  }

  lemma GlobalReliable(os: Os)
    requires Global(os)
    ensures Chains.Reliable(os.fate)
  {
  }

  lemma ReadRecorded(os: Os, d: Drive)
    requires Global(os) && AsRecorded(os, d)
    ensures var (r, os') := ReadOne(os, d);
      ReadingOk(os.k, d, r) && os' == os.(log := os'.log)
  {
    hide Run, Branded, Global, Parked;
    if !d.broken {
      var path := DriveMountedPath(d).value;
      ReadsBrand(os, d, path);
      GlobalReliable(os);
      RunReadShape(os, path);
    }
  }

  lemma {:induction false} ReadAllRecorded(os: Os, drives: seq<Drive>)
    requires Global(os) && forall d :: d in drives ==> AsRecorded(os, d)
    ensures var (readings, os') := ReadAll(os, drives);
      AllRead(os.k, drives, readings) && os' == os.(log := os'.log)
    decreases |drives|
  {
    hide ReadOne, Global, AsRecorded, ReadingOk;
    if drives != [] {
      assert drives[0] in drives;
      ReadRecorded(os, drives[0]);
      var (_, os1) := ReadOne(os, drives[0]);
      LogGlobal(os, os1);
      forall d | d in drives[1..] ensures AsRecorded(os1, d) {
        assert d in drives;
        LogRecorded(os, os1, d);
      }
      ReadAllRecorded(os1, drives[1..]);
    }
  }

  lemma LogRecorded(os: Os, os': Os, d: Drive)
    requires AsRecorded(os, d) && os' == os.(log := os'.log)
    ensures AsRecorded(os', d)
  {
  }

  lemma DoneRecorded(os: Os, d: Drive, d': Drive)
    requires Done(os, d) && d' == d.(assignment := d'.assignment)
    ensures AsRecorded(os, d')
  {
  }

  lemma WaitingRecorded(os: Os, d: Drive)
    requires Waiting(os, d)
    ensures AsRecorded(os, d)
  {
  }

  /** After a round of assignments, in which some writes may have failed, the fleet is still readable, and
    each working drive's assignment names the id on its disk. */
  lemma RoundBrands(os: Os, drives: seq<Drive>, pool: seq<string>)
    requires Fleet(os, drives, []) && forall d :: d in drives ==> Done(os, d)
    ensures var (drives', os') := UpdateAssignments(os, drives, pool);
      && Global(os') && AllBranded(os'.k, drives') && forall d :: d in drives' ==> AsRecorded(os', d)
  {
    ReadAllOk(os, drives);
    hide ReadAll, Judged, Allocate, Global, Members, Member, Done, Expected, Taken, ReadingOk, AnyMisplaced, AllBranded, AsRecorded;
    var (readings, os1) := ReadAll(os, drives);
    LogGlobal(os, os1);
    LogFleet(os, os1, drives);
    var judged := Judged(readings, drives, pool);
    JudgedBranded(os1.k, drives, readings, pool);
    if AnyBroken(drives) || AnyMisplaced(readings, drives) || pool == [] {
      JudgedRecorded(os1, drives, readings, pool);
    } else {
      JudgedWaiting(os1, drives, readings, pool);
      ReadTaken(os1.k, drives, readings);
      JudgedTaken(os1.k, drives, readings, pool, Taken(readings));
      JudgedMembers(os1, drives, readings, pool);
      hide Waiting, AllTaken;
      assert Allocating(os1, judged, Taken(readings));
      AllocateBrands(os1, judged, 0, pool, Taken(readings));
      var taken' := AllocateKeeps(os1, judged, 0, pool, Taken(readings));
      assert judged[0..] == judged;
      var (rest, os2) := Allocate(os1, judged, pool, Taken(readings));
      assert judged[..0] + rest == rest;
      forall d | d in rest ensures AsRecorded(os2, d) {
        WaitingRecorded(os2, d);
      }
    }
  }

  lemma JudgedRecorded(os: Os, drives: seq<Drive>, readings: seq<Reading>, pool: seq<string>)
    requires |readings| == |drives| && forall d :: d in drives ==> Done(os, d)
    ensures forall d :: d in Judged(readings, drives, pool) ==> AsRecorded(os, d)
  {
    hide Done, Verdict, AsRecorded;
    var ds := Judged(readings, drives, pool);
    forall d | d in ds ensures AsRecorded(os, d) {
      var i :| 0 <= i < |ds| && ds[i] == d;
      assert drives[i] in drives;
      DoneRecorded(os, drives[i], d);
    }
  }

  /** The next scan reads, on each working drive, the id that its assignment names. */
  lemma RescanFindsAssigned(os: Os, drives: seq<Drive>, pool: seq<string>)
    requires Fleet(os, drives, []) && forall d :: d in drives ==> Done(os, d)
    ensures var (drives', os') := UpdateAssignments(os, drives, pool);
      forall i :: 0 <= i < |drives'| && !drives'[i].broken ==> ReadAll(os', drives').0[i] == Got(IdOf(drives'[i]))
  {
    RoundBrands(os, drives, pool);
    hide UpdateAssignments, ReadAll, Global, Branded, AsRecorded, IdOf, Fleet, Done;
    var (drives', os') := UpdateAssignments(os, drives, pool);
    ReadAllRecorded(os', drives');
    var readings := ReadAll(os', drives').0;
    forall i | 0 <= i < |drives'| && !drives'[i].broken ensures readings[i] == Got(IdOf(drives'[i])) {
      assert drives'[i] in drives' && ReadingOk(os'.k, drives'[i], readings[i]);
      BrandUnique(os'.k, DiskOf(drives'[i]), readings[i].id, IdOf(drives'[i]));
    }
  }
}
