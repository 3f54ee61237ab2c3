/** `UpdateDriveAssignments` as the single scan it is: maps and counters updated along the way, earlier
  drives corrected when a duplicate turns up, then first-fit allocation. Proved to do what module
  `Assignments` specifies without any order among the drives. */
module Assigner {
  import opened Names
  import opened Kernels
  import opened Machine
  import opened Drives
  import opened Assignments
  import opened LinuxObject
  import opened DriveObjects

  /** The drives after a scan that has reached the readings `rs`. */
  function Scanned(rs: seq<Reading>, vs: seq<Drive>, blocked: bool, pool: bool): (r: seq<Drive>)
    requires |rs| <= |vs|
    ensures |r| == |vs|
    ensures forall i :: 0 <= i < |rs| ==> r[i] == vs[i].(assignment := Verdict(rs, vs[i], i, blocked, pool))
    ensures forall i :: |rs| <= i < |vs| ==> r[i] == vs[i]
  {
    seq(|vs|, i requires 0 <= i < |vs| =>
      if i < |rs| then vs[i].(assignment := Verdict(rs, vs[i], i, blocked, pool)) else vs[i])
  }

  /** Where an id turned up first. */
  ghost predicate FirstAt(rs: seq<Reading>, id: string, j: nat) {
    j < |rs| && rs[j] == Got(id) && forall i :: 0 <= i < j ==> rs[i] != Got(id)
  }

  // ---- one more reading ----

  lemma SharedMore(rs: seq<Reading>, r: Reading, i: nat)
    requires i < |rs|
    ensures Shared(rs + [r], i) <==> Shared(rs, i) || rs[i] == r
  {
    var more := rs + [r];
    if Shared(rs, i) {
      var j :| 0 <= j < |rs| && j != i && rs[j] == rs[i];
      assert more[j] == more[i];
    }
    assert more[|rs|] == r;
  }

  lemma SharedLast(rs: seq<Reading>, r: Reading)
    ensures Shared(rs + [r], |rs|) <==> r in rs
  {
    var more := rs + [r];
    if r in rs {
      var j :| 0 <= j < |rs| && rs[j] == r;
      assert more[j] == more[|rs|];
    }
  }

  /** A reading that repeats no id of an earlier one settles its own drive and no other. */
  lemma ScanNew(rs: seq<Reading>, r: Reading, vs: seq<Drive>, blocked: bool, pool: bool)
    requires |rs| < |vs| && (Proper(r) ==> r !in rs)
    ensures var n := |rs|;
      Scanned(rs + [r], vs, blocked, pool)
      == Scanned(rs, vs, blocked, pool)[n := vs[n].(assignment := Verdict(rs + [r], vs[n], n, blocked, pool))]
  {
    hide Misplaced, Shared;
    forall i | 0 <= i < |rs|
      ensures Verdict(rs + [r], vs[i], i, blocked, pool) == Verdict(rs, vs[i], i, blocked, pool)
    {
      SharedMore(rs, r, i);
      assert rs[i] in rs;
    }
  }

  /** A reading that repeats an id makes its drive a duplicate, and the first drive with that id as well;
    any drives between them are duplicates already. */
  lemma ScanRepeated(rs: seq<Reading>, r: Reading, vs: seq<Drive>, f: nat, blocked: bool, pool: bool)
    requires |rs| < |vs| && Proper(r) && FirstAt(rs, r.id, f)
    ensures var dup := Some(Assignment(r.id, Duplicate));
      Scanned(rs + [r], vs, blocked, pool)
      == Scanned(rs, vs, blocked, pool)[|rs| := vs[|rs|].(assignment := dup)][f := vs[f].(assignment := dup)]
  {
    hide Misplaced, Shared;
    forall i | 0 <= i < |rs|
      ensures Verdict(rs + [r], vs[i], i, blocked, pool)
           == if i == f then Some(Assignment(r.id, Duplicate)) else Verdict(rs, vs[i], i, blocked, pool)
    {
      SharedMore(rs, r, i);
      if rs[i] == r && i != f {
        SharedPair(rs, i, f);
      }
    }
    SharedMore(rs, r, f);
    assert rs[f] in rs;
    SharedLast(rs, r);
  }

  lemma SharedPair(rs: seq<Reading>, i: nat, j: nat)
    requires i < |rs| && j < |rs| && i != j && rs[i] == rs[j]
    ensures Shared(rs, i)
  {
  }

  lemma {:induction false} ReadAllSnoc(os: Os, vs: seq<Drive>, d: Drive)
    ensures var (rs, os1) := ReadAll(os, vs);
      var (r, os2) := ReadOne(os1, d);
      ReadAll(os, vs + [d]) == (rs + [r], os2)
    decreases |vs|
  {
    hide ReadOne;
    if vs == [] {
      assert [d][1..] == [];
      assert vs + [d] == [d];
      var (r, _) := ReadOne(os, d);
      assert [r] + [] == [] + [r];
    } else {
      var (r0, os1) := ReadOne(os, vs[0]);
      assert (vs + [d])[1..] == vs[1..] + [d];
      ReadAllSnoc(os1, vs[1..], d);
      var (rs, os2) := ReadAll(os1, vs[1..]);
      var (r, _) := ReadOne(os2, d);
      assert [r0] + (rs + [r]) == [r0] + rs + [r];
    }
  }

  lemma {:induction false} CountSparesSnoc(rs: seq<Reading>, r: Reading)
    ensures CountSpares(rs + [r]) == CountSpares(rs) + if r == Got("spare") then 1 else 0
  {
    if rs == [] {
      assert [r][1..] == [];
      assert rs + [r] == [r];
    } else {
      assert (rs + [r])[1..] == rs[1..] + [r];
      CountSparesSnoc(rs[1..], r);
    }
  }

  lemma TakenSnoc(rs: seq<Reading>, r: Reading)
    ensures Taken(rs + [r]) == Taken(rs)
      + (if r == Got("spare") then {SpareName(CountSpares(rs))} else {}) + (if Proper(r) then {r.id} else {})
  {
    hide SpareName;
    CountSparesSnoc(rs, r);
    ReadIdsSnoc(rs, r);
    hide ReadIds, CountSpares;
    var c := CountSpares(rs);
    assert SpareNames(c + 1) == SpareNames(c) + {SpareName(c)};
  }

  lemma ReadIdsSnoc(rs: seq<Reading>, r: Reading)
    ensures ReadIds(rs + [r]) == ReadIds(rs) + if Proper(r) then {r.id} else {}
  {
    assert forall x :: x in rs + [r] <==> x in rs || x == r;
  }

  // ---- the scan ----

  method ReadAt(os: Linux, ds: seq<DriveObject>, i: nat, ghost vs: seq<Drive>) returns (r: Reading, misplaced: bool)
    requires Shows(os, ds, vs) && i < |ds|
    modifies os
    ensures Shows(os, ds, vs) && (r, os.View()) == ReadOne(old(os.View()), vs[i])
    ensures misplaced <==> Proper(r) && Misplaced(vs[i], r.id)
  {
    hide Run;
    var mountedPath := DriveMountedPath(ds[i].View());
    if mountedPath == None {
      return Skipped, false;
    }
    var id := os.ReadSwiftId(mountedPath.value);
    r := if id.Some? then Got(id.value) else Unread;
    misplaced := Proper(r) && mountedPath.value.SrvNode? && mountedPath.value.id != r.id;
  }

  /** What the scan remembers about the readings `rs` so far. */
  ghost predicate Remembers(rs: seq<Reading>, vs: seq<Drive>, ds: seq<DriveObject>,
                            bySwiftId: map<string, DriveObject>, taken: set<string>, spareIdx: nat, mismounted: bool)
    requires |rs| <= |vs| == |ds|
  {
    && taken == Taken(rs) && spareIdx == CountSpares(rs)
    && (mismounted <==> AnyMisplaced(rs, vs[..|rs|]))
    && Indexed(rs, ds, bySwiftId)
  }

  /** Each id leads to the first drive it was read on. */
  ghost predicate Indexed(rs: seq<Reading>, ds: seq<DriveObject>, bySwiftId: map<string, DriveObject>) {
    && bySwiftId.Keys == ReadIds(rs)
    && forall id :: id in bySwiftId ==> IsFirst(rs, ds, id, bySwiftId[id])
  }

  ghost predicate IsFirst(rs: seq<Reading>, ds: seq<DriveObject>, id: string, d: DriveObject) {
    exists f: nat :: FirstAt(rs, id, f) && f < |ds| && d == ds[f]
  }

  lemma MisplacedSnoc(rs: seq<Reading>, r: Reading, vs: seq<Drive>)
    requires |rs| < |vs|
    ensures AnyMisplaced(rs + [r], vs[..|rs| + 1]) <==>
      AnyMisplaced(rs, vs[..|rs|]) || (Proper(r) && Misplaced(vs[|rs|], r.id))
  {
    hide Misplaced;
    var n := |rs|;
    if AnyMisplaced(rs, vs[..n]) {
      var i :| 0 <= i < n && Proper(rs[i]) && Misplaced(vs[..n][i], rs[i].id);
      assert (rs + [r])[i] == rs[i] && vs[..n + 1][i] == vs[i];
    }
    if Proper(r) && Misplaced(vs[n], r.id) {
      assert (rs + [r])[n] == r && vs[..n + 1][n] == vs[n];
    }
    if AnyMisplaced(rs + [r], vs[..n + 1]) {
      var i :| 0 <= i < n + 1 && Proper((rs + [r])[i]) && Misplaced(vs[..n + 1][i], (rs + [r])[i].id);
      if i < n {
        assert rs[i] == (rs + [r])[i] && vs[..n][i] == vs[i];
      }
    }
  }

  lemma IndexedMore(rs: seq<Reading>, r: Reading, ds: seq<DriveObject>, bySwiftId: map<string, DriveObject>)
    requires |rs| < |ds| && Indexed(rs, ds, bySwiftId)
    ensures Indexed(rs + [r], ds, if Proper(r) && r.id !in bySwiftId then bySwiftId[r.id := ds[|rs|]] else bySwiftId)
  {
    ReadIdsSnoc(rs, r);
    hide ReadIds, FirstAt;
    forall id | id in bySwiftId ensures IsFirst(rs + [r], ds, id, bySwiftId[id]) {
      var f: nat :| FirstAt(rs, id, f) && f < |ds| && bySwiftId[id] == ds[f];
      FirstSnoc(rs, r, id, f);
    }
    if Proper(r) && r.id !in bySwiftId {
      FirstNew(rs, r);
    }
  }

  lemma FirstSnoc(rs: seq<Reading>, r: Reading, id: string, f: nat)
    requires FirstAt(rs, id, f)
    ensures FirstAt(rs + [r], id, f)
  {
  }

  lemma FirstNew(rs: seq<Reading>, r: Reading)
    requires Proper(r) && r.id !in ReadIds(rs)
    ensures FirstAt(rs + [r], r.id, |rs|)
  {
    forall i | 0 <= i < |rs| ensures rs[i] != r {
      assert rs[i] in rs;
    }
  }

  lemma RemembersMore(rs: seq<Reading>, r: Reading, vs: seq<Drive>, ds: seq<DriveObject>,
                      bySwiftId: map<string, DriveObject>, taken: set<string>, spareIdx: nat, mismounted: bool)
    requires |rs| < |vs| == |ds| && Remembers(rs, vs, ds, bySwiftId, taken, spareIdx, mismounted)
    ensures Remembers(rs + [r], vs, ds,
      if Proper(r) && r.id !in bySwiftId then bySwiftId[r.id := ds[|rs|]] else bySwiftId,
      taken + (if r == Got("spare") then {SpareName(spareIdx)} else {}) + (if Proper(r) then {r.id} else {}),
      if r == Got("spare") then spareIdx + 1 else spareIdx,
      mismounted || (Proper(r) && Misplaced(vs[|rs|], r.id)))
  {
    hide Taken, CountSpares, AnyMisplaced, Indexed, Misplaced, Proper, SpareName;
    TakenSnoc(rs, r);
    CountSparesSnoc(rs, r);
    MisplacedSnoc(rs, r, vs);
    IndexedMore(rs, r, ds, bySwiftId);
  }

  lemma ScanSilent(rs: seq<Reading>, r: Reading, vs: seq<Drive>, blocked: bool, pool: bool)
    requires |rs| < |vs| && !r.Got?
    ensures Scanned(rs + [r], vs, blocked, pool) == Scanned(rs, vs, blocked, pool)
  {
    ScanNew(rs, r, vs, blocked, pool);
    hide Verdict;
    assert Verdict(rs + [r], vs[|rs|], |rs|, blocked, pool) == vs[|rs|].assignment by { VerdictSilent(rs + [r], vs[|rs|], |rs|, blocked, pool); }
  }

  lemma VerdictSilent(rs: seq<Reading>, d: Drive, i: nat, blocked: bool, pool: bool)
    requires i < |rs| && !rs[i].Got?
    ensures Verdict(rs, d, i, blocked, pool) == d.assignment
  {
  }

  lemma VerdictNow(rs: seq<Reading>, r: Reading, d: Drive, blocked: bool, pool: bool)
    requires r.Got? && (Proper(r) ==> r !in rs)
    ensures Verdict(rs + [r], d, |rs|, blocked, pool) == Some(Alone(r, d, blocked, pool))
  {
    SharedLast(rs, r);
  }

  method MarkDuplicates(os: Linux, ds: seq<DriveObject>, d: DriveObject, other: DriveObject, id: string,
                        ghost i: nat, ghost f: nat, ghost vs: seq<Drive>)
    requires Shows(os, ds, vs) && i < |ds| == |vs| && f < |ds| && i != f && ds[i] == d && ds[f] == other
    modifies d, other
    ensures var dup := Some(Assignment(id, Duplicate));
      Shows(os, ds, vs[i := vs[i].(assignment := dup)][f := vs[f].(assignment := dup)])
    ensures Footprints(ds) == old(Footprints(ds))
  {
    ghost var now := vs[i := vs[i].(assignment := Some(Assignment(id, Duplicate)))];
    hide Shows, Footprints;
    ApplyTo(os, ds, d, Assignment(id, Duplicate), i, vs);
    ApplyTo(os, ds, other, Assignment(id, Duplicate), f, now);
    assert now[f] == vs[f];
  }

  /** The assignment of a drive before any look at the other drives. */
  function Alone(r: Reading, d: Drive, blocked: bool, pool: bool): Assignment
    requires r.Got?
  {
    if r.id == "" then Assignment("", if !pool then Missing else if blocked then Blocked else Pending)
    else if r.id == "spare" then Assignment("spare", NoFault)
    else Assignment(r.id, if Misplaced(d, r.id) then Mismatch else NoFault)
  }

  lemma FirstOf(rs: seq<Reading>, id: string, ds: seq<DriveObject>, bySwiftId: map<string, DriveObject>) returns (f: nat)
    requires Indexed(rs, ds, bySwiftId) && id in bySwiftId
    ensures FirstAt(rs, id, f) && f < |rs| && f < |ds| && bySwiftId[id] == ds[f]
  {
    f :| FirstAt(rs, id, f) && f < |ds| && bySwiftId[id] == ds[f];
  }

  /** Gives drive `i` its assignment, and corrects the first drive with the same id if there is one. */
  method JudgeAt(os: Linux, ds: seq<DriveObject>, i: nat, r: Reading, bySwiftId: map<string, DriveObject>,
                 blocked: bool, pool: bool, ghost rs: seq<Reading>, ghost vs: seq<Drive>)
    requires |rs| == i < |ds| == |vs| && Shows(os, ds, Scanned(rs, vs, blocked, pool)) && Indexed(rs, ds, bySwiftId)
    modifies ds
    ensures Shows(os, ds, Scanned(rs + [r], vs, blocked, pool))
    ensures Footprints(ds) == old(Footprints(ds))
  {
    ghost var now := Scanned(rs, vs, blocked, pool);
    assert now[i] == vs[i];
    if !r.Got? {
      ScanSilent(rs, r, vs, blocked, pool);
      return;
    }
    var a := Alone(r, ds[i].View(), blocked, pool);
    hide Shows, Footprints, Scanned, Verdict, Alone, Indexed, FirstAt, Shared, ReadIds;
    ApplyTo(os, ds, ds[i], a, i, now);
    if Proper(r) && r.id in bySwiftId {
      ghost var f := FirstOf(rs, r.id, ds, bySwiftId);
      ghost var single := now[i := now[i].(assignment := Some(a))];
      MarkDuplicates(os, ds, ds[i], bySwiftId[r.id], r.id, i, f, single);
      ScanRepeated(rs, r, vs, f, blocked, pool);
      Overwritten(now, i, f, Some(a), Some(Assignment(r.id, Duplicate)));
    } else {
      NotRead(rs, r, ds, bySwiftId);
      VerdictNow(rs, r, vs[i], blocked, pool);
      ScanNew(rs, r, vs, blocked, pool);
    }
  }

  lemma Overwritten(vs: seq<Drive>, i: nat, f: nat, a: Option<Assignment>, b: Option<Assignment>)
    requires i < |vs| && f < |vs| && i != f
    ensures var single := vs[i := vs[i].(assignment := a)];
      single[i := single[i].(assignment := b)][f := single[f].(assignment := b)]
      == vs[i := vs[i].(assignment := b)][f := vs[f].(assignment := b)]
  {
  }

  lemma NotRead(rs: seq<Reading>, r: Reading, ds: seq<DriveObject>, bySwiftId: map<string, DriveObject>)
    requires Indexed(rs, ds, bySwiftId) && (Proper(r) ==> r.id !in bySwiftId)
    ensures Proper(r) ==> r !in rs
  {
    hide FirstAt;
  }

  lemma ReadAllMore(os: Os, vs: seq<Drive>, i: nat)
    requires i < |vs|
    ensures var (rs, os1) := ReadAll(os, vs[..i]);
      var (r, os2) := ReadOne(os1, vs[i]);
      ReadAll(os, vs[..i + 1]) == (rs + [r], os2)
  {
    assert vs[..i + 1] == vs[..i] + [vs[i]];
    ReadAllSnoc(os, vs[..i], vs[i]);
  }

  /** Keeps the books for the drive that has just been read. */
  method Remember(ds: seq<DriveObject>, i: nat, r: Reading, misplaced: bool, bySwiftId: map<string, DriveObject>,
                  taken: set<string>, spareIdx: nat, mismounted: bool, ghost rs: seq<Reading>, ghost vs: seq<Drive>)
    returns (bySwiftId': map<string, DriveObject>, taken': set<string>, spareIdx': nat, mismounted': bool)
    requires |rs| == i < |vs| == |ds| && Remembers(rs, vs, ds, bySwiftId, taken, spareIdx, mismounted)
    requires misplaced <==> Proper(r) && Misplaced(vs[i], r.id)
    ensures Remembers(rs + [r], vs, ds, bySwiftId', taken', spareIdx', mismounted')
  {
    RemembersMore(rs, r, vs, ds, bySwiftId, taken, spareIdx, mismounted);
    hide Remembers, SpareName, Misplaced;
    bySwiftId', taken', spareIdx', mismounted' := bySwiftId, taken, spareIdx, mismounted;
    if r == Got("spare") {
      // spares are told apart as "spare/0", "spare/1" and so on, as in the pool
      taken' := taken' + {SpareName(spareIdx)};
      spareIdx' := spareIdx + 1;
    } else if Proper(r) {
      taken' := taken' + {r.id};
      mismounted' := mismounted || misplaced;
      if r.id !in bySwiftId {
        bySwiftId' := bySwiftId[r.id := ds[i]];
      }
    }
  }

  method ScanAt(os: Linux, ds: seq<DriveObject>, i: nat, bySwiftId: map<string, DriveObject>,
                blocked: bool, pool: bool, ghost rs: seq<Reading>, ghost vs: seq<Drive>)
    returns (r: Reading, misplaced: bool)
    requires |rs| == i < |ds| == |vs| && Shows(os, ds, Scanned(rs, vs, blocked, pool)) && Indexed(rs, ds, bySwiftId)
    modifies ds, os
    ensures (r, os.View()) == ReadOne(old(os.View()), vs[i]) && (misplaced <==> Proper(r) && Misplaced(vs[i], r.id))
    ensures Shows(os, ds, Scanned(rs + [r], vs, blocked, pool))
    ensures Footprints(ds) == old(Footprints(ds))
  {
    hide Shows, Footprints, ReadOne, Misplaced, Indexed, Proper;
    r, misplaced := ReadAt(os, ds, i, Scanned(rs, vs, blocked, pool));
    JudgeAt(os, ds, i, r, bySwiftId, blocked, pool, rs, vs);
  }

  method Scan(os: Linux, ds: seq<DriveObject>, blocked: bool, pool: bool, ghost vs: seq<Drive>)
    returns (taken: set<string>, mismounted: bool)
    requires Shows(os, ds, vs)
    modifies ds, os
    ensures |vs| == |ds|
    ensures var (rs, os') := ReadAll(old(os.View()), vs);
      && os.View() == os' && Shows(os, ds, Scanned(rs, vs, blocked, pool))
      && taken == Taken(rs) && (mismounted <==> AnyMisplaced(rs, vs))
    ensures Footprints(ds) == old(Footprints(ds))
  {
    var bySwiftId: map<string, DriveObject> := map[];
    var spareIdx := 0;
    taken, mismounted := {}, false;
    ghost var rs: seq<Reading> := [];
    assert |ds| == |vs|;
    NothingRead(os.View(), vs, ds, blocked, pool);
    hide Shows, Footprints, Scanned, ReadOne, Remembers, SpareName, Misplaced, ReadAll, Taken, AnyMisplaced, Indexed, Proper;
    for i := 0 to |ds|
      invariant |rs| == i && |vs| == |ds| && (rs, os.View()) == ReadAll(old(os.View()), vs[..i])
      invariant Shows(os, ds, Scanned(rs, vs, blocked, pool)) && Footprints(ds) == old(Footprints(ds))
      invariant Remembers(rs, vs, ds, bySwiftId, taken, spareIdx, mismounted)
    {
      ReadAllMore(old(os.View()), vs, i);
      RememberedIndex(rs, vs, ds, bySwiftId, taken, spareIdx, mismounted);
      var r, misplaced := ScanAt(os, ds, i, bySwiftId, blocked, pool, rs, vs);
      bySwiftId, taken, spareIdx, mismounted :=
        Remember(ds, i, r, misplaced, bySwiftId, taken, spareIdx, mismounted, rs, vs);
      rs := rs + [r];
    }
    assert vs[..|ds|] == vs;
    Remembered(rs, vs, ds, bySwiftId, taken, spareIdx, mismounted);
  }

  lemma NothingRead(os: Os, vs: seq<Drive>, ds: seq<DriveObject>, blocked: bool, pool: bool)
    requires |vs| == |ds|
    ensures Scanned([], vs, blocked, pool) == vs && ReadAll(os, vs[..0]) == ([], os) && Remembers([], vs, ds, map[], {}, 0, false)
  {
  }

  lemma Remembered(rs: seq<Reading>, vs: seq<Drive>, ds: seq<DriveObject>,
                   bySwiftId: map<string, DriveObject>, taken: set<string>, spareIdx: nat, mismounted: bool)
    requires |rs| == |vs| == |ds| && Remembers(rs, vs, ds, bySwiftId, taken, spareIdx, mismounted)
    ensures taken == Taken(rs) && (mismounted <==> AnyMisplaced(rs, vs))
  {
    assert vs[..|rs|] == vs;
  }

  lemma RememberedIndex(rs: seq<Reading>, vs: seq<Drive>, ds: seq<DriveObject>,
                        bySwiftId: map<string, DriveObject>, taken: set<string>, spareIdx: nat, mismounted: bool)
    requires |rs| <= |vs| == |ds| && Remembers(rs, vs, ds, bySwiftId, taken, spareIdx, mismounted)
    ensures Indexed(rs, ds, bySwiftId)
  {
  }

  // ---- allocation ----

  /** The first pool entry not taken, or "" if there is none. */
  method FindUnused(pool: seq<string>, taken: set<string>) returns (poolId: string)
    ensures poolId == FirstUnused(pool, taken)
  {
    poolId := "";
    for i := 0 to |pool|
      invariant poolId == "" && FirstUnused(pool[i..], taken) == FirstUnused(pool, taken)
    {
      assert pool[i..][1..] == pool[i + 1..];
      if pool[i] !in taken {
        poolId := pool[i];
        return;
      }
    }
  }

  method AllocateAt(os: Linux, ds: seq<DriveObject>, i: nat, pool: seq<string>, taken: set<string>, ghost vs: seq<Drive>)
    returns (taken': set<string>)
    requires Shows(os, ds, vs) && i < |ds|
    modifies ds, os
    ensures |vs| == |ds|
    ensures var (d, os', t) := AllocateOne(old(os.View()), vs[i], pool, taken);
      os.View() == os' && taken' == t && Shows(os, ds, vs[i := d])
    ensures Footprints(ds) == old(Footprints(ds))
  {
    taken' := taken;
    var d := ds[i].View();
    assert vs[i := d] == vs;
    hide Run, FirstUnused, MountPath, OnDisk, Shows, Footprints;
    if Eligible(d) {
      var poolId := FindUnused(pool, taken);
      if poolId == "" {
        return;
      }
      var swiftId := OnDisk(poolId);
      var ok := WriteAt(os, ds, MountPath(d), swiftId, vs);
      if !ok {
        return;
      }
      taken' := taken + {poolId};
      ApplyTo(os, ds, ds[i], Assignment(swiftId, NoFault), i, vs);
    }
  }

  method WriteAt(os: Linux, ds: seq<DriveObject>, path: Path, id: string, ghost vs: seq<Drive>) returns (ok: bool)
    requires Shows(os, ds, vs)
    modifies os
    ensures Shows(os, ds, vs) && (os.View(), ok) == Run(old(os.View()), WriteId(path, id))
  {
    hide Run;
    ok := os.WriteSwiftId(path, id);
  }

  /** The drives before the loop index are done, the others are still to come. */
  lemma AllocateSplit(os: Os, done: seq<Drive>, rest: seq<Drive>, pool: seq<string>, taken: set<string>)
    requires rest != []
    ensures var (d, os1, taken1) := AllocateOne(os, rest[0], pool, taken);
      var (more, os2) := Allocate(os1, rest[1..], pool, taken1);
      && (done + Allocate(os, rest, pool, taken).0, Allocate(os, rest, pool, taken).1) == (done + [d] + more, os2)
      && (done + rest)[|done| := d] == done + [d] + rest[1..]
  {
    hide AllocateOne;
    var (d, os1, taken1) := AllocateOne(os, rest[0], pool, taken);
    var (more, os2) := Allocate(os1, rest[1..], pool, taken1);
    assert done + ([d] + more) == done + [d] + more;
  }

  method AllocateAll(os: Linux, ds: seq<DriveObject>, pool: seq<string>, initial: set<string>, ghost vs: seq<Drive>)
    requires Shows(os, ds, vs)
    modifies ds, os
    ensures var (vs', os') := Allocate(old(os.View()), vs, pool, initial);
      os.View() == os' && Shows(os, ds, vs')
    ensures Footprints(ds) == old(Footprints(ds))
  {
    var taken := initial;
    ghost var done: seq<Drive> := [];
    ghost var result := Allocate(os.View(), vs, pool, initial);
    assert |vs| == |ds| && vs[0..] == vs && [] + vs == vs && [] + result.0 == result.0;
    hide Shows, Footprints, AllocateOne, Allocate;
    for i := 0 to |ds|
      invariant |done| == i && |vs| == |ds| && Shows(os, ds, done + vs[i..]) && Footprints(ds) == old(Footprints(ds))
      invariant (done + Allocate(os.View(), vs[i..], pool, taken).0, Allocate(os.View(), vs[i..], pool, taken).1) == result
    {
      AllocateSplit(os.View(), done, vs[i..], pool, taken);
      assert vs[i..][1..] == vs[i + 1..] && (done + vs[i..])[i] == vs[i..][0];
      ghost var d := AllocateOne(os.View(), vs[i], pool, taken).0;
      taken := AllocateAt(os, ds, i, pool, taken, done + vs[i..]);
      done := done + [d];
    }
    AllocateNone(os.View(), pool, taken);
    assert vs[|ds|..] == [] && done + [] == done;
  }

  lemma AllocateNone(os: Os, pool: seq<string>, taken: set<string>)
    ensures Allocate(os, [], pool, taken) == ([], os)
  {
  }

  /** Scan, then allocate unless something stands against it. */
  method UpdateDriveAssignments(os: Linux, ds: seq<DriveObject>, pool: seq<string>, ghost vs: seq<Drive>)
    requires Shows(os, ds, vs)
    modifies ds, os
    ensures var (vs', os') := UpdateAssignments(old(os.View()), vs, pool);
      os.View() == os' && Shows(os, ds, vs')
    ensures Footprints(ds) == old(Footprints(ds))
  {
    assert |ds| == |vs|;
    var blocked := FindBroken(os, ds, vs);
    ghost var rs := ReadAll(os.View(), vs).0;
    ScannedAll(rs, vs, pool);
    hide Shows, Footprints, ReadAll, Allocate, Scanned, Judged, Taken, AnyBroken, AnyMisplaced;
    var taken, mismounted := Scan(os, ds, blocked, pool != [], vs);
    if blocked || mismounted || pool == [] {
      return;
    }
    AllocateAll(os, ds, pool, taken, Judged(rs, vs, pool));
  }

  method FindBroken(os: Linux, ds: seq<DriveObject>, ghost vs: seq<Drive>) returns (found: bool)
    requires Shows(os, ds, vs)
    ensures found <==> AnyBroken(vs)
  {
    for i := 0 to |ds|
      invariant forall j :: 0 <= j < i ==> !vs[j].broken
    {
      assert ds[i].View() == vs[i];
      if ds[i].broken {
        assert vs[i] in vs;
        return true;
      }
    }
    return false;
  }

  lemma ScannedAll(rs: seq<Reading>, vs: seq<Drive>, pool: seq<string>)
    requires |rs| == |vs|
    ensures Scanned(rs, vs, AnyBroken(vs), pool != []) == Judged(rs, vs, pool)
  {
  }
}
