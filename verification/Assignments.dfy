/** Swift-id assignment, specified without an order on the drives where the source has none.

  Reading comes first, for all drives; each drive's verdict is then a function of what was read
  anywhere; allocation goes through the eligible drives in order.
 */
module Assignments {
  import opened Names
  import opened Kernels
  import opened Machine
  import opened Drives

  /** A drive is skipped when it is not mounted. */
  datatype Reading = Skipped | Unread | Got(id: string)

  function ReadAll(os: Os, drives: seq<Drive>): (r: (seq<Reading>, Os))
    ensures |r.0| == |drives|
    decreases |drives|
  {
    if drives == [] then ([], os)
    else
      var (first, os1) := ReadOne(os, drives[0]);
      var (rest, os2) := ReadAll(os1, drives[1..]);
      ([first] + rest, os2)
  }

  function ReadOne(os: Os, d: Drive): (Reading, Os) {
    var path := DriveMountedPath(d);
    if path.None? then (Skipped, os)
    else
      var (os', ok) := Run(os, ReadId(path.value));
      (if ok then Got(IdAt(os.k, path.value)) else Unread, os')
  }

  /** An id that names a place below `/srv/node`. */
  predicate Proper(r: Reading) {
    r.Got? && r.id != "" && r.id != "spare"
  }

  predicate Misplaced(d: Drive, id: string) {
    var path := DriveMountedPath(d);
    path.Some? && path.value.SrvNode? && path.value.id != id
  }

  predicate AnyBroken(drives: seq<Drive>) {
    exists d :: d in drives && d.broken
  }

  predicate AnyMisplaced(readings: seq<Reading>, drives: seq<Drive>)
    requires |readings| == |drives|
  {
    exists i :: 0 <= i < |drives| && Proper(readings[i]) && Misplaced(drives[i], readings[i].id)
  }

  predicate Shared(readings: seq<Reading>, i: nat)
    requires i < |readings|
  {
    exists j :: 0 <= j < |readings| && j != i && readings[j] == readings[i]
  }

  /** The assignment of drive `i` after the scan. Nothing here depends on the order of the drives. */
  function Verdict(readings: seq<Reading>, d: Drive, i: nat, blocked: bool, pool: bool): Option<Assignment>
    requires i < |readings|
  {
    var r := readings[i];
    if !r.Got? then d.assignment
    else if r.id == "" then
      Some(Assignment("", if !pool then Missing else if blocked then Blocked else Pending))
    else if r.id == "spare" then Some(Assignment("spare", NoFault))
    else
      Some(Assignment(r.id,
        if Shared(readings, i) then Duplicate else if Misplaced(d, r.id) then Mismatch else NoFault))
  }

  function Judged(readings: seq<Reading>, drives: seq<Drive>, pool: seq<string>): (r: seq<Drive>)
    requires |readings| == |drives|
    ensures |r| == |drives|
    ensures forall i :: 0 <= i < |r| ==>
      r[i] == drives[i].(assignment := Verdict(readings, drives[i], i, AnyBroken(drives), pool != []))
  {
    seq(|drives|, i requires 0 <= i < |drives| =>
      drives[i].(assignment := Verdict(readings, drives[i], i, AnyBroken(drives), pool != [])))
  }

  // ---- spare names ----

  function Digit(n: nat): char
    requires n < 10
  {
    ['0', '1', '2', '3', '4', '5', '6', '7', '8', '9'][n]
  }

  function Decimal(n: nat): string {
    if n < 10 then [Digit(n)] else Decimal(n / 10) + [Digit(n % 10)]
  }

  function SpareName(n: nat): string {
    "spare/" + Decimal(n)
  }

  predicate IsSpareName(s: string) {
    "spare/" <= s
  }

  function CountSpares(readings: seq<Reading>): nat {
    if readings == [] then 0 else (if readings[0] == Got("spare") then 1 else 0) + CountSpares(readings[1..])
  }

  function SpareNames(n: nat): set<string> {
    set i | 0 <= i < n :: SpareName(i)
  }

  function ReadIds(readings: seq<Reading>): set<string> {
    set r | r in readings && Proper(r) :: r.id
  }

  /** The ids that allocation must not hand out. */
  function Taken(readings: seq<Reading>): set<string> {
    ReadIds(readings) + SpareNames(CountSpares(readings))
  }

  // ---- allocation ----

  /** The first pool entry not taken. The source represents "none" by the empty string. */
  function FirstUnused(pool: seq<string>, taken: set<string>): string {
    if pool == [] then "" else if pool[0] !in taken then pool[0] else FirstUnused(pool[1..], taken)
  }

  lemma {:induction false} FirstUnusedFree(pool: seq<string>, taken: set<string>)
    ensures FirstUnused(pool, taken) == "" || (FirstUnused(pool, taken) in pool && FirstUnused(pool, taken) !in taken)
    decreases |pool|
  {
    if pool != [] {
      FirstUnusedFree(pool[1..], taken);
    }
  }

  /** The entry chosen is the one before which all are taken, in the order of the pool. */
  lemma {:induction false} FirstUnusedAt(pool: seq<string>, taken: set<string>, j: nat)
    requires j < |pool| && pool[j] !in taken && forall i :: 0 <= i < j ==> pool[i] in taken
    ensures FirstUnused(pool, taken) == pool[j]
    decreases |pool|
  {
    if j > 0 {
      assert pool[0] in taken;
      FirstUnusedAt(pool[1..], taken, j - 1);
    }
  }

  /** None is chosen if all are taken. */
  lemma {:induction false} NoneUnused(pool: seq<string>, taken: set<string>)
    requires forall id :: id in pool ==> id in taken
    ensures FirstUnused(pool, taken) == ""
    decreases |pool|
  {
    if pool != [] {
      assert pool[0] in pool;
      assert forall id :: id in pool[1..] ==> id in pool;
      NoneUnused(pool[1..], taken);
    }
  }

  /** What is written to disk for a pool entry: all spares are alike. */
  function OnDisk(poolId: string): string {
    if IsSpareName(poolId) then "spare" else poolId
  }

  function Allocate(os: Os, drives: seq<Drive>, pool: seq<string>, taken: set<string>): (r: (seq<Drive>, Os))
    ensures |r.0| == |drives|
    decreases |drives|
  {
    if drives == [] then ([], os)
    else
      var (d, os1, taken1) := AllocateOne(os, drives[0], pool, taken);
      var (rest, os2) := Allocate(os1, drives[1..], pool, taken1);
      ([d] + rest, os2)
  }

  function AllocateOne(os: Os, d: Drive, pool: seq<string>, taken: set<string>): (Drive, Os, set<string>) {
    var poolId := FirstUnused(pool, taken);
    if !Eligible(d) || poolId == "" then (d, os, taken)
    else
      var (os', ok) := Run(os, WriteId(MountPath(d), OnDisk(poolId)));
      if !ok then (d, os', taken)
      else (d.(assignment := Some(Assignment(OnDisk(poolId), NoFault))), os', taken + {poolId})
  }

  function UpdateAssignments(os: Os, drives: seq<Drive>, pool: seq<string>): (r: (seq<Drive>, Os))
    ensures |r.0| == |drives|
  {
    var (readings, os1) := ReadAll(os, drives);
    var judged := Judged(readings, drives, pool);
    if AnyBroken(drives) || AnyMisplaced(readings, drives) || pool == [] then (judged, os1)
    else Allocate(os1, judged, pool, Taken(readings))
  }
}
