/** What a round of auto-assignment hands out: exactly the first unused pool ids, in pool order, to the
  eligible drives whose write succeeds, in drive order. */
module Allocations {
  import opened Names
  import opened Kernels
  import opened Machine
  import opened Devices
  import opened Drives
  import opened Assignments
  import opened Commands
  import opened Pools

  function IdOf(d: Drive): string {
    if d.assignment.Some? then d.assignment.value.swiftId else ""
  }

  /** The ids of the drives that changed, in drive order. */
  function Granted(before: seq<Drive>, after: seq<Drive>): seq<string>
    requires |before| == |after|
  {
    if before == [] then []
    else (if after[0] == before[0] then [] else [IdOf(after[0])]) + Granted(before[1..], after[1..])
  }

  /** The writes that put these ids on the disks. */
  function GrantedWrites(before: seq<Drive>, after: seq<Drive>): seq<Cmd>
    requires |before| == |after|
  {
    if before == [] then []
    else
      (if after[0] == before[0] then [] else [WriteId(MountPath(before[0]), IdOf(after[0]))])
      + GrantedWrites(before[1..], after[1..])
  }

  function GoodWrites(es: seq<Entry>): seq<Cmd> {
    if es == [] then []
    else (if es[0].ok && es[0].cmd.WriteId? then [es[0].cmd] else []) + GoodWrites(es[1..])
  }

  function CountEligible(drives: seq<Drive>): nat {
    if drives == [] then 0 else (if Eligible(drives[0]) then 1 else 0) + CountEligible(drives[1..])
  }

  function OnDiskAll(poolIds: seq<string>): (r: seq<string>)
    ensures |r| == |poolIds|
    ensures forall i :: 0 <= i < |r| ==> r[i] == OnDisk(poolIds[i])
  {
    seq(|poolIds|, i requires 0 <= i < |poolIds| => OnDisk(poolIds[i]))
  }

  function Min(a: nat, b: nat): nat {
    if a <= b then a else b
  }

  /** An allocation changes eligible drives only, and gives them a valid assignment. */
  ghost predicate OnlyGrants(before: seq<Drive>, after: seq<Drive>) {
    && |before| == |after|
    && forall i :: 0 <= i < |before| && after[i] != before[i] ==>
         Eligible(before[i]) && after[i] == before[i].(assignment := Some(Assignment(IdOf(after[i]), NoFault)))
  }

  lemma {:induction false} GoodWritesConcat(a: seq<Entry>, b: seq<Entry>)
    ensures GoodWrites(a + b) == GoodWrites(a) + GoodWrites(b)
  {
    if a == [] {
      assert a + b == b;
    } else {
      assert (a + b)[1..] == a[1..] + b;
      GoodWritesConcat(a[1..], b);
    }
  }

  lemma AllocateHead(os: Os, drives: seq<Drive>, pool: seq<string>, taken: set<string>)
    requires drives != []
    ensures var (d, os1, taken1) := AllocateOne(os, drives[0], pool, taken);
      var (rest, os2) := Allocate(os1, drives[1..], pool, taken1);
      Allocate(os, drives, pool, taken) == ([d] + rest, os2)
  {
  }

  /** One drive: what it is granted is the head of the unused ids. */
  lemma AllocateOneExact(os: Os, d: Drive, pool: seq<string>, taken: set<string>)
    ensures var (d', os', taken') := AllocateOne(os, d, pool, taken);
      var u := Unused(pool, taken);
      && Ran(os, os', Commands.Assigning)
      && (d' == d ==> Unused(pool, taken') == u && GoodWrites(Since(os, os')) == [])
      && (d' != d ==> u != [] && Eligible(d) && d' == d.(assignment := Some(Assignment(OnDisk(u[0]), NoFault))))
      && (d' != d ==> Unused(pool, taken') == u[1..] && GoodWrites(Since(os, os')) == [WriteId(MountPath(d), OnDisk(u[0]))])
      && (d' == d && (forall e :: e in Since(os, os') ==> e.ok) ==> !Eligible(d) || u == [])
  {
    hide Run, FirstUnused, Unused, Ran, OnDisk, MountPath;
    UnusedHead(pool, taken);
    UnusedFilled(pool, taken);
    RanNothing(os, os, Commands.Assigning);
    var poolId := FirstUnused(pool, taken);
    if Eligible(d) && poolId != "" {
      var cmd := WriteId(MountPath(d), OnDisk(poolId));
      UnusedTail(pool, taken);
      RanOne(os, cmd, Commands.Assigning);
      RunSteps(os, cmd);
      var (os', ok) := Run(os, cmd);
      var e := Entry(cmd, ok);
      assert Since(os, os') == [e];
      assert GoodWrites([e]) == (if ok then [cmd] else []) + GoodWrites([e][1..]);
      assert e in [e];
    }
  }

  lemma UnusedFilled(pool: seq<string>, taken: set<string>)
    ensures Unused(pool, taken) != [] ==> Unused(pool, taken)[0] != ""
  {
    UnusedSpec(pool, taken);
  }

  /** Exact first fit. Failed writes use up no id, and when every write succeeds the number of drives
    served is the smaller of the eligible drives and the unused ids. */
  lemma {:induction false} FirstFit(os: Os, drives: seq<Drive>, pool: seq<string>, taken: set<string>)
    ensures var (drives', os') := Allocate(os, drives, pool, taken);
      var u := Unused(pool, taken);
      var g := Granted(drives, drives');
      && OnlyGrants(drives, drives')
      && |g| <= |u| && g == OnDiskAll(u[..|g|])
      && os.log <= os'.log && GoodWrites(Since(os, os')) == GrantedWrites(drives, drives')
      && ((forall e :: e in Since(os, os') ==> e.ok) ==> |g| == Min(CountEligible(drives), |u|))
    decreases |drives|
  {
    hide AllocateOne, Unused, OnDisk, MountPath, Ran, GoodWrites, Eligible;
    if drives == [] {
      assert GoodWrites([]) == [] by { GoodWritesNone(); }
      assert Since(os, os) == [];
    } else {
      var (d, os1, taken1) := AllocateOne(os, drives[0], pool, taken);
      AllocateOneExact(os, drives[0], pool, taken);
      FirstFit(os1, drives[1..], pool, taken1);
      var (rest, os2) := Allocate(os1, drives[1..], pool, taken1);
      AllocateRan(os1, drives[1..], pool, taken1);
      RanLogs(os, os1, os2);
      GoodWritesConcat(Since(os, os1), Since(os1, os2));
      AllocateHead(os, drives, pool, taken);
      hide Allocate;
      GrantsHead(drives, d, rest, Unused(pool, taken), Unused(pool, taken1));
    }
  }

  lemma GoodWritesNone()
    ensures GoodWrites([]) == []
  {
  }

  lemma RanLogs(a: Os, b: Os, c: Os)
    requires Ran(a, b, Commands.Assigning) && Ran(b, c, Commands.Assigning)
    ensures a.log <= b.log <= c.log && Since(a, c) == Since(a, b) + Since(b, c)
    ensures forall e :: e in Since(a, c) <==> e in Since(a, b) || e in Since(b, c)
  {
    hide Trace;
    StepsTransitive(a, b, c);
  }

  lemma GrantsHead(drives: seq<Drive>, d: Drive, rest: seq<Drive>, u: seq<string>, u1: seq<string>)
    requires drives != [] && |rest| == |drives| - 1 && OnlyGrants(drives[1..], rest)
    requires d == drives[0] ==> u1 == u
    requires d != drives[0] ==> u != [] && u1 == u[1..] && Eligible(drives[0])
    requires d != drives[0] ==> d == drives[0].(assignment := Some(Assignment(OnDisk(u[0]), NoFault)))
    requires var g1 := Granted(drives[1..], rest); |g1| <= |u1| && g1 == OnDiskAll(u1[..|g1|])
    ensures OnlyGrants(drives, [d] + rest)
    ensures var g := Granted(drives, [d] + rest);
      && g == (if d == drives[0] then [] else [OnDisk(u[0])]) + Granted(drives[1..], rest)
      && |g| <= |u| && g == OnDiskAll(u[..|g|])
    ensures GrantedWrites(drives, [d] + rest)
         == (if d == drives[0] then [] else [WriteId(MountPath(drives[0]), OnDisk(u[0]))]) + GrantedWrites(drives[1..], rest)
  {
    hide OnDisk, MountPath, Eligible;
    var after := [d] + rest;
    assert after[1..] == rest;
    forall i | 0 <= i < |drives| && after[i] != drives[i]
      ensures Eligible(drives[i]) && after[i] == drives[i].(assignment := Some(Assignment(IdOf(after[i]), NoFault)))
    {
      if i > 0 {
        assert after[i] == rest[i - 1] && drives[i] == drives[1..][i - 1];
      }
    }
  }

  /** A whole round: nothing is written while a drive is broken or misplaced, or without a pool;
    otherwise the drives that lack an id are served first fit. */
  lemma RoundExact(os: Os, drives: seq<Drive>, pool: seq<string>)
    ensures var (drives', os') := UpdateAssignments(os, drives, pool);
      var readings := ReadAll(os, drives).0;
      var judged := Judged(readings, drives, pool);
      var u := Unused(pool, Taken(readings));
      var g := Granted(judged, drives');
      && os.log <= os'.log
      && (AnyBroken(drives) || AnyMisplaced(readings, drives) || pool == [] ==>
           drives' == judged && GoodWrites(Since(os, os')) == [])
      && OnlyGrants(judged, drives') && GoodWrites(Since(os, os')) == GrantedWrites(judged, drives')
      && |g| <= |u| && g == OnDiskAll(u[..|g|])
  {
    hide ReadAll, Allocate, Judged, Taken, Unused, OnDisk, Ran, GoodWrites, AnyBroken, AnyMisplaced;
    ReadAllRan(os, drives);
    ReadsOnly(os, drives);
    var (readings, os1) := ReadAll(os, drives);
    var judged := Judged(readings, drives, pool);
    RanLogged(os, os1);
    FirstFit(os1, judged, pool, Taken(readings));
    AllocateRan(os1, judged, pool, Taken(readings));
    var (drives', os2) := Allocate(os1, judged, pool, Taken(readings));
    RanLogs(os, os1, os2);
    GoodWritesConcat(Since(os, os1), Since(os1, os2));
    NoGrants(judged);
  }

  lemma RanLogged(a: Os, b: Os)
    requires Ran(a, b, Commands.Assigning)
    ensures a.log <= b.log
  {
  }

  lemma {:induction false} NoGrants(drives: seq<Drive>)
    ensures Granted(drives, drives) == [] && GrantedWrites(drives, drives) == []
  {
    if drives != [] {
      NoGrants(drives[1..]);
    }
  }

  lemma {:induction false} ReadsOnly(os: Os, drives: seq<Drive>)
    ensures os.log <= ReadAll(os, drives).1.log && GoodWrites(Since(os, ReadAll(os, drives).1)) == []
    decreases |drives|
  {
    if drives == [] {
      assert Since(os, os) == [];
    } else {
      var (_, os1) := ReadOne(os, drives[0]);
      ReadOneOnly(os, drives[0]);
      hide ReadOne, GoodWrites;
      ReadsOnly(os1, drives[1..]);
      var os2 := ReadAll(os1, drives[1..]).1;
      assert Since(os, os2) == Since(os, os1) + Since(os1, os2);
      GoodWritesConcat(Since(os, os1), Since(os1, os2));
    }
  }

  lemma ReadOneOnly(os: Os, d: Drive)
    ensures os.log <= ReadOne(os, d).1.log && GoodWrites(Since(os, ReadOne(os, d).1)) == []
  {
    var path := DriveMountedPath(d);
    if path.None? {
      assert Since(os, os) == [];
    } else {
      RunSteps(os, ReadId(path.value));
      var (os', ok) := Run(os, ReadId(path.value));
      var e := Entry(ReadId(path.value), ok);
      assert GoodWrites([e]) == [] + GoodWrites([e][1..]);
    }
  }

  // ---- a round is a pass over the ids on disk ----

  function Ids(readings: seq<Reading>): (r: seq<string>)
    ensures |r| == |readings|
    ensures forall i :: 0 <= i < |r| ==> r[i] == if readings[i].Got? then readings[i].id else ""
  {
    seq(|readings|, i requires 0 <= i < |readings| => if readings[i].Got? then readings[i].id else "")
  }

  lemma {:induction false} CountSpareReadings(readings: seq<Reading>)
    ensures CountSpares(readings) == CountSpareIds(Ids(readings))
  {
    if readings != [] {
      CountSpareReadings(readings[1..]);
      assert Ids(readings)[1..] == Ids(readings[1..]);
    }
  }

  lemma TakenReadings(readings: seq<Reading>)
    ensures Taken(readings) == TakenIds(Ids(readings))
  {
    CountSpareReadings(readings);
    forall id ensures id in ReadIds(readings) <==> id in ProperIds(Ids(readings)) {
      if id in ReadIds(readings) {
        var r :| r in readings && Proper(r) && r.id == id;
        var i :| 0 <= i < |readings| && readings[i] == r;
        assert Ids(readings)[i] == id;
      }
      if id in ProperIds(Ids(readings)) {
        var i :| 0 <= i < |readings| && Ids(readings)[i] == id;
        assert readings[i] in readings && Proper(readings[i]);
      }
    }
  }

  /** The drives carry the ids `ids`, and those without one are waiting for one. */
  ghost predicate Carry(drives: seq<Drive>, ids: seq<string>) {
    && |drives| == |ids|
    && forall i :: 0 <= i < |ids| ==> IdOf(drives[i]) == ids[i] && (Eligible(drives[i]) <==> ids[i] == "")
  }

  /** No command among these failed. */
  ghost predicate AllWorked(es: seq<Entry>) {
    forall e :: e in es ==> e.ok
  }

  /** The first drive of a round in which all commands work. */
  lemma AllocateFirst(os: Os, drives: seq<Drive>, ids: seq<string>, pool: seq<string>, taken: set<string>)
    requires drives != [] && Carry(drives, ids) && os.log <= Allocate(os, drives, pool, taken).1.log
    requires AllWorked(Since(os, Allocate(os, drives, pool, taken).1))
    ensures var (d, os1, taken1) := AllocateOne(os, drives[0], pool, taken);
      var end := Allocate(os, drives, pool, taken).1;
      && Allocate(os, drives, pool, taken) == ([d] + Allocate(os1, drives[1..], pool, taken1).0, end)
      && end == Allocate(os1, drives[1..], pool, taken1).1 && os1.log <= end.log && AllWorked(Since(os1, end))
      && Fill(ids, pool, taken) == [IdOf(d)] + Fill(ids[1..], pool, taken1)
  {
    hide FirstUnused, MountPath, OnDisk;
    var (d, os1, taken1) := AllocateOne(os, drives[0], pool, taken);
    AllocateHead(os, drives, pool, taken);
    FillHead(ids, pool, taken);
    AllocateOneFills(os, drives[0], pool, taken);
    AllocateRan(os1, drives[1..], pool, taken1);
    AllocateOneRan(os, drives[0], pool, taken);
    RanLogs(os, os1, Allocate(os1, drives[1..], pool, taken1).1);
    hide Allocate, AllocateOne, Fill, Ran;
    assert IdOf(drives[0]) == ids[0] && (Eligible(drives[0]) <==> ids[0] == "");
  }

  lemma {:induction false} AllocateFills(os: Os, drives: seq<Drive>, ids: seq<string>, pool: seq<string>, taken: set<string>)
    requires Carry(drives, ids) && os.log <= Allocate(os, drives, pool, taken).1.log
    requires AllWorked(Since(os, Allocate(os, drives, pool, taken).1))
    ensures forall i :: 0 <= i < |drives| ==> IdOf(Allocate(os, drives, pool, taken).0[i]) == Fill(ids, pool, taken)[i]
    decreases |drives|
  {
    if drives != [] {
      AllocateFirst(os, drives, ids, pool, taken);
      CarryRest(drives, ids);
      hide Allocate, AllocateOne, Fill, AllWorked, Carry, IdOf;
      var (d, os1, taken1) := AllocateOne(os, drives[0], pool, taken);
      AllocateFills(os1, drives[1..], ids[1..], pool, taken1);
    }
  }

  lemma AllocateOneRan(os: Os, d: Drive, pool: seq<string>, taken: set<string>)
    ensures Ran(os, AllocateOne(os, d, pool, taken).1, Commands.Assigning)
  {
    AllocateOneExact(os, d, pool, taken);
  }

  /** One drive whose write, if there is one, works. */
  lemma AllocateOneFills(os: Os, d: Drive, pool: seq<string>, taken: set<string>)
    ensures var (d', os', taken') := AllocateOne(os, d, pool, taken);
      var id := FirstUnused(pool, taken);
      && os.log <= os'.log && os'.fate == os.fate
      && ((AllWorked(Since(os, os')) || WritesWork(os.fate)) && Eligible(d) && id != "" ==>
            IdOf(d') == OnDisk(id) && taken' == taken + {id})
      && (!(Eligible(d) && id != "") ==> d' == d && taken' == taken)
      && (id == "" ==> OnDisk(id) == "") && (id != "" ==> OnDisk(id) != "")
  {
    hide FirstUnused, MountPath, Eligible;
    var id := FirstUnused(pool, taken);
    var cmd := WriteId(MountPath(d), OnDisk(id));
    RunSteps(os, cmd);
    var (os', ok) := Run(os, cmd);
    assert Entry(cmd, ok) in Since(os, os');
  }

  lemma CarryRest(drives: seq<Drive>, ids: seq<string>)
    requires Carry(drives, ids) && drives != []
    ensures Carry(drives[1..], ids[1..])
  {
    hide Eligible, IdOf;
  }

  /** With every disk readable, no drive broken or misplaced, and no command failing, one round assigns what
    one pass of first fit over the ids on disk gives: so rounds can be batched, repeated and interrupted
    as passes can. */
  lemma RoundIsPass(os: Os, drives: seq<Drive>, pool: seq<string>)
    requires os.log <= UpdateAssignments(os, drives, pool).1.log && AllWorked(Since(os, UpdateAssignments(os, drives, pool).1))
    requires var readings := ReadAll(os, drives).0;
      && (forall r :: r in readings ==> r.Got?) && !AnyBroken(drives) && !AnyMisplaced(readings, drives) && pool != []
    ensures var ids := Ids(ReadAll(os, drives).0);
      forall i :: 0 <= i < |drives| ==> IdOf(UpdateAssignments(os, drives, pool).0[i]) == Pass(ids, pool)[i]
  {
    hide ReadAll, Allocate, Taken, TakenIds, Fill, AnyMisplaced, Ran;
    ReadAllRan(os, drives);
    var (readings, os1) := ReadAll(os, drives);
    var judged := Judged(readings, drives, pool);
    TakenReadings(readings);
    JudgedCarry(readings, drives, pool);
    AllocateRan(os1, judged, pool, Taken(readings));
    RanLogs(os, os1, Allocate(os1, judged, pool, Taken(readings)).1);
    AllocateFills(os1, judged, Ids(readings), pool, Taken(readings));
  }

  lemma JudgedCarry(readings: seq<Reading>, drives: seq<Drive>, pool: seq<string>)
    requires |readings| == |drives| && (forall r :: r in readings ==> r.Got?) && !AnyBroken(drives) && pool != []
    ensures Carry(Judged(readings, drives, pool), Ids(readings))
  {
    hide Shared, Misplaced;
    forall i | 0 <= i < |drives| ensures
      var d := Judged(readings, drives, pool)[i]; IdOf(d) == Ids(readings)[i] && (Eligible(d) <==> Ids(readings)[i] == "")
    {
      assert readings[i] in readings && drives[i] in drives;
    }
  }

  // ---- the order of the drives ----

  /** `drives` and `drives'` are the same drives in another order; `p` says where each comes from, and
    `q` where each has gone. */
  ghost predicate Reordered<T>(xs: seq<T>, ys: seq<T>, p: seq<nat>, q: seq<nat>) {
    && |xs| == |ys| == |p| == |q|
    && (forall i :: 0 <= i < |p| ==> p[i] < |xs| && ys[i] == xs[p[i]] && q[p[i]] == i)
    && (forall i :: 0 <= i < |q| ==> q[i] < |ys| && p[q[i]] == i)
  }

  lemma SharedReordered(rs: seq<Reading>, rs': seq<Reading>, p: seq<nat>, q: seq<nat>, i: nat)
    requires Reordered(rs, rs', p, q) && i < |rs|
    ensures Shared(rs', i) <==> Shared(rs, p[i])
  {
    if Shared(rs', i) {
      var j :| 0 <= j < |rs'| && j != i && rs'[j] == rs'[i];
      assert p[j] != p[i] && rs[p[j]] == rs[p[i]];
    }
    if Shared(rs, p[i]) {
      var j :| 0 <= j < |rs| && j != p[i] && rs[j] == rs[p[i]];
      assert rs'[q[j]] == rs[p[q[j]]] && q[j] != i;
    }
  }

  /** Order does not matter to the scan: permuting the drives changes no drive's verdict, nor whether
    any drive counts as misplaced. */
  lemma VerdictsReordered(rs: seq<Reading>, rs': seq<Reading>, drives: seq<Drive>, drives': seq<Drive>,
                          pool: seq<string>, p: seq<nat>, q: seq<nat>)
    requires Reordered(rs, rs', p, q) && Reordered(drives, drives', p, q) && |rs| == |drives|
    ensures Reordered(Judged(rs, drives, pool), Judged(rs', drives', pool), p, q)
    ensures AnyMisplaced(rs, drives) <==> AnyMisplaced(rs', drives')
  {
    hide Shared, Misplaced;
    BrokenReordered(drives, drives', p, q);
    forall i | 0 <= i < |p| ensures Judged(rs', drives', pool)[i] == Judged(rs, drives, pool)[p[i]] {
      SharedReordered(rs, rs', p, q, i);
    }
    if AnyMisplaced(rs, drives) {
      var i :| 0 <= i < |drives| && Proper(rs[i]) && Misplaced(drives[i], rs[i].id);
      assert rs'[q[i]] == rs[p[q[i]]] && drives'[q[i]] == drives[p[q[i]]];
    }
  }

  lemma BrokenReordered(drives: seq<Drive>, drives': seq<Drive>, p: seq<nat>, q: seq<nat>)
    requires Reordered(drives, drives', p, q)
    ensures AnyBroken(drives) <==> AnyBroken(drives')
  {
    if AnyBroken(drives) {
      var i :| 0 <= i < |drives| && drives[i].broken;
      assert drives'[q[i]] == drives[p[q[i]]];
      assert drives'[q[i]] in drives';
    }
    if AnyBroken(drives') {
      var i :| 0 <= i < |drives'| && drives'[i].broken;
      assert drives[p[i]] in drives;
    }
  }

  // ---- labels, and when a round is blocked ----

  /** The swift-id that a scan has read on a disk names a place of its own there. */
  ghost predicate Alone(rs: seq<Reading>, i: nat)
    requires i < |rs|
  {
    rs[i].Got? && rs[i].id !in {"", "spare"} && forall j :: 0 <= j < |rs| && j != i ==> rs[j] != rs[i]
  }

  /** The disk is mounted below `/srv/node` under another swift-id than this. */
  predicate MountedElsewhere(d: Drive, id: string) {
    match DriveMountedPath(d)
    case Some(SrvNode(at)) => at != id
    case _ => false
  }

  /** What the scan makes of a drive, by the ids read and the place where it is mounted: exactly when it lacks an id, when
    it waits for one, when it shares one, when it is in the wrong place, and when nothing is wrong. */
  lemma LabelsExact(rs: seq<Reading>, drives: seq<Drive>, pool: seq<string>, i: nat)
    requires |rs| == |drives| && i < |rs| && rs[i].Got?
    ensures var a, id := Judged(rs, drives, pool)[i].assignment, rs[i].id;
      && a.Some? && a.value.swiftId == id
      && (a.value.fault == Missing <==> id == "" && pool == [])
      && (a.value.fault == Blocked <==> id == "" && pool != [] && exists d :: d in drives && d.broken)
      && (a.value.fault == Pending <==> id == "" && pool != [] && forall d :: d in drives ==> !d.broken)
      && (a.value.fault == Duplicate <==> id !in {"", "spare"} && !Alone(rs, i))
      && (a.value.fault == Mismatch <==> Alone(rs, i) && MountedElsewhere(drives[i], id))
      && (a.value.fault == NoFault <==> id == "spare" || (Alone(rs, i) && !MountedElsewhere(drives[i], id)))
  {
  }

  /** A drive that was not read keeps what it was assigned. */
  lemma UnreadStays(rs: seq<Reading>, drives: seq<Drive>, pool: seq<string>, i: nat)
    requires |rs| == |drives| && i < |rs| && !rs[i].Got?
    ensures Judged(rs, drives, pool)[i] == drives[i]
  {
  }

  /** The state of the system when the scan comes to drive `i`. */
  function ScannedTo(os: Os, drives: seq<Drive>, i: nat): Os
    requires i <= |drives|
  {
    ReadAll(os, drives[..i]).1
  }

  lemma {:induction false} ReadAllAt(os: Os, drives: seq<Drive>, i: nat)
    requires i < |drives|
    ensures ReadAll(os, drives).0[i] == ReadOne(ScannedTo(os, drives, i), drives[i]).0
    decreases |drives|
  {
    hide ReadOne;
    if i > 0 {
      assert drives[..i][0] == drives[0] && drives[..i][1..] == drives[1..][..i - 1];
      ReadAllAt(ReadOne(os, drives[0]).1, drives[1..], i - 1);
    }
  }

  /** What a scan reads: nothing from a disk that is not mounted; else the swift-id file, unless the command fails. A
    file that cannot be read is not taken for an empty one. */
  lemma ReadingExact(os: Os, drives: seq<Drive>, i: nat)
    requires i < |drives|
    ensures var r, at, path := ReadAll(os, drives).0[i], ScannedTo(os, drives, i), DriveMountedPath(drives[i]);
      && (r.Got? <==> path.Some? && at.fate(|at.log|, ReadId(path.value)))
      && (r.Got? ==> r.id == IdAt(at.k, path.value))
  {
    ReadAllAt(os, drives, i);
    hide ScannedTo, IdAt;
  }

  /** So a disk that could not be read is given an id only if it was waiting for one from an earlier round, and its drive
    is the same otherwise. */
  lemma UnreadUntouched(os: Os, drives: seq<Drive>, pool: seq<string>, i: nat)
    requires i < |drives| && DriveMountedPath(drives[i]).Some?
    requires var at := ScannedTo(os, drives, i); !at.fate(|at.log|, ReadId(DriveMountedPath(drives[i]).value))
    ensures var after := UpdateAssignments(os, drives, pool).0;
      after[i] != drives[i] ==> drives[i].assignment.Some? && drives[i].assignment.value.fault == Pending
  {
    ReadingExact(os, drives, i);
    RoundExact(os, drives, pool);
    hide ReadAll, UpdateAssignments, ScannedTo, Unused, Granted, GrantedWrites, GoodWrites, Taken;
    UnreadStays(ReadAll(os, drives).0, drives, pool, i);
  }

  /** A round is blocked if a drive is broken, if a disk with a swift-id of its own or a shared one is mounted under
    another, or if there is no pool. */
  ghost predicate RoundBlocked(rs: seq<Reading>, drives: seq<Drive>, pool: seq<string>)
    requires |rs| == |drives|
  {
    || pool == [] || (exists d :: d in drives && d.broken)
    || exists i :: 0 <= i < |rs| && rs[i].Got? && rs[i].id !in {"", "spare"} && MountedElsewhere(drives[i], rs[i].id)
  }

  lemma BlockedIs(rs: seq<Reading>, drives: seq<Drive>, pool: seq<string>)
    requires |rs| == |drives|
    ensures RoundBlocked(rs, drives, pool) <==> AnyBroken(drives) || AnyMisplaced(rs, drives) || pool == []
  {
    forall i | 0 <= i < |rs| ensures Misplaced(drives[i], if rs[i].Got? then rs[i].id else "") == MountedElsewhere(drives[i], if rs[i].Got? then rs[i].id else "") {
    }
  }

  lemma {:induction false} AllocateWorks(os: Os, drives: seq<Drive>, pool: seq<string>, taken: set<string>)
    requires WritesWork(os.fate)
    ensures var os' := Allocate(os, drives, pool, taken).1; os.log <= os'.log && AllWorked(Since(os, os'))
    decreases |drives|
  {
    hide FirstUnused, MountPath, OnDisk, Eligible;
    if drives != [] {
      var (d, os1, taken1) := AllocateOne(os, drives[0], pool, taken);
      AllocateOneRan(os, drives[0], pool, taken);
      AllocateOneWorks(os, drives[0], pool, taken);
      AllocateRan(os1, drives[1..], pool, taken1);
      RanLogs(os, os1, Allocate(os1, drives[1..], pool, taken1).1);
      hide AllocateOne, Ran;
      AllocateWorks(os1, drives[1..], pool, taken1);
    }
  }

  lemma AllocateOneWorks(os: Os, d: Drive, pool: seq<string>, taken: set<string>)
    requires WritesWork(os.fate)
    ensures var os1 := AllocateOne(os, d, pool, taken).1; os1.fate == os.fate && os.log <= os1.log && AllWorked(Since(os, os1))
  {
    hide FirstUnused, MountPath, OnDisk, Eligible;
  }

  /** Exactly how many drives a round gives an id, if writing one works: none if it is blocked, else as many as wait for
    one and as there are unused ones, whether or not other disks could be read. */
  lemma RoundServes(os: Os, drives: seq<Drive>, pool: seq<string>)
    requires WritesWork(os.fate)
    ensures var readings, drives' := ReadAll(os, drives).0, UpdateAssignments(os, drives, pool).0;
      var judged := Judged(readings, drives, pool);
      |Granted(judged, drives')|
        == if RoundBlocked(readings, drives, pool) then 0 else Min(CountEligible(judged), |Unused(pool, Taken(readings))|)
  {
    hide ReadAll, Allocate, Judged, Taken, Unused, OnDisk, Ran, GoodWrites, AnyBroken, AnyMisplaced, RoundBlocked, WritesWork, AllWorked, CountEligible;
    var (readings, os1) := ReadAll(os, drives);
    BlockedIs(readings, drives, pool);
    ReadAllRan(os, drives);
    var judged := Judged(readings, drives, pool);
    NoGrants(judged);
    RanFate(os, os1);
    AllocateWorks(os1, judged, pool, Taken(readings));
    FirstFitAll(os1, judged, pool, Taken(readings));
  }

  lemma RanFate(a: Os, b: Os)
    requires Ran(a, b, Commands.Assigning)
    ensures b.fate == a.fate
  {
  }

  lemma FirstFitAll(os: Os, drives: seq<Drive>, pool: seq<string>, taken: set<string>)
    requires var os' := Allocate(os, drives, pool, taken).1; os.log <= os'.log && AllWorked(Since(os, os'))
    ensures |Granted(drives, Allocate(os, drives, pool, taken).0)| == Min(CountEligible(drives), |Unused(pool, taken)|)
  {
    FirstFit(os, drives, pool, taken);
    hide Allocate, Unused, GoodWrites, OnDisk;
  }

  // ---- when two drives may claim one place ----

  /** Drives whose disks were all read in this scan never claim the same place. */
  lemma ClaimsApart(rs: seq<Reading>, drives: seq<Drive>, pool: seq<string>, i: nat, j: nat)
    requires |rs| == |drives| && i < |drives| && j < |drives| && i != j && rs[i].Got? && rs[j].Got?
    ensures var judged := Judged(rs, drives, pool);
      AssignedPath(judged[i].assignment).Some? ==> AssignedPath(judged[i].assignment) != AssignedPath(judged[j].assignment)
  {
    hide Misplaced;
  }

  /** A drive that could not be read keeps its old assignment. So it claims the same place as a drive that was read
    if and only if the latter reads, as the only one and in the right place, the id that the former was
    assigned earlier. */
  lemma StaleClaimMeets(rs: seq<Reading>, drives: seq<Drive>, pool: seq<string>, i: nat, j: nat)
    requires |rs| == |drives| && i < |drives| && j < |drives| && rs[i].Got? && !rs[j].Got?
    ensures var judged := Judged(rs, drives, pool);
      var claim := AssignedPath(judged[i].assignment);
      claim.Some? && AssignedPath(judged[j].assignment) == claim
      <==> Proper(rs[i]) && !Shared(rs, i) && !Misplaced(drives[i], rs[i].id)
           && AssignedPath(drives[j].assignment) == Some(SrvNode(rs[i].id))
  {
    hide Shared, Misplaced;
  }

  /** A drive that was read and has a claim, and any other one, are sent to the same place if and only if the other one
    sits there, or was assigned that place and could not be read since. */
  lemma ClaimedPlaceTaken(rs: seq<Reading>, drives: seq<Drive>, pool: seq<string>, i: nat, j: nat)
    requires |rs| == |drives| && i < |drives| && j < |drives| && i != j && rs[i].Got?
    requires AssignedPath(Judged(rs, drives, pool)[i].assignment).Some?
    ensures var judged, former := Judged(rs, drives, pool), AssignedPath(drives[j].assignment);
      MountPath(judged[i]) == MountPath(judged[j])
      <==> (if rs[j].Got? || former.None? then DriveMountedPath(drives[j]) else former) == Some(SrvNode(rs[i].id))
  {
    if rs[j].Got? {
      ClaimsApart(rs, drives, pool, i, j);
      assert rs[j] == rs[i] ==> Shared(rs, i);
    }
    hide Shared;
  }

  /** A drive that could not be read keeps its old assignment, and a collision with it goes unnoticed: here
    the second drive was assigned "a" earlier, cannot be read now, and the first one reads "a". */
  lemma StaleClaim(d: Drive, e: Drive, pool: seq<string>)
    requires DriveMountedPath(d) == Some(RunTemp(d.driveId)) && e.assignment == Some(Assignment("a", NoFault))
    ensures var judged := Judged([Got("a"), Unread], [d, e], pool);
      AssignedPath(judged[0].assignment) == AssignedPath(judged[1].assignment) == Some(SrvNode("a"))
  {
    assert !Shared([Got("a"), Unread], 0);
  }

  /** A mounted drive whose id has been edited stays where it is, so a second drive that now carries the old
    id is sent to the same place. */
  lemma EditedIdCollides(d: Drive, e: Drive, pool: seq<string>)
    requires DriveMountedPath(d) == Some(SrvNode("a")) && DriveMountedPath(e) == Some(RunTemp(e.driveId))
    ensures var judged := Judged([Got("b"), Got("a")], [d, e], pool);
      MountPath(judged[0]) == MountPath(judged[1]) == SrvNode("a")
  {
    assert !Shared([Got("b"), Got("a")], 0) && !Shared([Got("b"), Got("a")], 1);
  }
}
