/** What swift-ids and mount paths a fleet of disks ends up with, as a function of the ids and mounts it
  starts from; and why a fleet that is found half-way ends up the same. */
module Outcomes {
  import opened Names
  import opened Assignments
  import opened Pools
  import opened Allocations

  /** The ids after a round of assignments in which no write fails. */
  function Final(ids: seq<string>, pool: seq<string>): (r: seq<string>)
    ensures |r| == |ids|
  {
    if pool == [] then ids else Pass(ids, pool)
  }

  predicate ProperId(id: string) {
    id != "" && id != "spare"
  }

  predicate SharedId(ids: seq<string>, i: nat)
    requires i < |ids|
  {
    ProperId(ids[i]) && exists j :: 0 <= j < |ids| && j != i && ids[j] == ids[i]
  }

  /** The path below `/srv/node` that the assignment of disk `i` names in the end, if any. */
  function Want(ids: seq<string>, pool: seq<string>, i: nat): Option<Path>
    requires i < |ids|
  {
    if ProperId(Final(ids, pool)[i]) && !SharedId(ids, i) then Some(SrvNode(Final(ids, pool)[i])) else None
  }

  /** Where disk `i` ends up: as assigned, else where it was, else in a temporary place. */
  function Place(ids: seq<string>, pool: seq<string>, i: nat, at: Option<Path>, driveId: string): Path
    requires i < |ids|
  {
    if Want(ids, pool, i).Some? then Want(ids, pool, i).value else Here(at, driveId)
  }

  /** Where an unassigned drive is kept. */
  function Here(at: Option<Path>, driveId: string): Path {
    if at.Some? then at.value else RunTemp(driveId)
  }

  // ---- new ids are new ----

  lemma {:induction false} FillKeeps(ids: seq<string>, pool: seq<string>, taken: set<string>, i: nat)
    requires i < |ids| && ids[i] != ""
    ensures Fill(ids, pool, taken)[i] == ids[i]
    decreases |ids|
  {
    hide FirstUnused;
    if i > 0 {
      FillKeeps(ids[1..], pool, if ids[0] == "" && FirstUnused(pool, taken) != "" then taken + {FirstUnused(pool, taken)} else taken, i - 1);
    }
  }

  /** An id that is filled in and is no spare was not taken. */
  lemma {:induction false} FillFresh(ids: seq<string>, pool: seq<string>, taken: set<string>, i: nat)
    requires i < |ids| && ids[i] == "" && ProperId(Fill(ids, pool, taken)[i])
    ensures Fill(ids, pool, taken)[i] !in taken
    decreases |ids|
  {
    FirstUnusedFree(pool, taken);
    hide FirstUnused;
    if i > 0 {
      FillFresh(ids[1..], pool, if ids[0] == "" && FirstUnused(pool, taken) != "" then taken + {FirstUnused(pool, taken)} else taken, i - 1);
    }
  }

  /** And nothing later gets the same one. */
  lemma {:induction false} FillApartFrom(ids: seq<string>, pool: seq<string>, taken: set<string>, i: nat, j: nat)
    requires i < j < |ids| && Covers(taken, ids)
    requires (ids[i] == "" && ProperId(Fill(ids, pool, taken)[i])) || (ids[j] == "" && ProperId(Fill(ids, pool, taken)[j]))
    ensures Fill(ids, pool, taken)[i] != Fill(ids, pool, taken)[j]
    decreases |ids|
  {
    var f, tail := Fill(ids, pool, taken), ids[1..];
    var taken' := if ids[0] == "" && f[0] != "" then taken + {FirstUnused(pool, taken)} else taken;
    FillHead(ids, pool, taken);
    FirstUnusedFree(pool, taken);
    hide FirstUnused, Fill;
    assert Covers(taken', tail) by { CoversTail(taken, taken', ids); }
    assert ids[j] == tail[j - 1] && f[j] == Fill(tail, pool, taken')[j - 1];
    if i > 0 {
      assert ids[i] == tail[i - 1] && f[i] == Fill(tail, pool, taken')[i - 1];
      FillApartFrom(tail, pool, taken', i - 1, j - 1);
    } else if ids[j] != "" {
      FillKeeps(tail, pool, taken', j - 1);
      assert ids[j] in ids;
    } else if ProperId(f[j]) {
      FillFresh(tail, pool, taken', j - 1);
      assert ids[0] in ids;
    }
  }

  lemma CoversTail(taken: set<string>, taken': set<string>, ids: seq<string>)
    requires ids != [] && Covers(taken, ids) && taken <= taken'
    ensures Covers(taken', ids[1..])
  {
  }

  lemma TakenCovers(ids: seq<string>)
    ensures Covers(TakenIds(ids), ids)
  {
  }

  lemma FinalKeeps(ids: seq<string>, pool: seq<string>, i: nat)
    requires i < |ids| && ids[i] != ""
    ensures Final(ids, pool)[i] == ids[i]
  {
    FillKeeps(ids, pool, TakenIds(ids), i);
  }

  lemma FinalNew(ids: seq<string>, pool: seq<string>, i: nat, j: nat)
    requires i < |ids| && j < |ids| && i != j && ids[i] == "" && ProperId(Final(ids, pool)[i])
    ensures Final(ids, pool)[j] != Final(ids, pool)[i]
  {
    TakenCovers(ids);
    hide TakenIds, Fill;
    if i < j {
      FillApartFrom(ids, pool, TakenIds(ids), i, j);
    } else {
      FillApartFrom(ids, pool, TakenIds(ids), j, i);
    }
  }

  // ---- half-way ----

  /** The ids when the first `c` disks have been dealt with. */
  function Halfway(ids: seq<string>, pool: seq<string>, c: nat): (r: seq<string>)
    requires c <= |ids|
    ensures |r| == |ids|
  {
    Final(ids, pool)[..c] + ids[c..]
  }

  lemma HalfwayFinal(ids: seq<string>, pool: seq<string>, c: nat)
    requires c <= |ids| && SpareOrdered(pool, 0) && Plain(ids)
    ensures Final(Halfway(ids, pool, c), pool) == Final(ids, pool)
  {
    if pool == [] {
      assert ids[..c] + ids[c..] == ids;
    } else {
      PassResumes(ids, pool, c);
    }
  }

  lemma HalfwayAt(ids: seq<string>, pool: seq<string>, c: nat, i: nat)
    requires c <= |ids| && i < |ids|
    ensures Halfway(ids, pool, c)[i] == ids[i] || Halfway(ids, pool, c)[i] == Final(ids, pool)[i]
    ensures ids[i] != "" ==> Halfway(ids, pool, c)[i] == ids[i]
  {
    if ids[i] != "" {
      FinalKeeps(ids, pool, i);
    }
  }

  /** An id that nothing else carries before or after. */
  lemma NewUnshared(ids: seq<string>, pool: seq<string>, c: nat, i: nat)
    requires c <= |ids| && i < |ids| && ids[i] == ""
    ensures !SharedId(Halfway(ids, pool, c), i)
  {
    var h := Halfway(ids, pool, c);
    hide Final, Halfway;
    if SharedId(h, i) {
      var j :| 0 <= j < |h| && j != i && h[j] == h[i];
      HalfwayAt(ids, pool, c, i);
      HalfwayAt(ids, pool, c, j);
      FinalNew(ids, pool, i, j);
      if ids[j] != "" {
        FinalKeeps(ids, pool, j);
      }
    }
  }

  lemma OldShared(ids: seq<string>, pool: seq<string>, c: nat, i: nat)
    requires c <= |ids| && i < |ids| && ids[i] != ""
    ensures SharedId(Halfway(ids, pool, c), i) <==> SharedId(ids, i)
  {
    var h := Halfway(ids, pool, c);
    hide Final, Halfway;
    HalfwayAt(ids, pool, c, i);
    if SharedId(h, i) {
      var j :| 0 <= j < |h| && j != i && h[j] == h[i];
      HalfwayAt(ids, pool, c, j);
      if ids[j] == "" {
        FinalKeeps(ids, pool, i);
        FinalNew(ids, pool, j, i);
      }
    }
    if SharedId(ids, i) {
      var j :| 0 <= j < |ids| && j != i && ids[j] == ids[i];
      HalfwayAt(ids, pool, c, j);
    }
  }

  /** A fleet found half-way wants the same places as from the start. */
  lemma HalfwayWants(ids: seq<string>, pool: seq<string>, c: nat, i: nat)
    requires c <= |ids| && i < |ids| && SpareOrdered(pool, 0) && Plain(ids)
    ensures Want(Halfway(ids, pool, c), pool, i) == Want(ids, pool, i)
  {
    HalfwayFinal(ids, pool, c);
    hide Final, Halfway, SharedId;
    if ids[i] == "" {
      NewUnshared(ids, pool, c, i);
      assert !SharedId(ids, i) by { BlankUnshared(ids, i); }
    } else {
      OldShared(ids, pool, c, i);
    }
  }

  lemma BlankUnshared(ids: seq<string>, i: nat)
    requires i < |ids| && ids[i] == ""
    ensures !SharedId(ids, i)
  {
  }
}
