/** The swift-id pool: how spares are named, and what first-fit allocation does to the ids on disk.

  Ids on disk are taken as a list in drive order, with "" for a disk that has none yet.
 */
module Pools {
  import opened Assignments

  // ---- spare names are all different ----

  lemma DigitInjective(a: nat, b: nat)
    requires a < 10 && b < 10 && Digit(a) == Digit(b)
    ensures a == b
  {
  }

  lemma {:induction false} DecimalInjective(a: nat, b: nat)
    requires Decimal(a) == Decimal(b)
    ensures a == b
    decreases a
  {
    DecimalLength(a);
    DecimalLength(b);
    var s, t := Decimal(a), Decimal(b);
    assert s[|s| - 1] == Digit(a % 10) && t[|t| - 1] == Digit(b % 10);
    DigitInjective(a % 10, b % 10);
    if a >= 10 && b >= 10 {
      assert s[..|s| - 1] == Decimal(a / 10) && t[..|t| - 1] == Decimal(b / 10);
      DecimalInjective(a / 10, b / 10);
    }
  }

  lemma DecimalLength(a: nat)
    ensures |Decimal(a)| >= 1
    ensures |Decimal(a)| == 1 <==> a < 10
  {
    if a >= 10 {
      DecimalLength(a / 10);
    }
  }

  lemma SpareNameInjective(a: nat, b: nat)
    requires SpareName(a) == SpareName(b)
    ensures a == b
  {
    assert Decimal(a) == SpareName(a)[6..] && Decimal(b) == SpareName(b)[6..];
    DecimalInjective(a, b);
  }

  lemma SpareNameIsOne(n: nat)
    ensures IsSpareName(SpareName(n)) && SpareName(n) != "spare" && SpareName(n) != ""
    ensures OnDisk(SpareName(n)) == "spare"
  {
  }

  lemma SpareNamesMember(n: nat, c: nat)
    ensures SpareName(n) in SpareNames(c) <==> n < c
  {
    if SpareName(n) in SpareNames(c) {
      var i :| 0 <= i < c && SpareName(i) == SpareName(n);
      SpareNameInjective(i, n);
    }
  }

  // ---- the configured pool ----

  /** What `init` makes of the configured pool: each "spare" becomes "spare/0", "spare/1", and so on. */
  function RenameSpares(raw: seq<string>, next: nat): seq<string> {
    if raw == [] then []
    else if raw[0] == "spare" then [SpareName(next)] + RenameSpares(raw[1..], next + 1)
    else [raw[0]] + RenameSpares(raw[1..], next)
  }

  /** The spare entries of a pool are numbered upwards from `next`, and none is left unnumbered. */
  ghost predicate SpareOrdered(pool: seq<string>, next: nat) {
    if pool == [] then true
    else if IsSpareName(pool[0]) then pool[0] == SpareName(next) && SpareOrdered(pool[1..], next + 1)
    else pool[0] != "spare" && SpareOrdered(pool[1..], next)
  }

  /** Renaming numbers the spares in order, and what would be written to disk is what was configured. */
  lemma {:induction false} RenamedPool(raw: seq<string>, next: nat)
    requires forall s :: s in raw ==> !IsSpareName(s)
    ensures SpareOrdered(RenameSpares(raw, next), next)
    ensures |RenameSpares(raw, next)| == |raw|
    ensures forall i :: 0 <= i < |raw| ==> OnDisk(RenameSpares(raw, next)[i]) == raw[i]
    decreases |raw|
  {
    if raw != [] {
      assert raw[0] in raw;
      assert forall s :: s in raw[1..] ==> s in raw;
      var rest := if raw[0] == "spare" then RenameSpares(raw[1..], next + 1) else RenameSpares(raw[1..], next);
      RenamedPool(raw[1..], if raw[0] == "spare" then next + 1 else next);
      SpareNameIsOne(next);
      assert RenameSpares(raw, next)[1..] == rest;
      forall i | 0 <= i < |raw| ensures OnDisk(RenameSpares(raw, next)[i]) == raw[i] {
        if i > 0 {
          assert RenameSpares(raw, next)[i] == rest[i - 1] && raw[i] == raw[1..][i - 1];
        }
      }
    }
  }

  // ---- first fit, exactly ----

  /** The pool ids still to be had, in pool order, each once. An empty entry ends the usable pool. */
  function Unused(pool: seq<string>, taken: set<string>): seq<string> {
    if pool == [] then []
    else if pool[0] in taken then Unused(pool[1..], taken)
    else if pool[0] == "" then []
    else [pool[0]] + Unused(pool[1..], taken + {pool[0]})
  }

  lemma {:induction false} UnusedSpec(pool: seq<string>, taken: set<string>)
    ensures forall i :: 0 <= i < |Unused(pool, taken)| ==> Unused(pool, taken)[i] in pool && Unused(pool, taken)[i] !in taken && Unused(pool, taken)[i] != ""
    ensures forall i, j :: 0 <= i < j < |Unused(pool, taken)| ==> Unused(pool, taken)[i] != Unused(pool, taken)[j]
    ensures "" !in pool ==> forall id :: id in pool && id !in taken ==> id in Unused(pool, taken)
    decreases |pool|
  {
    if pool != [] && pool[0] in taken {
      UnusedSpec(pool[1..], taken);
    } else if pool != [] && pool[0] != "" {
      UnusedSpec(pool[1..], taken + {pool[0]});
      assert pool == [pool[0]] + pool[1..];
    }
  }

  lemma {:induction false} UnusedHead(pool: seq<string>, taken: set<string>)
    ensures FirstUnused(pool, taken) == if Unused(pool, taken) == [] then "" else Unused(pool, taken)[0]
    decreases |pool|
  {
    if pool != [] && pool[0] in taken {
      UnusedHead(pool[1..], taken);
    }
  }

  /** Taking the first unused id leaves the others, in the same order. */
  lemma {:induction false} UnusedTail(pool: seq<string>, taken: set<string>)
    requires Unused(pool, taken) != []
    ensures Unused(pool, taken + {Unused(pool, taken)[0]}) == Unused(pool, taken)[1..]
    decreases |pool|
  {
    var id := Unused(pool, taken)[0];
    if pool[0] in taken {
      UnusedTail(pool[1..], taken);
    } else {
      assert id == pool[0];
      assert Unused(pool, taken)[1..] == Unused(pool[1..], taken + {id});
    }
  }

  // ---- one pass over the ids on disk ----

  /** Fills in the missing ids in drive order, all writes succeeding. */
  function Fill(ids: seq<string>, pool: seq<string>, taken: set<string>): (r: seq<string>)
    ensures |r| == |ids|
  {
    if ids == [] then []
    else if ids[0] != "" then [ids[0]] + Fill(ids[1..], pool, taken)
    else
      var id := FirstUnused(pool, taken);
      if id == "" then [""] + Fill(ids[1..], pool, taken)
      else [OnDisk(id)] + Fill(ids[1..], pool, taken + {id})
  }

  function CountSpareIds(ids: seq<string>): nat {
    if ids == [] then 0 else (if ids[0] == "spare" then 1 else 0) + CountSpareIds(ids[1..])
  }

  function TakenIds(ids: seq<string>): set<string> {
    ProperIds(ids) + SpareNames(CountSpareIds(ids))
  }

  /** One pass: every disk is read, then the missing ids are handed out. */
  function Pass(ids: seq<string>, pool: seq<string>): (r: seq<string>)
    ensures |r| == |ids|
  {
    Fill(ids, pool, TakenIds(ids))
  }

  /** Two taken sets that say the same about the pool lead to the same allocation. */
  lemma {:induction false} FirstUnusedSame(pool: seq<string>, a: set<string>, b: set<string>)
    requires forall id :: id in pool ==> (id in a <==> id in b)
    ensures FirstUnused(pool, a) == FirstUnused(pool, b)
    decreases |pool|
  {
    if pool != [] {
      assert pool[0] in pool;
      assert forall id :: id in pool[1..] ==> id in pool;
      FirstUnusedSame(pool[1..], a, b);
    }
  }

  lemma {:induction false} FillSame(ids: seq<string>, pool: seq<string>, a: set<string>, b: set<string>)
    requires forall id :: id in pool ==> (id in a <==> id in b)
    ensures Fill(ids, pool, a) == Fill(ids, pool, b)
    decreases |ids|
  {
    if ids != [] {
      FirstUnusedSame(pool, a, b);
      var id := FirstUnused(pool, a);
      FillSame(ids[1..], pool, a, b);
      FillSame(ids[1..], pool, a + {id}, b + {id});
    }
  }

  /** Among numbered spares, the next one to be had is the one whose number is the count of those taken. */
  lemma {:induction false} NextSpare(pool: seq<string>, first: nat, taken: set<string>, c: nat)
    requires SpareOrdered(pool, first) && first <= c
    requires forall n: nat :: SpareName(n) in taken <==> n < c
    ensures IsSpareName(FirstUnused(pool, taken)) ==> FirstUnused(pool, taken) == SpareName(c)
    ensures FirstUnused(pool, taken) != "spare"
    decreases |pool|
  {
    if pool != [] {
      if IsSpareName(pool[0]) {
        if first < c {
          NextSpare(pool[1..], first + 1, taken, c);
        }
      } else {
        NextSpare(pool[1..], first, taken, c);
      }
    }
  }

  // ---- interrupted and repeated passes ----

  /** Ids as they may stand on disks: none of them is one of the numbered spare names. */
  predicate Plain(ids: seq<string>) {
    forall id :: id in ids ==> !IsSpareName(id)
  }

  ghost predicate SameOn(pool: seq<string>, a: set<string>, b: set<string>) {
    forall id :: id in pool ==> (id in a <==> id in b)
  }

  lemma {:induction false} CountSpareIdsConcat(a: seq<string>, b: seq<string>)
    ensures CountSpareIds(a + b) == CountSpareIds(a) + CountSpareIds(b)
  {
    if a == [] {
      assert a + b == b;
    } else {
      assert (a + b)[1..] == a[1..] + b;
      CountSpareIdsConcat(a[1..], b);
    }
  }

  lemma TakenSpares(ids: seq<string>, n: nat)
    requires Plain(ids)
    ensures SpareName(n) in TakenIds(ids) <==> n < CountSpareIds(ids)
  {
    SpareNameIsOne(n);
    SpareNamesMember(n, CountSpareIds(ids));
  }

  lemma CountAround(done: seq<string>, x: string, rest: seq<string>)
    ensures CountSpareIds(done + [x] + rest) == CountSpareIds(done) + (if x == "spare" then 1 else 0) + CountSpareIds(rest)
  {
    CountSpareIdsConcat(done + [x], rest);
    CountSpareIdsConcat(done, [x]);
    assert CountSpareIds([x]) == (if x == "spare" then 1 else 0) + CountSpareIds([x][1..]);
  }

  function ProperIds(ids: seq<string>): set<string> {
    set id | id in ids && id != "" && id != "spare"
  }

  lemma ProperAround(done: seq<string>, x: string, rest: seq<string>)
    ensures ProperIds(done + [x] + rest) == ProperIds(done + rest) + (if x != "" && x != "spare" then {x} else {})
  {
    assert forall y :: y in done + [x] + rest <==> y in done + rest || y == x;
  }

  lemma SpareNamesNext(c: nat)
    ensures SpareNames(c + 1) == SpareNames(c) + {SpareName(c)}
  {
  }

  /** Handing out `id` in place of a blank is what a rescan then finds. */
  lemma RescanFinds(done: seq<string>, rest: seq<string>, id: string, c: nat)
    requires c == CountSpareIds(done + [""] + rest)
    requires id != "" && id != "spare" && (IsSpareName(id) ==> id == SpareName(c))
    ensures TakenIds(done + [OnDisk(id)] + rest) == TakenIds(done + [""] + rest) + {id}
  {
    hide CountSpareIds, SpareNames, SpareName, ProperIds, IsSpareName;
    var x := OnDisk(id);
    CountAround(done, x, rest);
    CountAround(done, "", rest);
    ProperAround(done, x, rest);
    ProperAround(done, "", rest);
    SpareNamesNext(c);
  }

  /** Ids that are there stay; and with the pool exhausted, blanks stay as well. */
  lemma {:induction false} FillPrefix(done: seq<string>, rest: seq<string>, pool: seq<string>, taken: set<string>)
    requires "" !in done || FirstUnused(pool, taken) == ""
    ensures Fill(done + rest, pool, taken) == done + Fill(rest, pool, taken)
    decreases |done|
  {
    if done == [] {
      assert done + rest == rest;
    } else {
      assert (done + rest)[1..] == done[1..] + rest;
      assert done[0] in done;
      FillPrefix(done[1..], rest, pool, taken);
      assert done + Fill(rest, pool, taken) == [done[0]] + (done[1..] + Fill(rest, pool, taken));
    }
  }

  /** After `done` has been dealt with, stopping `j` disks later and starting over ends up the same. */
  lemma {:induction false} Resume(done: seq<string>, rest: seq<string>, pool: seq<string>, taken: set<string>, j: nat)
    requires SpareOrdered(pool, 0) && Plain(done + rest) && j <= |rest|
    requires SameOn(pool, taken, TakenIds(done + rest))
    requires "" !in done || FirstUnused(pool, taken) == ""
    ensures Pass(done + Fill(rest, pool, taken)[..j] + rest[j..], pool) == done + Fill(rest, pool, taken)
    decreases |rest|
  {
    var f := Fill(rest, pool, taken);
    hide TakenIds, SpareOrdered, Fill, FirstUnused, Plain, SameOn;
    if j == 0 {
      assert done + f[..0] + rest[0..] == done + rest;
      ResumeBase(done, rest, pool, taken);
    } else {
      var x, tail := rest[0], rest[1..];
      assert done + rest == done + [x] + tail;
      var taken' := if x == "" && f[0] != "" then taken + {FirstUnused(pool, taken)} else taken;
      FillHead(rest, pool, taken);
      assert f == [f[0]] + Fill(tail, pool, taken');
      ResumeStep(done, rest, pool, taken);
      Resume(done + [f[0]], tail, pool, taken', j - 1);
      Regrouped(done, f, rest, j);
    }
  }

  lemma Regrouped(done: seq<string>, f: seq<string>, rest: seq<string>, j: nat)
    requires 0 < j <= |rest| == |f|
    ensures done + f[..j] + rest[j..] == done + [f[0]] + f[1..][..j - 1] + rest[1..][j - 1..]
    ensures done + f == done + [f[0]] + f[1..]
  {
  }

  lemma ResumeBase(done: seq<string>, rest: seq<string>, pool: seq<string>, taken: set<string>)
    requires SameOn(pool, taken, TakenIds(done + rest))
    requires "" !in done || FirstUnused(pool, taken) == ""
    ensures Pass(done + rest, pool) == done + Fill(rest, pool, taken)
  {
    hide TakenIds, Fill;
    FirstUnusedSame(pool, taken, TakenIds(done + rest));
    FillPrefix(done, rest, pool, TakenIds(done + rest));
    FillSame(rest, pool, taken, TakenIds(done + rest));
  }

  lemma FillHead(ids: seq<string>, pool: seq<string>, taken: set<string>)
    requires ids != []
    ensures var f := Fill(ids, pool, taken);
      && f[0] == (if ids[0] != "" then ids[0] else OnDisk(FirstUnused(pool, taken)))
      && f == [f[0]] + Fill(ids[1..], pool, if ids[0] == "" && f[0] != "" then taken + {FirstUnused(pool, taken)} else taken)
  {
  }

  lemma ResumeStep(done: seq<string>, rest: seq<string>, pool: seq<string>, taken: set<string>)
    requires rest != [] && SpareOrdered(pool, 0) && Plain(done + rest) && SameOn(pool, taken, TakenIds(done + rest))
    requires "" !in done || FirstUnused(pool, taken) == ""
    ensures var x := Fill(rest, pool, taken)[0];
      var taken' := if rest[0] == "" && x != "" then taken + {FirstUnused(pool, taken)} else taken;
      && Plain(done + [x] + rest[1..]) && SameOn(pool, taken', TakenIds(done + [x] + rest[1..]))
      && ("" !in done + [x] || FirstUnused(pool, taken') == "")
  {
    hide TakenIds, SpareOrdered;
    var x, tail := Fill(rest, pool, taken)[0], rest[1..];
    var id := FirstUnused(pool, taken);
    var ids := done + rest;
    assert ids == done + [rest[0]] + tail;
    FillHead(rest, pool, taken);
    if rest[0] == "" && id != "" {
      FirstUnusedSame(pool, taken, TakenIds(ids));
      FirstUnusedFree(pool, taken);
      var c := CountSpareIds(ids);
      forall n: nat ensures SpareName(n) in TakenIds(ids) <==> n < c {
        TakenSpares(ids, n);
      }
      NextSpare(pool, 0, TakenIds(ids), c);
      RescanFinds(done, tail, id, c);
      assert !IsSpareName(x);
      assert forall y :: y in done + [x] + tail ==> y in ids || y == x;
    } else {
      assert done + [x] + tail == ids;
    }
  }

  /** A pass that stops anywhere and is started over, with every disk read anew, ends with the same ids
    as one that was not interrupted. */
  lemma PassResumes(ids: seq<string>, pool: seq<string>, i: nat)
    requires SpareOrdered(pool, 0) && Plain(ids) && i <= |ids|
    ensures Pass(Pass(ids, pool)[..i] + ids[i..], pool) == Pass(ids, pool)
  {
    hide TakenIds, SpareOrdered, Plain, Fill;
    assert [] + ids == ids;
    Resume([], ids, pool, TakenIds(ids), i);
    assert [] + Pass(ids, pool)[..i] + ids[i..] == Pass(ids, pool)[..i] + ids[i..];
    assert [] + Pass(ids, pool) == Pass(ids, pool);
  }

  /** A second pass changes nothing. */
  lemma PassSettles(ids: seq<string>, pool: seq<string>)
    requires SpareOrdered(pool, 0) && Plain(ids)
    ensures Pass(Pass(ids, pool), pool) == Pass(ids, pool)
  {
    PassResumes(ids, pool, |ids|);
    assert Pass(ids, pool)[..|ids|] + ids[|ids|..] == Pass(ids, pool);
  }

  function Blanks(m: nat): (r: seq<string>)
    ensures |r| == m
  {
    if m == 0 then [] else Blanks(m - 1) + [""]
  }

  /** Fresh disks come one at a time, with a full pass after each. */
  function OneByOne(ids: seq<string>, pool: seq<string>, m: nat): seq<string> {
    if m == 0 then Pass(ids, pool) else Pass(OneByOne(ids, pool, m - 1) + [""], pool)
  }

  lemma {:induction false} FillFirst(a: seq<string>, b: seq<string>, pool: seq<string>, taken: set<string>)
    ensures Fill(a + b, pool, taken)[..|a|] == Fill(a, pool, taken)
    decreases |a|
  {
    if a != [] {
      assert (a + b)[1..] == a[1..] + b;
      var taken' := if a[0] == "" && FirstUnused(pool, taken) != "" then taken + {FirstUnused(pool, taken)} else taken;
      FillFirst(a[1..], b, pool, taken');
      assert Fill(a + b, pool, taken)[1..] == Fill(a[1..] + b, pool, taken');
      assert Fill(a, pool, taken)[1..] == Fill(a[1..], pool, taken');
    }
  }

  lemma TakenBlank(ids: seq<string>)
    ensures TakenIds(ids + [""]) == TakenIds(ids)
  {
    CountSpareIdsConcat(ids, [""]);
    assert CountSpareIds([""]) == 0;
    assert forall y :: y in ids + [""] <==> y in ids || y == "";
  }

  lemma PlainBlanks(ids: seq<string>, m: nat)
    requires Plain(ids)
    ensures Plain(ids + Blanks(m))
    decreases m
  {
    if m > 0 {
      PlainBlanks(ids, m - 1);
      assert forall y :: y in ids + Blanks(m) ==> y in ids + Blanks(m - 1) || y == "";
    }
  }

  /** Adding one more fresh disk to those that have been dealt with. */
  lemma PassOneMore(ids: seq<string>, pool: seq<string>, m: nat)
    requires SpareOrdered(pool, 0) && Plain(ids)
    ensures Pass(Pass(ids + Blanks(m), pool) + [""], pool) == Pass(ids + Blanks(m + 1), pool)
  {
    hide SpareOrdered, TakenIds, Fill;
    var before, all := ids + Blanks(m), ids + Blanks(m + 1);
    assert all == before + [""];
    PlainBlanks(ids, m + 1);
    TakenBlank(before);
    FillFirst(before, [""], pool, TakenIds(all));
    assert Pass(all, pool)[..|before|] == Pass(before, pool);
    PassResumes(all, pool, |before|);
    assert all[|before|..] == [""];
  }

  /** Batch equals incremental: adding `m` fresh disks at once gives them the ids they would get if they
    came one by one. */
  lemma {:induction false} BatchIsIncremental(ids: seq<string>, pool: seq<string>, m: nat)
    requires SpareOrdered(pool, 0) && Plain(ids)
    ensures Pass(ids + Blanks(m), pool) == OneByOne(ids, pool, m)
    decreases m
  {
    hide SpareOrdered, TakenIds, Fill;
    if m == 0 {
      assert ids + Blanks(0) == ids;
    } else {
      BatchIsIncremental(ids, pool, m - 1);
      PassOneMore(ids, pool, m - 1);
    }
  }

  // ---- distinctness ----

  ghost predicate ApartIds(ids: seq<string>) {
    forall i, j :: 0 <= i < j < |ids| && ids[i] == ids[j] ==> ids[i] == "" || ids[i] == "spare"
  }

  ghost predicate Covers(taken: set<string>, ids: seq<string>) {
    forall id :: id in ids && id != "" && id != "spare" ==> id in taken
  }

  lemma {:induction false} FillApart(done: seq<string>, rest: seq<string>, pool: seq<string>, taken: set<string>)
    requires ApartIds(done + rest)
    requires Covers(taken, done + rest)
    ensures ApartIds(done + Fill(rest, pool, taken))
    decreases |rest|
  {
    hide Fill, ApartIds, Covers, FirstUnused;
    if rest == [] {
      assert Fill(rest, pool, taken) == rest;
    } else {
      var x := Fill(rest, pool, taken)[0];
      var taken' := if rest[0] == "" && x != "" then taken + {FirstUnused(pool, taken)} else taken;
      FillHead(rest, pool, taken);
      var f := Fill(rest[1..], pool, taken');
      ApartStep(done, rest, pool, taken);
      FillApart(done + [x], rest[1..], pool, taken');
      assert done + ([x] + f) == done + [x] + f;
    }
  }

  lemma ApartStep(done: seq<string>, rest: seq<string>, pool: seq<string>, taken: set<string>)
    requires rest != [] && ApartIds(done + rest) && Covers(taken, done + rest)
    ensures var x := Fill(rest, pool, taken)[0];
      var taken' := if rest[0] == "" && x != "" then taken + {FirstUnused(pool, taken)} else taken;
      ApartIds(done + [x] + rest[1..]) && Covers(taken', done + [x] + rest[1..])
  {
    hide FirstUnused, Fill, ApartIds;
    var x := Fill(rest, pool, taken)[0];
    FillHead(rest, pool, taken);
    FirstUnusedFree(pool, taken);
    assert done + rest == done + [rest[0]] + rest[1..];
    if x != rest[0] {
      ApartReplaced(done, x, rest[1..], taken);
    }
    assert forall y :: y in done + [x] + rest[1..] ==> y in done + rest || y == x;
  }

  /** A blank may be replaced by "spare" or by an id that nothing else has. */
  lemma ApartReplaced(done: seq<string>, x: string, tail: seq<string>, taken: set<string>)
    requires ApartIds(done + [""] + tail) && (x == "spare" || x !in taken)
    requires Covers(taken, done + [""] + tail)
    ensures ApartIds(done + [x] + tail)
  {
    var a, b := done + [""] + tail, done + [x] + tail;
    forall k | 0 <= k < |b| && k != |done| ensures b[k] == a[k] && (b[k] != x || x == "" || x == "spare") {
      assert a[k] in a;
    }
  }

  /** Ids other than "spare" that are pairwise distinct stay so. */
  lemma PassApart(ids: seq<string>, pool: seq<string>)
    requires ApartIds(ids)
    ensures ApartIds(Pass(ids, pool))
  {
    assert [] + ids == ids;
    FillApart([], ids, pool, TakenIds(ids));
    assert [] + Pass(ids, pool) == Pass(ids, pool);
  }
}
