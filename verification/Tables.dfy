/** Mount tables as sequences, and the few facts about editing them that everything else rests on. */
module Tables {
  import opened Names

  function OfDevice(ms: seq<Mount>, dev: DevPath): seq<Mount> {
    if ms == [] then []
    else if ms[0].dev == dev then [ms[0]] + OfDevice(ms[1..], dev)
    else OfDevice(ms[1..], dev)
  }

  predicate MountedAt(ms: seq<Mount>, path: Path) {
    exists m :: m in ms && m.path == path
  }

  predicate MountedOn(ms: seq<Mount>, dev: DevPath, path: Path) {
    exists m :: m in ms && m.dev == dev && m.path == path
  }

  /** Drops the first entry at `path`: what the autopilot does to its own table. */
  function RemoveFirst(ms: seq<Mount>, path: Path): seq<Mount> {
    if ms == [] then [] else if ms[0].path == path then ms[1..] else [ms[0]] + RemoveFirst(ms[1..], path)
  }

  /** Drops the last entry at `path`: what `umount` does, which removes the topmost mount. */
  function RemoveLast(ms: seq<Mount>, path: Path): seq<Mount> {
    if ms == [] then []
    else
      var n := |ms| - 1;
      if ms[n].path == path then ms[..n] else RemoveLast(ms[..n], path) + [ms[n]]
  }

  /** The device on top at `path`, whose files are the ones visible there. */
  function TopAt(ms: seq<Mount>, path: Path): Option<DevPath> {
    if ms == [] then None
    else
      var n := |ms| - 1;
      if ms[n].path == path then Some(ms[n].dev) else TopAt(ms[..n], path)
  }

  /** What a table says about who is mounted where, with order and mount options dropped. */
  ghost function Pairs(ms: seq<Mount>): multiset<(DevPath, Path)> {
    if ms == [] then multiset{} else multiset{(ms[0].dev, ms[0].path)} + Pairs(ms[1..])
  }

  /** Path ownership: all entries at one path belong to one device. */
  ghost predicate Owned(ms: seq<Mount>) {
    forall m, m' :: m in ms && m' in ms && m.path == m'.path ==> m.dev == m'.dev
  }

  /** Nobody but `dev` is mounted at `path`. */
  ghost predicate FreeFor(ms: seq<Mount>, dev: DevPath, path: Path) {
    forall m :: m in ms && m.path == path ==> m.dev == dev
  }

  lemma {:induction false} OfDeviceMember(ms: seq<Mount>, dev: DevPath)
    ensures forall m :: m in OfDevice(ms, dev) <==> m in ms && m.dev == dev
  {
    if ms != [] {
      OfDeviceMember(ms[1..], dev);
    }
  }

  lemma {:induction false} PairsMember(ms: seq<Mount>)
    ensures forall d, p :: (d, p) in Pairs(ms) <==> MountedOn(ms, d, p)
  {
    if ms != [] {
      PairsMember(ms[1..]);
      var m := ms[0];
      assert ms == [m] + ms[1..];
      forall d, p ensures MountedOn(ms, d, p) <==> (m.dev == d && m.path == p) || MountedOn(ms[1..], d, p) {
      }
    }
  }

  lemma {:induction false} OfDeviceConcat(a: seq<Mount>, b: seq<Mount>, dev: DevPath)
    ensures OfDevice(a + b, dev) == OfDevice(a, dev) + OfDevice(b, dev)
  {
    if a == [] {
      assert a + b == b;
    } else {
      assert (a + b)[1..] == a[1..] + b;
      OfDeviceConcat(a[1..], b, dev);
    }
  }

  lemma {:induction false} PairsConcat(a: seq<Mount>, b: seq<Mount>)
    ensures Pairs(a + b) == Pairs(a) + Pairs(b)
  {
    if a == [] {
      assert a + b == b;
    } else {
      assert (a + b)[1..] == a[1..] + b;
      PairsConcat(a[1..], b);
    }
  }

  lemma OfDeviceCons(m: Mount, rest: seq<Mount>, dev: DevPath)
    ensures OfDevice([m] + rest, dev) == if m.dev == dev then [m] + OfDevice(rest, dev) else OfDevice(rest, dev)
  {
    assert ([m] + rest)[1..] == rest;
  }

  lemma RemoveFirstCons(m: Mount, rest: seq<Mount>, path: Path)
    ensures RemoveFirst([m] + rest, path) == if m.path == path then rest else [m] + RemoveFirst(rest, path)
  {
    assert ([m] + rest)[1..] == rest;
  }

  lemma PairsSnoc(rest: seq<Mount>, m: Mount)
    ensures Pairs(rest + [m]) == Pairs(rest) + multiset{(m.dev, m.path)}
  {
    PairsConcat(rest, [m]);
    assert Pairs([m]) == multiset{(m.dev, m.path)} + Pairs([]);
  }

  /** Removing the first entry at a path that one device owns touches that device only. */
  lemma {:induction false} RemoveFirstOfDevice(ms: seq<Mount>, path: Path, owner: DevPath, dev: DevPath)
    requires FreeFor(ms, owner, path)
    ensures OfDevice(RemoveFirst(ms, path), dev)
         == if dev == owner then RemoveFirst(OfDevice(ms, dev), path) else OfDevice(ms, dev)
  {
    if ms != [] {
      var m, rest := ms[0], ms[1..];
      assert ms == [m] + rest;
      assert FreeFor(rest, owner, path);
      if m.path == path {
        assert m in ms && m.dev == owner;
        RemoveFirstCons(m, OfDevice(rest, dev), path);
      } else {
        RemoveFirstOfDevice(rest, path, owner, dev);
        OfDeviceCons(m, RemoveFirst(rest, path), dev);
        RemoveFirstCons(m, OfDevice(rest, dev), path);
      }
    }
  }

  lemma {:induction false} RemoveFirstPairs(ms: seq<Mount>, path: Path, owner: DevPath)
    requires FreeFor(ms, owner, path) && MountedAt(ms, path)
    ensures Pairs(RemoveFirst(ms, path)) == Pairs(ms) - multiset{(owner, path)}
    ensures (owner, path) in Pairs(ms)
  {
    var m, rest := ms[0], ms[1..];
    assert m in ms;
    if m.path != path {
      assert MountedAt(rest, path);
      RemoveFirstPairs(rest, path, owner);
      assert ([m] + RemoveFirst(rest, path))[1..] == RemoveFirst(rest, path);
    }
  }

  lemma {:induction false} RemoveLastPairs(ms: seq<Mount>, path: Path, owner: DevPath)
    requires FreeFor(ms, owner, path) && MountedAt(ms, path)
    ensures Pairs(RemoveLast(ms, path)) == Pairs(ms) - multiset{(owner, path)}
    ensures (owner, path) in Pairs(ms)
  {
    var n := |ms| - 1;
    var rest, m := ms[..n], ms[n];
    assert ms == rest + [m];
    PairsSnoc(rest, m);
    if m.path == path {
      assert m in ms;
    } else {
      assert MountedAt(rest, path) by {
        var e :| e in ms && e.path == path;
        assert e in rest;
      }
      assert FreeFor(rest, owner, path) by {
        assert forall e :: e in rest ==> e in ms;
      }
      RemoveLastPairs(rest, path, owner);
      PairsSnoc(RemoveLast(rest, path), m);
    }
  }

  lemma {:induction false} RemoveFirstSubset(ms: seq<Mount>, path: Path)
    ensures forall m :: m in RemoveFirst(ms, path) ==> m in ms
    ensures forall m :: m in ms && m.path != path ==> m in RemoveFirst(ms, path)
  {
    if ms != [] && ms[0].path != path {
      RemoveFirstSubset(ms[1..], path);
    }
  }

  lemma {:induction false} RemoveLastSubset(ms: seq<Mount>, path: Path)
    ensures forall m :: m in RemoveLast(ms, path) ==> m in ms
    ensures forall m :: m in ms && m.path != path ==> m in RemoveLast(ms, path)
  {
    if ms != [] {
      RemoveLastSubset(ms[..|ms| - 1], path);
    }
  }

  lemma {:induction false} TopAtMember(ms: seq<Mount>, path: Path)
    ensures TopAt(ms, path).Some? ==> MountedOn(ms, TopAt(ms, path).value, path)
    ensures TopAt(ms, path).None? ==> !MountedAt(ms, path)
  {
    if ms != [] {
      var n := |ms| - 1;
      assert ms == ms[..n] + [ms[n]];
      if ms[n].path == path {
        assert ms[n] in ms;
      } else {
        TopAtMember(ms[..n], path);
      }
    }
  }

  /** Ownership speaks only of who is mounted where, so it transfers between tables that agree. */
  lemma OwnedByPairs(a: seq<Mount>, b: seq<Mount>)
    requires Pairs(b) <= Pairs(a)
    ensures Owned(a) ==> Owned(b)
    ensures forall m :: m in b ==> MountedOn(a, m.dev, m.path)
  {
    PairsMember(a);
    PairsMember(b);
    forall m | m in b ensures MountedOn(a, m.dev, m.path) {
      assert MountedOn(b, m.dev, m.path);
      assert (m.dev, m.path) in Pairs(b);
    }
  }

  lemma {:induction false} RemoveFirstAbsent(ms: seq<Mount>, path: Path)
    requires !MountedAt(ms, path)
    ensures RemoveFirst(ms, path) == ms
  {
    if ms != [] {
      assert ms[0] in ms;
      assert forall m :: m in ms[1..] ==> m in ms;
      RemoveFirstAbsent(ms[1..], path);
    }
  }

  /** The topmost mount at a path that one device owns is that device's, so others keep theirs. */
  lemma {:induction false} RemoveLastOfDevice(ms: seq<Mount>, path: Path, owner: DevPath, dev: DevPath)
    requires FreeFor(ms, owner, path) && dev != owner
    ensures OfDevice(RemoveLast(ms, path), dev) == OfDevice(ms, dev)
  {
    if ms != [] {
      var n := |ms| - 1;
      var rest, m := ms[..n], ms[n];
      assert ms == rest + [m];
      assert m in ms;
      assert FreeFor(rest, owner, path) by {
        assert forall e :: e in rest ==> e in ms;
      }
      OfDeviceConcat(rest, [m], dev);
      if m.path != path {
        RemoveLastOfDevice(rest, path, owner, dev);
        OfDeviceConcat(RemoveLast(rest, path), [m], dev);
      }
    }
  }

  lemma OfDeviceSnoc(ms: seq<Mount>, m: Mount, dev: DevPath)
    ensures OfDevice(ms + [m], dev) == if m.dev == dev then OfDevice(ms, dev) + [m] else OfDevice(ms, dev)
  {
    OfDeviceConcat(ms, [m], dev);
    assert OfDevice([m], dev) == if m.dev == dev then [m] + OfDevice([], dev) else OfDevice([], dev);
  }

  /** Removing the first entry of a suffix when nothing before it sits at that path. */
  lemma {:induction false} RemoveFirstPast(before: seq<Mount>, m: Mount, rest: seq<Mount>)
    requires forall e :: e in before ==> e.path != m.path
    ensures RemoveFirst(before + [m] + rest, m.path) == before + rest
  {
    if before == [] {
      assert before + [m] + rest == [m] + rest;
      RemoveFirstCons(m, rest, m.path);
      assert before + rest == rest;
    } else {
      var b, tail := before[0], before[1..];
      assert b in before;
      RemoveFirstPast(tail, m, rest);
      assert before + [m] + rest == [b] + (tail + [m] + rest);
      RemoveFirstCons(b, tail + [m] + rest, m.path);
      assert before + rest == [b] + (tail + rest);
    }
  }
}
