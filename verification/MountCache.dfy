/** Agreement between the cached mount tables and the kernel's, and what one mount or umount changes. */
module MountCache {
  import opened Names
  import opened Tables
  import opened Kernels
  import opened Machine

  /** Unmounts the listed mounts, except those at `keep`, stopping at the first failure. */
  function UnmountThose(os: Os, ms: seq<Mount>, keep: Option<Path>, scope: Scope): (Os, bool)
    decreases |ms|
  {
    if ms == [] then (os, true)
    else if Some(ms[0].path) == keep then UnmountThose(os, ms[1..], keep, scope)
    else
      var (os', ok) := UnmountDevice(os, ms[0].path, scope);
      if !ok then (os', false) else UnmountThose(os', ms[1..], keep, scope)
  }

  function Keeping(ms: seq<Mount>, keep: Option<Path>): seq<Mount> {
    if ms == [] then []
    else if Some(ms[0].path) == keep then [ms[0]] + Keeping(ms[1..], keep)
    else Keeping(ms[1..], keep)
  }

  /** Both caches list who is mounted where exactly as the kernel does, and outside separate mode the
    two caches are one. */
  ghost predicate Agree(os: Os) {
    && Pairs(os.host) == Pairs(os.k.host)
    && Pairs(os.local) == Pairs(os.k.local)
    && (!os.k.mode.Separate? ==> os.host == os.local)
  }

  ghost predicate Sound(os: Os) {
    Agree(os) && Owned(os.host) && Owned(os.local)
  }

  /** Every device but `dev` keeps its entries, in order, in both caches and both kernel tables. */
  ghost predicate OnlyMoves(a: Os, b: Os, dev: DevPath) {
    forall q :: q != dev ==>
      && OfDevice(b.host, q) == OfDevice(a.host, q)
      && OfDevice(b.local, q) == OfDevice(a.local, q)
      && OfDevice(b.k.host, q) == OfDevice(a.k.host, q)
      && OfDevice(b.k.local, q) == OfDevice(a.k.local, q)
  }

  /** Mount tables, the log, and nothing else. */
  ghost predicate TablesOnly(a: Os, b: Os) {
    b == a.(k := a.k.(host := b.k.host, local := b.k.local), host := b.host, local := b.local, log := b.log)
  }

  /** Only the calls that change both tables alike are allowed to run a command in connected mode. */
  predicate Covered(mode: Mode, scope: Scope) {
    scope.Host? || !mode.Connected?
  }

  lemma CoveredAgrees(mode: Mode, scope: Scope, seen: Scope)
    requires Covered(mode, scope)
    ensures Reaches(mode, scope, seen) <==> Recorded(mode, scope, seen)
  {
  }

  lemma OwnedDrop(ms: seq<Mount>, path: Path)
    requires Owned(ms)
    ensures Owned(RemoveFirst(ms, path))
  {
    RemoveFirstSubset(ms, path);
  }

  lemma OwnedAdd(ms: seq<Mount>, m: Mount)
    requires Owned(ms) && FreeFor(ms, m.dev, m.path)
    ensures Owned(ms + [m])
  {
  }

  lemma FreeByPairs(a: seq<Mount>, b: seq<Mount>, dev: DevPath, path: Path)
    requires Pairs(b) == Pairs(a) && FreeFor(a, dev, path)
    ensures FreeFor(b, dev, path)
    ensures MountedAt(a, path) <==> MountedAt(b, path)
  {
    OwnedByPairs(a, b);
    OwnedByPairs(b, a);
  }

  // ---- one table at a time ----

  /** One cached table against one kernel table, before and after the same umount. */
  lemma DropAgrees(cache: seq<Mount>, kernel: seq<Mount>, path: Path, dev: DevPath)
    requires Pairs(cache) == Pairs(kernel) && FreeFor(cache, dev, path) && MountedAt(cache, path)
    ensures Pairs(RemoveFirst(cache, path)) == Pairs(RemoveLast(kernel, path))
    ensures forall q :: q != dev ==> OfDevice(RemoveFirst(cache, path), q) == OfDevice(cache, q)
    ensures forall q :: q != dev ==> OfDevice(RemoveLast(kernel, path), q) == OfDevice(kernel, q)
    ensures OfDevice(RemoveFirst(cache, path), dev) == RemoveFirst(OfDevice(cache, dev), path)
  {
    FreeByPairs(cache, kernel, dev, path);
    RemoveFirstPairs(cache, path, dev);
    RemoveLastPairs(kernel, path, dev);
    forall q | q != dev
      ensures OfDevice(RemoveFirst(cache, path), q) == OfDevice(cache, q)
           && OfDevice(RemoveLast(kernel, path), q) == OfDevice(kernel, q)
    {
      RemoveFirstOfDevice(cache, path, dev, q);
      RemoveLastOfDevice(kernel, path, dev, q);
    }
    RemoveFirstOfDevice(cache, path, dev, dev);
  }

  lemma AddAgrees(cache: seq<Mount>, kernel: seq<Mount>, m: Mount)
    requires Pairs(cache) == Pairs(kernel)
    ensures Pairs(cache + [m]) == Pairs(kernel + [m])
    ensures forall q :: q != m.dev ==> OfDevice(cache + [m], q) == OfDevice(cache, q)
    ensures forall q :: q != m.dev ==> OfDevice(kernel + [m], q) == OfDevice(kernel, q)
    ensures OfDevice(cache + [m], m.dev) == OfDevice(cache, m.dev) + [m]
  {
    PairsSnoc(cache, m);
    PairsSnoc(kernel, m);
    forall q | q != m.dev
      ensures OfDevice(cache + [m], q) == OfDevice(cache, q) && OfDevice(kernel + [m], q) == OfDevice(kernel, q)
    {
      OfDeviceSnoc(cache, m, q);
      OfDeviceSnoc(kernel, m, q);
    }
    OfDeviceSnoc(cache, m, m.dev);
  }

  // ---- one call ----

  lemma RunUmount(os: Os, path: Path, scope: Scope)
    ensures var (os', ok) := Run(os, Umount(path, scope));
      os' == os.(log := os'.log, k := if !ok then os.k else
        os.k.(host := DropMount(os.k.mode, scope, Host, os.k.host, path),
              local := DropMount(os.k.mode, scope, Local, os.k.local, path)))
  {
  }

  lemma RunMount(os: Os, dev: DevPath, path: Path, scope: Scope)
    ensures var (os', ok) := Run(os, MountCmd(dev, path, scope));
      os' == os.(log := os'.log, k := if !ok then os.k else
        os.k.(host := AddMount(os.k.mode, scope, Host, os.k.host, Mount(dev, path, false)),
              local := AddMount(os.k.mode, scope, Local, os.k.local, Mount(dev, path, false))))
  {
  }

  /** Who moved between two states that differ in one table each of cache and kernel. */
  ghost predicate TableMoves(cache: seq<Mount>, kernel: seq<Mount>, cache': seq<Mount>, kernel': seq<Mount>, dev: DevPath) {
    && Pairs(cache') == Pairs(kernel') && Owned(cache')
    && forall q :: q != dev ==> OfDevice(cache', q) == OfDevice(cache, q) && OfDevice(kernel', q) == OfDevice(kernel, q)
  }

  lemma DropMoves(os: Os, path: Path, scope: Scope, seen: Scope, dev: DevPath)
    requires Sound(os) && FreeFor(Cached(os, scope), dev, path)
    requires Covered(os.k.mode, scope) && MountedAt(Cached(os, scope), path)
    ensures TableMoves(Cached(os, seen), Table(os.k, seen),
                       if Recorded(os.k.mode, scope, seen) then RemoveFirst(Cached(os, seen), path) else Cached(os, seen),
                       DropMount(os.k.mode, scope, seen, Table(os.k, seen), path), dev)
    ensures Recorded(os.k.mode, scope, seen) ==> OfDevice(RemoveFirst(Cached(os, seen), path), dev) == RemoveFirst(MountsOf(os, dev, seen), path)
  {
    hide Pairs, OfDevice, RemoveFirst, RemoveLast, Owned, FreeFor, MountedAt;
    CoveredAgrees(os.k.mode, scope, seen);
    if Recorded(os.k.mode, scope, seen) {
      assert Cached(os, seen) == Cached(os, scope);
      DropAgrees(Cached(os, seen), Table(os.k, seen), path, dev);
      OwnedDrop(Cached(os, seen), path);
    }
  }

  lemma AddMoves(os: Os, m: Mount, scope: Scope, seen: Scope)
    requires Sound(os) && FreeFor(Cached(os, seen), m.dev, m.path) && Covered(os.k.mode, scope)
    ensures TableMoves(Cached(os, seen), Table(os.k, seen),
                       if Recorded(os.k.mode, scope, seen) then Cached(os, seen) + [m] else Cached(os, seen),
                       AddMount(os.k.mode, scope, seen, Table(os.k, seen), m), m.dev)
    ensures OfDevice(Cached(os, seen) + [m], m.dev) == MountsOf(os, m.dev, seen) + [m]
  {
    hide Pairs, OfDevice, Owned, FreeFor;
    CoveredAgrees(os.k.mode, scope, seen);
    AddAgrees(Cached(os, seen), Table(os.k, seen), m);
    OwnedAdd(Cached(os, seen), m);
  }

  /** A umount at a path that `dev` owns keeps the caches sound and touches only `dev`. */
  lemma UnmountEffect(os: Os, path: Path, scope: Scope, dev: DevPath)
    requires Sound(os) && FreeFor(Cached(os, scope), dev, path)
    requires Covered(os.k.mode, scope) || !MountedAt(Cached(os, scope), path)
    ensures var (os', ok) := UnmountDevice(os, path, scope);
      && Sound(os') && OnlyMoves(os, os', dev) && TablesOnly(os, os')
      && (forall s :: MountsOf(os', dev, s) ==
           if ok && Recorded(os.k.mode, scope, s) then RemoveFirst(MountsOf(os, dev, s), path) else MountsOf(os, dev, s))
  {
    hide Run, Can, Effect, Pairs, OfDevice, RemoveFirst, RemoveLast, MountedAt, FreeFor, Owned, DropMount, Covered;
    if MountedAt(Cached(os, scope), path) {
      RunUmount(os, path, scope);
      DropMoves(os, path, scope, Host, dev);
      DropMoves(os, path, scope, Local, dev);
    } else {
      UnmountAbsent(os, path, scope, dev);
    }
  }

  lemma UnmountAbsent(os: Os, path: Path, scope: Scope, dev: DevPath)
    requires Sound(os) && !MountedAt(Cached(os, scope), path)
    ensures forall s :: Recorded(os.k.mode, scope, s) ==> RemoveFirst(MountsOf(os, dev, s), path) == MountsOf(os, dev, s)
  {
    forall s | Recorded(os.k.mode, scope, s) ensures RemoveFirst(MountsOf(os, dev, s), path) == MountsOf(os, dev, s) {
      assert Cached(os, s) == Cached(os, scope);
      OfDeviceMember(Cached(os, s), dev);
      RemoveFirstAbsent(MountsOf(os, dev, s), path);
    }
  }

  /** A mount at a path that is free for `dev` keeps the caches sound and touches only `dev`. */
  lemma MountEffect(os: Os, dev: DevPath, path: Path, scope: Scope)
    requires Sound(os) && FreeFor(os.host, dev, path) && FreeFor(os.local, dev, path)
    requires Covered(os.k.mode, scope) || MountedOn(Cached(os, scope), dev, path)
    ensures var (os', ok) := MountDevice(os, dev, path, scope);
      && Sound(os') && OnlyMoves(os, os', dev) && TablesOnly(os, os')
      && (forall s :: MountsOf(os', dev, s) ==
           if ok && Recorded(os.k.mode, scope, s) && !MountedOn(Cached(os, scope), dev, path)
           then MountsOf(os, dev, s) + [Mount(dev, path, false)] else MountsOf(os, dev, s))
  {
    hide Run, Can, Effect, Pairs, OfDevice, MountedOn, FreeFor, Owned, AddMount, Covered;
    if !MountedOn(Cached(os, scope), dev, path) {
      RunMount(os, dev, path, scope);
      AddMoves(os, Mount(dev, path, false), scope, Host);
      AddMoves(os, Mount(dev, path, false), scope, Local);
    }
  }

  // ---- loops over one scope, then over both ----

  function UnmountBoth(os: Os, dev: DevPath, keep: Option<Path>): (Os, bool) {
    var (os1, ok) := UnmountThose(os, MountsOf(os, dev, Host), keep, Host);
    if !ok then (os1, false) else UnmountThose(os1, MountsOf(os1, dev, Local), keep, Local)
  }

  function MountBoth(os: Os, dev: DevPath, path: Path): (Os, bool) {
    var (os1, ok) := MountDevice(os, dev, path, Host);
    if !ok then (os1, false) else MountDevice(os1, dev, path, Local)
  }

  lemma {:induction false} KeepingMember(ms: seq<Mount>, keep: Option<Path>)
    ensures forall m :: m in Keeping(ms, keep) <==> m in ms && Some(m.path) == keep
  {
    if ms != [] {
      KeepingMember(ms[1..], keep);
    }
  }

  /** An entry the cache lists for a device lies at a path which that device owns. */
  lemma OwnedPath(os: Os, dev: DevPath, scope: Scope, m: Mount)
    requires Sound(os) && m in MountsOf(os, dev, scope)
    ensures FreeFor(Cached(os, scope), dev, m.path) && MountedAt(Cached(os, scope), m.path) && m.dev == dev
  {
    OfDeviceMember(Cached(os, scope), dev);
  }

  lemma OnlyMovesReflexive(os: Os, dev: DevPath)
    ensures OnlyMoves(os, os, dev)
  {
  }

  lemma OnlyMovesTransitive(a: Os, b: Os, c: Os, dev: DevPath)
    requires OnlyMoves(a, b, dev) && OnlyMoves(b, c, dev)
    ensures OnlyMoves(a, c, dev)
  {
  }

  /** The loop removes entries from the table it lists: what is left is `kept`, then the rest of the list. */
  lemma {:induction false} UnmountThoseEffect(os: Os, kept: seq<Mount>, ms: seq<Mount>, keep: Option<Path>, scope: Scope, dev: DevPath)
    requires Sound(os) && MountsOf(os, dev, scope) == kept + ms
    requires forall m :: m in kept ==> Some(m.path) == keep
    requires Covered(os.k.mode, scope) || forall m :: m in ms ==> Some(m.path) == keep
    ensures var (os', ok) := UnmountThose(os, ms, keep, scope);
      && Sound(os') && OnlyMoves(os, os', dev) && TablesOnly(os, os')
      && (ok ==> MountsOf(os', dev, scope) == kept + Keeping(ms, keep))
      && (os.k.mode.Separate? ==> forall s :: s != scope ==> MountsOf(os', dev, s) == MountsOf(os, dev, s))
    decreases |ms|
  {
    hide UnmountDevice, Sound, OnlyMoves, MountsOf, MountedAt, FreeFor, RemoveFirst;
    if ms == [] {
      assert OnlyMoves(os, os, dev) by { OnlyMovesReflexive(os, dev); }
    } else if Some(ms[0].path) == keep {
      assert kept + ms == kept + [ms[0]] + ms[1..];
      UnmountThoseEffect(os, kept + [ms[0]], ms[1..], keep, scope, dev);
      assert kept + [ms[0]] + Keeping(ms[1..], keep) == kept + Keeping(ms, keep);
    } else {
      var m := ms[0];
      assert m in MountsOf(os, dev, scope);
      OwnedPath(os, dev, scope, m);
      assert m in ms;
      UnmountEffect(os, m.path, scope, dev);
      var (os1, ok) := UnmountDevice(os, m.path, scope);
      if ok {
        assert kept + ms == kept + [m] + ms[1..];
        RemoveFirstPast(kept, m, ms[1..]);
        UnmountThoseEffect(os1, kept, ms[1..], keep, scope, dev);
        OnlyMovesTransitive(os, os1, UnmountThose(os1, ms[1..], keep, scope).0, dev);
      }
    }
  }

  /** Nothing to do when every listed mount is to be kept. */
  lemma {:induction false} UnmountThoseIdle(os: Os, ms: seq<Mount>, keep: Option<Path>, scope: Scope)
    requires forall m :: m in ms ==> Some(m.path) == keep
    ensures UnmountThose(os, ms, keep, scope) == (os, true)
    decreases |ms|
  {
    if ms != [] {
      assert ms[0] in ms;
      UnmountThoseIdle(os, ms[1..], keep, scope);
    }
  }

  /** Both scopes lose every entry of `dev` but those at `keep`. */
  lemma UnmountBothEffect(os: Os, dev: DevPath, keep: Option<Path>)
    requires Sound(os)
    ensures var (os', ok) := UnmountBoth(os, dev, keep);
      && Sound(os') && OnlyMoves(os, os', dev) && TablesOnly(os, os')
      && (ok ==> MountsOf(os', dev, Host) == Keeping(MountsOf(os, dev, Host), keep))
      && (ok ==> MountsOf(os', dev, Local) == Keeping(MountsOf(os, dev, Local), keep))
  {
    hide UnmountThose, Sound, OnlyMoves, MountsOf, Covered, Keeping;
    UnmountThoseEffect(os, [], MountsOf(os, dev, Host), keep, Host, dev) by { assert Covered(os.k.mode, Host) by { CoveredHost(os.k.mode); } }
    var (os1, ok) := UnmountThose(os, MountsOf(os, dev, Host), keep, Host);
    if ok {
      var ms := MountsOf(os1, dev, Local);
      assert MountsOf(os1, dev, Host) == [] + Keeping(MountsOf(os, dev, Host), keep) == Keeping(MountsOf(os, dev, Host), keep);
      if !os.k.mode.Separate? {
        UnmountLocalIdle(os, dev, keep);
        TwinMounts(os, dev);
        TwinMounts(os1, dev);
        assert MountsOf(os1, dev, Local) == Keeping(MountsOf(os, dev, Local), keep);
        assert UnmountBoth(os, dev, keep) == (os1, true);
      } else {
        CoveredSeparate(os.k.mode);
        UnmountThoseEffect(os1, [], ms, keep, Local, dev);
        assert [] + Keeping(ms, keep) == Keeping(ms, keep);
        OnlyMovesTransitive(os, os1, UnmountThose(os1, ms, keep, Local).0, dev);
      }
    }
  }

  lemma CoveredHost(mode: Mode)
    ensures Covered(mode, Host)
  {
  }

  lemma CoveredSeparate(mode: Mode)
    requires mode.Separate?
    ensures forall s :: Covered(mode, s)
  {
  }

  lemma TwinMounts(os: Os, dev: DevPath)
    requires Sound(os) && !os.k.mode.Separate?
    ensures MountsOf(os, dev, Host) == MountsOf(os, dev, Local)
  {
  }

  /** Outside separate mode, once the host half has succeeded the local half runs no command. */
  lemma UnmountLocalIdle(os: Os, dev: DevPath, keep: Option<Path>)
    requires Sound(os) && !os.k.mode.Separate?
    ensures var (os1, ok) := UnmountThose(os, MountsOf(os, dev, Host), keep, Host);
      ok ==> UnmountBoth(os, dev, keep) == (os1, true) && UnmountThose(os1, MountsOf(os1, dev, Local), keep, Local) == (os1, true)
  {
    hide UnmountThose, Sound, OnlyMoves, MountsOf, Covered, Keeping;
    CoveredHost(os.k.mode);
    UnmountThoseEffect(os, [], MountsOf(os, dev, Host), keep, Host, dev);
    var (os1, ok) := UnmountThose(os, MountsOf(os, dev, Host), keep, Host);
    if ok {
      TwinMounts(os1, dev);
      KeepingMember(MountsOf(os, dev, Host), keep);
      UnmountThoseIdle(os1, MountsOf(os1, dev, Local), keep, Local);
    }
  }

  lemma MountedOnIsListed(os: Os, dev: DevPath, path: Path, scope: Scope)
    ensures MountedOn(Cached(os, scope), dev, path) <==> exists m :: m in MountsOf(os, dev, scope) && m.path == path
  {
    OfDeviceMember(Cached(os, scope), dev);
  }

  /** A path stays free for `dev` while only `dev` moves. */
  lemma FreeAfter(a: Os, b: Os, dev: DevPath, path: Path)
    requires OnlyMoves(a, b, dev)
    ensures FreeFor(a.host, dev, path) ==> FreeFor(b.host, dev, path)
    ensures FreeFor(a.local, dev, path) ==> FreeFor(b.local, dev, path)
  {
    forall m | m in b.host && m.dev != dev ensures m in a.host {
      OfDeviceMember(b.host, m.dev);
      OfDeviceMember(a.host, m.dev);
    }
    forall m | m in b.local && m.dev != dev ensures m in a.local {
      OfDeviceMember(b.local, m.dev);
      OfDeviceMember(a.local, m.dev);
    }
  }

  /** Is every entry of `dev` in both scopes at `path`? */
  ghost predicate OnlyAt(os: Os, dev: DevPath, path: Path) {
    AllAt(MountsOf(os, dev, Host), path) && AllAt(MountsOf(os, dev, Local), path)
  }

  ghost predicate AllAt(ms: seq<Mount>, path: Path) {
    forall m :: m in ms ==> m.path == path
  }

  ghost predicate Shown(os: Os, dev: DevPath) {
    MountsOf(os, dev, Host) != [] && MountsOf(os, dev, Local) != []
  }

  lemma ExtendedAt(before: seq<Mount>, after: seq<Mount>, dev: DevPath, path: Path)
    requires AllAt(before, path) && (after == before || after == before + [Mount(dev, path, false)])
    ensures AllAt(after, path) && (before != [] ==> after != [])
  {
  }

  lemma MountShows(os: Os, dev: DevPath, path: Path, scope: Scope)
    requires Sound(os) && FreeFor(os.host, dev, path) && FreeFor(os.local, dev, path) && OnlyAt(os, dev, path)
    requires Covered(os.k.mode, scope) || MountedOn(Cached(os, scope), dev, path)
    ensures var (os', ok) := MountDevice(os, dev, path, scope);
      && OnlyAt(os', dev, path)
      && (forall s :: MountsOf(os, dev, s) != [] ==> MountsOf(os', dev, s) != [])
      && (ok ==> MountedOn(Cached(os', scope), dev, path) && MountsOf(os', dev, scope) != [])
  {
    hide MountDevice, MountsOf, Sound, OnlyMoves, TablesOnly, FreeFor, MountedOn, Covered, Cached, AllAt;
    MountExtends(os, dev, path, scope);
    MountListed(os, dev, path, scope);
    var os' := MountDevice(os, dev, path, scope).0;
    ExtendedAt(MountsOf(os, dev, Host), MountsOf(os', dev, Host), dev, path);
    ExtendedAt(MountsOf(os, dev, Local), MountsOf(os', dev, Local), dev, path);
    forall s | MountsOf(os, dev, s) != [] ensures MountsOf(os', dev, s) != [] {
      assert s == Host || s == Local;
    }
  }

  lemma MountExtends(os: Os, dev: DevPath, path: Path, scope: Scope)
    requires Sound(os) && FreeFor(os.host, dev, path) && FreeFor(os.local, dev, path)
    requires Covered(os.k.mode, scope) || MountedOn(Cached(os, scope), dev, path)
    ensures var (os', ok) := MountDevice(os, dev, path, scope);
      var m := Mount(dev, path, false);
      && (MountsOf(os', dev, Host) == MountsOf(os, dev, Host) || MountsOf(os', dev, Host) == MountsOf(os, dev, Host) + [m])
      && (MountsOf(os', dev, Local) == MountsOf(os, dev, Local) || MountsOf(os', dev, Local) == MountsOf(os, dev, Local) + [m])
      && (ok && MountedOn(Cached(os, scope), dev, path) ==> MountsOf(os', dev, scope) == MountsOf(os, dev, scope))
      && (ok && !MountedOn(Cached(os, scope), dev, path) ==> MountsOf(os', dev, scope) == MountsOf(os, dev, scope) + [m])
  {
    hide MountDevice, MountsOf, Sound, OnlyMoves, TablesOnly, FreeFor, MountedOn, Covered, Cached;
    MountEffect(os, dev, path, scope);
  }

  lemma MountListed(os: Os, dev: DevPath, path: Path, scope: Scope)
    requires MountDevice(os, dev, path, scope).1 ==>
      MountsOf(MountDevice(os, dev, path, scope).0, dev, scope)
      == if MountedOn(Cached(os, scope), dev, path) then MountsOf(os, dev, scope) else MountsOf(os, dev, scope) + [Mount(dev, path, false)]
    ensures var (os', ok) := MountDevice(os, dev, path, scope);
      ok ==> MountedOn(Cached(os', scope), dev, path) && MountsOf(os', dev, scope) != []
  {
    var (os', ok) := MountDevice(os, dev, path, scope);
    hide MountDevice, MountsOf, MountedOn, Cached;
    MountedOnIsListed(os, dev, path, scope);
    MountedOnIsListed(os', dev, path, scope);
    if ok && !MountedOn(Cached(os, scope), dev, path) {
      assert Mount(dev, path, false) in MountsOf(os', dev, scope);
    }
  }

  /** Both scopes end up with `dev` at `path` and nowhere else. */
  lemma MountBothEffect(os: Os, dev: DevPath, path: Path)
    requires Sound(os) && FreeFor(os.host, dev, path) && FreeFor(os.local, dev, path) && OnlyAt(os, dev, path)
    ensures var (os', ok) := MountBoth(os, dev, path);
      && Sound(os') && OnlyMoves(os, os', dev) && TablesOnly(os, os') && OnlyAt(os', dev, path)
      && (ok ==> Shown(os', dev))
  {
    hide MountDevice, MountsOf, Sound, OnlyMoves, FreeFor, MountedOn, Covered, OnlyAt;
    CoveredHost(os.k.mode);
    MountEffect(os, dev, path, Host);
    MountShows(os, dev, path, Host);
    var (os1, ok) := MountDevice(os, dev, path, Host);
    if ok {
      FreeAfter(os, os1, dev, path);
      MountLocalReady(os1, dev, path);
      MountEffect(os1, dev, path, Local);
      MountShows(os1, dev, path, Local);
      OnlyMovesTransitive(os, os1, MountDevice(os1, dev, path, Local).0, dev);
    }
  }

  /** Outside separate mode, once the host half has succeeded the local half finds its entry. */
  lemma MountLocalReady(os: Os, dev: DevPath, path: Path)
    requires Sound(os) && MountedOn(os.host, dev, path)
    ensures Covered(os.k.mode, Local) || MountedOn(os.local, dev, path)
    ensures !os.k.mode.Separate? ==> MountDevice(os, dev, path, Local) == (os, true)
  {
  }
}
