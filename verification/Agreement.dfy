/** When the cached mount tables stay true to the kernel's: over any sequence of calls, and exactly. */
module Agreement {
  import opened Names
  import opened Tables
  import opened Kernels
  import opened Machine
  import opened MountCache

  /** One call to `os.Linux`. */
  datatype Call = Mounting(dev: DevPath, path: Path, scope: Scope) | Unmounting(path: Path, scope: Scope)

  function Perform(os: Os, c: Call): (Os, bool) {
    match c
    case Mounting(dev, path, scope) => MountDevice(os, dev, path, scope)
    case Unmounting(path, scope) => UnmountDevice(os, path, scope)
  }

  function PerformAll(os: Os, cs: seq<Call>): Os
    decreases |cs|
  {
    if cs == [] then os else PerformAll(Perform(os, cs[0]).0, cs[1..])
  }

  /** Path ownership: a mount goes where nobody else is mounted. */
  ghost predicate Allowed(os: Os, c: Call) {
    c.Mounting? ==> FreeFor(os.host, c.dev, c.path) && FreeFor(os.local, c.dev, c.path)
  }

  /** No command is needed: the cache shows that things are as they should be. */
  predicate Idle(os: Os, c: Call) {
    match c
    case Mounting(dev, path, scope) => MountedOn(Cached(os, scope), dev, path)
    case Unmounting(path, scope) => !MountedAt(Cached(os, scope), path)
  }

  ghost predicate AllAllowed(os: Os, cs: seq<Call>)
    decreases |cs|
  {
    cs == [] || (Allowed(os, cs[0]) && (Covered(os.k.mode, cs[0].scope) || Idle(os, cs[0]))
                 && AllAllowed(Perform(os, cs[0]).0, cs[1..]))
  }

  lemma PerformSound(os: Os, c: Call)
    requires Sound(os) && Allowed(os, c) && (Covered(os.k.mode, c.scope) || Idle(os, c))
    ensures Sound(Perform(os, c).0)
  {
    hide Sound, MountDevice, UnmountDevice, Covered, OnlyMoves, MountsOf, RemoveFirst, OfDevice;
    match c
    case Mounting(dev, path, scope) =>
      MountEffect(os, dev, path, scope);
    case Unmounting(path, scope) =>
      var dev := OwnerAt(os, path, scope);
      UnmountEffect(os, path, scope, dev);
  }

  lemma OwnerAt(os: Os, path: Path, scope: Scope) returns (dev: DevPath)
    requires Sound(os)
    ensures FreeFor(Cached(os, scope), dev, path)
  {
    if MountedAt(Cached(os, scope), path) {
      var m :| m in Cached(os, scope) && m.path == path;
      dev := m.dev;
    } else {
      dev := Disk("");
    }
  }

  /** After any sequence of mounts and umounts, whichever of them fail, both caches list who is mounted
    where exactly as the kernel does, provided every mount respects path ownership and, where the local
    namespace follows the host's, local calls only ever come when there is nothing left for them to do. */
  lemma {:induction false} CallsAgree(os: Os, cs: seq<Call>)
    requires Sound(os) && AllAllowed(os, cs)
    ensures Sound(PerformAll(os, cs))
    decreases |cs|
  {
    hide Sound, Allowed, Covered, Idle, Perform;
    if cs != [] {
      PerformSound(os, cs[0]);
      CallsAgree(Perform(os, cs[0]).0, cs[1..]);
    }
  }

  // ---- exactly when one call keeps the agreement ----

  lemma PairsGrow(ms: seq<Mount>, m: Mount)
    ensures Pairs(ms + [m]) != Pairs(ms)
  {
    PairsSnoc(ms, m);
    assert Pairs(ms + [m])[(m.dev, m.path)] == Pairs(ms)[(m.dev, m.path)] + 1;
  }

  lemma PairsShrink(ms: seq<Mount>, path: Path, dev: DevPath)
    requires FreeFor(ms, dev, path) && MountedAt(ms, path)
    ensures Pairs(RemoveFirst(ms, path)) != Pairs(ms)
  {
    RemoveFirstPairs(ms, path, dev);
    assert Pairs(RemoveFirst(ms, path))[(dev, path)] == Pairs(ms)[(dev, path)] - 1;
  }

  lemma RunTables(os: Os, c: Call)
    requires !Covered(os.k.mode, c.scope)
    ensures var (os', ok) := Perform(os, c);
      && os'.k.host == os.k.host && os'.k.mode == os.k.mode
      && (ok && !Idle(os, c) ==> os'.host == if c.Mounting? then os.host + [Mount(c.dev, c.path, false)] else RemoveFirst(os.host, c.path))
      && (!ok || Idle(os, c) ==> os'.host == os.host && os'.local == os.local && os'.k.local == os.k.local)
  {
  }

  /** The command that a call runs when it finds work to do. */
  function CommandOf(c: Call): Cmd {
    match c
    case Mounting(dev, path, scope) => MountCmd(dev, path, scope)
    case Unmounting(path, scope) => Umount(path, scope)
  }

  /** The kernel will not carry out the command, or it will fail for reasons outside. */
  predicate WillFail(os: Os, c: Call) {
    !Can(os.k, CommandOf(c)) || !os.fate(|os.log|, CommandOf(c))
  }

  lemma PerformFails(os: Os, c: Call)
    requires !Idle(os, c)
    ensures Perform(os, c).1 <==> !WillFail(os, c)
  {
  }

  /** A call keeps the caches true to the kernel if and only if it is not a local call where the local namespace
    follows the host's, or finds nothing to do, or is bound to fail: otherwise the cache of the host would
    change, and the host would not. */
  lemma AgreementExact(os: Os, c: Call)
    requires Sound(os) && Allowed(os, c)
    ensures Agree(Perform(os, c).0) <==> Covered(os.k.mode, c.scope) || Idle(os, c) || WillFail(os, c)
  {
    var (os', ok) := Perform(os, c);
    if Covered(os.k.mode, c.scope) || Idle(os, c) {
      PerformSound(os, c);
    } else {
      PerformFails(os, c);
      hide Pairs, OfDevice, Owned, RemoveFirst, MountedAt, MountedOn, FreeFor, Perform, WillFail;
      RunTables(os, c);
      if ok && c.Mounting? {
        PairsGrow(os.host, Mount(c.dev, c.path, false));
      } else if ok {
        var dev := OwnerAt(os, c.path, Host);
        SameCache(os, c);
        PairsShrink(os.host, c.path, dev);
      }
    }
  }

  lemma SameCache(os: Os, c: Call)
    requires Agree(os) && c.Unmounting? && !Covered(os.k.mode, c.scope) && !Idle(os, c)
    ensures MountedAt(os.host, c.path)
  {
  }

  /** Outside separate mode both caches are one, so once the host call of a pair has succeeded, the local
    call of the same pair runs no command. */
  lemma LocalCallIdle(os: Os, c: Call)
    requires Sound(os) && Allowed(os, c) && c.scope.Host? && !os.k.mode.Separate? && Perform(os, c).1
    requires c.Unmounting? ==> forall m, n :: 0 <= m < n < |os.host| && os.host[m].path == c.path ==> os.host[n].path != c.path
    ensures var os' := Perform(os, c).0; Perform(os', c.(scope := Local)) == (os', true)
  {
    if c.Mounting? {
      PerformSound(os, c);
      MountedThere(os, c);
      MountLocalReady(Perform(os, c).0, c.dev, c.path);
    } else {
      UnmountedThere(os, c);
    }
  }

  lemma UnmountedThere(os: Os, c: Call)
    requires Agree(os) && !os.k.mode.Separate? && c.Unmounting? && c.scope.Host? && Perform(os, c).1
    requires forall m, n :: 0 <= m < n < |os.host| && os.host[m].path == c.path ==> os.host[n].path != c.path
    ensures !MountedAt(Perform(os, c).0.local, c.path)
  {
    hide Run, Can, Effect, Pairs;
    RemoveOnly(os.host, c.path);
    RunUmount(os, c.path, Host);
  }

  lemma MountedThere(os: Os, c: Call)
    requires c.Mounting? && c.scope.Host? && Perform(os, c).1
    ensures MountedOn(Perform(os, c).0.host, c.dev, c.path)
  {
    hide Run, Can, Effect;
    RunMount(os, c.dev, c.path, Host);
    if !MountedOn(os.host, c.dev, c.path) {
      assert Mount(c.dev, c.path, false) in Perform(os, c).0.host;
    }
  }

  lemma {:induction false} RemoveOnly(ms: seq<Mount>, path: Path)
    requires forall m, n :: 0 <= m < n < |ms| && ms[m].path == path ==> ms[n].path != path
    ensures !MountedAt(RemoveFirst(ms, path), path)
  {
    if ms != [] {
      var rest := ms[1..];
      forall m, n | 0 <= m < n < |rest| && rest[m].path == path ensures rest[n].path != path {
        assert ms[m + 1] == rest[m] && ms[n + 1] == rest[n];
      }
      if ms[0].path == path {
        forall m | m in rest ensures m.path != path {
          var n :| 0 <= n < |rest| && rest[n] == m;
          assert ms[n + 1] == m;
        }
      } else {
        RemoveOnly(rest, path);
      }
    }
  }
}
