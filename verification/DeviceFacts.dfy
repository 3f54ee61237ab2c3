/** What Validate, Setup and Teardown of a chain of layers do to the mount tables. */
module DeviceFacts {
  import opened Names
  import opened Tables
  import opened Kernels
  import opened Machine
  import opened MountCache
  import opened Devices

  /** The device below all containers of the chain, once the chain reaches it. */
  function Leaf(d: Dev): Option<DevPath> {
    match d
    case XfsDev(path, _, _) => Some(path)
    case LuksDev(_, _, mapped, _) => if mapped.None? then None else Leaf(mapped.value)
  }

  // ---- Validate is exact ----

  ghost predicate Healthy(ms: seq<Mount>, path: Path) {
    forall m :: m in ms ==> m.path == path && !m.ro
  }

  lemma {:induction false} CheckMountsExact(ms: seq<Mount>, mp: Option<Path>)
    ensures var (mp', ok) := CheckMounts(ms, mp);
      && (mp.Some? ==> mp' == mp && (ok <==> Healthy(ms, mp.value)))
      && (mp.None? && ms == [] ==> mp' == None && ok)
      && (mp.None? && ms != [] ==> (ok <==> Healthy(ms, ms[0].path)) && (ok ==> mp' == Some(ms[0].path)))
  {
    if ms != [] {
      var m, rest := ms[0], ms[1..];
      assert forall e :: e in ms <==> e == m || e in rest;
      if !m.ro {
        CheckMountsExact(rest, if mp.None? then Some(m.path) else mp);
      }
    }
  }

  /** An XFS device that records a mount path is valid iff both scopes show it there, only there, and
    writable. */
  lemma ValidateXfsRecorded(os: Os, d: Dev)
    requires d.XfsDev? && d.mountPath.Some?
    ensures ValidateXfs(os, d).1 <==>
      && MountsOf(os, d.path, Host) != [] && Healthy(MountsOf(os, d.path, Host), d.mountPath.value)
      && MountsOf(os, d.path, Local) != [] && Healthy(MountsOf(os, d.path, Local), d.mountPath.value)
    ensures ValidateXfs(os, d).1 ==> ValidateXfs(os, d).0 == d
  {
    hide MountsOf;
    CheckMountsExact(MountsOf(os, d.path, Host), d.mountPath);
    CheckMountsExact(MountsOf(os, d.path, Local), d.mountPath);
  }

  /** A fresh XFS device is valid iff it is unmounted, or all its mounts are writable and at one path,
    and the local scope shows it if the host does. */
  lemma ValidateXfsFresh(os: Os, d: Dev)
    requires d.XfsDev? && d.mountPath.None?
    ensures ValidateXfs(os, d).1 <==>
      || Unmounted(os, d.path)
      || (MountsOf(os, d.path, Local) != [] && Healthy(MountsOf(os, d.path, Host) + MountsOf(os, d.path, Local), MountsOf(os, d.path, Local)[0].path))
    ensures ValidateXfs(os, d).1 ==>
      ValidateXfs(os, d).0 == d.(mountPath := if Unmounted(os, d.path) then None else Some(MountsOf(os, d.path, Local)[0].path))
  {
    hide MountsOf;
    var h, l := MountsOf(os, d.path, Host), MountsOf(os, d.path, Local);
    CheckMountsExact(h, None);
    CheckMountsExact(l, None);
    if h != [] {
      CheckMountsExact(l, Some(h[0].path));
      assert h[0] in h;
    }
    if l != [] {
      assert l[0] in l;
      assert forall m :: m in h + l <==> m in h || m in l;
    }
  }

  /** After a successful check, the recorded path and the tables tell the same story. */
  lemma ValidatedXfs(os: Os, d: Dev)
    requires d.XfsDev? && ValidateXfs(os, d).1
    ensures var d' := ValidateXfs(os, d).0;
      && d' == d.(mountPath := d'.mountPath)
      && (d'.mountPath.None? ==> Unmounted(os, d.path))
      && (d'.mountPath.Some? ==> OnlyAt(os, d.path, d'.mountPath.value) && MountsOf(os, d.path, Local) != [])
      && (d'.mountPath.Some? ==> Healthy(MountsOf(os, d.path, Host), d'.mountPath.value))
      && (d'.mountPath.Some? ==> Healthy(MountsOf(os, d.path, Local), d'.mountPath.value))
      && (d.mountPath.Some? ==> d' == d && Shown(os, d.path))
  {
    hide MountsOf, ValidateXfs;
    if d.mountPath.Some? {
      ValidateXfsRecorded(os, d);
    } else {
      ValidateXfsFresh(os, d);
      var h, l := MountsOf(os, d.path, Host), MountsOf(os, d.path, Local);
      if !Unmounted(os, d.path) {
        assert forall m :: m in h ==> m in h + l;
        assert forall m :: m in l ==> m in h + l;
      }
    }
  }

  // ---- what moves ----

  ghost predicate SameTables(a: Os, b: Os) {
    a.host == b.host && a.local == b.local && a.k.host == b.k.host && a.k.local == b.k.local && a.k.mode == b.k.mode
  }

  /** Only mounts of `leaf` have changed, or none if there is no leaf. */
  ghost predicate Moved(a: Os, b: Os, leaf: Option<DevPath>) {
    if leaf.None? then SameTables(a, b) else a.k.mode == b.k.mode && OnlyMoves(a, b, leaf.value)
  }

  lemma SoundSame(a: Os, b: Os)
    requires Sound(a) && SameTables(a, b)
    ensures Sound(b)
    ensures forall q, s :: MountsOf(b, q, s) == MountsOf(a, q, s)
  {
  }

  lemma MovedSame(a: Os, b: Os, leaf: Option<DevPath>)
    requires SameTables(a, b)
    ensures Moved(a, b, leaf)
  {
  }

  lemma MovedTransitive(a: Os, b: Os, c: Os, leaf: Option<DevPath>)
    requires Moved(a, b, leaf) && Moved(b, c, leaf)
    ensures Moved(a, c, leaf)
  {
  }

  lemma FormatFirstTables(os: Os, d: Dev, cmd: Cmd)
    requires cmd.Mkfs? || cmd.LuksFormat?
    ensures SameTables(os, FormatFirst(os, d, cmd).1)
  {
    hide ClassifyDevice, Run;
    ClassifyTables(os, d.path);
    var (_, os1) := ClassifyDevice(os, d.path);
    RunFormatTables(os1, cmd);
  }

  lemma ClassifyTables(os: Os, path: DevPath)
    ensures ClassifyDevice(os, path).1 == os.(log := ClassifyDevice(os, path).1.log)
  {
  }

  lemma RunFormatTables(os: Os, cmd: Cmd)
    requires cmd.Mkfs? || cmd.LuksFormat?
    ensures SameTables(os, Run(os, cmd).0)
  {
  }

  lemma {:induction false} OpenContainerTables(os: Os, dev: DevPath, name: string, keys: seq<string>)
    ensures SameTables(os, OpenContainer(os, dev, name, keys).0)
    decreases |keys|
  {
    if keys != [] {
      var (os', ok) := Run(os, LuksOpen(dev, name, keys[0]));
      assert SameTables(os, os');
      if !ok {
        hide Run;
        OpenContainerTables(os', dev, name, keys[1..]);
      }
    }
  }

  lemma NewDeviceTables(os: Os, path: DevPath, preferLuks: bool)
    ensures SameTables(os, NewDevice(os, path, preferLuks).1)
  {
  }

  lemma OpenIntoTables(os: Os, d: Dev, order: Order)
    requires d.LuksDev?
    ensures SameTables(os, OpenInto(os, d, order).1)
  {
    hide OpenContainer, NewDevice;
    OpenContainerTables(os, d.path, order.driveId, order.keys);
    var (os1, _) := OpenContainer(os, d.path, order.driveId, order.keys);
    NewDeviceTables(os1, Mapper(order.driveId), false);
  }

  lemma OpenUpTables(os: Os, d: Dev, order: Order)
    requires d.LuksDev?
    ensures SameTables(os, OpenUp(os, d, order).1)
  {
    if order.keys != [] {
      hide FormatFirst, OpenInto;
      var cmd := LuksFormat(d.path, order.keys[0]);
      FormatFirstTables(os, d, cmd);
      var (d1, os1, _) := FormatFirst(os, d, cmd);
      OpenIntoTables(os1, d1, order);
    }
  }

  lemma KeptAt(ms: seq<Mount>, path: Path)
    ensures AllAt(Keeping(ms, Some(path)), path)
  {
    KeepingMember(ms, Some(path));
  }

  /** Moving an XFS layer to a path that is free for it. */
  lemma MoveToEffect(os: Os, d: Dev, target: Path)
    requires d.XfsDev? && Sound(os) && FreeFor(os.host, d.path, target) && FreeFor(os.local, d.path, target)
    ensures var (d', os', ok) := MoveTo(os, d, target);
      && Sound(os') && Moved(os, os', Some(d.path)) && d'.XfsDev? && d' == d.(mountPath := d'.mountPath)
      && (ok ==> d'.mountPath == Some(target) && OnlyAt(os', d.path, target) && Shown(os', d.path))
  {
    hide UnmountBoth, MountBoth, Sound, OnlyMoves, OnlyAt, Shown, FreeFor, MountsOf;
    UnmountBothEffect(os, d.path, Some(target));
    var (os1, ok) := UnmountBoth(os, d.path, Some(target));
    if ok {
      KeptAt(MountsOf(os, d.path, Host), target);
      KeptAt(MountsOf(os, d.path, Local), target);
      assert OnlyAt(os1, d.path, target) by { OnlyAtParts(os1, d.path, target); }
      FreeAfter(os, os1, d.path, target);
      MountBothEffect(os1, d.path, target);
      OnlyMovesTransitive(os, os1, MountBoth(os1, d.path, target).0, d.path);
    }
  }

  lemma OnlyAtParts(os: Os, dev: DevPath, path: Path)
    requires AllAt(MountsOf(os, dev, Host), path) && AllAt(MountsOf(os, dev, Local), path)
    ensures OnlyAt(os, dev, path)
  {
  }

  lemma SetupXfsEffect(os: Os, d: Dev, order: Order)
    requires d.XfsDev? && Sound(os)
    requires FreeFor(os.host, d.path, Target(d.mountPath, order)) && FreeFor(os.local, d.path, Target(d.mountPath, order))
    ensures var (d', os', ok) := SetupXfs(os, d, order);
      && Sound(os') && Moved(os, os', Some(d.path)) && d'.XfsDev? && d'.path == d.path
      && (ok ==> d'.mountPath == Some(Target(d.mountPath, order)) && d'.formatted)
      && (ok ==> OnlyAt(os', d.path, Target(d.mountPath, order)) && Shown(os', d.path))
  {
    hide Sound, OnlyMoves, OnlyAt, Shown, FreeFor, MoveTo, FormatFirst;
    var (d1, os1, ok) := FormatFirst(os, d, Mkfs(d.path));
    assert ok ==> d1.formatted by { FormattedAfter(os, d, Mkfs(d.path)); }
    FormatFirstTables(os, d, Mkfs(d.path));
    SoundSame(os, os1);
    MovedSame(os, os1, Some(d.path));
    if ok {
      assert d1.mountPath == d.mountPath;
      MoveToEffect(os1, d1, Target(d.mountPath, order));
      MovedTransitive(os, os1, MoveTo(os1, d1, Target(d.mountPath, order)).1, Some(d.path));
    }
  }

  lemma FormattedAfter(os: Os, d: Dev, cmd: Cmd)
    ensures FormatFirst(os, d, cmd).2 ==> FormatFirst(os, d, cmd).0.formatted
  {
  }

  // ---- whole chains ----

  /** The device that `Setup` would mount, and where, if it gets that far. */
  ghost function Goal(os: Os, d: Dev, order: Order): Option<(DevPath, Path)>
    decreases Rank(os.k, d)
  {
    hide OpenUp, Validate;
    var (d1, os1, ok) := Validate(os, d);
    if !ok then None
    else if d1.XfsDev? then Some((d1.path, Target(d1.mountPath, order)))
    else
      var (d2, os2, ok2) := OpenUp(os1, d1, order);
      if !ok2 || d2.mapped.None? || Rank(os2.k, d2.mapped.value) >= Rank(os.k, d) then None
      else Goal(os2, d2.mapped.value, order)
  }

  ghost predicate GoalFree(os: Os, goal: Option<(DevPath, Path)>) {
    goal.Some? ==> FreeFor(os.host, goal.value.0, goal.value.1) && FreeFor(os.local, goal.value.0, goal.value.1)
  }

  ghost function GoalLeaf(goal: Option<(DevPath, Path)>): Option<DevPath> {
    if goal.None? then None else Some(goal.value.0)
  }

  /** `Setup` moves no device but the leaf it reaches, and on success leaves that leaf mounted at its
    goal, in both scopes, and nowhere else. */
  lemma {:induction false} SetupEffect(os: Os, d: Dev, order: Order)
    requires Sound(os) && GoalFree(os, Goal(os, d, order))
    ensures var (d', os', ok) := Setup(os, d, order);
      var goal := Goal(os, d, order);
      && Sound(os') && Moved(os, os', GoalLeaf(goal))
      && (goal.Some? ==> Leaf(d') == Some(goal.value.0))
      && (ok ==> goal.Some? && MountedPath(d') == Some(goal.value.1))
      && (ok ==> OnlyAt(os', goal.value.0, goal.value.1) && Shown(os', goal.value.0))
    decreases Rank(os.k, d)
  {
    hide Sound, OnlyMoves, OnlyAt, Shown, FreeFor, OpenUp, Validate, SetupXfs, Target;
    var (d1, os1, ok) := Validate(os, d);
    assert SameTables(os, os1);
    SoundSame(os, os1);
    if !ok {
    } else if d1.XfsDev? {
      SetupXfsEffect(os1, d1, order);
      MovedSame(os, os1, Some(d1.path));
      MovedTransitive(os, os1, SetupXfs(os1, d1, order).1, Some(d1.path));
    } else {
      OpenUpTables(os1, d1, order);
      var (d2, os2, ok2) := OpenUp(os1, d1, order);
      SoundSame(os1, os2);
      if !(!ok2 || d2.mapped.None? || Rank(os2.k, d2.mapped.value) >= Rank(os.k, d)) {
        var goal := Goal(os2, d2.mapped.value, order);
        assert goal == Goal(os, d, order);
        SetupEffect(os2, d2.mapped.value, order);
        MovedSame(os, os2, GoalLeaf(goal));
        MovedTransitive(os, os2, Setup(os2, d2.mapped.value, order).1, GoalLeaf(goal));
      }
    }
  }

  /** `Teardown` moves no device but the leaf it knows, and on success leaves it with no mount. */
  lemma {:induction false} TeardownEffect(os: Os, d: Dev)
    requires Sound(os)
    ensures var (d', os', ok) := Teardown(os, d);
      && Sound(os') && Moved(os, os', Leaf(d))
      && (ok && Leaf(d).Some? ==> Unmounted(os', Leaf(d).value) && MountedPath(d') == None)
    decreases d
  {
    hide Sound, OnlyMoves, UnmountBoth, MountsOf, CloseUp, Keeping;
    match d
    case XfsDev(path, _, _) =>
      UnmountBothEffect(os, path, None);
      KeepingMember(MountsOf(os, path, Host), None);
      KeepingMember(MountsOf(os, path, Local), None);
      var (os', ok) := UnmountBoth(os, path, None);
      if ok {
        EmptyOrNot(MountsOf(os', path, Host));
        EmptyOrNot(MountsOf(os', path, Local));
      }
    case LuksDev(_, _, mapped, _) =>
      if mapped.None? {
        CloseUpTables(os, d);
        SoundSame(os, CloseUp(os, d).1);
      } else {
        TeardownEffect(os, mapped.value);
        var (m, os1, ok) := Teardown(os, mapped.value);
        if ok {
          var closed := d.(mapped := None);
          CloseUpTables(os1, closed);
          SoundSame(os1, CloseUp(os1, closed).1);
          MovedSame(os1, CloseUp(os1, closed).1, Leaf(d));
          MovedTransitive(os, os1, CloseUp(os1, closed).1, Leaf(d));
        }
      }
  }

  lemma EmptyOrNot(ms: seq<Mount>)
    ensures ms == [] || exists m :: m in ms
  {
    if ms != [] {
      assert ms[0] in ms;
    }
  }

  lemma CloseUpTables(os: Os, d: Dev)
    requires d.LuksDev?
    ensures SameTables(os, CloseUp(os, d).1)
    ensures CloseUp(os, d).0.LuksDev? && CloseUp(os, d).0.mapped == d.mapped
  {
  }
}
