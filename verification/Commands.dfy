/** Which commands each operation issues, and that every format among them hits a blank device. */
module Commands {
  import opened Names
  import opened Tables
  import opened Kernels
  import opened Machine
  import opened MountCache
  import opened Devices
  import opened Drives
  import opened Assignments

  /** What `Teardown` may issue. */
  predicate Tearing(c: Cmd) {
    c.Umount? || c.LuksClose?
  }

  /** What `Setup` may issue. */
  predicate Building(c: Cmd) {
    c.Classify? || c.Mkfs? || c.LuksFormat? || c.LuksOpen? || c.MountCmd? || c.Umount?
  }

  /** What `Setup` issues before it turns to mounts. */
  predicate Preparing(c: Cmd) {
    c.Classify? || c.Mkfs? || c.LuksFormat? || c.LuksOpen?
  }

  predicate Looking(c: Cmd) {
    c.Classify? || c.ReadFlag? || c.SetFlag?
  }

  predicate Assigning(c: Cmd) {
    c.ReadId? || c.WriteId?
  }

  /** Everything but writing a swift-id. */
  predicate Unassigning(c: Cmd) {
    !c.WriteId?
  }

  predicate Anything(c: Cmd) {
    true
  }

  /** `b` is `a` after a safe run of commands that all satisfy `p`. */
  ghost predicate Ran(a: Os, b: Os, p: Cmd -> bool) {
    Steps(a, b) && forall e :: e in Since(a, b) ==> p(e.cmd)
  }

  lemma RanTransitive(a: Os, b: Os, c: Os, p: Cmd -> bool)
    requires Ran(a, b, p) && Ran(b, c, p)
    ensures Ran(a, c, p)
  {
    hide Trace;
    StepsTransitive(a, b, c);
  }

  lemma RanWider(a: Os, b: Os, p: Cmd -> bool, q: Cmd -> bool)
    requires Ran(a, b, p) && forall c :: p(c) ==> q(c)
    ensures Ran(a, b, q)
  {
  }

  lemma RanNothing(a: Os, b: Os, p: Cmd -> bool)
    requires b == a.(host := b.host, local := b.local, luks := b.luks)
    ensures Ran(a, b, p)
  {
    StepsReflexive(a, b);
  }

  lemma RanOne(os: Os, cmd: Cmd, p: Cmd -> bool)
    requires Safe(os.k, cmd) && p(cmd)
    ensures Ran(os, Run(os, cmd).0, p)
  {
    RunSteps(os, cmd);
  }

  /** The caches may be edited after the commands they record. */
  lemma RanThen(a: Os, b: Os, c: Os, p: Cmd -> bool)
    requires Ran(a, b, p) && c == b.(host := c.host, local := c.local, luks := c.luks)
    ensures Ran(a, c, p)
  {
  }

  // ---- os.Linux ----

  lemma ClassifyRan(os: Os, dev: DevPath, p: Cmd -> bool)
    requires p(Classify(dev))
    ensures Ran(os, ClassifyDevice(os, dev).1, p)
    ensures ClassifyDevice(os, dev).1.k == os.k
    ensures ClassifyDevice(os, dev).0.Unknown? ==> ContentAt(os.k, dev) == Some(Blank)
  {
    RanOne(os, Classify(dev), p);
  }

  lemma MountRan(os: Os, dev: DevPath, path: Path, scope: Scope, p: Cmd -> bool)
    requires p(MountCmd(dev, path, scope))
    ensures Ran(os, MountDevice(os, dev, path, scope).0, p)
  {
    RanNothing(os, os, p);
    RanOne(os, MountCmd(dev, path, scope), p);
    hide Run, MountedOn, Ran;
    if !MountedOn(Cached(os, scope), dev, path) {
      RanThen(os, Run(os, MountCmd(dev, path, scope)).0, MountDevice(os, dev, path, scope).0, p);
    }
  }

  lemma UnmountRan(os: Os, path: Path, scope: Scope, p: Cmd -> bool)
    requires p(Umount(path, scope))
    ensures Ran(os, UnmountDevice(os, path, scope).0, p)
  {
    RanNothing(os, os, p);
    RanOne(os, Umount(path, scope), p);
    hide Run, MountedAt, Ran;
    if MountedAt(Cached(os, scope), path) {
      RanThen(os, Run(os, Umount(path, scope)).0, UnmountDevice(os, path, scope).0, p);
    }
  }

  lemma {:induction false} UnmountThoseRan(os: Os, ms: seq<Mount>, keep: Option<Path>, scope: Scope, p: Cmd -> bool)
    requires forall path :: p(Umount(path, scope))
    ensures Ran(os, UnmountThose(os, ms, keep, scope).0, p)
    decreases |ms|
  {
    hide UnmountDevice, Ran;
    RanNothing(os, os, p);
    if ms != [] {
      if Some(ms[0].path) == keep {
        UnmountThoseRan(os, ms[1..], keep, scope, p);
      } else {
        UnmountRan(os, ms[0].path, scope, p);
        var (os', ok) := UnmountDevice(os, ms[0].path, scope);
        if ok {
          UnmountThoseRan(os', ms[1..], keep, scope, p);
          RanTransitive(os, os', UnmountThose(os', ms[1..], keep, scope).0, p);
        }
      }
    }
  }

  lemma UnmountBothRan(os: Os, dev: DevPath, keep: Option<Path>, p: Cmd -> bool)
    requires forall path, scope :: p(Umount(path, scope))
    ensures Ran(os, UnmountBoth(os, dev, keep).0, p)
  {
    hide UnmountThose, Ran;
    UnmountThoseRan(os, MountsOf(os, dev, Host), keep, Host, p);
    var (os1, ok) := UnmountThose(os, MountsOf(os, dev, Host), keep, Host);
    if ok {
      UnmountThoseRan(os1, MountsOf(os1, dev, Local), keep, Local, p);
      RanTransitive(os, os1, UnmountBoth(os, dev, keep).0, p);
    }
  }

  lemma MountBothRan(os: Os, dev: DevPath, path: Path, p: Cmd -> bool)
    requires forall scope :: p(MountCmd(dev, path, scope))
    ensures Ran(os, MountBoth(os, dev, path).0, p)
  {
    hide MountDevice, Ran;
    MountRan(os, dev, path, Host, p);
    var (os1, ok) := MountDevice(os, dev, path, Host);
    if ok {
      MountRan(os1, dev, path, Local, p);
      RanTransitive(os, os1, MountBoth(os, dev, path).0, p);
    }
  }

  lemma {:induction false} OpenContainerRan(os: Os, dev: DevPath, name: string, keys: seq<string>)
    ensures Ran(os, OpenContainer(os, dev, name, keys).0, Preparing)
    decreases |keys|
  {
    hide Run, Ran;
    RanNothing(os, os, Preparing);
    if keys != [] {
      var cmd := LuksOpen(dev, name, keys[0]);
      RanOne(os, cmd, Preparing);
      var (os', ok) := Run(os, cmd);
      if ok {
        RanThen(os, os', OpenContainer(os, dev, name, keys).0, Preparing);
      } else {
        OpenContainerRan(os', dev, name, keys[1..]);
        RanTransitive(os, os', OpenContainer(os, dev, name, keys).0, Preparing);
      }
    }
  }

  // ---- layers ----

  lemma NewDeviceRan(os: Os, path: DevPath, preferLuks: bool, p: Cmd -> bool)
    requires p(Classify(path))
    ensures Ran(os, NewDevice(os, path, preferLuks).1, p)
  {
    hide ClassifyDevice, Ran;
    ClassifyRan(os, path, p);
  }

  lemma FormatFirstRan(os: Os, d: Dev, cmd: Cmd)
    requires cmd == Mkfs(d.path) || (cmd.LuksFormat? && cmd.dev == d.path)
    ensures Ran(os, FormatFirst(os, d, cmd).1, Preparing)
  {
    hide ClassifyDevice, Run, Ran;
    RanNothing(os, os, Preparing);
    ClassifyRan(os, d.path, Preparing);
    var (kind, os1) := ClassifyDevice(os, d.path);
    if kind.Unknown? {
      RanOne(os1, cmd, Preparing);
      RanTransitive(os, os1, Run(os1, cmd).0, Preparing);
    }
  }

  lemma {:induction false} ValidateRan(os: Os, d: Dev)
    ensures Ran(os, Validate(os, d).1, Preparing)
    decreases Rank(os.k, d)
  {
    hide NewDevice, Ran, Unmounted, ValidateXfs;
    RanNothing(os, os, Preparing);
    if d.LuksDev? {
      if d.path in os.luks {
        NewDeviceRan(os, os.luks[d.path], false, Preparing);
      }
      var (d1, os1, ok) := Discover(os, d);
      assert Ran(os, os1, Preparing);
      if !(!ok || d1.mapped.None? || Rank(os1.k, d1.mapped.value) >= Rank(os.k, d)) {
        ValidateRan(os1, d1.mapped.value);
        RanTransitive(os, os1, Validate(os1, d1.mapped.value).1, Preparing);
      }
    }
  }

  lemma MoveToRan(os: Os, d: Dev, target: Path)
    requires d.XfsDev?
    ensures Ran(os, MoveTo(os, d, target).1, Building)
  {
    hide UnmountBoth, MountBoth, Ran;
    UnmountBothRan(os, d.path, Some(target), Building);
    var (os1, ok) := UnmountBoth(os, d.path, Some(target));
    if ok {
      MountBothRan(os1, d.path, target, Building);
      RanTransitive(os, os1, MountBoth(os1, d.path, target).0, Building);
    }
  }

  lemma SetupXfsRan(os: Os, d: Dev, order: Order)
    requires d.XfsDev?
    ensures Ran(os, SetupXfs(os, d, order).1, Building)
  {
    hide FormatFirst, MoveTo, Ran;
    FormatFirstRan(os, d, Mkfs(d.path));
    var (d1, os1, ok) := FormatFirst(os, d, Mkfs(d.path));
    RanWider(os, os1, Preparing, Building);
    if ok {
      MoveToRan(os1, d1, Target(d1.mountPath, order));
      RanTransitive(os, os1, MoveTo(os1, d1, Target(d1.mountPath, order)).1, Building);
    }
  }

  lemma OpenIntoRan(os: Os, d: Dev, order: Order)
    requires d.LuksDev?
    ensures Ran(os, OpenInto(os, d, order).1, Preparing)
  {
    hide OpenContainer, NewDevice, Ran;
    OpenContainerRan(os, d.path, order.driveId, order.keys);
    var (os1, ok) := OpenContainer(os, d.path, order.driveId, order.keys);
    if ok {
      NewDeviceRan(os1, Mapper(order.driveId), false, Preparing);
      RanTransitive(os, os1, NewDevice(os1, Mapper(order.driveId), false).1, Preparing);
    }
  }

  lemma OpenUpRan(os: Os, d: Dev, order: Order)
    requires d.LuksDev?
    ensures Ran(os, OpenUp(os, d, order).1, Preparing)
  {
    hide FormatFirst, OpenInto, Ran;
    RanNothing(os, os, Preparing);
    if order.keys != [] {
      FormatFirstRan(os, d, LuksFormat(d.path, order.keys[0]));
      var (d1, os1, ok) := FormatFirst(os, d, LuksFormat(d.path, order.keys[0]));
      if ok && d1.mapped.None? {
        OpenIntoRan(os1, d1, order);
        RanTransitive(os, os1, OpenInto(os1, d1, order).1, Preparing);
      }
    }
  }

  lemma {:induction false} SetupRan(os: Os, d: Dev, order: Order)
    ensures Ran(os, Setup(os, d, order).1, Building)
    decreases Rank(os.k, d)
  {
    hide Validate, SetupXfs, OpenUp, Ran;
    ValidateRan(os, d);
    var (d1, os1, ok) := Validate(os, d);
    RanWider(os, os1, Preparing, Building);
    if ok {
      if d1.XfsDev? {
        SetupXfsRan(os1, d1, order);
        RanTransitive(os, os1, SetupXfs(os1, d1, order).1, Building);
      } else {
        OpenUpRan(os1, d1, order);
        var (d2, os2, ok2) := OpenUp(os1, d1, order);
        RanWider(os1, os2, Preparing, Building);
        RanTransitive(os, os1, os2, Building);
        if !(!ok2 || d2.mapped.None? || Rank(os2.k, d2.mapped.value) >= Rank(os.k, d)) {
          SetupRan(os2, d2.mapped.value, order);
          RanTransitive(os, os2, Setup(os2, d2.mapped.value, order).1, Building);
        }
      }
    }
  }

  lemma CloseUpRan(os: Os, d: Dev)
    requires d.LuksDev?
    ensures Ran(os, CloseUp(os, d).1, Tearing)
  {
    hide Run, Ran;
    RanNothing(os, os, Tearing);
    if d.mappingName.Some? {
      RanOne(os, LuksClose(d.mappingName.value), Tearing);
    }
  }

  lemma {:induction false} TeardownRan(os: Os, d: Dev)
    ensures Ran(os, Teardown(os, d).1, Tearing)
    decreases d
  {
    hide UnmountBoth, CloseUp, Ran;
    match d
    case XfsDev(path, _, _) => UnmountBothRan(os, path, None, Tearing);
    case LuksDev(_, _, mapped, _) =>
      if mapped.None? {
        CloseUpRan(os, d);
      } else {
        TeardownRan(os, mapped.value);
        var (m, os1, ok) := Teardown(os, mapped.value);
        if ok {
          CloseUpRan(os1, d.(mapped := None));
          RanTransitive(os, os1, CloseUp(os1, d.(mapped := None)).1, Tearing);
        }
      }
  }

  // ---- drives ----

  predicate Converging(c: Cmd) {
    Building(c) || Tearing(c) || c.SetFlag?
  }

  lemma MarkRan(os: Os, d: Drive, p: Cmd -> bool)
    requires p(SetFlag(d.driveId))
    ensures Ran(os, MarkAsBroken(os, d).1, p)
  {
    hide Run, Ran;
    RanOne(os, SetFlag(d.driveId), p);
  }

  /** A drive that is already broken is only torn down. */
  lemma ConvergeBrokenRan(os: Os, d: Drive)
    requires d.device.Some? && d.broken
    ensures Ran(os, ConvergeDrive(os, d).1, Tearing)
  {
    hide Ran, Teardown;
    TeardownRan(os, d.device.value);
  }

  lemma ConvergeRan(os: Os, d: Drive)
    requires d.device.Some?
    ensures Ran(os, ConvergeDrive(os, d).1, Converging)
  {
    hide Setup, Teardown, MarkAsBroken, Ran;
    if d.broken {
      TeardownRan(os, d.device.value);
      RanWider(os, Teardown(os, d.device.value).1, Tearing, Converging);
    } else {
      var (dev, os1, ok) := Setup(os, d.device.value, OrderOf(d));
      SetupRan(os, d.device.value, OrderOf(d));
      RanWider(os, os1, Building, Converging);
      if !ok {
        var marked := d.(device := Some(dev));
        MarkRan(os1, marked, Converging);
        var (_, os2) := MarkAsBroken(os1, marked);
        RanTransitive(os, os1, os2, Converging);
        TeardownRan(os2, dev);
        RanWider(os2, Teardown(os2, dev).1, Tearing, Converging);
        RanTransitive(os, os2, Teardown(os2, dev).1, Converging);
      }
    }
  }

  lemma TeardownDriveRan(os: Os, d: Drive)
    ensures Ran(os, TeardownDrive(os, d).1, Tearing)
  {
    hide Teardown, Ran;
    RanNothing(os, os, Tearing);
    if d.device.Some? {
      TeardownRan(os, d.device.value);
    }
  }

  lemma CheckFlagRan(os: Os, d: Drive, fromDurable: bool)
    ensures Ran(os, CheckFlag(os, d, fromDurable).1, Looking)
  {
    hide Run, MarkAsBroken, Ran;
    RanOne(os, ReadFlag(d.driveId, fromDurable), Looking);
    var (os', found) := Run(os, ReadFlag(d.driveId, fromDurable));
    if found {
      MarkRan(os', d, Looking);
      RanTransitive(os, os', MarkAsBroken(os', d).1, Looking);
    }
  }

  lemma NewDriveRan(os: Os, path: DevPath, driveId: string, keys: seq<string>)
    ensures Ran(os, NewDrive(os, path, driveId, keys).1, Looking)
  {
    hide NewDevice, CheckFlag, Ran;
    NewDeviceRan(os, path, keys != [], Looking);
    var (device, os1) := NewDevice(os, path, keys != []);
    var d := Drive(path, driveId, keys, device, device.None?, None);
    CheckFlagRan(os1, d, false);
    var (d1, os2) := CheckFlag(os1, d, false);
    RanTransitive(os, os1, os2, Looking);
    CheckFlagRan(os2, d1, true);
    RanTransitive(os, os2, CheckFlag(os2, d1, true).1, Looking);
  }

  lemma {:induction false} ValidateLooks(os: Os, d: Dev, p: Cmd -> bool)
    requires forall dev :: p(Classify(dev))
    ensures Ran(os, Validate(os, d).1, p)
    decreases Rank(os.k, d)
  {
    hide NewDevice, Ran, Unmounted, ValidateXfs;
    RanNothing(os, os, p);
    if d.LuksDev? {
      if d.path in os.luks {
        NewDeviceRan(os, os.luks[d.path], false, p);
      }
      var (d1, os1, ok) := Discover(os, d);
      assert Ran(os, os1, p);
      if !(!ok || d1.mapped.None? || Rank(os1.k, d1.mapped.value) >= Rank(os.k, d)) {
        ValidateLooks(os1, d1.mapped.value, p);
        RanTransitive(os, os1, Validate(os1, d1.mapped.value).1, p);
      }
    }
  }

  /** Looking at things without leaving a trace. */
  predicate Glancing(c: Cmd) {
    c.Classify? || c.ReadFlag?
  }

  lemma CheckGlances(os: Os, d: Drive, fromDurable: bool)
    requires d.driveId !in os.k.transient && d.driveId !in os.k.durable
    ensures var (d', os') := CheckFlag(os, d, fromDurable); d' == d && os'.k == os.k && Ran(os, os', Glancing)
  {
    RanOne(os, ReadFlag(d.driveId, fromDurable), Glancing);
    hide Ran;
  }

  /** For a drive that is not flagged, making its object only looks at things. */
  lemma NewDriveGlancing(os: Os, path: DevPath, driveId: string, keys: seq<string>)
    requires driveId !in os.k.transient && driveId !in os.k.durable
    ensures Ran(os, NewDrive(os, path, driveId, keys).1, Glancing)
  {
    NewDeviceRan(os, path, keys != [], Glancing);
    NewDeviceKeeps(os, path, keys != []);
    hide NewDevice, CheckFlag, Ran;
    var (device, os1) := NewDevice(os, path, keys != []);
    var d0 := Drive(path, driveId, keys, device, device.None?, None);
    CheckGlances(os1, d0, false);
    var os2 := CheckFlag(os1, d0, false).1;
    CheckGlances(os2, d0, true);
    RanTransitive(os, os1, os2, Glancing);
    RanTransitive(os, os2, CheckFlag(os2, d0, true).1, Glancing);
  }

  lemma NewDeviceKeeps(os: Os, path: DevPath, preferLuks: bool)
    ensures NewDevice(os, path, preferLuks).1.k == os.k
  {
    hide ContentAt;
  }

  // ---- assignments ----

  lemma {:induction false} ReadAllRan(os: Os, drives: seq<Drive>)
    ensures Ran(os, ReadAll(os, drives).1, Assigning)
    decreases |drives|
  {
    hide Run, Ran;
    RanNothing(os, os, Assigning);
    if drives != [] {
      var path := DriveMountedPath(drives[0]);
      if path.Some? {
        RanOne(os, ReadId(path.value), Assigning);
      }
      var (_, os1) := ReadOne(os, drives[0]);
      ReadAllRan(os1, drives[1..]);
      RanTransitive(os, os1, ReadAll(os1, drives[1..]).1, Assigning);
    }
  }

  lemma {:induction false} AllocateRan(os: Os, drives: seq<Drive>, pool: seq<string>, taken: set<string>)
    ensures Ran(os, Allocate(os, drives, pool, taken).1, Assigning)
    decreases |drives|
  {
    hide Run, Ran, FirstUnused, MountPath;
    RanNothing(os, os, Assigning);
    if drives != [] {
      var d := drives[0];
      RanOne(os, WriteId(MountPath(d), OnDisk(FirstUnused(pool, taken))), Assigning);
      var (_, os1, taken1) := AllocateOne(os, d, pool, taken);
      AllocateRan(os1, drives[1..], pool, taken1);
      RanTransitive(os, os1, Allocate(os1, drives[1..], pool, taken1).1, Assigning);
    }
  }

  lemma UpdateRan(os: Os, drives: seq<Drive>, pool: seq<string>)
    ensures Ran(os, UpdateAssignments(os, drives, pool).1, Assigning)
  {
    hide ReadAll, Allocate, Judged, Ran;
    ReadAllRan(os, drives);
    var (readings, os1) := ReadAll(os, drives);
    var judged := Judged(readings, drives, pool);
    AllocateRan(os1, judged, pool, Taken(readings));
    RanTransitive(os, os1, Allocate(os1, judged, pool, Taken(readings)).1, Assigning);
  }
}
