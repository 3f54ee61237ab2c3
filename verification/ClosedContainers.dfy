/** Closing containers: a layer records the mappings it opens, and closes these, and no others, when it is torn down. */
module ClosedContainers {
  import opened Names
  import opened Tables
  import opened Kernels
  import opened KernelFacts
  import opened Machine
  import opened MountCache
  import opened Devices
  import opened DeviceFacts
  import opened Drives
  import opened Commands
  import opened Chains
  import opened DriveFacts
  import opened Convergence
  import opened Fleets
  import opened Convergers
  import opened Exclusivity
  import opened Safety
  import opened Quarantine
  import Assignments
  import Handlers
  import KeyRotation
  import Repetition

  /** The mappings that the layers of a device have opened and not closed yet, as far as they know. */
  function OwnNames(d: Dev): set<string> {
    match d
    case XfsDev(_, _, _) => {}
    case LuksDev(_, _, mapped, name) =>
      (if name.Some? then {name.value} else {}) + if mapped.Some? then OwnNames(mapped.value) else {}
  }

  /** `b` has the mappings of `a`, apart from some of `names`. */
  ghost predicate ClosedSome(a: Kernel, b: Kernel, names: set<string>) {
    && (forall m :: m in b.slots ==> m in a.slots && b.slots[m] == a.slots[m])
    && (forall m :: m in a.slots && m !in names ==> m in b.slots)
  }

  // ---- what teardown closes ----

  lemma CloseUpCloses(os: Os, d: Dev)
    requires d.LuksDev? && d.mapped.None?
    ensures var (d', os', ok) := CloseUp(os, d);
      && d'.LuksDev? && d'.mapped.None? && d'.path == d.path && ClosedSome(os.k, os'.k, OwnNames(d))
      && (ok ==> OwnNames(d') == {} && OwnNames(d) !! os'.k.slots.Keys)
      && (!ok ==> d' == d && os'.k == os.k)
  {
  }

  /** Whatever fails: a mapping that is no longer recorded is closed, nobody else's mapping is touched, one that could
    not be closed stays recorded, and after a success none is left of those recorded at any depth. */
  lemma {:induction false} TeardownCloses(os: Os, d: Dev)
    ensures var (d', os', ok) := Teardown(os, d);
      && ClosedSome(os.k, os'.k, OwnNames(d)) && OwnNames(d') <= OwnNames(d)
      && OwnNames(d) - OwnNames(d') !! os'.k.slots.Keys
      && (ok ==> OwnNames(d') == {})
    decreases d
  {
    hide UnmountBoth, CloseUp;
    match d
    case XfsDev(path, _, _) =>
      UnmountBothRemounts(os, path, None);
    case LuksDev(_, _, mapped, _) =>
      if mapped.None? {
        CloseUpCloses(os, d);
      } else {
        TeardownCloses(os, mapped.value);
        var (m, os1, ok) := Teardown(os, mapped.value);
        if ok {
          CloseUpCloses(os1, d.(mapped := None));
        }
      }
  }

  /** Its path is only forgotten once the caches list no mount of the leaf. */
  lemma {:induction false} TeardownRemembers(os: Os, d: Dev)
    requires Sound(os)
    ensures var (d', os', ok) := Teardown(os, d);
      Leaf(d).Some? && !Unmounted(os', Leaf(d).value) ==> !ok && MountedPath(d') == MountedPath(d)
    decreases d
  {
    TeardownEffect(os, d);
    hide UnmountBoth, CloseUp, Unmounted, Sound, OnlyMoves;
    match d
    case XfsDev(path, _, _) =>
    case LuksDev(_, _, mapped, _) =>
      if mapped.Some? {
        TeardownRemembers(os, mapped.value);
        TeardownEffect(os, mapped.value);
        var (m, os1, ok) := Teardown(os, mapped.value);
        if ok && Leaf(d).Some? {
          CloseUpTables(os1, d.(mapped := None));
          SameUnmounted(os1, CloseUp(os1, d.(mapped := None)).1, Leaf(d).value);
        }
      }
  }

  lemma SameUnmounted(a: Os, b: Os, dev: DevPath)
    requires a.host == b.host && a.local == b.local
    ensures Unmounted(a, dev) == Unmounted(b, dev)
  {
  }

  // ---- when teardown succeeds ----

  /** Closing a container never meets an outside failure. */
  ghost predicate ClosesWork(fate: (nat, Cmd) -> bool) {
    forall n: nat, c: Cmd :: c.LuksClose? ==> fate(n, c)
  }

  /** No layer has opened its container around one that somebody else keeps open. */
  predicate Closable(d: Dev) {
    d.LuksDev? && d.mapped.Some? ==>
      && Closable(d.mapped.value)
      && (d.mappingName.Some? ==> d.mapped.value.XfsDev? || d.mapped.value.mapped.None?)
  }

  lemma UnnamedLayer(k: Kernel, d: Dev, at: Loc, driveId: string)
    requires d.LuksDev? && ChainOk(k, d, at, driveId) && !SlotAt(k, Deeper(at))
    ensures d.mapped.None? && d.mappingName.None?
  {
  }

  /** An idle mapping can be closed, one with another mapping on top cannot. */
  lemma RunCloses(os: Os, name: string)
    requires ClosesWork(os.fate) && name in os.k.slots
    ensures Run(os, LuksClose(name)).1 <==> !Busy(os.k, name)
  {
    hide Busy;
  }

  lemma CloseUpWorks(os: Os, d: Dev, at: Loc, driveId: string)
    requires ClosesWork(os.fate) && WfK(os.k) && Cleared(os.k, at.disk)
    requires d.LuksDev? && d.mapped.None? && ChainOk(os.k, d, at, driveId)
    ensures CloseUp(os, d).2 <==> d.mappingName.Some? ==> !SlotAt(os.k, Deeper(Deeper(at)))
  {
    if d.mappingName.Some? {
      RunCloses(os, driveId);
      BusyWhenStacked(os.k, driveId, Deeper(at));
    }
    hide ChainOk, WfK, Cleared, SlotAt, Busy, Run;
  }

  lemma BusyWhenStacked(k: Kernel, name: string, at: Loc)
    requires WfK(k) && Cleared(k, at.disk) && name in k.slots && k.slots[name].at == at
    ensures Busy(k, name) <==> SlotAt(k, Deeper(at))
  {
    WfSlots(k);
    hide WfK;
    assert On(k, Mapper(name), at.disk);
    if SlotAt(k, Deeper(at)) {
      var x :| x in k.slots && k.slots[x].at == Deeper(at);
      assert SlotOk(k, k.slots[x]);
      BackingIs(k, k.slots[x].backing, name, at);
    }
    if Busy(k, name) {
      assert forall m :: m in k.host || m in k.local ==> IsEntry(k, m);
      var x :| x in k.slots && k.slots[x].backing == Mapper(name);
      assert SlotOk(k, k.slots[x]);
    }
  }

  lemma BackingIs(k: Kernel, dev: DevPath, name: string, at: Loc)
    requires SlotsOk(k) && LocOf(k, dev) == Some(at) && name in k.slots && k.slots[name].at == at
    ensures dev == Mapper(name)
  {
    assert SlotOk(k, k.slots[name]);
  }

  lemma {:induction false} NamesAre(k: Kernel, d: Dev, at: Loc, driveId: string)
    requires ChainOk(k, d, at, driveId)
    ensures OwnNames(d) <= {driveId}
    decreases d
  {
    if d.LuksDev? && d.mapped.Some? {
      NamesAre(k, d.mapped.value, Deeper(at), driveId);
    }
  }

  /** The container inside one that was opened here stays open if somebody else opened it. */
  lemma InnerStays(os: Os, d: Dev, at: Loc, driveId: string)
    requires WfK(os.k) && ChainOk(os.k, d, at, driveId) && Explored(os.k, d, at)
    requires d.LuksDev? && d.mapped.Some? && d.mappingName.Some?
    ensures var inner := d.mapped.value;
      SlotAt(Teardown(os, inner).1.k, Deeper(Deeper(at))) <==> inner.LuksDev? && inner.mapped.Some?
  {
    var inner := d.mapped.value;
    var k, k' := os.k, Teardown(os, inner).1.k;
    WfSlots(k);
    TeardownCloses(os, inner);
    NamesAre(k, inner, Deeper(at), driveId);
    InsideOpen(k, d.path, inner.path, at);
    hide Teardown, WfK, OwnNames, ContentOf;
    if inner.XfsDev? {
      assert Below(Deeper(Deeper(at))) == Deeper(at);
      forall x | x in k.slots ensures k.slots[x].at != Deeper(Deeper(at)) {
        assert SlotOk(k, k.slots[x]);
      }
    } else if inner.mapped.Some? {
      var x := inner.mapped.value.path.name;
      assert k.slots[driveId].at == Deeper(at) && k.slots[x].at == Deeper(Deeper(at));
      assert x in k'.slots;
    }
  }

  lemma InnerClears(os: Os, d: Dev, disk: string)
    requires Sound(os) && Reliable(os.fate) && Accounted(os.k, d, disk)
    ensures var os' := Teardown(os, d).1; Sound(os') && Cleared(os'.k, disk)
  {
    TeardownEffect(os, d);
    TeardownUnmounts(os, d);
    TeardownCloses(os, d);
    hide Teardown, Sound, Accounted, Unmounted, Moved, Reliable, OwnNames;
    var os' := Teardown(os, d).1;
    SoundAgrees(os');
    ClearedAfter(os, os', d, disk);
  }

  /** Exactly when teardown succeeds, if nothing fails for outside reasons: unless somebody else keeps a container
    open inside one that was opened here. */
  lemma {:induction false} TeardownSucceeds(os: Os, d: Dev, at: Loc, driveId: string)
    requires Sound(os) && WfK(os.k) && LuksOk(os) && Reliable(os.fate) && ClosesWork(os.fate)
    requires ChainOk(os.k, d, at, driveId) && Explored(os.k, d, at) && Accounted(os.k, d, at.disk)
    ensures Teardown(os, d).2 <==> Closable(d)
    decreases d
  {
    hide Sound, WfK, LuksOk, UnmountBoth, CloseUp, Reliable, ClosesWork, ContentOf, SlotAt, Opens;
    match d
    case XfsDev(path, _, _) =>
      UnmountBothWorks(os, path, None);
    case LuksDev(_, _, mapped, _) =>
      if mapped.None? {
        UnnamedLayer(os.k, d, at, driveId);
        CloseUpNothing(os, d);
      } else {
        AccountedInside(os.k, d, at.disk);
        TeardownSucceeds(os, mapped.value, Deeper(at), driveId);
        if Teardown(os, mapped.value).2 {
          OuterSucceeds(os, d, at, driveId);
        }
      }
  }

  lemma CloseUpNothing(os: Os, d: Dev)
    requires d.LuksDev? && d.mappingName.None?
    ensures CloseUp(os, d) == (d, os, true)
  {
  }

  lemma AccountedInside(k: Kernel, d: Dev, disk: string)
    requires d.LuksDev? && d.mapped.Some? && Accounted(k, d, disk)
    ensures Accounted(k, d.mapped.value, disk)
  {
    hide On, IsEntry;
  }

  /** The outer layer, once the inner ones are torn down. */
  lemma OuterSucceeds(os: Os, d: Dev, at: Loc, driveId: string)
    requires Sound(os) && WfK(os.k) && LuksOk(os) && Reliable(os.fate) && ClosesWork(os.fate)
    requires ChainOk(os.k, d, at, driveId) && Explored(os.k, d, at) && Accounted(os.k, d, at.disk)
    requires d.LuksDev? && d.mapped.Some? && Teardown(os, d.mapped.value).2
    ensures CloseUp(Teardown(os, d.mapped.value).1, d.(mapped := None)).2
      <==> d.mappingName.Some? ==> d.mapped.value.XfsDev? || d.mapped.value.mapped.None?
  {
    var inner := d.mapped.value;
    TeardownChain(os, inner, Deeper(at), driveId);
    TeardownCloses(os, inner);
    TeardownPath(os, inner);
    AccountedInside(os.k, d, at.disk);
    InnerClears(os, inner, at.disk);
    var (m, os1, _) := Teardown(os, inner);
    WfSlots(os.k);
    WfSlots(os1.k);
    OuterRemains(os.k, os1.k, d, m, at, driveId);
    if d.mappingName.Some? {
      InnerStays(os, d, at, driveId);
    } else {
      CloseUpNothing(os1, d.(mapped := None));
    }
    hide Teardown, Sound, WfK, LuksOk, CloseUp, Reliable, ClosesWork, ChainOk, Explored, Accounted, OwnNames, Cleared, SlotAt, SlotsOk;
    CloseUpWorks(os1, d.(mapped := None), at, driveId);
  }

  // ---- what setup opens ----

  /** Mappings that have appeared, or were recorded, are recorded by `d`. */
  ghost predicate Records(a: Kernel, b: Kernel, was: set<string>, d: Dev) {
    forall m :: m in b.slots && (m !in a.slots || m in was) ==> m in OwnNames(d)
  }

  lemma {:induction false} ValidateNames(os: Os, d: Dev)
    ensures OwnNames(Validate(os, d).0) == OwnNames(d)
    decreases Rank(os.k, d)
  {
    hide ValidateXfs, Rank, Unmounted;
    if d.LuksDev? {
      DiscoverNames(os, d);
      hide Discover;
      var (d1, os1, ok) := Discover(os, d);
      if !(!ok || d1.mapped.None? || Rank(os1.k, d1.mapped.value) >= Rank(os.k, d)) {
        ValidateNames(os1, d1.mapped.value);
      }
    }
  }

  lemma DiscoverNames(os: Os, d: Dev)
    requires d.LuksDev?
    ensures OwnNames(Discover(os, d).0) == OwnNames(d)
  {
    hide ClassifyDevice, Unmounted;
  }

  lemma FormatNames(os: Os, d: Dev, cmd: Cmd)
    requires !cmd.LuksOpen? && !cmd.LuksClose?
    ensures var (d', os', _) := FormatFirst(os, d, cmd); OwnNames(d') == OwnNames(d) && os'.k.slots == os.k.slots
  {
  }

  lemma OpenIntoNames(os: Os, d: Dev, order: Order)
    requires d.LuksDev? && d.mapped.None? && OwnNames(d) <= {order.driveId}
    ensures var (d', os', _) := OpenInto(os, d, order);
      OwnNames(d) <= OwnNames(d') <= {order.driveId} && Records(os.k, os'.k, OwnNames(d), d')
  {
    KeyRotation.OpenOnlyByKey(os, d.path, order.driveId, order.keys);
    hide OpenContainer, ContentAt, SlotAt;
    var (os1, ok) := OpenContainer(os, d.path, order.driveId, order.keys);
    BrokenlessDevice(os1, Mapper(order.driveId));
    hide NewDevice;
  }

  lemma BrokenlessDevice(os: Os, path: DevPath)
    ensures var (m, os') := NewDevice(os, path, false); os'.k == os.k && (m.Some? ==> OwnNames(m.value) == {})
  {
    hide ContentAt;
  }

  lemma OpenUpNames(os: Os, d: Dev, order: Order)
    requires d.LuksDev? && OwnNames(d) <= {order.driveId}
    ensures var (d', os', _) := OpenUp(os, d, order);
      OwnNames(d) <= OwnNames(d') <= {order.driveId} && Records(os.k, os'.k, OwnNames(d), d')
  {
    if order.keys != [] {
      FormatNames(os, d, LuksFormat(d.path, order.keys[0]));
      var (d1, os1, ok) := FormatFirst(os, d, LuksFormat(d.path, order.keys[0]));
      hide FormatFirst;
      if ok && d1.mapped.None? {
        OpenIntoNames(os1, d1, order);
      }
    }
    hide OpenInto;
  }

  lemma SetupXfsNames(os: Os, d: Dev, order: Order)
    requires d.XfsDev?
    ensures var (d', os', _) := SetupXfs(os, d, order); OwnNames(d') == {} && os'.k.slots == os.k.slots
  {
    FormatNames(os, d, Mkfs(d.path));
    var (d1, os1, ok) := FormatFirst(os, d, Mkfs(d.path));
    hide FormatFirst;
    MoveToRemounts(os1, d1, Target(d1.mountPath, order));
    hide MoveTo;
  }

  /** Whatever fails: each mapping that `Setup` opens is recorded, and none is forgotten. */
  lemma {:induction false} SetupRecords(os: Os, d: Dev, order: Order)
    requires OwnNames(d) <= {order.driveId}
    ensures var (d', os', _) := Setup(os, d, order);
      OwnNames(d) <= OwnNames(d') <= {order.driveId} && Records(os.k, os'.k, OwnNames(d), d')
    decreases Rank(os.k, d)
  {
    ValidateNames(os, d);
    var (d1, os1, ok) := Validate(os, d);
    hide Validate, OpenUp, SetupXfs, Rank;
    if ok {
      if d1.XfsDev? {
        SetupXfsNames(os1, d1, order);
      } else {
        OpenUpNames(os1, d1, order);
        var (d2, os2, ok2) := OpenUp(os1, d1, order);
        if !(!ok2 || d2.mapped.None? || Rank(os2.k, d2.mapped.value) >= Rank(os.k, d)) {
          SetupRecords(os2, d2.mapped.value, order);
          InnerRecords(os1.k, os2.k, Setup(os2, d2.mapped.value, order).1.k, d1, d2, Setup(os2, d2.mapped.value, order).0);
        }
      }
    }
  }

  lemma InnerRecords(a: Kernel, b: Kernel, c: Kernel, d1: Dev, d2: Dev, m: Dev)
    requires d2.LuksDev? && d2.mapped.Some? && Records(a, b, OwnNames(d1), d2)
    requires OwnNames(d2.mapped.value) <= OwnNames(m) && Records(b, c, OwnNames(d2.mapped.value), m)
    ensures OwnNames(d2) <= OwnNames(d2.(mapped := Some(m))) && Records(a, c, OwnNames(d1), d2.(mapped := Some(m)))
  {
  }

  /** Whatever fails: a drive that has converged records every mapping that it has opened and not closed. */
  lemma ConvergeRecords(os: Os, d: Drive)
    requires d.device.Some? && OwnNames(d.device.value) <= {d.driveId}
    ensures var (d', os') := ConvergeDrive(os, d);
      && d'.device.Some? && OwnNames(d'.device.value) <= {d.driveId} && d'.driveId == d.driveId
      && Records(os.k, os'.k, OwnNames(d.device.value), d'.device.value)
  {
    var dev := d.device.value;
    if d.broken {
      TeardownCloses(os, dev);
    } else {
      SetupRecords(os, dev, OrderOf(d));
      var (dev1, os1, ok) := Setup(os, dev, OrderOf(d));
      var (d2, os2) := MarkAsBroken(os1, d.(device := Some(dev1)));
      TeardownCloses(os2, dev1);
    }
    hide Setup, Teardown, OwnNames;
  }

  /** With nothing failing for outside reasons, a drive that is broken after converging has closed all it opened, unless
    somebody else keeps a container open inside. */
  lemma BrokenCloses(os: Os, d: Drive)
    requires Global(os) && Member(os, d) && d.broken && Explored(os.k, d.device.value, Loc(DiskOf(d), 0)) && ClosesWork(os.fate)
    ensures var (d', os') := ConvergeDrive(os, d);
      && (OwnNames(d'.device.value) == {} <==> Closable(d.device.value) || OwnNames(d.device.value) == {})
      && (Closable(d.device.value) ==> OwnNames(d.device.value) !! os'.k.slots.Keys)
  {
    var dev, at := d.device.value, Loc(DiskOf(d), 0);
    TeardownSucceeds(os, dev, at, d.driveId);
    TeardownCloses(os, dev);
    if !Teardown(os, dev).2 {
      FailureRemembered(os, dev, at, d.driveId);
    }
    hide Teardown, OwnNames, Sound, WfK, LuksOk, Labelled, CrossOwned, ChainOk, Explored, Accounted, Closable;
  }

  lemma FailureRemembered(os: Os, d: Dev, at: Loc, driveId: string)
    requires Sound(os) && Reliable(os.fate) && !Teardown(os, d).2
    ensures OwnNames(Teardown(os, d).0) != {} || OwnNames(d) == {}
  {
  }

  // ---- steps ----

  lemma MemberKnown(os: Os, d: Drive)
    requires Global(os) && Member(os, d)
    ensures Sound(os) && WfK(os.k) && LuksOk(os) && Reliable(os.fate) && d.device.Some?
    ensures ChainOk(os.k, d.device.value, Loc(DiskOf(d), 0), d.driveId) && Accounted(os.k, d.device.value, DiskOf(d))
    ensures OwnNames(d.device.value) <= {d.driveId}
  {
    NamesAre(os.k, d.device.value, Loc(DiskOf(d), 0), d.driveId);
  }

  lemma OnlyAtPath(os: Os, drives: seq<Drive>, d: Drive)
    requires Members(os, drives) && d in drives
    ensures LastAt(drives, d.path) == Some(d) && Member(os, d)
  {
    Handlers.LastAtMember(drives, d.path);
    hide LastAt, Member;
    var e := LastAt(drives, d.path).value;
    var i :| 0 <= i < |drives| && drives[i] == d;
    var j :| 0 <= j < |drives| && drives[j] == e;
  }

  /** A removed drive is torn down: nothing of its disk stays mounted, and the container that it opened is closed, unless
    somebody else keeps another one open inside. All other mappings stay. */
  lemma RemovedCloses(os: Os, drives: seq<Drive>, d: Drive, cfg: Config)
    requires Global(os) && Members(os, drives) && d in drives && ClosesWork(os.fate)
    requires d.device.Some? && Explored(os.k, d.device.value, Loc(DiskOf(d), 0))
    ensures var r := Handle(os, drives, Removed(d.path), cfg);
      && r.Some? && ClosedSome(os.k, r.value.0.k, OwnNames(d.device.value)) && Cleared(r.value.0.k, DiskOf(d))
      && (Closable(d.device.value) ==> OwnNames(d.device.value) !! r.value.0.k.slots.Keys)
  {
    var dev := d.device.value;
    OnlyAtPath(os, drives, d);
    MemberKnown(os, d);
    TeardownSucceeds(os, dev, Loc(DiskOf(d), 0), d.driveId);
    TeardownCloses(os, dev);
    InnerClears(os, dev, DiskOf(d));
    hide Teardown, Global, Members, Member, OwnNames, Closable, Cleared, ClosedSome, LastAt, ChainOk, Explored, Accounted;
  }

  /** Each open mapping was there from the start, or is recorded by a drive. */
  ghost predicate Recorded(start: set<string>, s: State) {
    forall m :: m in s.os.k.slots && m !in start ==> exists d :: d in s.drives && d.device.Some? && m in OwnNames(d.device.value)
  }

  ghost predicate NamedAfter(drives: seq<Drive>) {
    forall d :: d in drives && d.device.Some? ==> OwnNames(d.device.value) <= {d.driveId}
  }

  /** The drive at this path has nothing open that it opened. */
  ghost predicate NothingOwn(drives: seq<Drive>, path: DevPath, k: Kernel) {
    forall d :: d in drives && d.path == path && d.device.Some? ==> OwnNames(d.device.value) !! k.slots.Keys
  }

  /** Over every step: no mapping that the process has opened is forgotten, except with a drive that is removed, or given
    a new object, while its container stays open. */
  lemma StepRecords(start: set<string>, s: State, cfg: Config)
    requires Recorded(start, s) && NamedAfter(s.drives) && Step(s, cfg).Some?
    requires Upcoming(s).Some? && Upcoming(s).value.Removed? ==> NothingOwn(s.drives, Upcoming(s).value.path, Step(s, cfg).value.os.k)
    requires Upcoming(s).Some? && Upcoming(s).value.Reinstated? ==> NothingOwn(s.drives, Upcoming(s).value.path, s.os.k)
    ensures Recorded(start, Step(s, cfg).value)
  {
    hide Handle, ConvergeDrive, Assignments.UpdateAssignments, OwnNames;
    match s.phase
    case Handling(events) =>
      if events != [] {
        HandleRecords(start, s, events[0], cfg);
      }
    case First(i) =>
      if i < |s.drives| {
        LoopRecords(start, s, i);
      }
    case Second(i) =>
      if i < |s.drives| && !s.drives[i].broken {
        LoopRecords(start, s, i);
      }
    case Assigning =>
      RoundRecords(start, s, cfg);
    case Idle =>
  }

  lemma ReplacedRecorded(start: set<string>, s: State, i: nat, d: Drive, os: Os, was: set<string>)
    requires Recorded(start, s) && i < |s.drives| && d.device.Some?
    requires Records(s.os.k, os.k, was, d.device.value)
    requires forall m :: s.drives[i].device.Some? && m in OwnNames(s.drives[i].device.value) && m in os.k.slots && m in s.os.k.slots ==> m in was
    ensures forall m :: m in os.k.slots && m !in start ==> exists e :: e in s.drives[i := d] && e.device.Some? && m in OwnNames(e.device.value)
  {
    hide OwnNames;
    var after := s.drives[i := d];
    assert after[i] in after;
    forall m | m in os.k.slots && m !in start ensures exists e :: e in after && e.device.Some? && m in OwnNames(e.device.value) {
      if m !in OwnNames(d.device.value) {
        var e :| e in s.drives && e.device.Some? && m in OwnNames(e.device.value);
        var j :| 0 <= j < |s.drives| && s.drives[j] == e;
        assert after[j] in after;
      }
    }
  }

  lemma LoopRecords(start: set<string>, s: State, i: nat)
    requires Recorded(start, s) && NamedAfter(s.drives) && i < |s.drives| && s.drives[i].device.Some?
    ensures var (d, os) := ConvergeDrive(s.os, s.drives[i]);
      forall m :: m in os.k.slots && m !in start ==> exists e :: e in s.drives[i := d] && e.device.Some? && m in OwnNames(e.device.value)
  {
    assert s.drives[i] in s.drives;
    ConvergeRecords(s.os, s.drives[i]);
    hide ConvergeDrive, OwnNames, Records, Recorded;
    var (d, os) := ConvergeDrive(s.os, s.drives[i]);
    ReplacedRecorded(start, s, i, d, os, OwnNames(s.drives[i].device.value));
  }

  lemma RoundRecords(start: set<string>, s: State, cfg: Config)
    requires Recorded(start, s)
    ensures var (drives, os) := Assignments.UpdateAssignments(s.os, s.drives, cfg.pool);
      forall m :: m in os.k.slots && m !in start ==> exists e :: e in drives && e.device.Some? && m in OwnNames(e.device.value)
  {
    Repetition.UpdateCaches(s.os, s.drives, cfg.pool);
    UpdateRan(s.os, s.drives, cfg.pool);
    hide Assignments.UpdateAssignments, OwnNames, Ran;
    var (drives, os) := Assignments.UpdateAssignments(s.os, s.drives, cfg.pool);
    Repetition.AssigningTables(s.os, os);
    forall m | m in os.k.slots && m !in start ensures exists e :: e in drives && e.device.Some? && m in OwnNames(e.device.value) {
      var e :| e in s.drives && e.device.Some? && m in OwnNames(e.device.value);
      var j :| 0 <= j < |s.drives| && s.drives[j] == e;
      assert drives[j] in drives;
    }
  }

  /** A new object records what it opens. */
  lemma NewcomerRecords(os: Os, path: DevPath, driveId: string, keys: seq<string>)
    ensures var (d, os1) := NewDrive(os, path, driveId, keys);
      d.device.Some? ==>
        var (d', os2) := ConvergeDrive(os1, d);
        d'.device.Some? && Records(os.k, os2.k, {}, d'.device.value)
  {
    NewDriveNames(os, path, driveId, keys);
    hide NewDrive, ConvergeDrive, OwnNames;
    var (d, os1) := NewDrive(os, path, driveId, keys);
    if d.device.Some? {
      ConvergeRecords(os1, d);
    }
  }

  lemma NewDriveNames(os: Os, path: DevPath, driveId: string, keys: seq<string>)
    ensures var (d, os1) := NewDrive(os, path, driveId, keys);
      os1.k.slots == os.k.slots && (d.device.Some? ==> OwnNames(d.device.value) == {})
  {
    hide ContentAt;
  }

  lemma HandleRecords(start: set<string>, s: State, e: Event, cfg: Config)
    requires Recorded(start, s) && NamedAfter(s.drives) && Handle(s.os, s.drives, e, cfg).Some?
    requires e.Removed? ==> NothingOwn(s.drives, e.path, Handle(s.os, s.drives, e, cfg).value.0.k)
    requires e.Reinstated? ==> NothingOwn(s.drives, e.path, s.os.k)
    ensures var (os, drives) := Handle(s.os, s.drives, e, cfg).value;
      forall m :: m in os.k.slots && m !in start ==> exists d :: d in drives && d.device.Some? && m in OwnNames(d.device.value)
  {
    hide NewDrive, ConvergeDrive, TeardownDrive, MarkAsBroken, OwnNames;
    match e
    case Added(path, driveId) =>
      NewcomerRecords(s.os, path, driveId, cfg.keys);
      var (d, os1) := NewDrive(s.os, path, driveId, cfg.keys);
      var (d', os2) := ConvergeDrive(os1, d);
      JoinedRecorded(start, s, d', os2);
    case Removed(path) =>
      RemovedRecorded(start, s, path, cfg);
    case Errored(path) =>
      var i := IndexOf(s.drives, path);
      if i < |s.drives| {
        MarkNames(s.os, s.drives[i]);
        MarkedRecorded(start, s, i, MarkAsBroken(s.os, s.drives[i]).0, MarkAsBroken(s.os, s.drives[i]).1);
      }
    case Reinstated(path) =>
      var i := IndexOf(s.drives, path);
      if i < |s.drives| {
        assert s.drives[i] in s.drives;
        NewcomerRecords(s.os, path, s.drives[i].driveId, s.drives[i].keys);
        var (d, os1) := NewDrive(s.os, path, s.drives[i].driveId, s.drives[i].keys);
        var (d', os2) := ConvergeDrive(os1, d);
        ReplacedRecorded(start, s, i, d', os2, {});
      }
    case Wakeup =>
  }

  lemma MarkNames(os: Os, d: Drive)
    ensures var (d', os') := MarkAsBroken(os, d); d'.device == d.device && os'.k.slots == os.k.slots
  {
  }

  lemma MarkedRecorded(start: set<string>, s: State, i: nat, d: Drive, os: Os)
    requires Recorded(start, s) && i < |s.drives| && d.device == s.drives[i].device && os.k.slots == s.os.k.slots
    ensures forall m :: m in os.k.slots && m !in start ==> exists e :: e in s.drives[i := d] && e.device.Some? && m in OwnNames(e.device.value)
  {
    hide OwnNames;
    var after := s.drives[i := d];
    forall m | m in os.k.slots && m !in start ensures exists e :: e in after && e.device.Some? && m in OwnNames(e.device.value) {
      var e :| e in s.drives && e.device.Some? && m in OwnNames(e.device.value);
      var j :| 0 <= j < |s.drives| && s.drives[j] == e;
      assert after[j] in after;
    }
  }

  lemma JoinedRecorded(start: set<string>, s: State, d: Drive, os: Os)
    requires Recorded(start, s) && d.device.Some? && Records(s.os.k, os.k, {}, d.device.value)
    ensures forall m :: m in os.k.slots && m !in start ==> exists e :: e in s.drives + [d] && e.device.Some? && m in OwnNames(e.device.value)
  {
    hide OwnNames;
    var after := s.drives + [d];
    assert d in after && forall e :: e in s.drives ==> e in after;
    forall m | m in os.k.slots && m !in start ensures exists e :: e in after && e.device.Some? && m in OwnNames(e.device.value) {
      if m !in OwnNames(d.device.value) {
        var e :| e in s.drives && e.device.Some? && m in OwnNames(e.device.value);
        assert e in after;
      }
    }
  }

  lemma RemovedRecorded(start: set<string>, s: State, path: DevPath, cfg: Config)
    requires Recorded(start, s) && Handle(s.os, s.drives, Removed(path), cfg).Some?
    requires NothingOwn(s.drives, path, Handle(s.os, s.drives, Removed(path), cfg).value.0.k)
    ensures var (os, drives) := Handle(s.os, s.drives, Removed(path), cfg).value;
      forall m :: m in os.k.slots && m !in start ==> exists d :: d in drives && d.device.Some? && m in OwnNames(d.device.value)
  {
    var (os, drives) := Handle(s.os, s.drives, Removed(path), cfg).value;
    WithoutExact(s.drives, path);
    var d := LastAt(s.drives, path);
    if d.Some? && d.value.device.Some? {
      TeardownCloses(s.os, d.value.device.value);
    }
    Handlers.LastAtMember(s.drives, path);
    hide Teardown, OwnNames, Without, LastAt;
    forall m | m in os.k.slots && m !in start ensures exists e :: e in drives && e.device.Some? && m in OwnNames(e.device.value) {
      var e :| e in s.drives && e.device.Some? && m in OwnNames(e.device.value);
      assert e.path != path;
    }
  }
}
