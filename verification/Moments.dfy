/** Between any two commands: what holds in the kernel at every moment, not only when a step of the converger
  is complete. This is what a process finds that starts after a crash. */
module Moments {
  import opened Names
  import opened Tables
  import opened Kernels
  import opened KernelFacts
  import opened Machine
  import opened MountCache
  import opened Devices
  import opened DeviceFacts
  import opened Drives
  import opened Commands
  import opened Chains
  import opened DriveFacts
  import opened Convergence
  import opened Fleets
  import opened Origins

  /** `P` holds before the commands `es`, after each of them, and so at every moment in between. */
  ghost predicate Throughout(k: Kernel, es: seq<Entry>, P: Kernel -> bool)
    decreases |es|
  {
    P(k) && (es == [] || (Legal(k, es[0]) && Throughout(After(k, es[0]), es[1..], P)))
  }

  ghost predicate Always(a: Os, b: Os, P: Kernel -> bool) {
    a.log <= b.log && Throughout(a.k, Since(a, b), P)
  }

  /** The kernel after the first `j` of the commands `es`. */
  ghost function KernelAt(k: Kernel, es: seq<Entry>, k': Kernel, j: nat): Kernel
    requires Trace(k, es, k') && j <= |es|
    decreases |es|
  {
    if j == 0 then k else KernelAt(After(k, es[0]), es[1..], k', j - 1)
  }

  lemma {:induction false} AtEveryMoment(k: Kernel, es: seq<Entry>, k': Kernel, j: nat, P: Kernel -> bool)
    requires Trace(k, es, k') && j <= |es| && Throughout(k, es, P)
    ensures P(KernelAt(k, es, k', j))
    decreases |es|
  {
    hide Legal, After;
    if j > 0 {
      AtEveryMoment(After(k, es[0]), es[1..], k', j - 1, P);
    }
  }

  lemma {:induction false} ThroughoutConcat(k: Kernel, es: seq<Entry>, k': Kernel, fs: seq<Entry>, P: Kernel -> bool)
    requires Trace(k, es, k') && Throughout(k, es, P) && Throughout(k', fs, P)
    ensures Throughout(k, es + fs, P)
    decreases |es|
  {
    hide Legal, After;
    if es == [] {
      assert es + fs == fs;
    } else {
      assert (es + fs)[1..] == es[1..] + fs;
      ThroughoutConcat(After(k, es[0]), es[1..], k', fs, P);
    }
  }

  lemma {:induction false} ThroughoutEnds(k: Kernel, es: seq<Entry>, k': Kernel, P: Kernel -> bool)
    requires Trace(k, es, k') && Throughout(k, es, P)
    ensures P(k')
    decreases |es|
  {
    hide Legal, After;
    if es != [] {
      ThroughoutEnds(After(k, es[0]), es[1..], k', P);
    }
  }

  lemma AlwaysTransitive(a: Os, b: Os, c: Os, P: Kernel -> bool)
    requires Steps(a, b) && Steps(b, c) && Always(a, b, P) && Always(b, c, P)
    ensures Always(a, c, P)
  {
    hide Throughout, Trace;
    StepsTransitive(a, b, c);
    assert Throughout(a.k, Since(a, b) + Since(b, c), P) by { ThroughoutConcat(a.k, Since(a, b), b.k, Since(b, c), P); }
  }

  lemma AlwaysNothing(a: Os, b: Os, P: Kernel -> bool)
    requires b == a.(host := b.host, local := b.local, luks := b.luks) && P(a.k)
    ensures Always(a, b, P)
  {
    assert Since(a, b) == [];
  }

  // ---- what must always hold ----

  /** The kernel is well formed, no path is shared by two devices, and what is mounted at `/srv/node/<id>`
    carries that id. */
  ghost predicate Orderly(k: Kernel) {
    WfK(k) && CrossOwned(k) && Labelled(k)
  }

  /** Commands that take mounts and mappings away, or only look. */
  predicate Harmless(c: Cmd) {
    c.Umount? || c.LuksClose? || c.Classify? || c.ReadId? || c.ReadFlag? || c.SetFlag?
  }

  lemma EntriesLost(k: Kernel, k': Kernel)
    requires k'.disks == k.disks && CrossOwned(k) && Labelled(k)
    requires forall m :: IsEntry(k', m) ==> IsEntry(k, m)
    requires forall x :: x in k'.slots ==> x in k.slots && k'.slots[x] == k.slots[x]
    ensures CrossOwned(k') && Labelled(k')
  {
    assert CrossOwned(k');
    hide CrossOwned, Peel;
    forall m, n | From(k', m, n) && m.path.SrvNode? ensures m.path.id != "" && Branded(k', n, m.path.id) {
      assert From(k, m, n);
      var depth: nat :| HoldsId(k, Loc(n, depth), m.path.id);
      assert HoldsId(k', Loc(n, depth), m.path.id);
    }
  }

  lemma HarmlessEffect(k: Kernel, e: Entry)
    requires Legal(k, e) && Harmless(e.cmd)
    ensures var k' := After(k, e);
      && k'.disks == k.disks
      && (forall m :: IsEntry(k', m) ==> IsEntry(k, m))
      && (forall x :: x in k'.slots ==> x in k.slots && k'.slots[x] == k.slots[x])
  {
    if e.ok && e.cmd.Umount? {
      RemoveLastSubset(k.host, e.cmd.path);
      RemoveLastSubset(k.local, e.cmd.path);
    }
  }

  lemma {:induction false} HarmlessThroughout(k: Kernel, es: seq<Entry>, k': Kernel)
    requires Trace(k, es, k') && Orderly(k) && forall e :: e in es ==> Harmless(e.cmd)
    ensures Throughout(k, es, Orderly) && Orderly(k')
    decreases |es|
  {
    hide Legal, After, WfK, CrossOwned, Labelled;
    if es != [] {
      assert es[0] in es;
      assert forall e :: e in es[1..] ==> e in es;
      EffectWf(k, es[0]);
      HarmlessEffect(k, es[0]);
      EntriesLost(k, After(k, es[0]));
      HarmlessThroughout(After(k, es[0]), es[1..], k');
    }
  }

  lemma HarmlessAlways(a: Os, b: Os, p: Cmd -> bool)
    requires Ran(a, b, p) && (forall c :: p(c) ==> Harmless(c)) && Orderly(a.k)
    ensures Always(a, b, Orderly) && Orderly(b.k)
  {
    HarmlessThroughout(a.k, Since(a, b), b.k);
  }

  // ---- Setup ----

  /** What `Setup` issues when it is heading for this goal. */
  ghost function HeadingFor(goal: Option<(DevPath, Path)>): Cmd -> bool {
    c => Building(c) && (c.MountCmd? ==> goal == Some((c.dev, c.path)))
  }

  lemma PreparingHeads(os: Os, os': Os, goal: Option<(DevPath, Path)>)
    requires Ran(os, os', Preparing)
    ensures Ran(os, os', HeadingFor(goal))
  {
    RanWider(os, os', Preparing, HeadingFor(goal));
  }

  lemma MoveToHeads(os: Os, d: Dev, target: Path)
    requires d.XfsDev?
    ensures Ran(os, MoveTo(os, d, target).1, HeadingFor(Some((d.path, target))))
  {
    hide UnmountBoth, MountBoth, Ran;
    var p := HeadingFor(Some((d.path, target)));
    UnmountBothRan(os, d.path, Some(target), p);
    var (os1, ok) := UnmountBoth(os, d.path, Some(target));
    if ok {
      MountBothRan(os1, d.path, target, p);
      RanTransitive(os, os1, MountBoth(os1, d.path, target).0, p);
    }
  }

  lemma SetupXfsHeads(os: Os, d: Dev, order: Order)
    requires d.XfsDev?
    ensures Ran(os, SetupXfs(os, d, order).1, HeadingFor(Some((d.path, Target(d.mountPath, order)))))
  {
    hide FormatFirst, MoveTo, Ran, Target;
    var p := HeadingFor(Some((d.path, Target(d.mountPath, order))));
    FormatFirstRan(os, d, Mkfs(d.path));
    var (d1, os1, ok) := FormatFirst(os, d, Mkfs(d.path));
    PreparingHeads(os, os1, Some((d.path, Target(d.mountPath, order))));
    if ok {
      assert d1.mountPath == d.mountPath && d1.path == d.path;
      MoveToHeads(os1, d1, Target(d.mountPath, order));
      RanTransitive(os, os1, MoveTo(os1, d1, Target(d.mountPath, order)).1, p);
    }
  }

  /** `Setup` mounts nothing but its goal. */
  lemma {:induction false} SetupHeads(os: Os, d: Dev, order: Order)
    ensures Ran(os, Setup(os, d, order).1, HeadingFor(Goal(os, d, order)))
    decreases Rank(os.k, d)
  {
    hide Validate, SetupXfs, OpenUp, Ran, Target;
    var p := HeadingFor(Goal(os, d, order));
    ValidateRan(os, d);
    var (d1, os1, ok) := Validate(os, d);
    PreparingHeads(os, os1, Goal(os, d, order));
    if ok {
      if d1.XfsDev? {
        SetupXfsHeads(os1, d1, order);
        RanTransitive(os, os1, SetupXfs(os1, d1, order).1, p);
      } else {
        OpenUpRan(os1, d1, order);
        var (d2, os2, ok2) := OpenUp(os1, d1, order);
        PreparingHeads(os1, os2, Goal(os, d, order));
        RanTransitive(os, os1, os2, p);
        if !(!ok2 || d2.mapped.None? || Rank(os2.k, d2.mapped.value) >= Rank(os.k, d)) {
          assert Goal(os2, d2.mapped.value, order) == Goal(os, d, order);
          SetupHeads(os2, d2.mapped.value, order);
          RanTransitive(os, os2, Setup(os2, d2.mapped.value, order).1, p);
        }
      }
    }
  }

  /** `leaf` of `disk` may be mounted at `target`: nobody else is there, and the disk carries the id. */
  ghost predicate Aimed(k: Kernel, leaf: DevPath, target: Path, disk: string) {
    && (forall m :: IsEntry(k, m) && m.path == target ==> m.dev == leaf)
    && (target.SrvNode? ==> target.id != "" && Branded(k, disk, target.id))
  }

  ghost predicate AimedAt(k: Kernel, goal: Option<(DevPath, Path)>, disk: string) {
    goal.Some? ==> Aimed(k, goal.value.0, goal.value.1, disk)
  }

  /** The slots of `k` are among those of `kEnd`. */
  ghost predicate SlotsWithin(k: Kernel, kEnd: Kernel) {
    forall x :: x in k.slots ==> x in kEnd.slots && kEnd.slots[x] == k.slots[x]
  }

  lemma BuildingEntries(k: Kernel, e: Entry)
    requires Legal(k, e) && Building(e.cmd)
    ensures SlotsWithin(k, After(k, e))
    ensures forall m :: IsEntry(After(k, e), m) ==>
      IsEntry(k, m) || (e.cmd.MountCmd? && m.dev == e.cmd.dev && m.path == e.cmd.path)
  {
    if e.ok && e.cmd.Umount? {
      RemoveLastSubset(k.host, e.cmd.path);
      RemoveLastSubset(k.local, e.cmd.path);
    }
  }

  lemma BrandEffect(k: Kernel, e: Entry, n: string, id: string)
    requires Legal(k, e) && !e.cmd.WriteId? && Branded(k, n, id)
    ensures Branded(After(k, e), n, id)
  {
    hide HoldsId, After, Legal;
    var depth: nat :| HoldsId(k, Loc(n, depth), id);
    EffectIds(k, e, Loc(n, depth), id);
  }

  lemma HeadingOwned(k: Kernel, k': Kernel, goal: Option<(DevPath, Path)>, disk: string)
    requires CrossOwned(k) && AimedAt(k, goal, disk)
    requires forall m :: IsEntry(k', m) ==> IsEntry(k, m) || goal == Some((m.dev, m.path))
    ensures CrossOwned(k')
    ensures goal.Some? ==> forall m :: IsEntry(k', m) && m.path == goal.value.1 ==> m.dev == goal.value.0
  {
    hide IsEntry;
  }

  lemma SameLoc(k: Kernel, k': Kernel, m: Mount)
    requires MountsOk(k) && IsEntry(k, m) && SlotsWithin(k, k')
    ensures LocOf(k', m.dev) == LocOf(k, m.dev)
  {
  }

  lemma HeadingEffect(k: Kernel, e: Entry, kEnd: Kernel, goal: Option<(DevPath, Path)>, disk: string)
    requires Orderly(k) && Legal(k, e) && HeadingFor(goal)(e.cmd) && AimedAt(k, goal, disk)
    requires SlotsWithin(After(k, e), kEnd) && (goal.Some? ==> On(kEnd, goal.value.0, disk))
    ensures Orderly(After(k, e)) && AimedAt(After(k, e), goal, disk)
  {
    EffectWf(k, e);
    BuildingEntries(k, e);
    var k' := After(k, e);
    HeadingOwned(k, k', goal, disk);
    hide SlotsOk, CrossOwned, Legal, After, Branded, HeadingFor, ContentAt;
    forall m, n | From(k', m, n) && m.path.SrvNode? ensures m.path.id != "" && Branded(k', n, m.path.id) {
      if IsEntry(k, m) {
        SameLoc(k, k', m);
        assert From(k, m, n);
        BrandEffect(k, e, n, m.path.id);
      } else {
        assert goal == Some((m.dev, m.path)) && n == disk;
        BrandEffect(k, e, disk, m.path.id);
      }
    }
    if goal.Some? && goal.value.1.SrvNode? {
      BrandEffect(k, e, disk, goal.value.1.id);
    }
  }

  lemma {:induction false} HeadingThroughout(k: Kernel, es: seq<Entry>, kEnd: Kernel, goal: Option<(DevPath, Path)>, disk: string)
    requires Trace(k, es, kEnd) && Orderly(k) && AimedAt(k, goal, disk) && (goal.Some? ==> On(kEnd, goal.value.0, disk))
    requires forall e :: e in es ==> HeadingFor(goal)(e.cmd)
    ensures Throughout(k, es, Orderly) && Orderly(kEnd)
    decreases |es|
  {
    hide Legal, After, Orderly, AimedAt, On;
    if es != [] {
      assert es[0] in es;
      assert forall e :: e in es[1..] ==> e in es;
      assert forall e :: e in es[1..] ==> Building(e.cmd);
      BuildingSlots(After(k, es[0]), es[1..], kEnd);
      HeadingEffect(k, es[0], kEnd, goal, disk);
      HeadingThroughout(After(k, es[0]), es[1..], kEnd, goal, disk);
    }
  }

  lemma KernelFree(os: Os, leaf: DevPath, path: Path)
    requires Agree(os) && FreeFor(os.host, leaf, path) && FreeFor(os.local, leaf, path)
    ensures forall m :: IsEntry(os.k, m) && m.path == path ==> m.dev == leaf
  {
    OwnedByPairs(os.host, os.k.host);
    OwnedByPairs(os.local, os.k.local);
    forall m | IsEntry(os.k, m) && m.path == path ensures m.dev == leaf {
      assert MountedOn(os.host, m.dev, path) || MountedOn(os.local, m.dev, path);
    }
  }

  lemma GoalValidates(os: Os, d: Dev, order: Order)
    requires Goal(os, d, order).Some?
    ensures Validate(os, d).2
  {
    hide Validate, OpenUp;
  }

  /** Where a drive is heading is where it is, or where its own id says. */
  lemma GoalBranded(os: Os, os': Os, d: Drive, leaf: DevPath, path: Path)
    requires Global(os) && Candidate(os, d) && !d.broken && (Homed(d) || Entitled(os.k, d)) && path.SrvNode?
    requires Goal(os, d.device.value, OrderOf(d)) == Some((leaf, path))
    requires Confined(os.k, os'.k, DiskOf(d)) && On(os'.k, leaf, DiskOf(d))
    ensures path.id != "" && Branded(os.k, DiskOf(d), path.id)
  {
    var dev, order, disk := d.device.value, OrderOf(d), DiskOf(d);
    SoundAgrees(os);
    GoalIs(os, dev, order, Loc(disk, 0));
    GoalValidates(os, dev, order);
    WfMounts(os.k);
    hide Goal, ChainOk, LuksOk, Sound, CrossOwned, Fresh, Reliable, MountsOk, MountedOn, HasMount, Confined, Accounted, Agree, Labelled, Validate, Branded, WfK, Reserved;
    if order.want.None? {
      MountedWasOn(os, os'.k, leaf, disk, path);
      ListedFrom(os, leaf, disk, path);
      HadMount(os.k, disk, path);
    } else if !Entitled(os.k, d) {
      ValidateSees(os, dev);
      LeafOn(os.k, dev, Loc(disk, 0), d.driveId);
      ListedFrom(os, Leaf(dev).value, disk, path);
      HadMount(os.k, disk, path);
    }
  }

  lemma GlobalProper(os: Os)
    requires Global(os)
    ensures Orderly(os.k)
  {
  }

  lemma SetupMoments(os: Os, d: Drive)
    requires Global(os) && Candidate(os, d) && !d.broken && (Homed(d) || Entitled(os.k, d))
    ensures var os' := Setup(os, d.device.value, OrderOf(d)).1;
      Always(os, os', Orderly) && Orderly(os'.k)
  {
    var dev, order, disk := d.device.value, OrderOf(d), DiskOf(d);
    var goal := Goal(os, dev, order);
    SoundAgrees(os);
    GoalIsFree(os, dev, order, disk);
    SetupSettles(os, d, disk);
    SetupEffect(os, dev, order);
    SetupHeads(os, dev, order);
    GlobalProper(os);
    hide Goal, Setup, ChainOk, LuksOk, Sound, CrossOwned, Reliable, Accounted, Agree, Labelled, WfK, Reserved, Branded, Orderly, OnlyMoves, OthersStay, Settled, Fresh, FlagsConfined, Shown, OnlyAt, FreeFor, IsEntry, Homed, Entitled;
    var (dev', os', ok) := Setup(os, dev, order);
    if goal.Some? {
      var (leaf, path) := goal.value;
      LeafOn(os'.k, dev', Loc(disk, 0), d.driveId);
      KernelFree(os, leaf, path);
      if path.SrvNode? {
        GoalBranded(os, os', d, leaf, path);
      }
    }
    HeadingThroughout(os.k, Since(os, os'), os'.k, goal, disk);
  }

  /** While a drive converges, whatever fails except umounts and reads, the kernel is proper at every
    moment. */
  lemma ConvergeMoments(os: Os, d: Drive)
    requires Global(os) && Candidate(os, d) && (Homed(d) || Entitled(os.k, d))
    ensures Always(os, ConvergeDrive(os, d).1, Orderly)
  {
    var dev, order := d.device.value, OrderOf(d);
    GlobalProper(os);
    hide Setup, Teardown, MarkAsBroken, Orderly, Global, Candidate, Homed, Entitled, Always, Ran;
    if d.broken {
      TeardownRan(os, dev);
      HarmlessAlways(os, Teardown(os, dev).1, Tearing);
    } else {
      SetupMoments(os, d);
      var (dev', os1, ok) := Setup(os, dev, order);
      if !ok {
        var marked := d.(device := Some(dev'));
        MarkRan(os1, marked, Harmless);
        var os2 := MarkAsBroken(os1, marked).1;
        HarmlessAlways(os1, os2, Harmless);
        TeardownRan(os2, dev');
        var os3 := Teardown(os2, dev').1;
        HarmlessAlways(os2, os3, Tearing);
        SetupRan(os, dev, order);
        RanSteps(os, os1, Building);
        RanSteps(os1, os2, Harmless);
        RanSteps(os2, os3, Tearing);
        AlwaysTransitive(os, os1, os2, Orderly);
        StepsTransitive(os, os1, os2);
        AlwaysTransitive(os, os2, os3, Orderly);
      }
    }
  }

  lemma RanSteps(a: Os, b: Os, p: Cmd -> bool)
    requires Ran(a, b, p)
    ensures Steps(a, b)
  {
  }
}
