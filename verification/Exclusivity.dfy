/** A fleet in order, and the events it can be sent: what one drive that converges, or is replaced, leaves of that for all
  others. */
module Exclusivity {
  import opened Names
  import opened Tables
  import opened Kernels
  import opened KernelFacts
  import opened Machine
  import opened MountCache
  import opened Devices
  import opened DeviceFacts
  import opened Drives
  import opened Commands
  import opened Chains
  import opened DriveFacts
  import opened Convergence
  import opened Origins
  import opened Fleets
  import opened Convergers

  function PathOf(e: Event): Option<DevPath> {
    if e.Wakeup? then None else Some(e.path)
  }

  ghost predicate Flagged(k: Kernel, driveId: string) {
    driveId in k.transient || driveId in k.durable
  }

  /** A drive object may be made for this disk: its places are free, and it is not both flagged as broken
    and still mounted. */
  ghost predicate Ready(os: Os, path: DevPath, driveId: string) {
    && path.Disk? && path.name in os.k.disks
    && Fresh(os, driveId) && IdKept(os.k, driveId, path.name) && Reserved(os.k, path.name, RunTemp(driveId))
    && (Flagged(os.k, driveId) ==> Cleared(os.k, path.name))
  }

  ghost predicate PendingOk(os: Os, drives: seq<Drive>, e: Event) {
    match e
    case Added(path, driveId) =>
      Ready(os, path, driveId) && forall d :: d in drives ==> d.path != path && d.driveId != driveId
    case Reinstated(path) => forall d :: d in drives && d.path == path ==> Ready(os, path, d.driveId)
    case _ => true
  }

  /** One batch names each device and each drive at most once. */
  ghost predicate EventsApart(events: seq<Event>) {
    && (forall i, j :: 0 <= i < j < |events| && PathOf(events[i]).Some? ==> PathOf(events[j]) != PathOf(events[i]))
    && (forall i, j :: 0 <= i < j < |events| && events[i].Added? && events[j].Added? ==> events[i].driveId != events[j].driveId)
  }

  ghost predicate Owner(drives: seq<Drive>, events: seq<Event>, n: string) {
    (exists d :: d in drives && DiskOf(d) == n) || (exists e :: e in events && e.Added? && e.path.name == n)
  }

  /** Everything below `/srv/node` comes from a managed disk, or one that is about to be. */
  ghost predicate Expected(k: Kernel, drives: seq<Drive>, events: seq<Event>) {
    forall m, n :: From(k, m, n) && m.path.SrvNode? ==> Owner(drives, events, n)
  }

  ghost predicate Members(os: Os, drives: seq<Drive>) {
    && (forall d :: d in drives ==> Member(os, d))
    && (forall i, j :: 0 <= i < |drives| && 0 <= j < |drives| && i != j ==> Distinct(drives[i], drives[j]))
  }

  ghost predicate Fleet(os: Os, drives: seq<Drive>, events: seq<Event>) {
    && Global(os) && Members(os, drives)
    && (forall e :: e in events ==> PendingOk(os, drives, e)) && EventsApart(events)
    && Expected(os.k, drives, events)
  }

  // ---- replacing one drive ----

  lemma ReadyElsewhere(os: Os, os': Os, d: Drive, disk: string, path: DevPath, driveId: string)
    requires Foreign(os, os', d, disk) && Ready(os, path, driveId) && path.name != disk && driveId != d.driveId
    requires Claim(d).Some? ==> Claim(d).value.SrvNode?
    ensures Ready(os', path, driveId)
  {
    var n := path.name;
    hide WfK, LuksOk, Placed, OthersStay, Reserved, Cleared, Fresh, IdKept, CacheConfined;
    IdKeptElsewhere(os, os', disk, d.driveId, driveId, n);
    FreshElsewhere(os, os', disk, d.driveId, driveId, n);
    ReservedStays(os, os', d, disk, n, RunTemp(driveId));
    if Flagged(os'.k, driveId) {
      assert Flagged(os.k, driveId);
      ClearedElsewhere(os.k, os'.k, disk, n);
    }
  }

  lemma OwnerIndex(drives: seq<Drive>, i: nat, d': Drive, events: seq<Event>, n: string)
    requires i < |drives| && d'.path == drives[i].path && Owner(drives, events, n)
    ensures Owner(drives[i := d'], events, n)
  {
    if d :| d in drives && DiskOf(d) == n {
      var j :| 0 <= j < |drives| && drives[j] == d;
      assert drives[i := d'][j] in drives[i := d'];
      assert DiskOf(drives[i := d'][j]) == n;
    }
  }

  lemma ExpectedStays(os: Os, os': Os, d: Drive, actor: Drive, drives: seq<Drive>, i: nat, d': Drive, events: seq<Event>)
    requires i < |drives| && d == drives[i] && d'.path == d.path && Foreign(os, os', actor, DiskOf(d))
    requires Expected(os.k, drives, events)
    ensures Expected(os'.k, drives[i := d'], events)
  {
    hide WfK, LuksOk, Placed, OthersStay, Owner, Confined, CacheConfined;
    forall m, n | From(os'.k, m, n) && m.path.SrvNode? ensures Owner(drives[i := d'], events, n) {
      if n != DiskOf(d) {
        OthersFrom(os.k, os'.k, DiskOf(d), m, n);
        OwnerIndex(drives, i, d', events, n);
      } else {
        OwnsItself(drives, i, d', events);
      }
    }
  }

  lemma OwnsItself(drives: seq<Drive>, i: nat, d': Drive, events: seq<Event>)
    requires i < |drives|
    ensures Owner(drives[i := d'], events, DiskOf(d'))
  {
    assert drives[i := d'][i] == d';
  }

  /** What a step must tell about the drive it replaced; `actor` is the drive in the form that acted. */
  ghost predicate Replaced(os: Os, os': Os, d: Drive, actor: Drive, d': Drive) {
    && Global(os') && Member(os', d') && Foreign(os, os', actor, DiskOf(d))
    && d'.path == d.path && d'.driveId == d.driveId && (Claim(d').Some? ==> Claim(d') == Claim(d))
    && actor.path == d.path && actor.driveId == d.driveId && (Claim(actor).Some? ==> Claim(actor) == Claim(d))
  }

  lemma MembersStay(os: Os, os': Os, drives: seq<Drive>, i: nat, actor: Drive, d': Drive)
    requires i < |drives| && Members(os, drives) && Replaced(os, os', drives[i], actor, d')
    ensures Members(os', drives[i := d'])
  {
    hide Global, Foreign, Member;
    var ds := drives[i := d'];
    forall e | e in ds ensures Member(os', e) {
      var j :| 0 <= j < |ds| && ds[j] == e;
      if j != i {
        MemberStays(os, os', drives, i, actor, d', j);
      }
    }
  }

  lemma MemberStays(os: Os, os': Os, drives: seq<Drive>, i: nat, actor: Drive, d': Drive, j: nat)
    requires i < |drives| && j < |drives| && i != j && Members(os, drives) && Replaced(os, os', drives[i], actor, d')
    ensures Member(os', drives[j]) && DiskOf(drives[j]) != DiskOf(drives[i])
  {
    hide Global, Foreign;
    assert drives[j] in drives && drives[i] in drives;
    assert Distinct(drives[i], drives[j]) && Distinct(drives[j], drives[i]);
    OtherDisk(os, drives[i], drives[j]);
    BystanderStays(os, os', actor, DiskOf(drives[i]), drives[j]);
  }

  lemma OtherDisk(os: Os, d: Drive, e: Drive)
    requires Member(os, d) && Member(os, e) && d.path != e.path
    ensures DiskOf(d) != DiskOf(e)
  {
  }

  lemma PendingStays(os: Os, os': Os, drives: seq<Drive>, i: nat, actor: Drive, d': Drive, e: Event)
    requires i < |drives| && drives[i].path.Disk? && Replaced(os, os', drives[i], actor, d') && PendingOk(os, drives, e)
    requires PathOf(e) != Some(drives[i].path)
    requires forall j :: 0 <= j < |drives| && j != i ==> drives[j].driveId != drives[i].driveId
    ensures PendingOk(os', drives[i := d'], e)
  {
    hide Global, Foreign, Member, Ready;
    var ds := drives[i := d'];
    assert drives[i] in drives;
    match e
    case Added(path, driveId) =>
      assert path.Disk? by { ReadyDisk(os, path, driveId); }
      ReadyElsewhere(os, os', actor, DiskOf(drives[i]), path, driveId);
    case Reinstated(path) =>
      forall d | d in ds && d.path == path ensures Ready(os', path, d.driveId) {
        var j :| 0 <= j < |ds| && ds[j] == d;
        assert j != i && drives[j] in drives;
        ReadyDisk(os, path, d.driveId);
        ReadyElsewhere(os, os', actor, DiskOf(drives[i]), path, d.driveId);
      }
    case _ =>
  }

  lemma ReadyDisk(os: Os, path: DevPath, driveId: string)
    requires Ready(os, path, driveId)
    ensures path.Disk?
  {
  }

  /** One drive replaced by its successor: the fleet stays a fleet. */
  lemma FleetStays(os: Os, os': Os, drives: seq<Drive>, events: seq<Event>, i: nat, actor: Drive, d': Drive)
    requires i < |drives| && Fleet(os, drives, events) && Replaced(os, os', drives[i], actor, d')
    requires forall e :: e in events ==> PathOf(e) != Some(drives[i].path)
    ensures Fleet(os', drives[i := d'], events)
  {
    MembersStay(os, os', drives, i, actor, d');
    assert drives[i] in drives;
    ExpectedStays(os, os', drives[i], actor, drives, i, d', events);
    hide Global, Foreign, Expected, PendingOk;
    assert drives[i].path.Disk? by { assert Member(os, drives[i]); }
    assert forall j :: 0 <= j < |drives| && j != i ==> Distinct(drives[j], drives[i]);
    hide Member;
    forall e | e in events ensures PendingOk(os', drives[i := d'], e) {
      PendingStays(os, os', drives, i, actor, d', e);
    }
  }

  // ---- converging the drives one after the other ----

  lemma MemberIsCandidate(os: Os, d: Drive)
    requires Member(os, d)
    ensures Candidate(os, d)
  {
  }

  lemma ConvergedReplaces(os: Os, d: Drive)
    requires Global(os) && Candidate(os, d) && (Homed(d) || Entitled(os.k, d))
    ensures var (d', os') := ConvergeDrive(os, d);
      Replaced(os, os', d, d, d') && Homed(d') && Done(os', d') && (d.broken ==> d'.broken) && os'.fate == os.fate
  {
    MemberConverges(os, d);
    var (d', os') := ConvergeDrive(os, d);
    hide ConvergeDrive, Global, Candidate, Member, Foreign, Within, Fits, Accounted, Settled, Cleared, CrossOwned, Sound, OthersStay, FlagsConfined, Entitled, Homed, Done;
    WithinFate(os, os', DiskOf(d), d.driveId);
  }

  lemma WithinFate(os: Os, os': Os, disk: string, driveId: string)
    requires Within(os, os', disk, driveId)
    ensures os'.fate == os.fate
  {
  }

  /** Converging the i-th drive of a fleet. */
  lemma ConvergeAt(os: Os, drives: seq<Drive>, i: nat)
    requires Fleet(os, drives, []) && i < |drives| && (Homed(drives[i]) || Entitled(os.k, drives[i]))
    ensures drives[i].device.Some?
    ensures var (d', os') := ConvergeDrive(os, drives[i]);
      && Fleet(os', drives[i := d'], []) && Homed(d') && Done(os', d') && (drives[i].broken ==> d'.broken)
      && (forall j :: 0 <= j < |drives| && j != i && Done(os, drives[j]) ==> Done(os', drives[j]))
      && (forall j :: 0 <= j < |drives| && j != i && Entitled(os.k, drives[j]) ==> Entitled(os'.k, drives[j]))
  {
    var d := drives[i];
    assert d in drives && Member(os, d);
    MemberIsCandidate(os, d);
    ConvergedReplaces(os, d);
    var (d', os') := ConvergeDrive(os, d);
    FleetStays(os, os', drives, [], i, d, d');
    hide ConvergeDrive, Foreign, Expected, PendingOk, Done, Entitled, Homed, WfK, LuksOk, Sound, CrossOwned, Labelled, Reliable;
    forall j | 0 <= j < |drives| && j != i && Done(os, drives[j]) ensures Done(os', drives[j]) {
      MemberStays(os, os', drives, i, d, d', j);
      DoneElsewhere(os, os', d, DiskOf(d), drives[j]);
    }
    forall j | 0 <= j < |drives| && j != i && Entitled(os.k, drives[j]) ensures Entitled(os'.k, drives[j]) {
      MemberStays(os, os', drives, i, d, d', j);
      EntitledElsewhere(os, os', d, DiskOf(d), drives[j]);
    }
  }

  ghost predicate AllHomed(drives: seq<Drive>) {
    forall d :: d in drives ==> Homed(d)
  }

  ghost predicate DoneUpTo(os: Os, drives: seq<Drive>, i: nat) {
    forall j :: 0 <= j < i && j < |drives| ==> Done(os, drives[j]) && Homed(drives[j])
  }

  ghost predicate EntitledFrom(os: Os, drives: seq<Drive>, i: nat) {
    forall j :: i <= j < |drives| ==> Entitled(os.k, drives[j]) && (drives[j].broken ==> Done(os, drives[j]))
  }

  lemma FirstStep(os: Os, drives: seq<Drive>, i: nat)
    requires Fleet(os, drives, []) && i < |drives| && AllHomed(drives) && DoneUpTo(os, drives, i)
    ensures drives[i].device.Some?
    ensures var (d', os') := ConvergeDrive(os, drives[i]);
      Fleet(os', drives[i := d'], []) && AllHomed(drives[i := d']) && DoneUpTo(os', drives[i := d'], i + 1)
  {
    assert drives[i] in drives;
    ConvergeAt(os, drives, i);
    hide ConvergeDrive, Fleet, Done, Homed;
    var (d', os') := ConvergeDrive(os, drives[i]);
    var ds := drives[i := d'];
    forall e | e in ds ensures Homed(e) {
      var j :| 0 <= j < |ds| && ds[j] == e;
      assert j != i ==> drives[j] in drives;
    }
    forall j | 0 <= j < i + 1 ensures Done(os', ds[j]) && Homed(ds[j]) {
      assert ds[j] in ds;
    }
  }

  lemma SecondStep(os: Os, drives: seq<Drive>, i: nat)
    requires Fleet(os, drives, []) && i < |drives| && !drives[i].broken
    requires DoneUpTo(os, drives, i) && EntitledFrom(os, drives, i)
    ensures drives[i].device.Some?
    ensures var (d', os') := ConvergeDrive(os, drives[i]);
      Fleet(os', drives[i := d'], []) && DoneUpTo(os', drives[i := d'], i + 1) && EntitledFrom(os', drives[i := d'], i + 1)
  {
    ConvergeAt(os, drives, i);
    hide ConvergeDrive, Fleet, Done, Homed, Entitled;
    var (d', os') := ConvergeDrive(os, drives[i]);
    var ds := drives[i := d'];
    forall j | 0 <= j < i + 1 ensures Done(os', ds[j]) && Homed(ds[j]) {
      assert j != i ==> ds[j] == drives[j];
    }
    forall j | i + 1 <= j < |ds| ensures Entitled(os'.k, ds[j]) && (ds[j].broken ==> Done(os', ds[j])) {
      assert ds[j] == drives[j];
    }
  }
}
