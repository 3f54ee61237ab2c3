/** A disk in quarantine is left alone by every step of the converger, whichever drive it works on. */
module QuarantinedDisks {
  import opened Names
  import opened Tables
  import opened Kernels
  import opened KernelFacts
  import opened Machine
  import opened Devices
  import opened Drives
  import opened Commands
  import opened Chains
  import opened Convergence
  import opened Fleets
  import opened Convergers
  import opened Exclusivity
  import opened Handlers
  import opened AssignSteps
  import opened Safety
  import opened Runs
  import opened Moments
  import opened Quarantine
  import Assignments

  /** Nothing is formatted or written on the disk, no container on it is opened, and nothing from it is mounted. */
  ghost predicate LeftAlone(k: Kernel, k': Kernel, n: string) {
    && (n in k.disks <==> n in k'.disks) && (n in k.disks ==> k'.disks[n] == k.disks[n])
    && (forall m :: From(k', m, n) ==> From(k, m, n))
    && (forall x :: x in k'.slots && k'.slots[x].at.disk == n ==> x in k.slots && k.slots[x] == k'.slots[x])
  }

  lemma ForeignLeaves(os: Os, os': Os, d: Drive, disk: string, n: string)
    requires Foreign(os, os', d, disk) && n != disk
    ensures LeftAlone(os.k, os'.k, n)
  {
    hide WfK, LuksOk, CacheConfined, Placed, FlagsConfined, OthersStay, From;
    forall m | From(os'.k, m, n) ensures From(os.k, m, n) {
      OthersFrom(os.k, os'.k, disk, m, n);
    }
  }

  lemma LeftTransitive(a: Kernel, b: Kernel, c: Kernel, n: string)
    requires LeftAlone(a, b, n) && LeftAlone(b, c, n)
    ensures LeftAlone(a, c, n)
  {
    hide From;
  }

  lemma HarmlessLeaves(k: Kernel, e: Entry, n: string)
    requires Legal(k, e) && Harmless(e.cmd)
    ensures LeftAlone(k, After(k, e), n)
  {
    HarmlessEffect(k, e);
    hide After, Legal;
  }

  lemma {:induction false} HarmlessTraceLeaves(k: Kernel, es: seq<Entry>, k': Kernel, n: string)
    requires Trace(k, es, k') && forall e :: e in es ==> Harmless(e.cmd)
    ensures LeftAlone(k, k', n)
    decreases |es|
  {
    hide After, Legal, LeftAlone;
    if es == [] {
      LeftSelf(k, n);
    } else {
      assert es[0] in es;
      assert forall e :: e in es[1..] ==> e in es;
      HarmlessLeaves(k, es[0], n);
      HarmlessTraceLeaves(After(k, es[0]), es[1..], k', n);
      LeftTransitive(k, After(k, es[0]), k', n);
    }
  }

  lemma LeftSelf(k: Kernel, n: string)
    ensures LeftAlone(k, k, n)
  {
  }

  lemma WindingLeaves(a: Os, b: Os, n: string)
    requires Ran(a, b, Winding)
    ensures LeftAlone(a.k, b.k, n)
  {
    HarmlessTraceLeaves(a.k, Since(a, b), b.k, n);
  }

  // ---- events ----

  lemma EventLeaves(os: Os, drives: seq<Drive>, events: seq<Event>, cfg: Config, n: string)
    requires events != [] && Fleet(os, drives, events) && Handle(os, drives, events[0], cfg).Some?
    requires events[0].Wakeup? || events[0].path != Disk(n)
    ensures LeftAlone(os.k, Handle(os, drives, events[0], cfg).value.0.k, n)
  {
    var e := events[0];
    assert e in events && PendingOk(os, drives, e);
    LeftSelf(os.k, n);
    hide NewDrive, ConvergeDrive, TeardownDrive, MarkAsBroken, Global, Ready, Expected, EventsApart, Foreign, LeftAlone, Distinct, Member;
    match e
    case Added(path, driveId) =>
      ReadyDisk(os, path, driveId);
      Newcomer(os, path, driveId, cfg.keys);
      var (d, os1) := NewDrive(os, path, driveId, cfg.keys);
      ForeignLeaves(os, ConvergeDrive(os1, d).1, d, path.name, n);
    case Reinstated(path) =>
      var i := IndexOf(drives, path);
      if i < |drives| {
        var was := drives[i];
        assert was in drives;
        ReadyDisk(os, path, was.driveId);
        Newcomer(os, path, was.driveId, was.keys);
        var (d, os1) := NewDrive(os, path, was.driveId, was.keys);
        ForeignLeaves(os, ConvergeDrive(os1, d).1, d, path.name, n);
      }
    case Removed(path) =>
      LastAtMember(drives, path);
      hide LastAt;
      var last := LastAt(drives, path);
      if last.Some? {
        assert Member(os, last.value);
        MemberDisk(os, last.value);
        RemovedLeaves(os, last.value);
        ForeignLeaves(os, TeardownDrive(os, last.value).1, last.value, DiskOf(last.value), n);
      }
    case Errored(path) =>
      var i := IndexOf(drives, path);
      if i < |drives| {
        MarkRan(os, drives[i], Winding);
        WindingLeaves(os, MarkAsBroken(os, drives[i]).1, n);
      }
    case Wakeup =>
  }

  // ---- steps ----

  lemma ConvergeLeaves(os: Os, drives: seq<Drive>, i: nat, n: string)
    requires Fleet(os, drives, []) && i < |drives| && (Homed(drives[i]) || Entitled(os.k, drives[i])) && drives[i].path != Disk(n)
    ensures drives[i].device.Some? && LeftAlone(os.k, ConvergeDrive(os, drives[i]).1.k, n)
  {
    assert drives[i] in drives && Member(os, drives[i]);
    MemberIsCandidate(os, drives[i]);
    MemberDisk(os, drives[i]);
    hide ConvergeDrive, Global, Member, Homed, Entitled, Expected, Foreign, LeftAlone, Done, Converged;
    MemberConverges(os, drives[i]);
    ForeignLeaves(os, ConvergeDrive(os, drives[i]).1, drives[i], DiskOf(drives[i]), n);
  }

  /** Quarantine in tame runs: no step, whether it works on the quarantined drive or on another one, formats or writes
    anything on its disk, opens a container on it, or mounts anything from it, until an event releases it. */
  lemma QuarantineLeaves(s: State, cfg: Config, n: string)
    requires Inv(s) && !s.phase.Idle? && Quarantined(s, Disk(n)) && !Released(s, Disk(n)) && Step(s, cfg).Some?
    ensures LeftAlone(s.os.k, Step(s, cfg).value.os.k, n)
  {
    LeftSelf(s.os.k, n);
    hide Handle, ConvergeDrive, Fleet, Done, Homed, Entitled, LeftAlone, Quarantined, Assignments.UpdateAssignments;
    if Actor(s) == Some(Disk(n)) {
      hide Step, Inv;
      QuarantineWinds(s, cfg, Disk(n));
      WindingLeaves(s.os, Step(s, cfg).value.os, n);
    } else {
      match s.phase
      case Handling(events) =>
        if events != [] {
          EventLeaves(s.os, s.drives, events, cfg, n);
        }
      case First(i) =>
        if i < |s.drives| {
          assert s.drives[i] in s.drives;
          ConvergeLeaves(s.os, s.drives, i, n);
        }
      case Assigning =>
        hide Step, Inv;
        RoundLeaves(s, cfg, n);
      case Second(i) =>
        if i < |s.drives| && !s.drives[i].broken {
          ConvergeLeaves(s.os, s.drives, i, n);
        }
    }
  }

  lemma RoundLeaves(s: State, cfg: Config, n: string)
    requires Inv(s) && s.phase.Assigning? && Quarantined(s, Disk(n))
    ensures Step(s, cfg).Some? && LeftAlone(s.os.k, Step(s, cfg).value.os.k, n)
  {
    AssigningIs(s, cfg);
    AllDone(s.os, s.drives);
    ReadAllOk(s.os, s.drives);
    LeftSelf(s.os.k, n);
    var d :| d in s.drives && d.path == Disk(n);
    assert Assignments.AnyBroken(s.drives);
    hide Step, LeftAlone, Assignments.ReadAll, Assignments.Judged, Assignments.Allocate, Done, Global, Members, Expected, Assignments.AnyBroken, Assignments.AnyMisplaced;
    assert Assignments.UpdateAssignments(s.os, s.drives, cfg.pool).1.k == s.os.k;
  }

  /** The same for every state of every tame run. */
  lemma RunQuarantineLeaves(cfg: Config, run: seq<State>, i: nat, n: string)
    requires IsRun(Tame, cfg, run) && Init(run[0]) && i + 1 < |run| && !run[i].phase.Idle?
    requires Quarantined(run[i], Disk(n)) && !Released(run[i], Disk(n))
    ensures LeftAlone(run[i].os.k, run[i + 1].os.k, n)
  {
    hide IsRun, Init, Inv, Step, Tame, Quarantined, Released, LeftAlone;
    RunInvariant(cfg, run, i);
    RunNext(cfg, run, i + 1);
    QuarantineLeaves(run[i], cfg, n);
  }
}
