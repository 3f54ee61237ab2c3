/** The drive collector: it remembers which globbed paths it has seen and reports the difference, first
  what is gone, then what is new. The handlers replay these batches into the list of drives. */
module Collectors {
  import opened Names
  import opened Kernels
  import opened Machine
  import opened Devices
  import opened Drives
  import opened Assignments
  import opened Convergers
  import Handlers
  import Quarantine

  /** What one cycle sees: the globbed paths with the device behind each, and for a device whether it is
    to be reported (its serial number) or ignored. */
  datatype Scan = Scan(existing: map<string, DevPath>, probe: DevPath -> Option<string>)

  ghost predicate Lists(keys: seq<string>, s: set<string>) {
    && (forall g :: g in keys <==> g in s)
    && forall i, j :: 0 <= i < j < |keys| ==> keys[i] != keys[j]
  }

  /** A path that is still there keeps the device it had when it was first seen. */
  function Merged(known: map<string, DevPath>, existing: map<string, DevPath>): map<string, DevPath> {
    map g | g in existing :: if g in known then known[g] else existing[g]
  }

  function RemovedBatch(known: map<string, DevPath>, gone: seq<string>): seq<Event>
    requires forall g :: g in gone ==> g in known
  {
    if gone == [] then []
    else
      assert forall g :: g in gone[1..] ==> g in gone;
      [Removed(known[gone[0]])] + RemovedBatch(known, gone[1..])
  }

  function AddedBatch(scan: Scan, news: seq<string>): seq<Event>
    requires forall g :: g in news ==> g in scan.existing
  {
    if news == [] then []
    else
      assert forall g :: g in news[1..] ==> g in news;
      var dev := scan.existing[news[0]];
      var serial := scan.probe(dev);
      (if serial.Some? then [Added(dev, serial.value)] else []) + AddedBatch(scan, news[1..])
  }

  /** One cycle, whatever the order in which the maps are gone through. */
  ghost predicate Cycled(known: map<string, DevPath>, scan: Scan, removed: seq<Event>, added: seq<Event>,
                         known': map<string, DevPath>)
  {
    && known' == Merged(known, scan.existing)
    && (exists gone :: Lists(gone, known.Keys - scan.existing.Keys) && removed == RemovedBatch(known, gone))
    && (exists news :: Lists(news, scan.existing.Keys - known.Keys) && added == AddedBatch(scan, news))
  }

  class Collector {
    var knownDrives: map<string, DevPath>

    constructor ()
      ensures knownDrives == map[]
    {
      knownDrives := map[];
    }

    /** The process gives up when the globs match nothing at all. */
    method Cycle(scan: Scan) returns (alive: bool, removed: seq<Event>, added: seq<Event>)
      modifies this
      ensures alive <==> scan.existing != map[]
      ensures alive ==> Cycled(old(knownDrives), scan, removed, added, knownDrives)
      ensures alive ==> knownDrives.Keys == scan.existing.Keys && forall g :: g in scan.existing ==>
        knownDrives[g] == if g in old(knownDrives) then old(knownDrives)[g] else scan.existing[g]
    {
      removed, added := [], [];
      alive := scan.existing != map[];
      if alive {
        removed := Forget(scan);
        added := Discover(scan, old(knownDrives));
      }
    }

    method Forget(scan: Scan) returns (removed: seq<Event>)
      modifies this
      ensures knownDrives == map g | g in old(knownDrives) && g in scan.existing :: old(knownDrives)[g]
      ensures exists gone :: (Lists(gone, old(knownDrives).Keys - scan.existing.Keys)
                              && removed == RemovedBatch(old(knownDrives), gone))
    {
      ghost var known := knownDrives;
      ghost var gone: seq<string> := [];
      removed := [];
      var todo := knownDrives.Keys;
      while todo != {}
        invariant todo <= known.Keys && forall g :: g in knownDrives ==> g in known && knownDrives[g] == known[g]
        invariant forall g :: g in known ==> (g in knownDrives <==> g in todo || g in scan.existing)
        invariant Lists(gone, known.Keys - scan.existing.Keys - todo) && removed == RemovedBatch(known, gone)
        decreases todo
      {
        var g :| g in todo;
        todo := todo - {g};
        if g !in scan.existing {
          RemovedSnoc(known, gone, g);
          removed := removed + [Removed(knownDrives[g])];
          knownDrives := knownDrives - {g};
          gone := gone + [g];
        }
      }
    }

    method Discover(scan: Scan, ghost known: map<string, DevPath>) returns (added: seq<Event>)
      requires knownDrives == map g | g in known && g in scan.existing :: known[g]
      modifies this
      ensures knownDrives == Merged(known, scan.existing)
      ensures exists news :: Lists(news, scan.existing.Keys - known.Keys) && added == AddedBatch(scan, news)
    {
      ghost var news: seq<string> := [];
      ghost var start := knownDrives;
      added := [];
      var todo := scan.existing.Keys;
      while todo != {}
        invariant todo <= scan.existing.Keys
        invariant forall g :: g in knownDrives <==> g in scan.existing && (g in known || g !in todo)
        invariant forall g :: g in knownDrives ==> knownDrives[g] == Merged(known, scan.existing)[g]
        invariant Lists(news, scan.existing.Keys - known.Keys - todo) && added == AddedBatch(scan, news)
        decreases todo
      {
        var g :| g in todo;
        todo := todo - {g};
        if g !in knownDrives {
          AddedSnoc(scan, news, g);
          var dev := scan.existing[g];
          knownDrives := knownDrives[g := dev];
          var serial := scan.probe(dev);
          if serial.Some? {
            added := added + [Added(dev, serial.value)];
          }
          news := news + [g];
        }
      }
    }
  }

  lemma {:induction false} RemovedSnoc(known: map<string, DevPath>, gone: seq<string>, g: string)
    requires g in known && forall h :: h in gone ==> h in known
    ensures RemovedBatch(known, gone + [g]) == RemovedBatch(known, gone) + [Removed(known[g])]
  {
    if gone == [] {
      assert [] + [g] == [g] && [g][1..] == [];
      assert [Removed(known[g])] + [] == [] + [Removed(known[g])];
    } else {
      assert (gone + [g])[1..] == gone[1..] + [g];
      RemovedSnoc(known, gone[1..], g);
      assert [Removed(known[gone[0]])] + (RemovedBatch(known, gone[1..]) + [Removed(known[g])])
          == [Removed(known[gone[0]])] + RemovedBatch(known, gone[1..]) + [Removed(known[g])];
    }
  }

  function Report(scan: Scan, g: string): seq<Event>
    requires g in scan.existing
  {
    var serial := scan.probe(scan.existing[g]);
    if serial.Some? then [Added(scan.existing[g], serial.value)] else []
  }

  lemma {:induction false} AddedSnoc(scan: Scan, news: seq<string>, g: string)
    requires g in scan.existing && forall h :: h in news ==> h in scan.existing
    ensures AddedBatch(scan, news + [g]) == AddedBatch(scan, news) + Report(scan, g)
  {
    if news == [] {
      assert [] + [g] == [g] && [g][1..] == [];
      assert Report(scan, g) + [] == [] + Report(scan, g);
    } else {
      assert (news + [g])[1..] == news[1..] + [g];
      AddedSnoc(scan, news[1..], g);
      assert Report(scan, news[0]) + (AddedBatch(scan, news[1..]) + Report(scan, g))
          == Report(scan, news[0]) + AddedBatch(scan, news[1..]) + Report(scan, g);
    }
  }

  // ---- what the handlers make of events ----

  function Paths(drives: seq<Drive>): (r: seq<DevPath>)
    ensures |r| == |drives|
    ensures forall i :: 0 <= i < |r| ==> r[i] == drives[i].path
  {
    seq(|drives|, i requires 0 <= i < |drives| => drives[i].path)
  }

  function Dropped(ps: seq<DevPath>, path: DevPath): seq<DevPath> {
    if ps == [] then [] else (if ps[0] == path then [] else [ps[0]]) + Dropped(ps[1..], path)
  }

  function PathsAfter(ps: seq<DevPath>, e: Event): seq<DevPath> {
    match e
    case Added(path, _) => ps + [path]
    case Removed(path) => Dropped(ps, path)
    case _ => ps
  }

  function Replay(ps: seq<DevPath>, events: seq<Event>): seq<DevPath>
    decreases |events|
  {
    if events == [] then ps else Replay(PathsAfter(ps, events[0]), events[1..])
  }

  lemma PathsConcat(a: seq<Drive>, b: seq<Drive>)
    ensures Paths(a + b) == Paths(a) + Paths(b)
  {
  }

  lemma {:induction false} WithoutPaths(drives: seq<Drive>, path: DevPath)
    ensures Paths(Without(drives, path)) == Dropped(Paths(drives), path)
  {
    if drives != [] {
      var rest := Without(drives[1..], path);
      WithoutPaths(drives[1..], path);
      PathsConcat([drives[0]], drives[1..]);
      PathsConcat([drives[0]], rest);
      assert drives == [drives[0]] + drives[1..] && [] + rest == rest;
      assert Paths(drives)[0] == drives[0].path && Paths(drives)[1..] == Paths(drives[1..]);
      hide Paths;
    }
  }

  lemma LastAtAbsent(drives: seq<Drive>, path: DevPath)
    requires LastAt(drives, path).None?
    ensures Dropped(Paths(drives), path) == Paths(drives)
  {
    Handlers.LastAtMember(drives, path);
    hide LastAt;
    forall i | 0 <= i < |drives| ensures drives[i].path != path {
      assert drives[i] in drives;
    }
    DroppedAbsent(Paths(drives), path);
  }

  lemma {:induction false} DroppedAbsent(ps: seq<DevPath>, path: DevPath)
    requires forall i :: 0 <= i < |ps| ==> ps[i] != path
    ensures Dropped(ps, path) == ps
  {
    if ps != [] {
      DroppedAbsent(ps[1..], path);
    }
  }

  lemma HandlePaths(os: Os, drives: seq<Drive>, e: Event, cfg: Config)
    ensures var r := Handle(os, drives, e, cfg);
      r.Some? ==> Paths(r.value.1) == PathsAfter(Paths(drives), e)
  {
    hide NewDrive, ConvergeDrive, TeardownDrive, MarkAsBroken, Without, LastAt;
    match e
    case Added(path, driveId) =>
      Quarantine.NewDrivePath(os, path, driveId, cfg.keys);
      var (d, os1) := NewDrive(os, path, driveId, cfg.keys);
      if d.device.Some? {
        Quarantine.ConvergePath(os1, d);
      }
    case Removed(path) =>
      WithoutPaths(drives, path);
      if LastAt(drives, path).None? {
        LastAtAbsent(drives, path);
      }
    case Errored(path) =>
      MarkPath(os, drives, path);
    case Reinstated(path) =>
      var i := IndexOf(drives, path);
      if i < |drives| {
        Quarantine.NewDrivePath(os, path, drives[i].driveId, drives[i].keys);
        var (d, os1) := NewDrive(os, path, drives[i].driveId, drives[i].keys);
        if d.device.Some? {
          Quarantine.ConvergePath(os1, d);
        }
      }
    case Wakeup =>
  }

  lemma MarkPath(os: Os, drives: seq<Drive>, path: DevPath)
    ensures var i := IndexOf(drives, path);
      i < |drives| ==> MarkAsBroken(os, drives[i]).0.path == drives[i].path
  {
  }

  lemma PathsAssigned(os: Os, drives: seq<Drive>, pool: seq<string>)
    ensures Paths(UpdateAssignments(os, drives, pool).0) == Paths(drives)
  {
    Quarantine.UpdateKeepsBroken(os, drives, pool);
    hide UpdateAssignments;
  }

  function Pending(phase: Phase): seq<Event> {
    if phase.Handling? then phase.events else []
  }

  lemma StepPaths(st: State, cfg: Config)
    requires Step(st, cfg).Some?
    ensures var t := Step(st, cfg).value;
      Replay(Paths(t.drives), Pending(t.phase)) == Replay(Paths(st.drives), Pending(st.phase))
  {
    hide Handle, ConvergeDrive, UpdateAssignments, PathsAfter;
    match st.phase
    case Handling(events) =>
      if events != [] {
        HandlePaths(st.os, st.drives, events[0], cfg);
      }
    case First(i) =>
      if i < |st.drives| {
        Quarantine.ConvergePath(st.os, st.drives[i]);
      }
    case Second(i) =>
      if i < |st.drives| && !st.drives[i].broken {
        Quarantine.ConvergePath(st.os, st.drives[i]);
      }
    case Assigning =>
      PathsAssigned(st.os, st.drives, cfg.pool);
    case Idle =>
  }

  /** Unless the process dies, an iteration manages exactly the devices that the replay of its events
    names, in the same order. */
  lemma {:induction false} IterationReplays(st: State, cfg: Config)
    requires Finish(st, cfg).Some?
    ensures Paths(Finish(st, cfg).value.drives) == Replay(Paths(st.drives), Pending(st.phase))
    decreases StepsLeft(st).0, StepsLeft(st).1
  {
    if !st.phase.Idle? {
      StepPaths(st, cfg);
      FinishStep(st, cfg);
      StepDecreases(st, cfg);
      hide Step, Finish;
      IterationReplays(Step(st, cfg).value, cfg);
    }
  }

  lemma StepDecreases(st: State, cfg: Config)
    requires !st.phase.Idle? && Step(st, cfg).Some?
    ensures var t := Step(st, cfg).value;
      StepsLeft(t).0 < StepsLeft(st).0 || (StepsLeft(t).0 == StepsLeft(st).0 && StepsLeft(t).1 < StepsLeft(st).1)
  {
    hide Handle, ConvergeDrive, UpdateAssignments;
  }

  // ---- devices behind links ----

  /** A path that is still there stands for the device that it had when it was first seen, even if it now leads to
    another one; and a removal names that device. */
  lemma DevicesKept(known: map<string, DevPath>, scan: Scan, removed: seq<Event>, added: seq<Event>, known': map<string, DevPath>)
    requires Cycled(known, scan, removed, added, known')
    ensures forall g :: g in known && g in scan.existing ==> g in known' && known'[g] == known[g]
    ensures forall g :: g in scan.existing && g !in known ==> g in known' && known'[g] == scan.existing[g]
    ensures forall g :: g in known' ==> g in scan.existing
    ensures forall e :: e in removed <==> exists g :: g in known && g !in scan.existing && e == Removed(known[g])
  {
    var gone :| Lists(gone, known.Keys - scan.existing.Keys) && removed == RemovedBatch(known, gone);
    RemovedExact(known, gone);
    assert forall g :: g in gone <==> g in known && g !in scan.existing;
  }

  lemma {:induction false} RemovedExact(known: map<string, DevPath>, gone: seq<string>)
    requires forall g :: g in gone ==> g in known
    ensures forall e :: e in RemovedBatch(known, gone) <==> exists g :: g in gone && e == Removed(known[g])
    decreases |gone|
  {
    if gone != [] {
      assert forall g :: g in gone <==> g == gone[0] || g in gone[1..];
      RemovedExact(known, gone[1..]);
    }
  }

  // ---- serial numbers ----

  /** Every device that a cycle reports as added is reported with the serial number that was found for it. */
  lemma {:induction false} AddedCarries(scan: Scan, news: seq<string>)
    requires forall g :: g in news ==> g in scan.existing
    ensures forall e :: e in AddedBatch(scan, news) ==> e.Added? && scan.probe(e.path) == Some(e.driveId)
    decreases |news|
  {
    if news != [] {
      assert forall g :: g in news[1..] ==> g in news;
      AddedCarries(scan, news[1..]);
    }
  }

  /** And all eligible ones are reported. */
  lemma {:induction false} AddedReports(scan: Scan, news: seq<string>, g: string)
    requires (forall h :: h in news ==> h in scan.existing) && g in news && scan.probe(scan.existing[g]).Some?
    ensures Added(scan.existing[g], scan.probe(scan.existing[g]).value) in AddedBatch(scan, news)
    decreases |news|
  {
    assert forall h :: h in news[1..] ==> h in news;
    if g != news[0] {
      AddedReports(scan, news[1..], g);
    }
  }

  /** The handlers give a drive the serial number of the event that added it, and the configured keys. */
  lemma AddedNames(os: Os, drives: seq<Drive>, path: DevPath, driveId: string, cfg: Config)
    requires Handle(os, drives, Added(path, driveId), cfg).Some?
    ensures var after := Handle(os, drives, Added(path, driveId), cfg).value.1;
      && |after| == |drives| + 1 && after[..|drives|] == drives
      && after[|drives|].path == path && after[|drives|].driveId == driveId && after[|drives|].keys == cfg.keys
  {
    NewDriveFields(os, path, driveId, cfg.keys);
    hide NewDrive;
    var (d, os1) := NewDrive(os, path, driveId, cfg.keys);
    ConvergeFields(os1, d);
    hide ConvergeDrive;
    assert (drives + [ConvergeDrive(os1, d).0])[..|drives|] == drives;
  }

  lemma NewDriveFields(os: Os, path: DevPath, driveId: string, keys: seq<string>)
    ensures var d := NewDrive(os, path, driveId, keys).0; d.path == path && d.driveId == driveId && d.keys == keys
  {
    hide NewDevice;
  }

  lemma ConvergeFields(os: Os, d: Drive)
    requires d.device.Some?
    ensures var d' := ConvergeDrive(os, d).0; d'.path == d.path && d'.driveId == d.driveId && d'.keys == d.keys
  {
    hide Setup, Teardown;
  }

  /** A device that is reinstated keeps its serial number, its keys and its place. */
  lemma ReinstatedNames(os: Os, drives: seq<Drive>, path: DevPath, cfg: Config, i: nat)
    requires i < |drives| && drives[i].path == path && (forall j :: 0 <= j < i ==> drives[j].path != path)
    requires Handle(os, drives, Reinstated(path), cfg).Some?
    ensures var after := Handle(os, drives, Reinstated(path), cfg).value.1;
      && |after| == |drives| && (forall j :: 0 <= j < |drives| && j != i ==> after[j] == drives[j])
      && after[i].path == path && after[i].driveId == drives[i].driveId && after[i].keys == drives[i].keys
  {
    assert IndexOf(drives, path) == i;
    NewDriveFields(os, path, drives[i].driveId, drives[i].keys);
    hide NewDrive;
    var (d, os1) := NewDrive(os, path, drives[i].driveId, drives[i].keys);
    ConvergeFields(os1, d);
    hide ConvergeDrive;
  }

  lemma {:induction false} LastAtIs(drives: seq<Drive>, path: DevPath, i: nat)
    requires i < |drives| && drives[i].path == path && forall j :: i < j < |drives| ==> drives[j].path != path
    ensures LastAt(drives, path) == Some(drives[i])
    decreases |drives|
  {
    if i < |drives| - 1 {
      LastAtIs(drives[..|drives| - 1], path, i);
    }
  }

  /** A removal drops every drive at the path, and tears down the last one there. */
  lemma RemovedLast(os: Os, drives: seq<Drive>, path: DevPath, cfg: Config, i: nat)
    requires i < |drives| && drives[i].path == path && forall j :: i < j < |drives| ==> drives[j].path != path
    ensures var r := Handle(os, drives, Removed(path), cfg);
      && r.Some? && r.value.0 == TeardownDrive(os, drives[i]).1
      && forall d :: d in r.value.1 <==> d in drives && d.path != path
  {
    LastAtIs(drives, path, i);
    Quarantine.WithoutExact(drives, path);
    hide TeardownDrive, LastAt, Without;
  }

  // ---- any number of cycles ----

  predicate FromCollector(e: Event) {
    e.Added? || e.Removed?
  }

  function Collected(events: seq<Event>): seq<Event> {
    if events == [] then []
    else (if FromCollector(events[0]) then [events[0]] else []) + Collected(events[1..])
  }

  /** Errors, reinstatements and wakeups may come in between: they change no device's place in the list. */
  lemma {:induction false} OthersIrrelevant(ps: seq<DevPath>, events: seq<Event>)
    ensures Replay(ps, events) == Replay(ps, Collected(events))
    decreases |events|
  {
    if events != [] {
      OthersIrrelevant(PathsAfter(ps, events[0]), events[1..]);
      assert Collected(events)[if FromCollector(events[0]) then 1 else 0..] == Collected(events[1..]);
    }
  }

  /** One path stands for one device at all times, and for one that no other path stands for. */
  ghost predicate Stable(scans: seq<Scan>) {
    forall i, j, g, h :: 0 <= i < |scans| && 0 <= j < |scans| && g in scans[i].existing && h in scans[j].existing ==>
      (scans[i].existing[g] == scans[j].existing[h] <==> g == h)
  }

  ghost predicate History(scans: seq<Scan>, known: seq<map<string, DevPath>>, removed: seq<seq<Event>>, added: seq<seq<Event>>) {
    && |known| == |scans| + 1 && |removed| == |scans| && |added| == |scans| && known[0] == map[]
    && forall i :: 0 <= i < |scans| ==> Cycled(known[i], scans[i], removed[i], added[i], known[i + 1])
  }

  /** The devices managed after the batches of the first `n` cycles. */
  function Managed(removed: seq<seq<Event>>, added: seq<seq<Event>>, n: nat): seq<DevPath>
    requires n <= |removed| == |added|
  {
    if n == 0 then [] else Replay(Replay(Managed(removed, added, n - 1), removed[n - 1]), added[n - 1])
  }

  /** Path `g` is there in scan `n`, and was eligible in the scan where it was first seen since its last
    absence. */
  predicate Tracked(scans: seq<Scan>, n: nat, g: string)
    requires n < |scans|
  {
    && g in scans[n].existing
    && if n > 0 && g in scans[n - 1].existing then Tracked(scans, n - 1, g)
       else scans[n].probe(scans[n].existing[g]).Some?
  }

  ghost predicate NoRepeats(ps: seq<DevPath>) {
    forall i, j :: 0 <= i < j < |ps| ==> ps[i] != ps[j]
  }

  lemma {:induction false} DroppedMember(ps: seq<DevPath>, path: DevPath)
    ensures forall p :: p in Dropped(ps, path) <==> p in ps && p != path
    ensures NoRepeats(ps) ==> NoRepeats(Dropped(ps, path))
  {
    if ps != [] {
      var tail := ps[1..];
      DroppedMember(tail, path);
      assert forall p :: p in ps <==> p == ps[0] || p in tail;
      if NoRepeats(ps) {
        assert NoRepeats(tail);
        assert ps[0] !in tail;
        assert ps[0] !in Dropped(tail, path);
      }
    }
  }

  lemma {:induction false} ReplayRemoved(ps: seq<DevPath>, known: map<string, DevPath>, gone: seq<string>)
    requires forall g :: g in gone ==> g in known
    ensures var r := Replay(ps, RemovedBatch(known, gone));
      && (forall p :: p in r <==> p in ps && forall g :: g in gone ==> known[g] != p)
      && (NoRepeats(ps) ==> NoRepeats(r))
    decreases |gone|
  {
    if gone != [] {
      var tail := gone[1..];
      assert forall g :: g in gone <==> g == gone[0] || g in tail;
      DroppedMember(ps, known[gone[0]]);
      ReplayRemoved(Dropped(ps, known[gone[0]]), known, tail);
      assert RemovedBatch(known, gone)[1..] == RemovedBatch(known, tail);
      hide NoRepeats, Dropped;
    }
  }

  ghost predicate Reported(scan: Scan, news: seq<string>, p: DevPath) {
    exists g :: g in news && g in scan.existing && scan.existing[g] == p && scan.probe(p).Some?
  }

  ghost predicate Apart(scan: Scan, news: seq<string>) {
    forall i, j :: 0 <= i < j < |news| && news[i] in scan.existing && news[j] in scan.existing ==>
      scan.existing[news[i]] != scan.existing[news[j]]
  }

  lemma {:induction false} ReplayAdded(ps: seq<DevPath>, scan: Scan, news: seq<string>)
    requires forall g :: g in news ==> g in scan.existing
    ensures var r := Replay(ps, AddedBatch(scan, news));
      && (forall p :: p in r <==> p in ps || Reported(scan, news, p))
      && (NoRepeats(ps) && Apart(scan, news) && (forall g :: g in news ==> scan.existing[g] !in ps) ==> NoRepeats(r))
    decreases |news|
  {
    if news != [] {
      var tail, dev := news[1..], scan.existing[news[0]];
      assert forall g :: g in news <==> g == news[0] || g in tail;
      var ps' := if scan.probe(dev).Some? then ps + [dev] else ps;
      ReplayAdded(ps', scan, tail);
      var batch := AddedBatch(scan, news);
      assert scan.probe(dev).Some? ==> batch[1..] == AddedBatch(scan, tail) && batch[0].path == dev;
      assert scan.probe(dev).None? ==> batch == AddedBatch(scan, tail);
      assert Replay(ps, batch) == Replay(ps', AddedBatch(scan, tail));
      if Apart(scan, news) {
        ApartTail(scan, news);
      }
      ReportedTail(scan, news);
      hide NoRepeats, Apart, Reported;
      NoRepeatsMore(ps, dev);
    }
  }

  lemma ReportedTail(scan: Scan, news: seq<string>)
    requires news != [] && forall g :: g in news ==> g in scan.existing
    ensures forall p :: Reported(scan, news, p) <==>
      Reported(scan, news[1..], p) || (p == scan.existing[news[0]] && scan.probe(p).Some?)
  {
    assert forall g :: g in news <==> g == news[0] || g in news[1..];
  }

  lemma NoRepeatsMore(ps: seq<DevPath>, p: DevPath)
    ensures NoRepeats(ps) && p !in ps ==> NoRepeats(ps + [p])
  {
  }

  lemma ApartTail(scan: Scan, news: seq<string>)
    requires news != [] && Apart(scan, news) && forall g :: g in news ==> g in scan.existing
    ensures Apart(scan, news[1..])
    ensures forall g :: g in news[1..] ==> scan.existing[g] != scan.existing[news[0]]
  {
    var tail := news[1..];
    forall i, j | 0 <= i < j < |tail| ensures scan.existing[tail[i]] != scan.existing[tail[j]] {
      assert tail[i] == news[i + 1] && tail[j] == news[j + 1];
    }
    forall g | g in tail ensures scan.existing[g] != scan.existing[news[0]] {
      var j :| 0 <= j < |tail| && tail[j] == g;
      assert news[j + 1] == g;
    }
  }

  /** After `n` cycles the collector knows what the last scan showed, and the managed devices are exactly
    those of tracked paths, each once. */
  ghost predicate UpToDate(scans: seq<Scan>, known: map<string, DevPath>, ps: seq<DevPath>, n: nat)
    requires n <= |scans|
  {
    && known == (if n == 0 then map[] else scans[n - 1].existing)
    && NoRepeats(ps)
    && forall p :: p in ps <==> Follows(scans, p, n)
  }

  ghost predicate Follows(scans: seq<Scan>, p: DevPath, n: nat)
    requires n <= |scans|
  {
    n > 0 && exists g :: StandsFor(scans, g, p, n)
  }

  /** In the last of the first `n` scans, `g` is a tracked path of device `p`. */
  predicate StandsFor(scans: seq<Scan>, g: string, p: DevPath, n: nat)
    requires 0 < n <= |scans|
  {
    Tracked(scans, n - 1, g) && scans[n - 1].existing[g] == p
  }

  lemma StillMerged(scans: seq<Scan>, known: map<string, DevPath>, n: nat)
    requires n < |scans| && Stable(scans) && known == if n == 0 then map[] else scans[n - 1].existing
    ensures Merged(known, scans[n].existing) == scans[n].existing
  {
  }

  lemma NewsApart(scans: seq<Scan>, n: nat, news: seq<string>, s: set<string>)
    requires n < |scans| && Stable(scans) && Lists(news, s)
    ensures Apart(scans[n], news)
  {
  }

  /** One cycle. */
  lemma CycleKeeps(scans: seq<Scan>, known: map<string, DevPath>, ps: seq<DevPath>, n: nat,
                   removed: seq<Event>, added: seq<Event>, known': map<string, DevPath>)
    requires n < |scans| && Stable(scans) && UpToDate(scans, known, ps, n)
    requires Cycled(known, scans[n], removed, added, known')
    ensures UpToDate(scans, known', Replay(Replay(ps, removed), added), n + 1)
  {
    var scan := scans[n];
    var gone :| Lists(gone, known.Keys - scan.existing.Keys) && removed == RemovedBatch(known, gone);
    var news :| Lists(news, scan.existing.Keys - known.Keys) && added == AddedBatch(scan, news);
    StillMerged(scans, known, n);
    NewsApart(scans, n, news, scan.existing.Keys - known.Keys);
    ReplayRemoved(ps, known, gone);
    var left := Replay(ps, removed);
    ReplayAdded(left, scan, news);
    hide NoRepeats, Apart, Replay, RemovedBatch, AddedBatch, Merged;
    forall g | g in news ensures scan.existing[g] !in left {
      assert g !in known;
    }
    forall p ensures p in Replay(left, added) <==> Follows(scans, p, n + 1) {
      CycleMember(scans, known, ps, n, gone, news, left, p);
    }
  }

  lemma CycleMember(scans: seq<Scan>, known: map<string, DevPath>, ps: seq<DevPath>, n: nat,
                    gone: seq<string>, news: seq<string>, left: seq<DevPath>, p: DevPath)
    requires n < |scans| && Stable(scans) && UpToDate(scans, known, ps, n)
    requires Lists(gone, known.Keys - scans[n].existing.Keys) && Lists(news, scans[n].existing.Keys - known.Keys)
    requires p in left <==> p in ps && forall g :: g in gone ==> known[g] != p
    ensures p in left || Reported(scans[n], news, p) <==> Follows(scans, p, n + 1)
  {
    hide NoRepeats;
    var scan := scans[n];
    if p in left {
      var g :| n > 0 && StandsFor(scans, g, p, n);
      assert g in known && g !in gone;
      assert StandsFor(scans, g, p, n + 1);
    }
    if Reported(scan, news, p) {
      var g :| g in news && g in scan.existing && scan.existing[g] == p && scan.probe(p).Some?;
      assert StandsFor(scans, g, p, n + 1);
    }
    if Follows(scans, p, n + 1) {
      var g :| StandsFor(scans, g, p, n + 1);
      if g in known {
        assert n > 0 && StandsFor(scans, g, p, n);
        assert Follows(scans, p, n) && p in ps;
        forall h | h in gone ensures known[h] != p {
          assert h != g && h in scans[n - 1].existing;
        }
      } else {
        assert g in news;
        assert Reported(scan, news, p);
      }
    }
  }

  /** Event replay: over any sequence of scans, the devices managed in the end are exactly those whose path
    is in the last scan and was eligible when it was first seen since it was last absent, each once. */
  lemma {:induction false} EventReplay(scans: seq<Scan>, known: seq<map<string, DevPath>>,
                                       removed: seq<seq<Event>>, added: seq<seq<Event>>, n: nat)
    requires Stable(scans) && History(scans, known, removed, added) && n <= |scans|
    ensures NoRepeats(Managed(removed, added, n))
    ensures forall p :: p in Managed(removed, added, n) <==> n > 0 && exists g :: StandsFor(scans, g, p, n)
    ensures UpToDate(scans, known[n], Managed(removed, added, n), n)
  {
    hide Stable, Cycled, NoRepeats, Replay;
    if n == 0 {
      assert NoRepeats([]) by { NothingRepeats(); }
    } else {
      EventReplay(scans, known, removed, added, n - 1);
      CycleKeeps(scans, known[n - 1], Managed(removed, added, n - 1), n - 1, removed[n - 1], added[n - 1], known[n]);
    }
    assert forall p :: p in Managed(removed, added, n) <==> Follows(scans, p, n);
  }

  lemma NothingRepeats()
    ensures NoRepeats([])
  {
  }
}
