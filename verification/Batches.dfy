/** Disks that join a fleet one at a time, each with an iteration of its own, get the same swift-ids as disks that
  join all at once. */
module Batches {
  import opened Names
  import opened Kernels
  import opened Machine
  import opened Drives
  import opened Convergers
  import opened Fleets
  import opened Recovery
  import opened Outcomes
  import opened Pools
  import opened Restarts
  import opened RoundMoments
  import opened IterationCourse
  import opened CrashRecovery
  import Assignments
  import Chains
  import Safety

  /** The last state of an iteration. */
  function Last(it: seq<State>): State
    requires it != []
  {
    it[|it| - 1]
  }

  /** Disks without a swift-id join the drives that `was` has, whose ids are as `was` left them. */
  ghost predicate Joins(cfg: Config, was: State, it: seq<State>, ats: seq<Option<Path>>, ts: seq<NamedDisk>) {
    && Good(cfg, it) && OnDisks(it[0]) && Legible(PlanOf(cfg, it[0], ats))
    && it[0].drives == was.drives && JoinedDisks(it[0].phase.events) == ts
    && IdsOf(it[0].os.k, NamesOf(was.drives)) == IdsOf(was.os.k, NamesOf(was.drives))
    && forall t :: t in ts ==> IdOn(it[0].os.k, t.disk) == ""
  }

  lemma PassEmpty(ids: seq<string>, pool: seq<string>)
    ensures Final(ids, pool) == Pass(ids, pool)
  {
    if pool == [] {
      FillNothing(ids, TakenIds(ids));
    }
  }

  lemma {:induction false} FillNothing(ids: seq<string>, taken: set<string>)
    ensures Fill(ids, [], taken) == ids
    decreases |ids|
  {
    if ids != [] {
      FillNothing(ids[1..], taken);
    }
  }

  lemma IdsOfConcat(k: Kernel, a: seq<NamedDisk>, b: seq<NamedDisk>)
    ensures IdsOf(k, a + b) == IdsOf(k, a) + IdsOf(k, b)
  {
    hide IdOn;
  }

  lemma {:induction false} BlankIds(k: Kernel, ts: seq<NamedDisk>)
    requires forall t :: t in ts ==> IdOn(k, t.disk) == ""
    ensures IdsOf(k, ts) == Blanks(|ts|)
    decreases |ts|
  {
    hide IdOn;
    if ts != [] {
      var n := |ts| - 1;
      assert ts == ts[..n] + [ts[n]];
      assert forall t :: t in ts[..n] ==> t in ts;
      assert ts[n] in ts;
      BlankIds(k, ts[..n]);
      IdsOfConcat(k, ts[..n], [ts[n]]);
      assert IdsOf(k, [ts[n]]) == [""];
    }
  }

  lemma EndNames(pl: Plan, s: State)
    requires Course(pl, s) && s.phase.Idle?
    ensures (forall d :: d in s.drives ==> d.path.Disk?) && NamesOf(s.drives) == pl.disks
    ensures IdsOf(s.os.k, pl.disks) == Final(Ids0(pl), pl.cfg.pool)
  {
    hide Suits, Want, Final, Spots, Ids0, At, Shapes, AllFull, Planned;
    assert forall j :: 0 <= j < |s.drives| ==> Working(s.drives[j], pl.disks[j], pl.cfg.keys);
    forall d | d in s.drives ensures d.path.Disk? {
      var j :| 0 <= j < |s.drives| && s.drives[j] == d;
    }
  }

  lemma StartIds(cfg: Config, s: State, ats: seq<Option<Path>>)
    requires OnDisks(s)
    ensures Ids0(PlanOf(cfg, s, ats)) == IdsOf(s.os.k, NamesOf(s.drives) + JoinedDisks(s.phase.events))
    ensures PlanOf(cfg, s, ats).disks == NamesOf(s.drives) + JoinedDisks(s.phase.events)
  {
  }

  /** An iteration that new disks join is one pass over the ids on all disks. */
  lemma JoinPasses(cfg: Config, was: State, it: seq<State>, ats: seq<Option<Path>>, ts: seq<NamedDisk>)
    requires (forall d :: d in was.drives ==> d.path.Disk?) && Joins(cfg, was, it, ats, ts)
    ensures var s := Last(it);
      && (forall d :: d in s.drives ==> d.path.Disk?) && NamesOf(s.drives) == NamesOf(was.drives) + ts
      && IdsOf(s.os.k, NamesOf(s.drives)) == Pass(IdsOf(was.os.k, NamesOf(was.drives)) + Blanks(|ts|), cfg.pool)
    ensures Plain(IdsOf(was.os.k, NamesOf(was.drives)) + Blanks(|ts|)) && SpareOrdered(cfg.pool, 0)
  {
    var pl, k := PlanOf(cfg, it[0], ats), it[0].os.k;
    GoodEnds(cfg, it, ats);
    PlanCfg(cfg, it[0], ats);
    StartIds(cfg, it[0], ats);
    hide Good, PlanOf, Course, IdOn, Fill, TakenIds, Safety.AtGoal, SpareOrdered, Plain, IdsOf, Final, Pass, NamesOf;
    EndNames(pl, Last(it));
    IdsOfConcat(k, NamesOf(was.drives), ts);
    BlankIds(k, ts);
    PassEmpty(Ids0(pl), cfg.pool);
  }

  /** `was`, then one iteration for each disk of `ts`, in order. */
  ghost predicate JoinInTurn(cfg: Config, was: State, its: seq<seq<State>>, atss: seq<seq<Option<Path>>>, ts: seq<NamedDisk>) {
    && |its| == |atss| == |ts| && (forall n :: 0 <= n < |its| ==> its[n] != [])
    && forall n :: 0 <= n < |its| ==> Joins(cfg, if n == 0 then was else Last(its[n - 1]), its[n], atss[n], [ts[n]])
  }

  lemma {:induction false} InTurnPasses(cfg: Config, was: State, its: seq<seq<State>>, atss: seq<seq<Option<Path>>>, ts: seq<NamedDisk>, m: nat)
    requires (forall d :: d in was.drives ==> d.path.Disk?) && JoinInTurn(cfg, was, its, atss, ts) && 0 < m <= |its|
    ensures var s := Last(its[m - 1]);
      && (forall d :: d in s.drives ==> d.path.Disk?) && NamesOf(s.drives) == NamesOf(was.drives) + ts[..m]
      && IdsOf(s.os.k, NamesOf(s.drives)) == Pass(IdsOf(was.os.k, NamesOf(was.drives)) + Blanks(m), cfg.pool)
    ensures Plain(IdsOf(was.os.k, NamesOf(was.drives)) + Blanks(1)) && SpareOrdered(cfg.pool, 0)
    decreases m
  {
    hide Joins, Pass, IdsOf, SpareOrdered, Plain, NamesOf;
    var n := m - 1;
    var ids := IdsOf(was.os.k, NamesOf(was.drives));
    assert ts[..m] == ts[..n] + [ts[n]];
    if n == 0 {
      JoinPasses(cfg, was, its[0], atss[0], [ts[0]]);
    } else {
      InTurnPasses(cfg, was, its, atss, ts, n);
      JoinPasses(cfg, Last(its[n - 1]), its[n], atss[n], [ts[n]]);
      PlainFirst(ids, Blanks(1));
      PassOneMore(ids, cfg.pool, n);
      assert Blanks(1) == [""];
      assert NamesOf(was.drives) + ts[..n] + [ts[n]] == NamesOf(was.drives) + ts[..m];
    }
  }

  lemma PlainFirst(ids: seq<string>, more: seq<string>)
    requires Plain(ids + more)
    ensures Plain(ids)
  {
    hide Assignments.IsSpareName;
    assert forall id :: id in ids ==> id in ids + more;
  }

  /** Batch equals incremental: disks without swift-ids that join a fleet one by one, each with an iteration of its
    own in which the whole fleet is read again, end up with the same swift-ids as if they had joined in one
    batch; and so do all disks that were there before. */
  lemma BatchEqualsOneByOne(cfg: Config, was: State, its: seq<seq<State>>, atss: seq<seq<Option<Path>>>,
                            all: seq<State>, ats: seq<Option<Path>>, ts: seq<NamedDisk>)
    requires (forall d :: d in was.drives ==> d.path.Disk?) && ts != []
    requires JoinInTurn(cfg, was, its, atss, ts) && Joins(cfg, was, all, ats, ts)
    ensures var s, t := Last(its[|its| - 1]), Last(all);
      && (forall d :: d in s.drives ==> d.path.Disk?) && (forall d :: d in t.drives ==> d.path.Disk?)
      && NamesOf(s.drives) == NamesOf(t.drives) == NamesOf(was.drives) + ts
      && IdsOf(s.os.k, NamesOf(s.drives)) == IdsOf(t.os.k, NamesOf(t.drives))
  {
    hide Joins, Pass, IdsOf, SpareOrdered, Plain, NamesOf;
    InTurnPasses(cfg, was, its, atss, ts, |its|);
    JoinPasses(cfg, was, all, ats, ts);
    assert ts[..|its|] == ts;
  }
}
