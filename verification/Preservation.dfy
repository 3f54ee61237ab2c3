/** Data preservation: whatever fails, and in whatever state the drives are, nothing that is on a disk
  is ever formatted away, and every format adds exactly one layer. */
module Preservation {
  import opened Names
  import opened Tables
  import opened Kernels
  import opened Machine
  import opened Convergers
  import opened Commands
  import opened Runs

  /** Every disk of `k` is still there, with everything it held. */
  ghost predicate Kept(k: Kernel, k': Kernel) {
    forall n :: n in k.disks ==> n in k'.disks && Grows(k.disks[n], k'.disks[n])
  }

  lemma KeptReflexive(k: Kernel, k': Kernel)
    requires k.disks == k'.disks
    ensures Kept(k, k')
  {
    forall n | n in k.disks ensures Grows(k.disks[n], k'.disks[n]) {
      GrowsReflexive(k.disks[n]);
    }
  }

  lemma KeptTransitive(a: Kernel, b: Kernel, c: Kernel)
    requires Kept(a, b) && Kept(b, c)
    ensures Kept(a, c)
  {
    forall n | n in a.disks ensures Grows(a.disks[n], c.disks[n]) {
      GrowsTransitive(a.disks[n], b.disks[n], c.disks[n]);
    }
  }

  lemma WithContentKept(k: Kernel, dev: DevPath, x: Content)
    requires ContentAt(k, dev).Some? && Grows(ContentAt(k, dev).value, x)
    ensures Kept(k, WithContent(k, dev, x))
  {
    hide Grows;
    var loc := LocOf(k, dev).value;
    GraftGrows(k.disks[loc.disk], loc.depth, x);
    forall n | n in k.disks ensures Grows(k.disks[n], WithContent(k, dev, x).disks[n]) {
      GrowsReflexive(k.disks[n]);
    }
  }

  lemma EffectKept(k: Kernel, e: Entry)
    requires Legal(k, e)
    ensures Kept(k, After(k, e))
  {
    hide Kept, WithContent;
    if e.ok && e.cmd.Mkfs? {
      WithContentKept(k, e.cmd.dev, Xfs(""));
    } else if e.ok && e.cmd.LuksFormat? {
      WithContentKept(k, e.cmd.dev, Luks(e.cmd.key, Blank));
    } else if e.ok && e.cmd.WriteId? {
      var c := VisibleAt(k, e.cmd.path);
      if c.Some? && c.value.Xfs? {
        WithContentKept(k, TopAt(k.local, e.cmd.path).value, Xfs(e.cmd.id));
      } else {
        KeptReflexive(k, After(k, e));
      }
    } else {
      KeptReflexive(k, After(k, e));
    }
  }

  lemma {:induction false} TraceKept(k: Kernel, es: seq<Entry>, k': Kernel)
    requires Trace(k, es, k')
    ensures Kept(k, k')
    decreases |es|
  {
    hide Kept, After, Legal;
    if es == [] {
      KeptReflexive(k, k');
    } else {
      EffectKept(k, es[0]);
      TraceKept(After(k, es[0]), es[1..], k');
      KeptTransitive(k, After(k, es[0]), k');
    }
  }

  /** Over every run with any failures, and any drives to begin with: as long as the outside world keeps
    the contents of the disks, so does the autopilot. */
  lemma {:induction false} RunKeepsData(world: World, cfg: Config, run: seq<State>)
    requires IsRun(world, cfg, run)
    requires forall s: State, k, events :: world(s, k, events) ==> Kept(s.os.k, k)
    ensures Kept(run[0].os.k, run[|run| - 1].os.k)
    decreases |run|
  {
    hide Kept, Step, Begin, Trace;
    var n := |run| - 1;
    if n == 0 {
      KeptReflexive(run[0].os.k, run[0].os.k);
    } else {
      RunKeepsData(world, cfg, run[..n]);
      var s, t := run[n - 1], run[n];
      assert Next(world, cfg, s, t);
      if s.phase.Idle? {
        var k, events :| world(s, k, events) && t == Begin(s, k, events);
        BeginKernel(s, k, events);
      } else {
        StepRan(s, cfg);
        TraceKept(s.os.k, Since(s.os, t.os), t.os.k);
      }
      KeptTransitive(run[0].os.k, s.os.k, t.os.k);
    }
  }

  lemma BeginKernel(s: State, k: Kernel, events: seq<Event>)
    ensures Begin(s, k, events).os.k == k
  {
  }

  // ---- each layer is created at most once ----

  function Layers(c: Content): nat {
    match c
    case Blank => 0
    case Xfs(_) => 1
    case Luks(_, inner) => 1 + Layers(inner)
  }

  /** 1 for a format that succeeded on disk `n`, 0 for anything else. */
  ghost function FormattedHere(k: Kernel, e: Entry, n: string): nat {
    if e.ok && (e.cmd.Mkfs? || e.cmd.LuksFormat?) && LocOf(k, e.cmd.dev).Some? && LocOf(k, e.cmd.dev).value.disk == n then 1 else 0
  }

  ghost function Formats(k: Kernel, es: seq<Entry>, k': Kernel, n: string): nat
    requires Trace(k, es, k')
    decreases |es|
  {
    if es == [] then 0 else FormattedHere(k, es[0], n) + Formats(After(k, es[0]), es[1..], k', n)
  }

  lemma {:induction false} GraftLayers(c: Content, depth: nat, x: Content)
    requires Peel(c, depth).Some?
    ensures Layers(Graft(c, depth, x)) == Layers(c) - Layers(Peel(c, depth).value) + Layers(x)
    ensures Layers(Peel(c, depth).value) <= Layers(c)
  {
    if depth > 0 {
      GraftLayers(c.inner, depth - 1, x);
    }
  }

  lemma WithContentLayers(k: Kernel, dev: DevPath, x: Content, n: string)
    requires ContentAt(k, dev).Some? && n in k.disks
    ensures n in WithContent(k, dev, x).disks
    ensures Layers(WithContent(k, dev, x).disks[n]) ==
      if LocOf(k, dev).value.disk == n then Layers(k.disks[n]) - Layers(ContentAt(k, dev).value) + Layers(x) else Layers(k.disks[n])
  {
    var loc := LocOf(k, dev).value;
    GraftLayers(k.disks[loc.disk], loc.depth, x);
  }

  lemma EffectLayers(k: Kernel, e: Entry, n: string)
    requires Legal(k, e) && n in k.disks
    ensures n in After(k, e).disks
    ensures Layers(After(k, e).disks[n]) == Layers(k.disks[n]) + FormattedHere(k, e, n)
  {
    hide WithContent;
    if e.ok && e.cmd.Mkfs? {
      WithContentLayers(k, e.cmd.dev, Xfs(""), n);
    } else if e.ok && e.cmd.LuksFormat? {
      WithContentLayers(k, e.cmd.dev, Luks(e.cmd.key, Blank), n);
    } else if e.ok && e.cmd.WriteId? {
      var c := VisibleAt(k, e.cmd.path);
      if c.Some? && c.value.Xfs? {
        WithContentLayers(k, TopAt(k.local, e.cmd.path).value, Xfs(e.cmd.id), n);
      }
    }
  }

  /** Conservation: the layers a disk has gained are exactly the formats that succeeded on it. As `Kept`
    says no layer is ever lost, none is created twice. */
  lemma {:induction false} LayersConserved(k: Kernel, es: seq<Entry>, k': Kernel, n: string)
    requires Trace(k, es, k') && n in k.disks
    ensures n in k'.disks && Layers(k'.disks[n]) == Layers(k.disks[n]) + Formats(k, es, k', n)
    decreases |es|
  {
    hide After, Legal, FormattedHere, Layers;
    if es != [] {
      EffectLayers(k, es[0], n);
      LayersConserved(After(k, es[0]), es[1..], k', n);
    }
  }

  /** For one step of the converger, from any state. */
  lemma StepConserves(st: State, cfg: Config, n: string)
    requires Step(st, cfg).Some? && n in st.os.k.disks
    ensures var t := Step(st, cfg).value;
      && st.os.log <= t.os.log && Trace(st.os.k, Since(st.os, t.os), t.os.k)
      && n in t.os.k.disks
      && Layers(t.os.k.disks[n]) == Layers(st.os.k.disks[n]) + Formats(st.os.k, Since(st.os, t.os), t.os.k, n)
  {
    hide Step, Trace, Layers, Formats;
    StepRan(st, cfg);
    LayersConserved(st.os.k, Since(st.os, Step(st, cfg).value.os), Step(st, cfg).value.os.k, n);
  }
}
