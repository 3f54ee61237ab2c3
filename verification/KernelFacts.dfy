/** What the kernel guarantees by itself, kept by every safe command. */
module KernelFacts {
  import opened Names
  import opened Tables
  import opened Kernels
  import opened Machine

  predicate IsEntry(k: Kernel, m: Mount) {
    m in k.host || m in k.local
  }

  predicate On(k: Kernel, dev: DevPath, disk: string) {
    LocOf(k, dev).Some? && LocOf(k, dev).value.disk == disk
  }

  function Below(at: Loc): Loc
    requires at.depth > 0
  {
    at.(depth := at.depth - 1)
  }

  function ContentOf(k: Kernel, at: Loc): Option<Content> {
    if at.disk in k.disks then Peel(k.disks[at.disk], at.depth) else None
  }

  /** Every slot exposes what is inside the container at its backing device, and no container is open
    twice. */
  ghost predicate SlotsOk(k: Kernel) {
    && (forall m :: m in k.slots ==> SlotOk(k, k.slots[m]))
    && (forall m, m' :: m in k.slots && m' in k.slots && k.slots[m].at == k.slots[m'].at ==> m == m')
  }

  ghost predicate SlotOk(k: Kernel, s: Slot) {
    && s.at.depth > 0
    && LocOf(k, s.backing) == Some(Below(s.at))
    && ContentOf(k, Below(s.at)).Some? && ContentOf(k, Below(s.at)).value.Luks?
  }

  /** Whatever is mounted holds a filesystem. */
  ghost predicate MountsOk(k: Kernel) {
    forall m :: IsEntry(k, m) ==> ContentAt(k, m.dev).Some? && ContentAt(k, m.dev).value.Xfs?
  }

  ghost predicate WfK(k: Kernel) {
    SlotsOk(k) && MountsOk(k)
  }

  // ---- contents along one disk ----

  /** Only one layer of a disk is not a container. */
  lemma {:induction false} OneLeaf(c: Content, i: nat, j: nat)
    requires Peel(c, i).Some? && !Peel(c, i).value.Luks?
    requires Peel(c, j).Some? && !Peel(c, j).value.Luks?
    ensures i == j
  {
    if i > 0 && j > 0 {
      OneLeaf(c.inner, i - 1, j - 1);
    }
  }

  /** Writing to the layer at `depth`, which was no container, leaves all containers above as they are. */
  lemma {:induction false} GraftAbove(c: Content, depth: nat, x: Content, i: nat)
    requires Peel(c, depth).Some? && !Peel(c, depth).value.Luks?
    ensures Peel(Graft(c, depth, x), depth) == Some(x)
    ensures i < depth ==> Peel(Graft(c, depth, x), i).Some? && Peel(Graft(c, depth, x), i).value.Luks?
                          && Peel(c, i).Some? && Peel(c, i).value.Luks? && Peel(c, i).value.key == Peel(Graft(c, depth, x), i).value.key
    ensures i > depth ==> Peel(c, i).None?
  {
    if depth > 0 {
      GraftAbove(c.inner, depth - 1, x, if i > 0 then i - 1 else 0);
    }
  }

  /** The kinds of all layers but the one written to. */
  lemma WriteElsewhere(k: Kernel, dev: DevPath, x: Content, at: Loc)
    requires ContentAt(k, dev).Some? && !ContentAt(k, dev).value.Luks? && ContentOf(k, at).Some?
    ensures ContentOf(WithContent(k, dev, x), at).Some?
    ensures at == LocOf(k, dev).value ==> ContentOf(WithContent(k, dev, x), at) == Some(x)
    ensures at != LocOf(k, dev).value ==> ContentOf(WithContent(k, dev, x), at).value.Luks? == ContentOf(k, at).value.Luks?
    ensures at != LocOf(k, dev).value && !ContentOf(k, at).value.Luks? ==> ContentOf(WithContent(k, dev, x), at) == ContentOf(k, at)
  {
    var loc := LocOf(k, dev).value;
    if at.disk == loc.disk {
      GraftAbove(k.disks[loc.disk], loc.depth, x, at.depth);
    }
  }

  lemma WriteSlots(k: Kernel, dev: DevPath, x: Content)
    requires SlotsOk(k) && ContentAt(k, dev).Some? && !ContentAt(k, dev).value.Luks?
    ensures SlotsOk(WithContent(k, dev, x))
  {
    var k' := WithContent(k, dev, x);
    forall m | m in k'.slots ensures SlotOk(k', k'.slots[m]) {
      assert SlotOk(k, k.slots[m]);
      WriteElsewhere(k, dev, x, Below(k.slots[m].at));
    }
  }

  lemma WriteMounts(k: Kernel, dev: DevPath, x: Content)
    requires MountsOk(k) && ContentAt(k, dev).Some? && !ContentAt(k, dev).value.Luks?
    requires ContentAt(k, dev).value.Xfs? ==> x.Xfs?
    ensures MountsOk(WithContent(k, dev, x))
  {
    var k' := WithContent(k, dev, x);
    forall m | IsEntry(k', m) ensures ContentAt(k', m.dev).Some? && ContentAt(k', m.dev).value.Xfs? {
      assert IsEntry(k, m);
      WriteElsewhere(k, dev, x, LocOf(k, m.dev).value);
    }
  }

  // ---- commands ----

  lemma OpenSlots(k: Kernel, dev: DevPath, name: string, key: string)
    requires SlotsOk(k) && Can(k, LuksOpen(dev, name, key))
    ensures SlotsOk(Effect(k, LuksOpen(dev, name, key)))
  {
    hide Peel;
    var k' := Effect(k, LuksOpen(dev, name, key));
    forall m | m in k'.slots ensures SlotOk(k', k'.slots[m]) {
      if m != name {
        assert SlotOk(k, k.slots[m]);
      }
    }
    forall m, m' | m in k'.slots && m' in k'.slots && k'.slots[m].at == k'.slots[m'].at ensures m == m' {
      assert !SlotAt(k, Inside(k, dev));
    }
  }

  lemma OpenMounts(k: Kernel, dev: DevPath, name: string, key: string)
    requires MountsOk(k) && Can(k, LuksOpen(dev, name, key))
    ensures MountsOk(Effect(k, LuksOpen(dev, name, key)))
  {
    hide Peel;
    var k' := Effect(k, LuksOpen(dev, name, key));
    forall m | IsEntry(k', m) ensures ContentAt(k', m.dev).Some? && ContentAt(k', m.dev).value.Xfs? {
      assert IsEntry(k, m);
      assert ContentAt(k', m.dev) == ContentAt(k, m.dev);
    }
  }

  lemma CloseSlots(k: Kernel, name: string)
    requires SlotsOk(k) && Can(k, LuksClose(name))
    ensures SlotsOk(Effect(k, LuksClose(name)))
  {
    hide Peel;
    var k' := Effect(k, LuksClose(name));
    forall m | m in k'.slots ensures SlotOk(k', k'.slots[m]) {
      assert SlotOk(k, k.slots[m]);
      assert k.slots[m].backing != Mapper(name);
    }
  }

  lemma CloseMounts(k: Kernel, name: string)
    requires MountsOk(k) && Can(k, LuksClose(name))
    ensures MountsOk(Effect(k, LuksClose(name)))
  {
    hide Peel;
    var k' := Effect(k, LuksClose(name));
    forall m | IsEntry(k', m) ensures ContentAt(k', m.dev).Some? && ContentAt(k', m.dev).value.Xfs? {
      assert IsEntry(k, m);
      assert m.dev != Mapper(name);
    }
  }

  lemma CloseWf(k: Kernel, name: string)
    requires WfK(k) && Can(k, LuksClose(name))
    ensures WfK(Effect(k, LuksClose(name)))
  {
    hide SlotsOk, MountsOk, Effect, Can;
    CloseSlots(k, name);
    CloseMounts(k, name);
  }

  lemma TablesWf(k: Kernel, k': Kernel)
    requires WfK(k) && k' == k.(host := k'.host, local := k'.local, transient := k'.transient)
    requires forall m :: IsEntry(k', m) ==> IsEntry(k, m) || (ContentAt(k, m.dev).Some? && ContentAt(k, m.dev).value.Xfs?)
    ensures WfK(k')
  {
    forall m | m in k'.slots ensures SlotOk(k', k'.slots[m]) {
      assert SlotOk(k, k.slots[m]);
    }
  }

  lemma EffectWf(k: Kernel, e: Entry)
    requires WfK(k) && Legal(k, e)
    ensures WfK(After(k, e))
  {
    hide SlotsOk, MountsOk, WithContent;
    if e.ok {
      var k' := Effect(k, e.cmd);
      match e.cmd
      case Mkfs(dev) =>
        WriteSlots(k, dev, Xfs(""));
        WriteMounts(k, dev, Xfs(""));
      case LuksFormat(dev, key) =>
        WriteSlots(k, dev, Luks(key, Blank));
        WriteMounts(k, dev, Luks(key, Blank));
      case WriteId(path, id) =>
        var c := VisibleAt(k, path);
        if c.Some? && c.value.Xfs? {
          WriteSlots(k, TopAt(k.local, path).value, Xfs(id));
          WriteMounts(k, TopAt(k.local, path).value, Xfs(id));
        }
      case LuksOpen(dev, name, key) =>
        OpenSlots(k, dev, name, key);
        OpenMounts(k, dev, name, key);
      case LuksClose(name) => CloseWf(k, name);
      case MountCmd(dev, path, scope) => TablesWf(k, k');
      case Umount(path, scope) =>
        RemoveLastSubset(k.host, path);
        RemoveLastSubset(k.local, path);
        TablesWf(k, k');
      case SetFlag(_) => TablesWf(k, k');
      case _ =>
    }
  }

  lemma {:induction false} TraceWf(k: Kernel, es: seq<Entry>, k': Kernel)
    requires WfK(k) && Trace(k, es, k')
    ensures WfK(k')
    decreases |es|
  {
    hide WfK, After, Legal;
    if es != [] {
      EffectWf(k, es[0]);
      TraceWf(After(k, es[0]), es[1..], k');
    }
  }

  /** Two mounted devices on one disk are the same device. */
  lemma OneMounted(k: Kernel, d: DevPath, e: DevPath, disk: string)
    requires SlotsOk(k) && On(k, d, disk) && On(k, e, disk)
    requires ContentAt(k, d).Some? && !ContentAt(k, d).value.Luks?
    requires ContentAt(k, e).Some? && !ContentAt(k, e).value.Luks?
    ensures d == e
  {
    OneLeaf(k.disks[disk], LocOf(k, d).value.depth, LocOf(k, e).value.depth);
    DeviceAt(k, d, e);
  }

  /** A location has at most one device file. */
  lemma DeviceAt(k: Kernel, d: DevPath, e: DevPath)
    requires SlotsOk(k) && LocOf(k, d).Some? && LocOf(k, d) == LocOf(k, e)
    ensures d == e
  {
    if d.Mapper? {
      assert SlotOk(k, k.slots[d.name]);
    }
    if e.Mapper? {
      assert SlotOk(k, k.slots[e.name]);
    }
  }

  // ---- swift-ids ----

  /** The swift-id on a disk, wherever its filesystem is. */
  ghost predicate HoldsId(k: Kernel, at: Loc, id: string) {
    ContentOf(k, at) == Some(Xfs(id))
  }

  lemma EffectIds(k: Kernel, e: Entry, at: Loc, id: string)
    requires Legal(k, e) && !e.cmd.WriteId? && HoldsId(k, at, id)
    ensures HoldsId(After(k, e), at, id)
  {
    hide WithContent;
    if e.ok && e.cmd.Mkfs? {
      WriteElsewhere(k, e.cmd.dev, Xfs(""), at);
    } else if e.ok && e.cmd.LuksFormat? {
      WriteElsewhere(k, e.cmd.dev, Luks(e.cmd.key, Blank), at);
    }
  }

  lemma {:induction false} TraceIds(k: Kernel, es: seq<Entry>, k': Kernel, at: Loc, id: string)
    requires Trace(k, es, k') && HoldsId(k, at, id) && forall e :: e in es ==> !e.cmd.WriteId?
    ensures HoldsId(k', at, id)
    decreases |es|
  {
    hide After, Legal, HoldsId;
    if es != [] {
      assert es[0] in es;
      EffectIds(k, es[0], at, id);
      assert forall e :: e in es[1..] ==> e in es;
      TraceIds(After(k, es[0]), es[1..], k', at, id);
    }
  }
}
