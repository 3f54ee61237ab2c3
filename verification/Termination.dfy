/** The recursion through the layers ends: as long as the mapping cache is true to the kernel, each call goes
  strictly deeper, so the checks on the rank in `Devices.Validate` and `Devices.Setup` never fail. */
module Termination {
  import opened Names
  import opened Tables
  import opened Kernels
  import opened KernelFacts
  import opened Machine
  import opened MountCache
  import opened Devices
  import opened DeviceFacts
  import opened Chains
  import opened KeyRotation

  /** Validation discovers layers, but no more than there are containers. */
  lemma {:induction false} ValidateRank(os: Os, d: Dev, at: Loc, driveId: string)
    requires WfK(os.k) && Agree(os) && LuksOk(os) && Reliable(os.fate) && ChainOk(os.k, d, at, driveId)
    ensures Rank(os.k, Validate(os, d).0) <= Rank(os.k, d)
    ensures d.LuksDev? && d.mapped.Some? ==> Validate(os, d).0.mapped.Some?
    decreases Rank(os.k, d)
  {
    hide LuksOk, SlotsOk, MountsOk, ValidateXfs, SlotAt;
    if d.LuksDev? {
      DiscoverChain(os, d, at, driveId);
      hide Discover;
      var (d1, os1, ok) := Discover(os, d);
      if d1.mapped.Some? {
        LuksOkLog(os, os1);
        ValidateRank(os1, d1.mapped.value, Deeper(at), driveId);
      }
    }
  }

  /** `Validate` never runs into its check: the layer it recurses into is of smaller rank. */
  lemma ValidateDescends(os: Os, d: Dev, at: Loc, driveId: string)
    requires d.LuksDev? && WfK(os.k) && Agree(os) && LuksOk(os) && Reliable(os.fate) && ChainOk(os.k, d, at, driveId)
    requires Discover(os, d).0.mapped.Some?
    ensures var (d1, os1, ok) := Discover(os, d);
      ok && Rank(os1.k, d1.mapped.value) < Rank(os.k, d)
  {
    hide LuksOk, WfK, Rank, ChainOk;
    DiscoverChain(os, d, at, driveId);
  }

  lemma FormattedFirst(os: Os, d: Dev, cmd: Cmd)
    requires d.LuksDev? && cmd.LuksFormat? && cmd.dev == d.path && FormatFirst(os, d, cmd).2
    ensures var os1 := FormatFirst(os, d, cmd).1;
      if d.formatted then os1 == os
      else ContentAt(os.k, d.path) == Some(Blank) && ContentAt(os1.k, d.path) == Some(Luks(cmd.key, Blank))
  {
    if !d.formatted {
      var (kind, os1) := ClassifyDevice(os, d.path);
      assert kind.Unknown? ==> ContentAt(os.k, d.path) == Some(Blank);
      WithGiven(os.k, d.path, Luks(cmd.key, Blank));
    }
  }

  lemma NewRank(os: Os, path: DevPath)
    requires NewDevice(os, path, false).0.Some?
    ensures var (m, os') := NewDevice(os, path, false);
      && os'.k == os.k && ContentAt(os.k, path).Some?
      && Rank(os.k, m.value) == if ContentAt(os.k, path).value.Luks? then 1 + Height(ContentAt(os.k, path).value) else 0
  {
  }

  /** A container that has just been opened: what is inside has a smaller rank than the container had. */
  lemma OpenedRank(os: Os, d: Dev, order: Order)
    requires d.LuksDev? && d.mapped.None? && OpenUp(os, d, order).2
    ensures var (d2, os2, _) := OpenUp(os, d, order);
      d2.mapped.Some? && Rank(os2.k, d2.mapped.value) < Rank(os.k, d)
  {
    var cmd := LuksFormat(d.path, order.keys[0]);
    FormattedFirst(os, d, cmd);
    var (d1, os1, _) := FormatFirst(os, d, cmd);
    OpenOnlyByKey(os1, d.path, order.driveId, order.keys);
    var (os2, ok) := OpenContainer(os1, d.path, order.driveId, order.keys);
    assert ok;
    OpenedContent(os1, os2, d.path, order.driveId);
    NewRank(os2, Mapper(order.driveId));
    hide FormatFirst, OpenContainer, NewDevice, ContentAt, Inside, SlotAt;
  }

  /** `Setup` never runs into its check either. */
  lemma SetupDescends(os: Os, d: Dev, order: Order, at: Loc)
    requires d.LuksDev? && WfK(os.k) && Agree(os) && LuksOk(os) && Reliable(os.fate) && ChainOk(os.k, d, at, order.driveId)
    requires Validate(os, d).2 && OpenUp(Validate(os, d).1, Validate(os, d).0, order).2
    ensures var (d2, os2, _) := OpenUp(Validate(os, d).1, Validate(os, d).0, order);
      d2.mapped.Some? && Rank(os2.k, d2.mapped.value) < Rank(os.k, d)
  {
    ValidateRank(os, d, at, order.driveId);
    ValidateChain(os, d, at, order.driveId);
    var (d1, os1, _) := Validate(os, d);
    if d1.mapped.None? {
      OpenedRank(os1, d1, order);
    } else {
      KnownStays(os1, d1, order, at);
    }
  }

  /** A container that is already open has content, so it is not formatted again. */
  lemma KnownStays(os: Os, d: Dev, order: Order, at: Loc)
    requires d.LuksDev? && d.mapped.Some? && WfK(os.k) && ChainOk(os.k, d, at, order.driveId) && OpenUp(os, d, order).2
    ensures OpenUp(os, d, order) == (d, os, true)
  {
    WfSlots(os.k);
    InsideOpen(os.k, d.path, d.mapped.value.path, at);
    FormattedFirst(os, d, LuksFormat(d.path, order.keys[0]));
    hide WfK, OpenInto, ChainOk;
  }
}
