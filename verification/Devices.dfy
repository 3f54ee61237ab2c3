/** Device layers (`XFSDevice`, `LUKSDevice`) as values, with `Validate`, `Setup` and `Teardown`.

  A drive is a chain of layers: any number of LUKS layers around one XFS layer. A LUKS layer whose
  container is closed, or not discovered yet, ends the chain.
 */
module Devices {
  import opened Names
  import opened Tables
  import opened Kernels
  import opened Machine
  import opened MountCache

  datatype Dev =
    | XfsDev(path: DevPath, formatted: bool, mountPath: Option<Path>)
    | LuksDev(path: DevPath, formatted: bool, mapped: Option<Dev>, mappingName: Option<string>)

  /** What a layer asks of the drive it belongs to; `want` is the assignment's mount path, if any. */
  datatype Order = Order(driveId: string, keys: seq<string>, want: Option<Path>)

  /** `newDevice`: the outermost layer fitting what is on the device, nothing if it is unreadable. */
  function NewDevice(os: Os, path: DevPath, preferLuks: bool): (Option<Dev>, Os) {
    var (kind, os') := ClassifyDevice(os, path);
    match kind
    case Unreadable => (None, os')
    case Unknown =>
      (Some(if preferLuks then LuksDev(path, false, None, None) else XfsDev(path, false, None)), os')
    case LuksKind => (Some(LuksDev(path, true, None, None)), os')
    case Filesystem => (Some(XfsDev(path, true, None)), os')
  }

  function MountedPath(d: Dev): Option<Path> {
    match d
    case XfsDev(_, _, mp) => mp
    case LuksDev(_, _, mapped, _) => if mapped.None? then None else MountedPath(mapped.value)
  }

  /** Bounds the layers still to be gone through: known ones, then those inside the last known device. */
  function Rank(k: Kernel, d: Dev): nat {
    match d
    case XfsDev(_, _, _) => 0
    case LuksDev(path, _, mapped, _) =>
      if mapped.Some? then 1 + Rank(k, mapped.value)
      else
        var c := ContentAt(k, path);
        1 + if c.Some? then Height(c.value) else 0
  }

  // ---- Validate ----

  /** One scope of `XFSDevice.Validate`, past the check for a lost mount. */
  function CheckMounts(ms: seq<Mount>, mp: Option<Path>): (Option<Path>, bool) {
    if ms == [] then (mp, true)
    else if ms[0].ro then (mp, false)
    else if mp.None? then CheckMounts(ms[1..], Some(ms[0].path))
    else if ms[0].path != mp.value then (mp, false)
    else CheckMounts(ms[1..], mp)
  }

  /** A recorded mount that is gone is forgotten, and reported. */
  function CheckScope(ms: seq<Mount>, mp: Option<Path>): (Option<Path>, bool) {
    if ms == [] then (None, mp.None?) else CheckMounts(ms, mp)
  }

  function ValidateXfs(os: Os, d: Dev): (Dev, bool)
    requires d.XfsDev?
  {
    var (mp, ok) := CheckScope(MountsOf(os, d.path, Host), d.mountPath);
    if !ok then (d.(mountPath := mp), false)
    else
      var (mp', ok') := CheckScope(MountsOf(os, d.path, Local), mp);
      (d.(mountPath := mp'), ok')
  }

  predicate Unmounted(os: Os, path: DevPath) {
    MountsOf(os, path, Host) == [] && MountsOf(os, path, Local) == []
  }

  /** `LUKSDevice.Validate` up to its recursive call: compares the recorded mapping with the cached one,
    and records a mapping seen for the first time. */
  function Discover(os: Os, d: Dev): (r: (Dev, Os, bool))
    requires d.LuksDev?
    ensures r.1 == os.(log := r.1.log)
    ensures r.0.LuksDev? && r.0 == d.(mapped := r.0.mapped) && (d.mapped.Some? ==> r.0 == d)
  {
    if d.path !in os.luks then (d, os, d.mapped.None? && Unmounted(os, d.path))
    else
      var actual := os.luks[d.path];
      if d.mapped.None? then
        var (m, os') := NewDevice(os, actual, false);
        (d.(mapped := m), os', Unmounted(os', d.path))
      else
        (d, os, actual == d.mapped.value.path && Unmounted(os, d.path))
  }

  /** The recursion goes one container deeper each time. A cache naming a mapping that is not below its
    own device would make it run forever; that case is answered with a failure. Module `Termination` shows
    that a cache that is true to the kernel never leads there. */
  function Validate(os: Os, d: Dev): (r: (Dev, Os, bool))
    ensures r.1 == os.(log := r.1.log)
    ensures r.0.path == d.path && r.0.XfsDev? == d.XfsDev?
    decreases Rank(os.k, d)
  {
    if d.XfsDev? then
      var (d', ok) := ValidateXfs(os, d);
      (d', os, ok)
    else
      var (d1, os1, ok) := Discover(os, d);
      if !ok || d1.mapped.None? then (d1, os1, ok)
      else if Rank(os1.k, d1.mapped.value) >= Rank(os.k, d) then (d1, os1, false)
      else
        var (m, os2, ok2) := Validate(os1, d1.mapped.value);
        (d1.(mapped := Some(m)), os2, ok2)
  }

  // ---- Setup ----

  /** Where an XFS layer is to be mounted: as assigned, else where it is, else a temporary place. */
  function Target(mp: Option<Path>, order: Order): Path {
    if order.want.Some? then order.want.value
    else if mp.Some? then mp.value
    else RunTemp(order.driveId)
  }

  /** Formats a device on first use, after checking once more that nothing is on it. */
  function FormatFirst(os: Os, d: Dev, cmd: Cmd): (r: (Dev, Os, bool))
    ensures r.0 == d.(formatted := r.0.formatted)
  {
    if d.formatted then (d, os, true)
    else
      var (kind, os1) := ClassifyDevice(os, d.path);
      if !kind.Unknown? then (d, os1, false)
      else
        var (os2, ok) := Run(os1, cmd);
        if ok then (d.(formatted := true), os2, true) else (d, os2, false)
  }

  /** Moves the mounts of a formatted XFS layer to `target`. */
  function MoveTo(os: Os, d: Dev, target: Path): (r: (Dev, Os, bool))
    requires d.XfsDev?
    ensures r.0.XfsDev? && r.0.path == d.path
  {
    var (os1, ok) := UnmountBoth(os, d.path, Some(target));
    if !ok then (d, os1, false)
    else
      var d1 := if d.mountPath != Some(target) then d.(mountPath := None) else d;
      var (os2, ok2) := MountBoth(os1, d.path, target);
      if ok2 then (d1.(mountPath := Some(target)), os2, true) else (d1, os2, false)
  }

  /** `XFSDevice.Setup` past its sanity check. */
  function SetupXfs(os: Os, d: Dev, order: Order): (r: (Dev, Os, bool))
    requires d.XfsDev?
    ensures r.0.XfsDev? && r.0.path == d.path
  {
    hide MoveTo, FormatFirst;
    var (d1, os1, ok) := FormatFirst(os, d, Mkfs(d.path));
    if !ok then (d1, os1, false) else MoveTo(os1, d1, Target(d1.mountPath, order))
  }

  /** `LUKSDevice.Setup` past its sanity check and before its recursive call. The container is opened
    under the drive's own name. */
  function OpenUp(os: Os, d: Dev, order: Order): (r: (Dev, Os, bool))
    requires d.LuksDev?
    ensures r.0.LuksDev? && r.0.path == d.path
  {
    if order.keys == [] then (d, os, false)
    else
      var (d1, os1, ok) := FormatFirst(os, d, LuksFormat(d.path, order.keys[0]));
      if !ok || d1.mapped.Some? then (d1, os1, ok) else OpenInto(os1, d1, order)
  }

  function OpenInto(os: Os, d: Dev, order: Order): (r: (Dev, Os, bool))
    requires d.LuksDev?
    ensures r.0.LuksDev? && r.0.path == d.path
  {
    var (os1, ok) := OpenContainer(os, d.path, order.driveId, order.keys);
    if !ok then (d, os1, false)
    else
      var (m, os2) := NewDevice(os1, Mapper(order.driveId), false);
      (d.(mapped := m, mappingName := Some(order.driveId)), os2, m.Some?)
  }

  function Setup(os: Os, d: Dev, order: Order): (r: (Dev, Os, bool))
    ensures r.0.path == d.path && r.0.XfsDev? == d.XfsDev?
    decreases Rank(os.k, d)
  {
    hide OpenUp, SetupXfs;
    var (d1, os1, ok) := Validate(os, d);
    if !ok then (d1, os1, false)
    else if d1.XfsDev? then SetupXfs(os1, d1, order)
    else
      var (d2, os2, ok2) := OpenUp(os1, d1, order);
      if !ok2 || d2.mapped.None? || Rank(os2.k, d2.mapped.value) >= Rank(os.k, d) then (d2, os2, false)
      else
        var (m, os3, ok3) := Setup(os2, d2.mapped.value, order);
        (d2.(mapped := Some(m)), os3, ok3)
  }

  // ---- Teardown ----

  function Teardown(os: Os, d: Dev): (Dev, Os, bool)
    decreases d
  {
    match d
    case XfsDev(path, _, _) =>
      var (os1, ok) := UnmountBoth(os, path, None);
      (if ok then d.(mountPath := None) else d, os1, ok)
    case LuksDev(_, _, mapped, _) =>
      if mapped.None? then CloseUp(os, d)
      else
        var (m, os1, ok) := Teardown(os, mapped.value);
        if ok then CloseUp(os1, d.(mapped := None)) else (d.(mapped := Some(m)), os1, false)
  }

  /** Closes the container if this layer opened it. A mapping it merely discovered stays open. */
  function CloseUp(os: Os, d: Dev): (Dev, Os, bool)
    requires d.LuksDev?
  {
    if d.mappingName.None? then (d, os, true)
    else
      var (os1, ok) := Run(os, LuksClose(d.mappingName.value));
      if ok then (d.(mappingName := None), os1, true) else (d, os1, false)
  }
}
