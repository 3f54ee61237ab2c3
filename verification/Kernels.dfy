/** The operating system underneath: disk contents, device-mapper slots, the two kernel mount tables
  and the broken flags, with the effect of every command the autopilot issues.

  Contents nest: a LUKS container holds another content. A device file is a location inside a disk,
  namely the disk itself (depth 0) or what a slot exposes (depth of its container plus one).
 */
module Kernels {
  import opened Names
  import opened Tables

  /** `Xfs("")` is a filesystem without a swift-id file, or with an empty one. */
  datatype Content = Blank | Xfs(id: string) | Luks(key: string, inner: Content)

  datatype Loc = Loc(disk: string, depth: nat)

  datatype Slot = Slot(backing: DevPath, at: Loc)

  datatype Kernel = Kernel(
    mode: Mode,
    disks: map<string, Content>,
    slots: map<string, Slot>,
    host: seq<Mount>,
    local: seq<Mount>,
    transient: set<string>,
    durable: set<string>)

  datatype Cmd =
    | Classify(dev: DevPath)
    | Mkfs(dev: DevPath)
    | LuksFormat(dev: DevPath, key: string)
    | LuksOpen(dev: DevPath, name: string, key: string)
    | LuksClose(name: string)
    | MountCmd(dev: DevPath, path: Path, scope: Scope)
    | Umount(path: Path, scope: Scope)
    | ReadId(path: Path)
    | WriteId(path: Path, id: string)
    | SetFlag(driveId: string)
    | ReadFlag(driveId: string, fromDurable: bool)

  function Peel(c: Content, depth: nat): Option<Content> {
    if depth == 0 then Some(c) else if c.Luks? then Peel(c.inner, depth - 1) else None
  }

  function Graft(c: Content, depth: nat, x: Content): Content {
    if depth == 0 then x else if c.Luks? then c.(inner := Graft(c.inner, depth - 1, x)) else c
  }

  function Height(c: Content): nat {
    if c.Luks? then 1 + Height(c.inner) else 0
  }

  function LocOf(k: Kernel, dev: DevPath): Option<Loc> {
    match dev
    case Disk(n) => Some(Loc(n, 0))
    case Mapper(m) => if m in k.slots then Some(k.slots[m].at) else None
  }

  function ContentAt(k: Kernel, dev: DevPath): Option<Content> {
    var loc := LocOf(k, dev);
    if loc.None? || loc.value.disk !in k.disks then None else Peel(k.disks[loc.value.disk], loc.value.depth)
  }

  function WithContent(k: Kernel, dev: DevPath, x: Content): Kernel
    requires ContentAt(k, dev).Some?
  {
    var loc := LocOf(k, dev).value;
    k.(disks := k.disks[loc.disk := Graft(k.disks[loc.disk], loc.depth, x)])
  }

  function Table(k: Kernel, scope: Scope): seq<Mount> {
    if scope.Host? then k.host else k.local
  }

  /** Does a mount or umount issued in namespace `acting` show up in namespace `seen`? */
  predicate Reaches(mode: Mode, acting: Scope, seen: Scope) {
    acting == seen || mode.OneNamespace? || (mode.Connected? && acting.Host?)
  }

  /** The filesystem visible at `path` from the autopilot's own namespace. */
  function VisibleAt(k: Kernel, path: Path): Option<Content> {
    var dev := TopAt(k.local, path);
    if dev.None? then None else ContentAt(k, dev.value)
  }

  /** What `ReadSwiftID` returns; a missing file counts as an empty id. */
  function IdAt(k: Kernel, path: Path): string {
    var c := VisibleAt(k, path);
    if c.Some? && c.value.Xfs? then c.value.id else ""
  }

  predicate SlotAt(k: Kernel, at: Loc) {
    exists m :: m in k.slots && k.slots[m].at == at
  }

  /** `cryptsetup close` refuses a mapping that is mounted or that backs another mapping. */
  predicate Busy(k: Kernel, name: string) {
    || (exists m :: m in k.host && m.dev == Mapper(name))
    || (exists m :: m in k.local && m.dev == Mapper(name))
    || (exists n :: n in k.slots && k.slots[n].backing == Mapper(name))
  }

  /** Whether the kernel accepts a command. It may still fail for reasons outside the model. */
  predicate Can(k: Kernel, cmd: Cmd) {
    match cmd
    case Classify(dev) => ContentAt(k, dev).Some?
    case Mkfs(dev) => ContentAt(k, dev).Some?
    case LuksFormat(dev, _) => ContentAt(k, dev).Some?
    case LuksOpen(dev, name, key) =>
      && ContentAt(k, dev).Some? && ContentAt(k, dev).value.Luks? && ContentAt(k, dev).value.key == key
      && name !in k.slots
      && !SlotAt(k, Inside(k, dev))
    case LuksClose(name) => name in k.slots && !Busy(k, name)
    case MountCmd(dev, _, _) => ContentAt(k, dev).Some? && ContentAt(k, dev).value.Xfs?
    case Umount(path, scope) => MountedAt(Table(k, scope), path)
    case ReadId(_) => true
    case WriteId(_, _) => true
    case SetFlag(_) => true
    case ReadFlag(id, fromDurable) => id in (if fromDurable then k.durable else k.transient)
  }

  function Inside(k: Kernel, dev: DevPath): Loc
    requires ContentAt(k, dev).Some?
  {
    var loc := LocOf(k, dev).value;
    loc.(depth := loc.depth + 1)
  }

  function AddMount(mode: Mode, acting: Scope, seen: Scope, ms: seq<Mount>, m: Mount): seq<Mount> {
    if Reaches(mode, acting, seen) then ms + [m] else ms
  }

  function DropMount(mode: Mode, acting: Scope, seen: Scope, ms: seq<Mount>, path: Path): seq<Mount> {
    if Reaches(mode, acting, seen) then RemoveLast(ms, path) else ms
  }

  function Effect(k: Kernel, cmd: Cmd): Kernel
    requires Can(k, cmd)
  {
    match cmd
    case Mkfs(dev) => WithContent(k, dev, Xfs(""))
    case LuksFormat(dev, key) => WithContent(k, dev, Luks(key, Blank))
    case LuksOpen(dev, name, _) => k.(slots := k.slots[name := Slot(dev, Inside(k, dev))])
    case LuksClose(name) => k.(slots := k.slots - {name})
    case MountCmd(dev, path, scope) =>
      k.(host := AddMount(k.mode, scope, Host, k.host, Mount(dev, path, false)),
         local := AddMount(k.mode, scope, Local, k.local, Mount(dev, path, false)))
    case Umount(path, scope) =>
      k.(host := DropMount(k.mode, scope, Host, k.host, path),
         local := DropMount(k.mode, scope, Local, k.local, path))
    case WriteId(path, id) =>
      var c := VisibleAt(k, path);
      if c.Some? && c.value.Xfs? then WithContent(k, TopAt(k.local, path).value, Xfs(id)) else k
    case SetFlag(id) => k.(transient := k.transient + {id})
    case _ => k
  }

  // ---- contents ----

  lemma {:induction false} PeelGraft(c: Content, depth: nat, x: Content)
    requires Peel(c, depth).Some?
    ensures Peel(Graft(c, depth, x), depth) == Some(x)
  {
    if depth > 0 {
      PeelGraft(c.inner, depth - 1, x);
    }
  }

  lemma {:induction false} PeelDeeper(c: Content, depth: nat)
    requires Peel(c, depth).Some? && Peel(c, depth).value.Luks?
    ensures Peel(c, depth + 1) == Some(Peel(c, depth).value.inner)
  {
    if depth > 0 {
      PeelDeeper(c.inner, depth - 1);
    }
  }

  /** `d` holds everything `c` held: layers are only added below blanks, and only swift-ids are edited. */
  ghost predicate Grows(c: Content, d: Content) {
    match c
    case Blank => true
    case Xfs(_) => d.Xfs?
    case Luks(key, inner) => d.Luks? && d.key == key && Grows(inner, d.inner)
  }

  lemma {:induction c} GrowsReflexive(c: Content)
    ensures Grows(c, c)
  {
  }

  lemma {:induction c, d, e} GrowsTransitive(c: Content, d: Content, e: Content)
    requires Grows(c, d) && Grows(d, e)
    ensures Grows(c, e)
  {
  }

  lemma {:induction false} GraftGrows(c: Content, depth: nat, x: Content)
    requires Peel(c, depth).Some? && Grows(Peel(c, depth).value, x)
    ensures Grows(c, Graft(c, depth, x))
  {
    if depth > 0 {
      GraftGrows(c.inner, depth - 1, x);
    }
  }
}
