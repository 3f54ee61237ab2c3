/** The autopilot's view of the operating system (`os.Linux`): its two cached mount tables, its cache
  of LUKS mappings, and the kernel those caches describe.

  Every command goes through `Run`. Whether the i-th command meets an outside failure is decided by
  `fate`, so quantifying over `fate` quantifies over all failures. The log keeps every command with
  its outcome.
 */
module Machine {
  import opened Names
  import opened Tables
  import opened Kernels

  datatype Entry = Entry(cmd: Cmd, ok: bool)

  datatype Os = Os(
    k: Kernel,
    host: seq<Mount>,
    local: seq<Mount>,
    luks: map<DevPath, DevPath>,
    fate: (nat, Cmd) -> bool,
    log: seq<Entry>)

  datatype Kind = Unreadable | Unknown | LuksKind | Filesystem

  function Run(os: Os, cmd: Cmd): (Os, bool) {
    var ok := os.fate(|os.log|, cmd) && Can(os.k, cmd);
    (os.(k := if ok then Effect(os.k, cmd) else os.k, log := os.log + [Entry(cmd, ok)]), ok)
  }

  /** Writing a swift-id never meets an outside failure. */
  ghost predicate WritesWork(fate: (nat, Cmd) -> bool) {
    forall n: nat, cmd: Cmd :: cmd.WriteId? ==> fate(n, cmd)
  }

  /** Setting a broken flag never meets an outside failure. */
  ghost predicate FlagsWork(fate: (nat, Cmd) -> bool) {
    forall n: nat, c: Cmd :: c.SetFlag? ==> fate(n, c)
  }

  /** Neither does looking for one. */
  ghost predicate FlagsReadable(fate: (nat, Cmd) -> bool) {
    forall n: nat, c: Cmd :: c.ReadFlag? ==> fate(n, c)
  }

  function Cached(os: Os, scope: Scope): seq<Mount> {
    if scope.Host? then os.host else os.local
  }

  function MountsOf(os: Os, dev: DevPath, scope: Scope): seq<Mount> {
    OfDevice(Cached(os, scope), dev)
  }

  function ClassifyDevice(os: Os, dev: DevPath): (Kind, Os) {
    var (os', ok) := Run(os, Classify(dev));
    if !ok then (Unreadable, os')
    else
      match ContentAt(os.k, dev).value
      case Blank => (Unknown, os')
      case Luks(_, _) => (LuksKind, os')
      case Xfs(_) => (Filesystem, os')
  }

  function Recorded(mode: Mode, scope: Scope, seen: Scope): bool {
    scope == seen || !mode.Separate?
  }

  function MountDevice(os: Os, dev: DevPath, path: Path, scope: Scope): (Os, bool) {
    if MountedOn(Cached(os, scope), dev, path) then (os, true)
    else
      var (os', ok) := Run(os, MountCmd(dev, path, scope));
      if !ok then (os', false)
      else
        var m := Mount(dev, path, false);
        (os'.(host := if Recorded(os.k.mode, scope, Host) then os.host + [m] else os.host,
              local := if Recorded(os.k.mode, scope, Local) then os.local + [m] else os.local), true)
  }

  function UnmountDevice(os: Os, path: Path, scope: Scope): (Os, bool) {
    if !MountedAt(Cached(os, scope), path) then (os, true)
    else
      var (os', ok) := Run(os, Umount(path, scope));
      if !ok then (os', false)
      else
        (os'.(host := if Recorded(os.k.mode, scope, Host) then RemoveFirst(os.host, path) else os.host,
              local := if Recorded(os.k.mode, scope, Local) then RemoveFirst(os.local, path) else os.local), true)
  }

  function OpenContainer(os: Os, dev: DevPath, name: string, keys: seq<string>): (Os, bool)
    decreases |keys|
  {
    if keys == [] then (os, false)
    else
      var (os', ok) := Run(os, LuksOpen(dev, name, keys[0]));
      if ok then (os'.(luks := os'.luks[dev := Mapper(name)]), true)
      else OpenContainer(os', dev, name, keys[1..])
  }

  /** The tables the refresh finds. Outside separate mode one listing serves for both scopes. */
  function RefreshMounts(os: Os): Os {
    os.(local := os.k.local, host := if os.k.mode.Separate? then os.k.host else os.k.local)
  }

  // ---- runs of commands ----

  /** Formatting is safe when nothing is on the device yet. */
  ghost predicate Safe(k: Kernel, cmd: Cmd) {
    (cmd.Mkfs? || cmd.LuksFormat?) ==> ContentAt(k, cmd.dev) == Some(Blank)
  }

  ghost predicate Legal(k: Kernel, e: Entry) {
    e.ok ==> Can(k, e.cmd) && Safe(k, e.cmd)
  }

  ghost function After(k: Kernel, e: Entry): Kernel
    requires Legal(k, e)
  {
    if e.ok then Effect(k, e.cmd) else k
  }

  /** `es` is what happened between `k` and `k'`, and every format in it hit a blank device. */
  ghost predicate Trace(k: Kernel, es: seq<Entry>, k': Kernel)
    decreases |es|
  {
    if es == [] then k' == k else Legal(k, es[0]) && Trace(After(k, es[0]), es[1..], k')
  }

  ghost function Since(a: Os, b: Os): seq<Entry>
    requires a.log <= b.log
  {
    b.log[|a.log|..]
  }

  /** `b` is `a` after a safe run of commands. */
  ghost predicate Steps(a: Os, b: Os) {
    a.fate == b.fate && a.log <= b.log && Trace(a.k, Since(a, b), b.k)
  }

  lemma {:induction false} TraceConcat(k: Kernel, es: seq<Entry>, k': Kernel, fs: seq<Entry>, k'': Kernel)
    requires Trace(k, es, k') && Trace(k', fs, k'')
    ensures Trace(k, es + fs, k'')
    decreases |es|
  {
    if es == [] {
      assert es + fs == fs;
    } else {
      assert (es + fs)[1..] == es[1..] + fs;
      TraceConcat(After(k, es[0]), es[1..], k', fs, k'');
    }
  }

  lemma StepsReflexive(a: Os, b: Os)
    requires b == a.(host := b.host, local := b.local, luks := b.luks)
    ensures Steps(a, b) && Since(a, b) == []
  {
  }

  lemma StepsTransitive(a: Os, b: Os, c: Os)
    requires Steps(a, b) && Steps(b, c)
    ensures Steps(a, c) && Since(a, c) == Since(a, b) + Since(b, c)
  {
    assert c.log == b.log + Since(b, c) && b.log == a.log + Since(a, b);
    assert Since(a, c) == Since(a, b) + Since(b, c);
    TraceConcat(a.k, Since(a, b), b.k, Since(b, c), c.k);
  }

  lemma RunSteps(os: Os, cmd: Cmd)
    requires Safe(os.k, cmd)
    ensures Steps(os, Run(os, cmd).0)
    ensures Since(os, Run(os, cmd).0) == [Entry(cmd, Run(os, cmd).1)]
  {
    var (os', ok) := Run(os, cmd);
    assert Since(os, os') == [Entry(cmd, ok)];
    assert Trace(After(os.k, Entry(cmd, ok)), [], os'.k);
  }
}
