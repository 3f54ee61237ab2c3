/** The two searches through the tree that `lsblk -J` prints, and how they undo each other. */
module Lsblk {
  import opened Names

  /** A node type the program has no device path for makes it panic. */
  datatype NodeType = Crypt | Multipath | Whole | Part | Rom | Loop | Unheard(text: string)

  datatype Node = Node(name: string, kind: NodeType, children: seq<Node>)

  datatype Search<T> = Panicked | Absent | Found(value: T)

  function DevicePath(n: Node): Search<DevPath> {
    match n.kind
    case Crypt | Multipath => Found(Mapper(n.name))
    case Unheard(_) => Panicked
    case _ => Found(Disk(n.name))
  }

  predicate HasMapping(n: Node, mappingName: string) {
    exists i :: 0 <= i < |n.children| && n.children[i].kind == Crypt && n.children[i].name == mappingName
  }

  /** Looks below each device in turn: among its children first, then below them. */
  function FindBacking(devices: seq<Node>, mappingName: string): Search<DevPath>
    decreases devices, 1
  {
    if devices == [] then Absent
    else
      var here := FindBackingBelow(devices[0], mappingName);
      if here == Absent then FindBacking(devices[1..], mappingName) else here
  }

  function FindBackingBelow(d: Node, mappingName: string): Search<DevPath>
    decreases d, 0
  {
    if HasMapping(d, mappingName) then DevicePath(d) else FindBacking(d.children, mappingName)
  }

  function FindDevice(devices: seq<Node>, path: DevPath): Search<Node>
    decreases devices
  {
    if devices == [] then Absent
    else if DevicePath(devices[0]) == Panicked then Panicked
    else if DevicePath(devices[0]) == Found(path) then Found(devices[0])
    else
      var below := FindDevice(devices[0].children, path);
      if below == Absent then FindDevice(devices[1..], path) else below
  }

  /** By convention a mapping is named after the serial number of the disk below it. */
  function FindSerial(devices: seq<Node>, path: DevPath): Search<string> {
    match FindDevice(devices, path)
    case Panicked => Panicked
    case Absent => Absent
    case Found(d) => if |d.children| == 1 && d.children[0].kind == Crypt then Found(d.children[0].name) else Absent
  }

  // ---- all nodes of a tree ----

  function Nodes(devices: seq<Node>): set<Node>
    decreases devices
  {
    if devices == [] then {} else {devices[0]} + Nodes(devices[0].children) + Nodes(devices[1..])
  }

  ghost predicate KnownTypes(devices: seq<Node>) {
    forall n :: n in Nodes(devices) ==> !n.kind.Unheard?
  }

  /** A device may be listed more than once, as multipath devices are, but then with the same children. */
  ghost predicate Consistent(devices: seq<Node>) {
    forall m, n :: m in Nodes(devices) && n in Nodes(devices) && DevicePath(m) == DevicePath(n) ==> m.children == n.children
  }

  /** A backing device is found only if some node of that path has the mapping as a child. */
  lemma {:induction false} FoundBacking(devices: seq<Node>, mappingName: string)
    requires KnownTypes(devices)
    ensures var r := FindBacking(devices, mappingName);
      && r != Panicked
      && (r.Found? ==> exists n :: n in Nodes(devices) && HasMapping(n, mappingName) && DevicePath(n) == r)
      && (r == Absent ==> forall n :: n in Nodes(devices) ==> !HasMapping(n, mappingName))
    decreases devices
  {
    if devices != [] {
      var d, rest := devices[0], devices[1..];
      assert forall n :: n in Nodes(devices) <==> n == d || n in Nodes(d.children) || n in Nodes(rest);
      hide HasMapping, Nodes;
      FoundBacking(d.children, mappingName);
      FoundBacking(rest, mappingName);
    }
  }

  /** A backing device is found if and only if some node has the mapping as a child. */
  lemma BackingExact(devices: seq<Node>, mappingName: string)
    requires KnownTypes(devices)
    ensures FindBacking(devices, mappingName).Found? <==> exists n :: n in Nodes(devices) && HasMapping(n, mappingName)
  {
    FoundBacking(devices, mappingName);
  }

  lemma {:induction false} FoundDevice(devices: seq<Node>, path: DevPath)
    requires KnownTypes(devices)
    ensures var r := FindDevice(devices, path);
      && r != Panicked
      && (r.Found? ==> r.value in Nodes(devices) && DevicePath(r.value) == Found(path))
      && (r == Absent ==> forall n :: n in Nodes(devices) ==> DevicePath(n) != Found(path))
    decreases devices
  {
    if devices != [] {
      var d, rest := devices[0], devices[1..];
      assert forall n :: n in Nodes(devices) <==> n == d || n in Nodes(d.children) || n in Nodes(rest);
      hide Nodes;
      FoundDevice(d.children, path);
      FoundDevice(rest, path);
    }
  }

  /** From a mapping to its backing device and back: the serial number found there is the mapping's name,
    provided the mapping is the only thing on the device. */
  lemma SerialOfBacking(devices: seq<Node>, mappingName: string)
    requires KnownTypes(devices) && Consistent(devices) && FindBacking(devices, mappingName).Found?
    requires var p := FindBacking(devices, mappingName).value;
      forall n :: n in Nodes(devices) && DevicePath(n) == Found(p) ==> |n.children| == 1
    ensures FindSerial(devices, FindBacking(devices, mappingName).value) == Found(mappingName)
  {
    FoundBacking(devices, mappingName);
    var p := FindBacking(devices, mappingName).value;
    FoundDevice(devices, p);
    var n :| n in Nodes(devices) && HasMapping(n, mappingName) && DevicePath(n) == Found(p);
    var d := FindDevice(devices, p).value;
    assert d.children == n.children;
  }

  /** And from a device to its serial number and back, provided no other device holds a mapping of that
    name. */
  lemma BackingOfSerial(devices: seq<Node>, path: DevPath)
    requires KnownTypes(devices) && FindSerial(devices, path).Found?
    requires var name := FindSerial(devices, path).value;
      forall m, n :: m in Nodes(devices) && n in Nodes(devices) && HasMapping(m, name) && HasMapping(n, name) ==> DevicePath(m) == DevicePath(n)
    ensures FindBacking(devices, FindSerial(devices, path).value) == Found(path)
  {
    var name := FindSerial(devices, path).value;
    FoundDevice(devices, path);
    var d := FindDevice(devices, path).value;
    assert d.children[0].kind == Crypt && d.children[0].name == name;
    assert HasMapping(d, name);
    FoundBacking(devices, name);
  }

  // ---- which node answers, and with which path ----

  /** The nodes of a tree in the order in which the searches come to them. */
  function Preorder(devices: seq<Node>): seq<Node>
    decreases devices
  {
    if devices == [] then [] else [devices[0]] + Preorder(devices[0].children) + Preorder(devices[1..])
  }

  /** The first search, on a list. */
  function BackingIn(nodes: seq<Node>, mappingName: string): Search<DevPath> {
    if nodes == [] then Absent
    else if HasMapping(nodes[0], mappingName) then DevicePath(nodes[0])
    else BackingIn(nodes[1..], mappingName)
  }

  lemma {:induction false} BackingConcat(a: seq<Node>, b: seq<Node>, mappingName: string)
    ensures BackingIn(a + b, mappingName) == if BackingIn(a, mappingName) == Absent then BackingIn(b, mappingName) else BackingIn(a, mappingName)
    decreases |a|
  {
    hide HasMapping;
    if a == [] {
      assert a + b == b;
    } else {
      assert (a + b)[1..] == a[1..] + b;
      BackingConcat(a[1..], b, mappingName);
    }
  }

  lemma {:induction false} BackingLinear(devices: seq<Node>, mappingName: string)
    ensures FindBacking(devices, mappingName) == BackingIn(Preorder(devices), mappingName)
    decreases devices
  {
    hide HasMapping;
    if devices != [] {
      var d, below, rest := devices[0], Preorder(devices[0].children), Preorder(devices[1..]);
      BackingLinear(d.children, mappingName);
      BackingLinear(devices[1..], mappingName);
      BackingConcat(below, rest, mappingName);
      BackingHead(d, below + rest, mappingName);
      assert Preorder(devices) == [d] + (below + rest);
      hide Preorder, BackingIn;
    }
  }

  lemma BackingHead(d: Node, rest: seq<Node>, mappingName: string)
    ensures BackingIn([d] + rest, mappingName) == if HasMapping(d, mappingName) then DevicePath(d) else BackingIn(rest, mappingName)
  {
    assert ([d] + rest)[1..] == rest;
  }

  /** The node is directly above a mapping of this name. */
  ghost predicate Backs(n: Node, mappingName: string) {
    exists c :: c in n.children && c.kind == Crypt && c.name == mappingName
  }

  lemma BacksIsHas(n: Node, mappingName: string)
    ensures Backs(n, mappingName) <==> HasMapping(n, mappingName)
  {
    if HasMapping(n, mappingName) {
      var i :| 0 <= i < |n.children| && n.children[i].kind == Crypt && n.children[i].name == mappingName;
      assert n.children[i] in n.children;
    }
  }

  lemma {:induction false} BackingAt(nodes: seq<Node>, mappingName: string, i: nat)
    requires i < |nodes| && Backs(nodes[i], mappingName) && forall j :: 0 <= j < i ==> !Backs(nodes[j], mappingName)
    ensures BackingIn(nodes, mappingName) == DevicePath(nodes[i])
    decreases |nodes|
  {
    BacksIsHas(nodes[0], mappingName);
    hide Backs, HasMapping;
    if i > 0 {
      BackingAt(nodes[1..], mappingName, i - 1);
    }
  }

  lemma {:induction false} BackingNowhere(nodes: seq<Node>, mappingName: string)
    requires forall n :: n in nodes ==> !Backs(n, mappingName)
    ensures BackingIn(nodes, mappingName) == Absent
    decreases |nodes|
  {
    if nodes != [] {
      BacksIsHas(nodes[0], mappingName);
      hide Backs, HasMapping;
      assert nodes[0] in nodes;
      assert forall n :: n in nodes[1..] ==> n in nodes;
      BackingNowhere(nodes[1..], mappingName);
    }
  }

  /** Exactly what is answered for a mapping: the path of the first node above one of this name, which is below
    `/dev/mapper` for mappings and multipath devices and directly below `/dev` for disks, partitions, ROMs and loop
    devices; for a node of any other type the program panics. */
  lemma BackingPath(devices: seq<Node>, mappingName: string, i: nat)
    requires i < |Preorder(devices)| && Backs(Preorder(devices)[i], mappingName)
    requires forall j :: 0 <= j < i ==> !Backs(Preorder(devices)[j], mappingName)
    ensures var n, r := Preorder(devices)[i], FindBacking(devices, mappingName);
      && (n.kind.Crypt? || n.kind.Multipath? ==> r == Found(Mapper(n.name)))
      && (n.kind.Whole? || n.kind.Part? || n.kind.Rom? || n.kind.Loop? ==> r == Found(Disk(n.name)))
      && (n.kind.Unheard? ==> r == Panicked)
  {
    BackingLinear(devices, mappingName);
    BackingAt(Preorder(devices), mappingName, i);
  }

  /** And if there is none, nothing is answered, whatever types there are. */
  lemma BackingAbsent(devices: seq<Node>, mappingName: string)
    requires forall n :: n in Preorder(devices) ==> !Backs(n, mappingName)
    ensures FindBacking(devices, mappingName) == Absent
  {
    BackingLinear(devices, mappingName);
    BackingNowhere(Preorder(devices), mappingName);
  }

  /** The second search, on a list. */
  function DeviceIn(nodes: seq<Node>, path: DevPath): Search<Node> {
    if nodes == [] then Absent
    else if DevicePath(nodes[0]) == Panicked then Panicked
    else if DevicePath(nodes[0]) == Found(path) then Found(nodes[0])
    else DeviceIn(nodes[1..], path)
  }

  lemma {:induction false} DeviceConcat(a: seq<Node>, b: seq<Node>, path: DevPath)
    ensures DeviceIn(a + b, path) == if DeviceIn(a, path) == Absent then DeviceIn(b, path) else DeviceIn(a, path)
    decreases |a|
  {
    hide DevicePath;
    if a == [] {
      assert a + b == b;
    } else {
      assert (a + b)[1..] == a[1..] + b;
      DeviceConcat(a[1..], b, path);
    }
  }

  lemma {:induction false} DeviceLinear(devices: seq<Node>, path: DevPath)
    ensures FindDevice(devices, path) == DeviceIn(Preorder(devices), path)
    decreases devices
  {
    hide DevicePath;
    if devices != [] {
      var d, below, rest := devices[0], Preorder(devices[0].children), Preorder(devices[1..]);
      DeviceLinear(d.children, path);
      DeviceLinear(devices[1..], path);
      DeviceConcat(below, rest, path);
      DeviceHead(d, below + rest, path);
      assert Preorder(devices) == [d] + (below + rest);
      hide Preorder, DeviceIn;
    }
  }

  lemma DeviceHead(d: Node, rest: seq<Node>, path: DevPath)
    ensures DeviceIn([d] + rest, path)
      == if DevicePath(d) == Panicked then Panicked else if DevicePath(d) == Found(path) then Found(d) else DeviceIn(rest, path)
  {
    assert ([d] + rest)[1..] == rest;
  }

  /** The device file of this node. */
  predicate Sits(n: Node, path: DevPath) {
    match path
    case Disk(name) => n.name == name && (n.kind.Whole? || n.kind.Part? || n.kind.Rom? || n.kind.Loop?)
    case Mapper(name) => n.name == name && (n.kind.Crypt? || n.kind.Multipath?)
  }

  lemma {:induction false} DeviceAt(nodes: seq<Node>, path: DevPath, i: nat)
    requires i < |nodes| && (Sits(nodes[i], path) || nodes[i].kind.Unheard?)
    requires forall j :: 0 <= j < i ==> !Sits(nodes[j], path) && !nodes[j].kind.Unheard?
    ensures DeviceIn(nodes, path) == if nodes[i].kind.Unheard? then Panicked else Found(nodes[i])
    decreases |nodes|
  {
    if i > 0 {
      DeviceAt(nodes[1..], path, i - 1);
    }
  }

  lemma {:induction false} DeviceNowhere(nodes: seq<Node>, path: DevPath)
    requires forall n :: n in nodes ==> !Sits(n, path) && !n.kind.Unheard?
    ensures DeviceIn(nodes, path) == Absent
    decreases |nodes|
  {
    if nodes != [] {
      assert nodes[0] in nodes;
      assert forall n :: n in nodes[1..] ==> n in nodes;
      DeviceNowhere(nodes[1..], path);
    }
  }

  /** Exactly what the search for a device file finds: the first node that has it, `/dev/mapper/<name>` for mappings and
    multipath devices and `/dev/<name>` for disks, partitions, ROMs and loop devices. It panics if a node of any other
    type comes first. */
  lemma DeviceFound(devices: seq<Node>, path: DevPath, i: nat)
    requires i < |Preorder(devices)| && (Sits(Preorder(devices)[i], path) || Preorder(devices)[i].kind.Unheard?)
    requires forall j :: 0 <= j < i ==> !Sits(Preorder(devices)[j], path) && !Preorder(devices)[j].kind.Unheard?
    ensures FindDevice(devices, path) == if Preorder(devices)[i].kind.Unheard? then Panicked else Found(Preorder(devices)[i])
  {
    DeviceLinear(devices, path);
    DeviceAt(Preorder(devices), path, i);
  }

  lemma DeviceAbsent(devices: seq<Node>, path: DevPath)
    requires forall n :: n in Preorder(devices) ==> !Sits(n, path) && !n.kind.Unheard?
    ensures FindDevice(devices, path) == Absent
  {
    DeviceLinear(devices, path);
    DeviceNowhere(Preorder(devices), path);
  }

  /** The serial number of a device that is found first: the name of the mapping on it, if that is all there is on it. */
  lemma SerialFound(devices: seq<Node>, path: DevPath, i: nat)
    requires i < |Preorder(devices)| && Sits(Preorder(devices)[i], path)
    requires forall j :: 0 <= j < i ==> !Sits(Preorder(devices)[j], path) && !Preorder(devices)[j].kind.Unheard?
    ensures var children := Preorder(devices)[i].children;
      forall name :: FindSerial(devices, path) == Found(name) <==> |children| == 1 && children[0].kind.Crypt? && children[0].name == name
  {
    DeviceFound(devices, path, i);
  }
}
