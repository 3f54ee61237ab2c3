/** A drive: its layers, whether it is broken, and its place in the Swift ring. */
module Drives {
  import opened Names
  import opened Kernels
  import opened Machine
  import opened Devices

  datatype Fault = NoFault | Missing | Pending | Blocked | Duplicate | Mismatch

  datatype Assignment = Assignment(swiftId: string, fault: Fault)

  datatype Drive = Drive(
    path: DevPath,
    driveId: string,
    keys: seq<string>,
    device: Option<Dev>,
    broken: bool,
    assignment: Option<Assignment>)

  /** Where an assignment puts a drive below `/srv/node`, if it does. */
  function AssignedPath(a: Option<Assignment>): Option<Path> {
    if a.None? || a.value.swiftId == "spare" || a.value.fault != NoFault then None
    else Some(SrvNode(a.value.swiftId))
  }

  function DriveMountedPath(d: Drive): Option<Path> {
    if d.device.None? then None else MountedPath(d.device.value)
  }

  function MountPath(d: Drive): Path {
    var path := AssignedPath(d.assignment);
    var mounted := DriveMountedPath(d);
    if path.Some? then path.value else if mounted.Some? then mounted.value else RunTemp(d.driveId)
  }

  function OrderOf(d: Drive): Order {
    Order(d.driveId, d.keys, AssignedPath(d.assignment))
  }

  predicate Eligible(d: Drive) {
    !d.broken && d.assignment.Some? && d.assignment.value.fault == Pending
  }

  function MarkAsBroken(os: Os, d: Drive): (Drive, Os) {
    var (os', _) := Run(os, SetFlag(d.driveId));
    (d.(broken := true, assignment := None), os')
  }

  /** One look for a broken flag. A flag that cannot be read counts as absent. */
  function CheckFlag(os: Os, d: Drive, fromDurable: bool): (Drive, Os) {
    var (os', found) := Run(os, ReadFlag(d.driveId, fromDurable));
    if found then MarkAsBroken(os', d) else (d, os')
  }

  function NewDrive(os: Os, path: DevPath, driveId: string, keys: seq<string>): (Drive, Os) {
    var (device, os1) := NewDevice(os, path, keys != []);
    var (d1, os2) := CheckFlag(os1, Drive(path, driveId, keys, device, device.None?, None), false);
    CheckFlag(os2, d1, true)
  }

  /** The source calls into the device without a nil check, so a drive without one ends the process. */
  function ConvergeDrive(os: Os, d: Drive): (Drive, Os)
    requires d.device.Some?
  {
    if d.broken then
      var (dev, os', _) := Teardown(os, d.device.value);
      (d.(device := Some(dev)), os')
    else
      var (dev, os1, ok) := Setup(os, d.device.value, OrderOf(d));
      if ok then (d.(device := Some(dev)), os1)
      else
        var (d2, os2) := MarkAsBroken(os1, d.(device := Some(dev)));
        var (dev', os3, _) := Teardown(os2, dev);
        (d2.(device := Some(dev')), os3)
  }

  function TeardownDrive(os: Os, d: Drive): (Drive, Os) {
    if d.device.None? then (d, os)
    else
      var (dev, os', _) := Teardown(os, d.device.value);
      (d.(device := Some(dev)), os')
  }

  /** `Setup` computes its target from the layer it mounts; the drive as a whole gives the same answer. */
  lemma TargetIsMountPath(d: Drive)
    ensures Target(DriveMountedPath(d), OrderOf(d)) == MountPath(d)
  {
  }

  // ---- broken drives ----

  /** A drive that is marked forgets its assignment and keeps all else; its flag is set unless that fails for outside
    reasons, and nothing else in the system changes. */
  lemma MarkSetsFlag(os: Os, d: Drive)
    ensures var (d', os') := MarkAsBroken(os, d);
      && d'.broken && d'.assignment == None
      && d'.path == d.path && d'.driveId == d.driveId && d'.keys == d.keys && d'.device == d.device
      && os' == os.(k := os.k.(transient := os'.k.transient), log := os'.log)
      && os'.k.transient == os.k.transient + if os.fate(|os.log|, SetFlag(d.driveId)) then {d.driveId} else {}
  {
  }

  lemma ReadFlagTells(os: Os, driveId: string, fromDurable: bool)
    requires FlagsReadable(os.fate)
    ensures var (os', found) := Run(os, ReadFlag(driveId, fromDurable));
      && os' == os.(log := os'.log)
      && (found <==> driveId in if fromDurable then os.k.durable else os.k.transient)
  {
  }

  lemma LookBreaks(os: Os, d: Drive, fromDurable: bool)
    requires FlagsReadable(os.fate)
    ensures var (d', os') := CheckFlag(os, d, fromDurable);
      && (d'.broken <==> d.broken || d.driveId in if fromDurable then os.k.durable else os.k.transient)
      && d' == d.(broken := d'.broken, assignment := d'.assignment)
      && os'.k.durable == os.k.durable && os'.fate == os.fate
  {
    ReadFlagTells(os, d.driveId, fromDurable);
    var (os1, _) := Run(os, ReadFlag(d.driveId, fromDurable));
    MarkSetsFlag(os1, d);
    hide Run, MarkAsBroken;
  }

  lemma DeviceLooks(os: Os, path: DevPath, preferLuks: bool)
    ensures var (m, os') := NewDevice(os, path, preferLuks);
      (m.None? <==> ClassifyDevice(os, path).0.Unreadable?) && os' == os.(log := os'.log)
  {
  }

  /** If flags can be read, a new drive is broken exactly when its device is unreadable, or a flag of either kind is
    left. */
  lemma NewDriveBroken(os: Os, path: DevPath, driveId: string, keys: seq<string>)
    requires FlagsReadable(os.fate)
    ensures NewDrive(os, path, driveId, keys).0.broken
      <==> ClassifyDevice(os, path).0.Unreadable? || driveId in os.k.transient || driveId in os.k.durable
  {
    DeviceLooks(os, path, keys != []);
    hide NewDevice, CheckFlag, ClassifyDevice, FlagsReadable;
    var (device, os1) := NewDevice(os, path, keys != []);
    var d0 := Drive(path, driveId, keys, device, device.None?, None);
    LookBreaks(os1, d0, false);
    var (d1, os2) := CheckFlag(os1, d0, false);
    LookBreaks(os2, d1, true);
  }
}
