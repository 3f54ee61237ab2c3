/** `core.Drive` as an object, owning the layers found on its device. */
module DriveObjects {
  import opened Names
  import opened Kernels
  import opened Machine
  import opened Devices
  import opened LinuxObject
  import opened DeviceObjects
  import opened Drives

  /** The device cannot be read, or a flag of either kind is left. */
  predicate BrokenWhen(os: Os, path: DevPath, driveId: string) {
    ClassifyDevice(os, path).0.Unreadable? || driveId in os.k.transient || driveId in os.k.durable
  }

  lemma BrokenNew(os: Os, path: DevPath, driveId: string, keys: seq<string>)
    ensures FlagsReadable(os.fate) ==> (NewDrive(os, path, driveId, keys).0.broken <==> BrokenWhen(os, path, driveId))
  {
    hide NewDrive, ClassifyDevice, FlagsReadable;
    if FlagsReadable(os.fate) {
      NewDriveBroken(os, path, driveId, keys);
    }
  }

  class DriveObject {
    const devicePath: DevPath
    const driveId: string
    const keys: seq<string>
    var device: Device
    var broken: bool
    var assignment: Option<Assignment>
    ghost var repr: set<object>

    ghost predicate Valid()
      reads this, repr
    {
      && this in repr && (device.LuksLayer? ==> device.l in repr)
      && Footprint(device) <= repr && this !in Footprint(device) && Sane(device)
    }

    function View(): (d: Drive)
      requires Valid()
      reads this, repr
    {
      Drive(devicePath, driveId, keys, ViewOf(device), broken, assignment)
    }

    /** Whether the device is readable, and whether a broken-flag is left from earlier. */
    constructor (os: Linux, path: DevPath, driveId: string, keys: seq<string>)
      modifies os
      ensures Valid() && fresh(repr)
      ensures (View(), os.View()) == NewDrive(old(os.View()), path, driveId, keys)
      ensures old(FlagsReadable(os.View().fate)) ==> (broken <==> BrokenWhen(old(os.View()), path, driveId))
    {
      BrokenNew(os.View(), path, driveId, keys);
      hide Devices.NewDevice, Run, CheckFlag, ClassifyDevice, FlagsReadable, BrokenWhen;
      var device := MakeDevice(os, path, keys != []);
      this.devicePath, this.driveId, this.keys, this.device := path, driveId, keys, device;
      broken, assignment := device == NoDevice, None;
      repr := {this} + Footprint(device);
      new;
      CheckFlagFile(os, false);
      CheckFlagFile(os, true);
    }

    method CheckFlagFile(os: Linux, durable: bool)
      requires Valid() && os !in repr
      modifies `broken, `assignment, os
      ensures Valid() && (View(), os.View()) == CheckFlag(old(os.View()), old(View()), durable)
    {
      hide Run;
      var found := os.Execute(ReadFlag(driveId, durable));
      if found {
        MarkAsBroken(os);
      }
    }

    method MarkAsBroken(os: Linux)
      requires Valid() && os !in repr
      modifies `broken, `assignment, os
      ensures Valid() && (View(), os.View()) == Drives.MarkAsBroken(old(os.View()), old(View()))
      ensures broken && assignment == None && (old(FlagsWork(os.View().fate)) ==> driveId in os.kernel.transient)
    {
      MarkSetsFlag(os.View(), View());
      hide Run;
      broken := true;
      var _ := os.Execute(SetFlag(driveId));
      assignment := None;
    }

    method Apply(a: Assignment)
      requires Valid()
      modifies `assignment
      ensures Valid() && View() == old(View()).(assignment := Some(a))
    {
      assignment := Some(a);
    }

    method SetupDevice(os: Linux) returns (ok: bool)
      requires Valid() && os !in repr && device != NoDevice
      modifies repr, os
      ensures Valid() && os !in repr && fresh(repr - old(repr))
      ensures var (dev, os', done) := Setup(old(os.View()), old(View()).device.value, OrderOf(old(View())));
        ok == done && os.View() == os' && View() == old(View()).(device := Some(dev))
    {
      hide Devices.Setup;
      var order := OrderOf(View());
      match device {
        case XfsLayer(x) =>
          ok := x.Setup(os, order);
        case LuksLayer(l) =>
          ok := l.Setup(os, order);
          repr := repr + l.repr;
      }
    }

    method TeardownDevice(os: Linux) returns (ok: bool)
      requires Valid() && os !in repr && device != NoDevice
      modifies repr, os
      ensures Valid() && os !in repr && fresh(repr - old(repr))
      ensures var (dev, os', done) := Devices.Teardown(old(os.View()), old(View()).device.value);
        ok == done && os.View() == os' && View() == old(View()).(device := Some(dev))
    {
      hide Devices.Teardown;
      match device {
        case XfsLayer(x) =>
          ok := x.Teardown(os);
        case LuksLayer(l) =>
          ok := l.Teardown(os);
          repr := repr + l.repr;
      }
    }

    /** Calls into the device without a nil check. */
    method Converge(os: Linux)
      requires Valid() && os !in repr && device != NoDevice
      modifies repr, os
      ensures Valid() && os !in repr && fresh(repr - old(repr))
      ensures (View(), os.View()) == ConvergeDrive(old(os.View()), old(View()))
    {
      hide Devices.Setup, Devices.Teardown, OrderOf, Drives.MarkAsBroken;
      if broken {
        var _ := TeardownDevice(os);
        return;
      }
      var ok := SetupDevice(os);
      if !ok {
        MarkAsBroken(os);
        assert device != NoDevice;
        var _ := TeardownDevice(os);
      }
    }

    method Teardown(os: Linux)
      requires Valid() && os !in repr
      modifies repr, os
      ensures Valid() && os !in repr && fresh(repr - old(repr))
      ensures (View(), os.View()) == TeardownDrive(old(os.View()), old(View()))
    {
      hide Devices.Teardown;
      if device != NoDevice {
        var _ := TeardownDevice(os);
      }
    }
  }

  ghost function Footprints(ds: seq<DriveObject>): set<object>
    reads ds
  {
    set d: DriveObject, o: object | d in ds && o in d.repr :: o
  }

  /** `vs` is what the drives `ds` look like; no two of them share an object, nor own the system. */
  ghost predicate Shows(os: Linux, ds: seq<DriveObject>, vs: seq<Drive>)
    reads ds, set d: DriveObject, o: object | d in ds && o in d.repr :: o
  {
    && |ds| == |vs|
    && (forall i :: 0 <= i < |ds| ==> ds[i].Valid() && os !in ds[i].repr && ds[i].View() == vs[i])
    && (forall i, j :: 0 <= i < j < |ds| ==> ds[i].repr !! ds[j].repr)
  }

  method ApplyTo(os: Linux, ds: seq<DriveObject>, d: DriveObject, a: Assignment, ghost i: nat, ghost vs: seq<Drive>)
    requires Shows(os, ds, vs) && i < |ds| && ds[i] == d
    modifies d
    ensures Shows(os, ds, vs[i := vs[i].(assignment := Some(a))])
    ensures Footprints(ds) == old(Footprints(ds))
  {
    d.Apply(a);
    forall j | 0 <= j < |ds| && j != i ensures ds[j].Valid() && ds[j].View() == vs[j] && ds[j].repr !! d.repr {
      assert d in d.repr;
    }
  }

  method ConvergeAt(os: Linux, ds: seq<DriveObject>, i: nat, ghost vs: seq<Drive>)
    requires Shows(os, ds, vs) && i < |ds| && ds[i].device != NoDevice
    modifies ds[i].repr, os
    ensures fresh(ds[i].repr - old(ds[i].repr))
    ensures vs[i].device.Some?
    ensures var (d, os') := ConvergeDrive(old(os.View()), vs[i]);
      Shows(os, ds, vs[i := d]) && os.View() == os'
  {
    hide ConvergeDrive;
    ds[i].Converge(os);
    forall j | 0 <= j < |ds| && j != i ensures ds[j].Valid() && ds[j].View() == vs[j] && ds[j].repr !! ds[i].repr {
      assert ds[j].repr == old(ds[j].repr);
    }
  }
}
