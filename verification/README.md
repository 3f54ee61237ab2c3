# Drive convergence engine: model and proofs

This project models the engine of the Swift drive autopilot: the single-threaded loop that takes batches of
events (drive added, removed, error, reinstated, wakeup), and drives every disk towards its desired state:
formatted, decrypted, mounted in the right place, and carrying a swift-id. It proves what this loop keeps over
whole runs, with any number of drives, mounts and events, and with commands that fail.

`dafny verify dfyconfig.toml` checks everything.

## How it is built

The operating system is modelled underneath the program. `Kernels` has disk contents (blank, filesystem with a
swift-id, container around another content), device-mapper slots, two kernel mount tables in three propagation
modes, broken flags, and the effect of every command the autopilot issues. `Machine` puts the autopilot's
caches on top. Whether the i-th command meets an outside failure is decided by a function `fate` that nothing
is known about, so a statement without a condition on `fate` holds for all failures.

Each part of the program that changes state exists twice: as the specification, a function from old to new
state, and as the program, a class whose methods loop and assign as the original does and whose `ensures` say
that they compute exactly that function. All theorems are about the specification functions, and so about the
classes.

| part of the program | specification | program |
|---|---|---|
| `os.Linux`: mount cache, mapping cache | `Machine`, `MountCache` | `LinuxObject` |
| `XFSDevice`, `LUKSDevice` | `Devices` | `DeviceObjects` |
| `core.Drive` | `Drives` | `DriveObjects` |
| `UpdateDriveAssignments` | `Assignments` | `Assigner` |
| `Converger`, event handlers | `Convergers` | `ConvergerObjects` |
| `CollectDrives` | `Collectors` | `Collectors.Collector` |
| spare names in the configuration | `Pools` | `Configuration` |
| searches in `lsblk` output | `Lsblk` | pure in the original as well |

A step of the transition system of `Convergers` is one event handled, one drive converged, or one round of
assignments. Between iterations the outside world may change the system; a `World` says how.

Theorems, by module:

- `Safety`: mount exclusivity, goal state and survival over all runs in a `Tame` world. `Chains`, `DriveFacts`,
  `Convergence`, `Origins`, `Fleets`, `Exclusivity`, `Handlers` and `AssignSteps` build up its invariant.
- `Preservation`, `Quarantine`, `QuarantinedDisks`, `BrokenFlags`, `Distinctness`: more about all runs.
- `HealthChecks`, `ClosedContainers`: what breaks a drive, and what a drive that is torn down leaves open.
- `Repetition`, `Idempotence`, `QuietRestarts`: iterations that change nothing, and new processes that change nothing.
- `Moments`, `Crashes`: what holds between any two commands, and so for a process that starts after a crash.
- `CrashRecovery`: a restart ends where the iteration would have ended that was cut off. `Recovery` follows one
  drive from command to command, `Outcomes` says what ids and places a fleet ends up with, `Restarts` what of that
  each moment preserves, `RoundMoments` goes through a round of assignments, `IterationCourse` through an iteration,
  `RecoveredTables` follows mappings and the mounts of other disks.
- `FailureFreeRuns`: when an iteration breaks no drive, and recovery without failures. `Workable` shows when `Setup`
  succeeds, `StartConditions` that those conditions hold at every moment.
- `Batches`: disks that join one by one, and in one batch.
- `MountCache`, `Agreement`, `Isolation`: the mount cache, exactly.
- `DeviceFacts`, `Stability`, `KeyRotation`, `Termination`: device layers.
- `Allocations`, `Pools`, `Rescan`: swift-ids.
- `Collectors`, `Lsblk`, `Audit`: events, tree searches, unexpected mounts.

## What is assumed where

- Paths are a datatype (`/srv/node/<id>`, `/run/swift-storage/<drive>`, or anything else), device files are disks
  or mapper names. A swift-id is one clean path component, serial numbers are known, and no configured pool
  entry or id on a disk is literally `spare/<number>` where `SpareOrdered` or `Plain` is required.
- The run theorems of `Safety` hold in a `Tame` world: umounts, reads of swift-ids and looks at a device do not
  fail for outside reasons (everything else may); between iterations nobody else mounts anything or touches
  the LUKS mappings, a swift-id is not edited on a disk that is mounted below `/srv/node`, managed disks keep
  their layers, and a disk that gets a new drive object is not both flagged as broken and mounted. At the start,
  what is mounted at `/srv/node/<id>` carries that id, and no path has mounts of two devices.
  A managed disk stays in the model until its `Removed` event has been handled, so unplugging it takes effect there.
- `RunKeepsData`, `RunPrepares` and `RunQuarantined` need none of this: they hold in every world that meets the condition
  they state.
- `Idempotence` speaks of an iteration that `WentThrough`: no command of its round failed, no drive broke after the
  round, and no disk carried a numbered spare name. Mounts of managed disks are writable, and no container of a broken
  drive waits to be closed.
- `CrashRecovery.RestartEndsSame` speaks of an iteration that begins in a tame run with a batch of added drives and
  wakeups (`Entered`; `RunEnters` shows that every tame run gets there). It and the restarted process end with no
  drive broken, no swift-id fails to be written, and each disk is mounted at one path at most. It holds in all
  propagation modes; in separate mode a restart between the two halves of a mount breaks the drive, and then it
  says nothing.
- `FailureFreeRuns` needs no assumption on how either process ends. It asks for one namespace or connected mode, no
  failures, and an iteration that is `FitToStart`: each container is open already or can be opened with a configured
  key under the drive's free name with no container inside; the drive's temporary place is nobody else's; no
  drive is flagged as broken or broken; known drives are mounted where they were left; and no mount of the fleet is
  read-only. `RunFits` shows that iterations of tame runs are fit if the system is.
- `BrokenFlags` assumes, where it says so, that setting or reading broken flags works, and that nobody outside removes
  them; `ClosedContainers`, that closing a container does not fail for outside reasons.
- `QuietRestarts.RestartedIteration` asks for an iteration that `WentThrough`, with no drive left broken or flagged and
  writable mounts, and that the new process finds a system as the run theorems ask.

Naive statements that the code does not meet, with the exact condition: agreement of the mount cache
(`Agreement.AgreementExact`), isolation without path ownership (`Isolation.SharedPathNotIsolated` shows a case,
`UmountSpares` says exactly when), drives that claim one place (`Allocations.StaleClaim` and `EditedIdCollides` show
cases, `StaleClaimMeets` and `ClaimedPlaceTaken` say exactly when), validation of a new object
(`DeviceFacts.ValidateXfsFresh`), closed containers (`KeyRotation.Reopen` says exactly when one comes
up, `NestedStaysShut` that one around another never does), and unreadable devices, which end the process
(`Quarantine.StepDies`).

## Model

| member | source | states |
|---|---|---|
| Safety.MountsExclusive | converger.go:28-75 | in every state of every run no mount path is shared by two devices in either namespace, and what is mounted at `/srv/node/<id>` carries that id |
| Safety.IterationReachesGoal | converger.go:52-68 | when an iteration ends, each working drive is mounted in both scopes at its mount path and nowhere else, and a broken drive has no mount |
| Safety.NeverDies | pkg/core/drive.go:91-103 | no run in which every disk can be read when its drive object is made gets to the nil device on which the process would die |
| Safety.RunInvariant | converger.go:28-50 | the invariant that carries the three theorems above holds in every state of every run |
| Safety.BeginStep | converger.go:35-37 | what the outside world may do between iterations, followed by a refresh of the caches, keeps the invariant |
| Handlers.HandleStep | converger.go:123-177 | every event handler keeps the invariant and leaves working drives homed |
| Exclusivity.FirstStep | converger.go:55-57 | converging one drive in the first round settles it and disturbs no drive already done |
| Exclusivity.SecondStep | converger.go:60-62 | converging one drive in the second round settles it at its newly assigned path and disturbs no other |
| AssignSteps.AssignStep | pkg/core/assignment.go:95-219 | after a round of assignments every claim on a place below `/srv/node` belongs to a disk with that id, and no two drives have the same claim |
| Convergence.ConvergeKeeps | pkg/core/drive.go:91-103 | whatever fails except umounts and reads, a drive ends up settled or cleared, and other disks keep contents, mappings and mounts |
| Fleets.MemberConverges | pkg/core/drive.go:91-103 | a managed drive is still a managed drive after converging, is done, and its mounts are labelled with its id |
| Moments.ConvergeMoments | pkg/core/drive.go:91-103 | between any two commands of converging a drive, no path is shared by two devices, and mounts below `/srv/node` carry their ids |
| Crashes.ExclusiveAtEveryMoment | converger.go:52-68 | mount exclusivity between any two commands of any step of any run |
| Crashes.RestartIsSafe | converger.go:28-50 | a process that starts on what another one left, wherever that was stopped, keeps mounts exclusive and reaches the goal state |
| Recovery.ConvergeUnderway | pkg/core/xfs.go:37-106 | at every moment while a drive that does not break converges, its disk holds what it held or more of what it will hold, is mounted at one of two places at most, and nothing else is touched |
| Outcomes.HalfwayWants | pkg/core/assignment.go:105-218 | disks of which some have been given their new ids call for the same places as at the start |
| RoundMoments.RoundStep | pkg/core/assignment.go:95-219 | at every moment of a round the fleet is on its way to the same end, and afterwards ids and assignments are the ones called for |
| CrashRecovery.RecoverableMoment | converger.go:52-68 | at every moment of an iteration in which no drive breaks, contents, ids and mounts lead to the same end |
| CrashRecovery.RestartEndsSame | converger.go:28-68 | an iteration cut off between any two commands, and a new process with new objects in the same order: same contents, swift-ids and assignments as undisturbed, and in both namespaces the same devices at the same paths, those of other disks included |
| CrashRecovery.RunEnters | converger.go:31-49 | every iteration of a tame run that only adds drives begins as the two theorems on recovery ask |
| Workable.SetupWorks | pkg/core/luks.go:38-90 | outside separate mode and without failures, `Setup` succeeds on every disk whose containers can be opened and whose mounts are writable and in one place |
| StartConditions.DriveStartable | pkg/core/drive.go:91-103 | at every moment while a drive converges, every disk of the fleet can be opened and has its places free |
| StartConditions.StartableTame | converger.go:31-49 | so a process that starts at that moment finds what the run theorems ask for |
| FailureFreeRuns.NoneBreaks | converger.go:54-68 | without failures, an iteration that is fit to start breaks no drive |
| FailureFreeRuns.StopAndGo | converger.go:28-68 | the recovery theorem without any assumption on how either process ends |
| FailureFreeRuns.RunFits | converger.go:31-49 | in a tame run, an idle state with no broken drive and known drives still mounted where they were left leads to an iteration fit for the two theorems above, if the system can be started on |
| RecoveredTables.StepKept | converger.go:54-68 | at every moment of a step that breaks no drive, no mapping has been closed, new mappings carry the names of their drives, and mounts of disks outside the fleet are the same |
| Preservation.RunKeepsData | pkg/core/xfs.go:45-60 | over every run with any failures no filesystem or container at any depth is ever lost |
| Preservation.LayersConserved | pkg/core/luks.go:50-65 | the layers a disk gains are exactly the formats that succeeded on it, so none is created twice |
| Preservation.StepConserves | converger.go:52-68 | the same for every step of the converger, from any state |
| Commands.SetupRan | pkg/core/luks.go:38-90 | every format that `Setup` issues hits a blank device, and it issues no other kind of command than its own |
| Commands.TeardownRan | pkg/core/luks.go:93-116 | `Teardown` issues nothing but umounts and closing of containers |
| ClosedContainers.TeardownCloses | pkg/core/luks.go:93-116 | whatever fails, a mapping no longer recorded is closed, others are untouched, one that could not be closed stays recorded, and after a success none is left at any depth |
| ClosedContainers.TeardownSucceeds | pkg/core/luks.go:93-116 | without outside failures teardown succeeds if and only if nobody else keeps a container open inside one that was opened here |
| ClosedContainers.TeardownRemembers | pkg/core/xfs.go:109-127 | while the leaf is still listed as mounted, teardown has failed and the recorded path is kept |
| ClosedContainers.SetupRecords | pkg/core/luks.go:68-90 | whatever fails, each mapping that `Setup` opens is recorded |
| ClosedContainers.ConvergeRecords | pkg/core/drive.go:91-103 | the same for a drive that has converged, broken or not |
| ClosedContainers.BrokenCloses | pkg/core/drive.go:100-102 | a broken drive closes what it opened, if and only if nobody else keeps a container open inside |
| ClosedContainers.RemovedCloses | converger.go:136-154 | a removed drive leaves nothing mounted and closes what it opened, unless somebody else keeps a container open inside; all other mappings stay |
| ClosedContainers.StepRecords | converger.go:28-68 | no step forgets a mapping that this process opened, except with a drive that is removed or gets a new object while it is open |
| Quarantine.RunQuarantined | converger.go:157-164 | a drive marked as broken stays so through any run until an event adds, removes or reinstates its device |
| BrokenFlags.ErrorMarks | converger.go:157-164 | an error event marks the first drive at its path as broken, without an assignment and with its device as it was, sets its flag, and leaves all other drives alone |
| BrokenFlags.ErrorQuarantines | converger.go:157-164 | in any run and whatever fails, a device with one drive is in quarantine from the step on that handles its error event |
| BrokenFlags.ErrorUnmounts | converger.go:52-68 | and in a tame run nothing of its disk is mounted when the iteration ends |
| BrokenFlags.StepFlags | pkg/core/drive.go:129-142 | every step leaves each broken drive with its flag set in the kernel, if setting flags works |
| BrokenFlags.RestartQuarantines | pkg/core/drive.go:42-55 | a drive found broken by one process is in quarantine in the next one, from the step on that adds it, as long as the flag is left in place |
| Drives.MarkSetsFlag | pkg/core/drive.go:129-142 | marking a drive sets its flag unless that fails, forgets the assignment, and changes nothing else |
| Drives.NewDriveBroken | pkg/core/drive.go:36-55 | a new drive is broken if and only if its device is unreadable or either flag is set, if flags can be read |
| HealthChecks.DisorderBreaks | pkg/core/xfs.go:37-43 | a known drive whose mount is gone, read-only, elsewhere or missing in one namespace, or whose container is not open as recorded, breaks |
| HealthChecks.KeylessBreaks | pkg/core/luks.go:43-47 | a drive on a container breaks when no keys are configured, even if the container is open |
| HealthChecks.BlankSetUp | pkg/core/model.go:29-44 | a blank disk becomes a container with a filesystem if keys are configured, else a filesystem, and is mounted in its temporary place |
| HealthChecks.MoveHonest | pkg/core/xfs.go:65-100 | whatever fails while mounts move, a path is recorded only if the device is listed there |
| HealthChecks.MoveStops | pkg/core/xfs.go:65-91 | moving mounts ends with the first umount or mount that fails, in either namespace |
| HealthChecks.TeardownStops | pkg/core/luks.go:93-116 | tearing down ends with the first umount or close that fails, and reports a failure exactly then |
| HealthChecks.ValidateForgets | pkg/core/xfs.go:130-170 | a check forgets the recorded path exactly when a namespace no longer shows the device |
| HealthChecks.BrokenSkipped | converger.go:60-61 | the second loop does not touch a broken drive |
| Quarantine.QuarantineWinds | pkg/core/drive.go:91-103 | a step that works on a drive in quarantine issues only umounts, closing of containers and its broken flag |
| QuarantinedDisks.RunQuarantineLeaves | converger.go:54-68 | in a tame run no step, of this drive or any other, formats or writes the quarantined disk, opens a container on it, or mounts anything from it |
| Quarantine.QuarantineBlocks | pkg/core/assignment.go:96-103 | while anything is in quarantine, no disk gets a swift-id |
| Quarantine.UnreadableKills | pkg/core/drive.go:37-39 | adding a drive ends the process if and only if its device is unreadable |
| Quarantine.StepDies | converger.go:124-177 | a step ends the process if and only if it adds a drive, or reinstates a managed one, whose device is unreadable |
| Idempotence.QuietIteration | converger.go:54-68 | after an iteration that went through, with nothing changed outside, the next one only reads swift-ids, and kernel and caches stay as they are (managed mounts writable, broken drives closed) |
| Idempotence.RenewedIteration | converger.go:167-177 | the same when any of the working drives get new objects first, with looks at their devices and flags in addition |
| QuietRestarts.RestartedIteration | converger.go:28-68 | the same for a new process that finds the same disks |
| Idempotence.FinishedSteady | pkg/core/assignment.go:105-218 | after an iteration that went through, a new scan finds each drive with an id of its own in its place, and no id left to hand out |
| Repetition.ConvergeAgain | converger.go:54-68 | an iteration over quiet drives whose assignments move none is nothing but its round of assignments |
| Repetition.RunPrepares | pkg/core/xfs.go:45-60 | in every run, all known layers of a working drive are formatted |
| Distinctness.StepNoTwins | pkg/core/assignment.go:176-218 | no step gives two managed disks an id they did not both carry before, even with unreadable drives and failing writes |
| Audit.OnlyForeignReported | converger.go:77-90 | at the end of every iteration of a tame run the check for unexpected mounts names exactly the mounts that are deeper than one level below `/srv/node` and on no managed disk |
| Audit.ReportedExactly | converger.go:79-90 | with any mounts of others, once all drives are done a mount below `/srv/node` is reported if and only if its device is on no managed disk |
| Agreement.CallsAgree | pkg/os/linux_mount.go:27-97 | after any sequence of mounts and umounts, whichever fail, both caches list who is mounted where as the kernel does |
| Agreement.AgreementExact | pkg/os/linux_mount.go:54-61 | one call keeps that agreement if and only if it is not a local call where the local namespace follows the host's, or finds nothing to do, or is bound to fail |
| Agreement.LocalCallIdle | pkg/os/interface.go:119-126 | outside separate mode the local call of a host-then-local pair runs no command |
| MountCache.UnmountThoseEffect | pkg/core/xfs.go:65-77 | the loop that unmounts while the table shrinks leaves exactly the entries to be kept, in order, and every other device's entries |
| MountCache.MountBothEffect | pkg/core/xfs.go:84-91 | mounting in both scopes shows the device at that path only, in both, whatever the propagation mode |
| Isolation.ConvergeIsolated | pkg/core/drive.go:91-103 | converging a drive, even failing midway, leaves every other device's entries in caches and kernel unchanged and in order |
| Isolation.TeardownIsolated | pkg/core/drive.go:106-110 | tearing down needs no condition on paths for the same |
| Isolation.SharedPathNotIsolated | pkg/os/linux_mount.go:99-106 | without path ownership an umount takes another device's mount, and the cache does not notice |
| Isolation.UmountSpares | pkg/os/linux_mount.go:66-106 | in any mode an umount leaves the entries of a device alone, in kernel and caches, if and only if nothing is unmounted, or the device is neither on top at the path in a namespace reached nor first at it in a table edited |
| Isolation.MountSpares | pkg/os/linux_mount.go:27-63 | a mount leaves the entries of every other device alone, even at a shared path |
| DeviceFacts.SetupEffect | pkg/core/xfs.go:37-106 | `Setup` through any number of containers moves only the innermost device, to its target in both scopes |
| DeviceFacts.TeardownEffect | pkg/core/luks.go:93-116 | a successful `Teardown` leaves the innermost device without mounts and moves nothing else |
| DeviceFacts.ValidateXfsRecorded | pkg/core/xfs.go:130-170 | validation with a recorded path succeeds iff both scopes show the device there, only there, and writable |
| DeviceFacts.ValidateXfsFresh | pkg/core/xfs.go:130-170 | validation of a new object succeeds iff the device is unmounted, or writable at one path and shown in the local scope |
| Stability.ValidateExact | pkg/core/luks.go:119-156 | at any depth, validation of a known chain succeeds iff each mapping matches, no container is mounted itself and the filesystem is in order |
| Stability.SetupIdle | pkg/core/luks.go:38-90 | `Setup` of a chain in order runs no command at all |
| Stability.ConvergeTwice | pkg/core/drive.go:91-103 | once converging a drive has worked, doing it again runs no command and changes nothing |
| Stability.RestartIdle | pkg/core/drive.go:19-57 | a new drive object over a disk in order takes it over with nothing but looks, without changing kernel or caches |
| KeyRotation.KeysRotate | pkg/core/luks.go:50-80 | a disk set up under one list of keys comes up under another, content unchanged, iff the first old key is among the new ones; else it is untouched |
| KeyRotation.OpenOnlyByKey | pkg/os/linux_luks.go:24-45 | whatever fails, a container is only opened by its own key under a free name, and a loop that finds no key changes nothing |
| KeyRotation.KeysInOrder | pkg/os/linux_luks.go:24-45 | keys are tried in the order of the configuration, up to the first that works |
| KeyRotation.LockedOut | pkg/core/luks.go:68-80 | without the key `Setup` fails and changes neither kernel nor caches |
| KeyRotation.Reopen | pkg/core/luks.go:68-90 | without failures, a closed container with no container inside comes up mounted in both namespaces, a filesystem in it unchanged, if and only if its key is configured; else nothing happens |
| KeyRotation.NestedStaysShut | pkg/core/luks.go:69 | a container inside a closed container can never be opened, as both would need the drive's name |
| Termination.ValidateDescends | pkg/core/luks.go:151-155 | the recursion of `Validate` goes to a smaller rank whenever the mapping cache is true to the kernel |
| Termination.SetupDescends | pkg/core/luks.go:84-89 | so does the recursion of `Setup`, also into containers it has just created or opened |
| Chains.SetupChain | pkg/core/luks.go:38-90 | however far `Setup` gets, its objects stay true to what is open in the kernel, and no other disk is touched |
| Chains.TeardownChain | pkg/core/luks.go:93-116 | the same for `Teardown` |
| KernelFacts.TraceWf | pkg/os/linux_luks.go:24-51 | no run of commands breaks the shape of the kernel: one mapping per container, and only filesystems are mounted |
| Allocations.FirstFit | pkg/core/assignment.go:181-218 | the drives served get the first unused pool ids in pool order, failed writes use up none, and with good writes the number served is the smaller of eligible drives and unused ids |
| Allocations.RoundExact | README.md:180-196 | a whole round writes exactly those ids, and nothing while a drive is broken or misplaced |
| Allocations.RoundIsPass | pkg/core/assignment.go:105-218 | a round over readable drives in which no command fails assigns what one pass of first fit over the ids on disk gives |
| Allocations.LabelsExact | pkg/core/assignment.go:105-174 | when exactly a drive that was read is missing an id, blocked, pending, a duplicate, in the wrong place, or fine, by the ids read and where it is mounted |
| Allocations.ReadingExact | pkg/core/assignment.go:107-122 | the scan reads nothing from a disk that is not mounted, and a swift-id file that cannot be read is not taken for an empty one |
| Allocations.UnreadUntouched | pkg/core/assignment.go:118-120 | a disk that could not be read is given an id only if it was waiting for one since an earlier round |
| Allocations.RoundServes | pkg/core/assignment.go:176-218 | exactly how many drives a round gives an id: none if one is broken or in the wrong place or there is no pool, else as many as wait and as there are unused ids |
| Assignments.FirstUnusedAt | pkg/core/assignment.go:183-195 | the id handed out is the one before which all entries of the pool are taken |
| Assignments.NoneUnused | pkg/core/assignment.go:197-201 | nothing is handed out when all entries are taken |
| Allocations.VerdictsReordered | pkg/core/assignment.go:105-174 | permuting the drives changes no drive's verdict |
| Allocations.ClaimsApart | pkg/core/assignment.go:164-173 | two drives that were both read never claim the same place |
| Allocations.StaleClaim | pkg/core/assignment.go:117-121 | a drive that cannot be read keeps its claim, and a collision with it goes unnoticed |
| Allocations.StaleClaimMeets | pkg/core/assignment.go:112-173 | it collides with a drive that was read if and only if that one reads, alone and in the right place, the id that was assigned to it |
| Allocations.EditedIdCollides | pkg/core/drive.go:68-80 | a drive whose id was edited stays mounted where another drive is now sent |
| Allocations.ClaimedPlaceTaken | pkg/core/drive.go:68-80 | a drive that was read and has a claim, and any other, are sent to one place if and only if the other one sits there, or had that claim before and could not be read |
| Pools.PassResumes | pkg/core/assignment.go:105-218 | a pass of assignments interrupted anywhere and started over, with a new scan, ends with the same ids |
| Batches.BatchEqualsOneByOne | pkg/core/assignment.go:105-218 | disks without ids that join a fleet one by one, each with an iteration of its own, end up with the same ids as in one batch, and so do the disks that were there |
| Batches.JoinPasses | pkg/core/assignment.go:105-218 | an iteration that disks join is one pass of first fit over the ids on all disks |
| Pools.BatchIsIncremental | pkg/core/assignment.go:140-155 | over the ids alone, blanks are filled together as one by one with a rescan each |
| Pools.PassApart | pkg/core/assignment.go:181-218 | ids that are pairwise distinct stay so |
| Pools.RenamedPool | config.go:56-66 | numbering the spares orders them from 0 upwards and changes nothing of what is written to disk |
| Pools.SpareNameInjective | pkg/core/assignment.go:146 | no two spare numbers give the same name |
| Rescan.RescanFindsAssigned | pkg/core/assignment.go:209-216 | the next scan reads on each working drive the id that its assignment names |
| Collectors.EventReplay | pkg/os/linux_drive.go:28-138 | after any number of scans the managed devices are exactly those in the last scan that were eligible when first seen since their last absence, each once |
| Collectors.IterationReplays | converger.go:124-154 | an iteration manages the devices that the replay of its events names, in that order |
| Collectors.OthersIrrelevant | converger.go:157-177 | errors, reinstatements and wakeups in between change nothing about that |
| Collectors.Collector.Cycle | pkg/os/linux_drive.go:32-136 | one cycle reports each vanished path once, then each new eligible one once, and knows the rest |
| Collectors.DevicesKept | pkg/os/linux_drive.go:45-80 | a path that is still there stands for the device it had when first seen, and a removal names that device |
| Collectors.AddedCarries | pkg/os/linux_drive.go:95-130 | every added event carries the serial number found for its device |
| Collectors.AddedReports | pkg/os/linux_drive.go:64-130 | and every new eligible device is reported |
| Collectors.AddedNames | converger.go:124-133 | the drive made for an added event has its path, its serial number and the configured keys, and comes last |
| Collectors.ReinstatedNames | converger.go:167-177 | a reinstated drive keeps serial number, keys and place, and no other drive changes |
| Collectors.RemovedLast | converger.go:136-154 | a removal drops every drive at the path and tears down the last one there |
| Lsblk.SerialOfBacking | pkg/parsers/lsblk.go:68-80 | the serial number found at a mapping's backing device is the mapping's name |
| Lsblk.BackingOfSerial | pkg/parsers/lsblk.go:37-61 | the backing device found for a device's serial number is that device |
| Lsblk.BackingExact | pkg/parsers/lsblk.go:47-61 | a backing device is found iff some node has that mapping as a child |
| Lsblk.FoundDevice | pkg/parsers/lsblk.go:82-93 | the search by path finds a node with that path iff there is one |
| Lsblk.BackingPath | pkg/parsers/lsblk.go:35-61 | the first node in preorder above the mapping answers, with `/dev/mapper/<name>` for mappings and multipath devices and `/dev/<name>` for disks, partitions, ROMs and loop devices, and a panic for any other type |
| Lsblk.BackingAbsent | pkg/parsers/lsblk.go:35-61 | nothing is answered, and nothing panics, if no node is above the mapping |
| Lsblk.DeviceFound | pkg/parsers/lsblk.go:82-104 | the first node in preorder with that path is found, and a node of an unknown type before it makes the search panic |
| Lsblk.DeviceAbsent | pkg/parsers/lsblk.go:82-93 | nothing is found if no node has the path and all types are known |
| Lsblk.SerialFound | pkg/parsers/lsblk.go:63-80 | the serial number of a device is the name of the mapping on it if that is its only child, else none |
| LinuxObject.Linux.MountDevice | pkg/os/linux_mount.go:27-63 | the method refines its specification: table search, command, and record in one or both scopes |
| LinuxObject.Linux.UnmountDevice | pkg/os/linux_mount.go:66-97 | likewise, with removal from one or both tables |
| LinuxObject.Linux.RemoveMountPoint | pkg/os/linux_mount.go:99-106 | the loop drops exactly the first entry at the path |
| LinuxObject.Linux.GetMountPointsOf | pkg/os/linux_mount.go:182-190 | the loop lists exactly the entries of the device, in order |
| LinuxObject.Linux.GetMountPointsBelowSrvNode | pkg/os/linux_mount.go:167-179 | the loop lists exactly the entries below `/srv/node`, at any depth, in order |
| LinuxObject.Linux.RefreshMountPoints | pkg/os/linux_mount.go:109-123 | the tables become what one listing per namespace shows |
| LinuxObject.Linux.OpenLuksContainer | pkg/os/linux_luks.go:24-45 | the key loop refines its specification, cache entry included |
| LinuxObject.Linux.CloseLuksContainer | pkg/os/linux_luks.go:48-51 | closing leaves the cache entry in place |
| LinuxObject.Linux.RefreshLuksMappings | pkg/os/linux_luks.go:54-95 | the cache names for each open container a mapping it has, in whatever order mappings are listed |
| DeviceObjects.XfsDevice.Validate | pkg/core/xfs.go:130-170 | the object's fields and the result are those of the specification |
| DeviceObjects.XfsDevice.Setup | pkg/core/xfs.go:37-106 | likewise, step by step with all early exits |
| DeviceObjects.XfsDevice.Teardown | pkg/core/xfs.go:109-127 | likewise |
| DeviceObjects.LuksDevice.Validate | pkg/core/luks.go:119-156 | likewise, for a chain of objects of any length |
| DeviceObjects.LuksDevice.Setup | pkg/core/luks.go:38-90 | likewise |
| DeviceObjects.LuksDevice.Teardown | pkg/core/luks.go:93-116 | likewise |
| DeviceObjects.UnmountScope | pkg/core/xfs.go:65-74 | the loop over an earlier listing, while the table shrinks, refines its specification |
| DeviceObjects.UnmountAll | pkg/os/interface.go:119-126 | host first, then local unless the host failed |
| DeviceObjects.MakeDevice | pkg/core/model.go:29-44 | the object made fits what is on the device, and is nil iff it is unreadable |
| DriveObjects.DriveObject.constructor | pkg/core/drive.go:19-57 | the new drive is the one specified, and broken iff it has no device or a flag is left |
| DriveObjects.DriveObject.Converge | pkg/core/drive.go:91-103 | the drive, its layers and the system become what the specification says |
| DriveObjects.DriveObject.Teardown | pkg/core/drive.go:106-110 | likewise |
| DriveObjects.DriveObject.MarkAsBroken | pkg/core/drive.go:129-142 | likewise, with its flag set unless that fails and the assignment forgotten |
| Drives.TargetIsMountPath | pkg/core/drive.go:68-80 | the target a layer computes is the mount path of the drive |
| Assigner.UpdateDriveAssignments | pkg/core/assignment.go:95-219 | the single scan with retroactive duplicate marking, followed by the allocation loop, refines the specification that knows no order of drives |
| Assigner.Scan | pkg/core/assignment.go:105-174 | after the scan each drive has its verdict, and the taken ids and the misplacement flag are exact |
| Assigner.JudgeAt | pkg/core/assignment.go:111-173 | one drive's turn gives it its verdict and corrects the first drive with the same id, for any number of drives sharing it |
| Assigner.AllocateAll | pkg/core/assignment.go:181-218 | the allocation loop refines first fit |
| Assigner.FindUnused | pkg/core/assignment.go:189-195 | the inner loop finds the first pool entry not taken |
| Configuration.NumberSpares | config.go:56-66 | the in-place loop numbers the spares of the pool in order |
| ConvergerObjects.Converger.Converge | converger.go:54-68 | the three loops reach exactly the state the transition system reaches, or die where it dies |
| ConvergerObjects.Converger.Iterate | converger.go:31-49 | refresh, all events and convergence together are one iteration of the transition system |
| ConvergerObjects.Converger.HandleAdded | converger.go:124-133 | the handler refines its step, or dies with it |
| ConvergerObjects.Converger.HandleRemoved | converger.go:136-154 | all drives at the path leave the list, and the last of them is torn down |
| ConvergerObjects.Converger.HandleErrored | converger.go:157-164 | only the first drive at the path is marked |
| ConvergerObjects.Converger.HandleReinstated | converger.go:167-177 | only the first drive at the path is replaced, in place |
| ConvergerObjects.Converger.CheckForUnexpectedMounts | converger.go:79-90 | the nested loops report exactly the mounts below `/srv/node`, at any depth, that are no drive's mount path |

## Left out

- Running commands, nsenter, chroot, and parsing the output of `mount`, `dmsetup`, `cryptsetup`, `smartctl`, `sfdisk` and `file`: foreign calls, replaced by `Kernels` and `fate`. A command that fails has no effect; creating the target directory and the mount itself are one command.
- Detection of the propagation mode: the mode is part of the kernel and never changes.
- Collector goroutines, queues, timers and the kernel log reader: events arrive in any batches a `World` allows.
- `Apply` and `ErrorMessage` write log messages; only the assignment they set is modelled.
- Chown, metrics, `drive.recon`, the links for unmount propagation and the ready flag: they feed nothing back.
- DriveID fallback by hash and cleaning of serial numbers: drives are told apart by different DriveIDs.
- Sorting of the batches of added and removed drives, which exists for the test suite: batches may come in any order.
- LUKS key slots: a container has one key, the one it was made with.
- Aliases of multipath devices in the mapping cache, and mappings without a backing device: one device file per device.
- Changes from outside in the middle of an iteration: they are seen at the next refresh.
- CrashRecovery.RestartEndsSame: compares mount tables as sets of devices and paths, without order and repetition; batches that remove, reinstate or break drives, and fleets with a drive in quarantine, are not covered.
- DeviceObjects.LuksDevice.Validate: carries the test on the rank explained at `Devices.Validate`.
- DeviceObjects.LuksDevice.Setup: carries the same test.
- Devices.Validate: a mapping cache that is not true to the kernel could make the original recurse forever; the model answers that case with a failure, and `Termination` shows that it does not arise otherwise.
- ConvergerObjects.Converger.Iterate: asks that no two open mappings have the same backing device, which `KernelFacts.TraceWf` keeps.
