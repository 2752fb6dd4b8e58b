# A model of the MiniDocker runtime core

MiniDocker is a small container runtime written in Go. This project models its core in
Dafny:

- **the IPv4 allocator** (network/ipam.go): a bitmap per subnet, and the byte arithmetic
  that turns a bitmap position into an address and back;
- **the cgroup layer** (cgroups/): locating a controller's hierarchy through
  `/proc/self/mountinfo` and resolving (and perhaps creating) a cgroup directory; the
  memory, CPU share and CPU set drivers; the registry of drivers; the `CgroupManager`
  that hands `Set`, `AddProcess` and `Remove` to every driver;
- **the container filesystem** (container/volume.go, and the older revision of the same
  code in container/container_process.go): the read-only image layer, the write layer,
  the overlay mount, the data volume, and the teardown; plus the shape of `NewProcess`;
- **the init process** (container/init.go, container/utils.go): the mount namespace check,
  reading the command from the pipe, making `/` private, the `pivot_root` sequence,
  mounting `/proc` and `/dev`, and the final exec;
- **the container record lifecycle** (container/container_info.go, and `run`, `stop` and
  `rm` in dockerCommand/): the record written under
  `/var/run/minidocker/<name>/config.json`, the ten-digit id, the order of the steps of
  `docker run`, and the record updates made by `docker stop` and `docker rm`.

Each module follows one source file. Code that changes the host step by step becomes
imperative Dafny:

- methods on a class standing for the part of the host it touches: `CgroupFs`, `Host`,
  `InfoStore`, `InitCalls` and `IPAM`;
- every such method is proved equal to a specification function of the old state;
- the properties the source promises are lemmas about those functions.

Pure code (path and option strings, the volume argument, the index arithmetic) becomes
functions and lemmas.

What the kernel decides is a parameter, never an effect:

- whether a call fails: a `failing` set, or the `Kernel` value of the cgroup filesystem;
- the contents of `/proc/self/mountinfo` and the namespace links;
- the pipe's contents, the random draws and the clock;
- the outcome of `load`/`dump`, `Start` and the network calls.

Modules `Text` and `Paths` model the parts of Go's standard library the core uses:
`strings.Split`, `Join`, `Fields` and `ReplaceAll`, `strconv.Itoa` and `Atoi`, and
`path.Clean` and `Join`. Module `Host` models the host filesystem with its mount table
and a trace of attempted operations. These three are infrastructure and have no rows
below.

Behaviours of the code that look unintended are modelled as the code does them, and each
is stated by a lemma:

- the inverted existence test in `pivotRoot`, which refuses a new root that exists: see
  `Init.PivotRootRefusesExistingRoot` and `Init.ExistingWorkDirNeverExecs`;
- the CPU share and CPU set drivers write the memory limit, and their names
  (`"CPUShare"`, `"CPUSet"`) never match a kernel option, so both use the relative path
  and removal always fails: see `CgroupManager.SharedDirectoryRemoveFails` and
  `CgroupManager.RemoveAlwaysFails`;
- the carry-free address arithmetic of `Allocate`: index 255 yields the subnet address,
  and the last index yields an address outside the subnet. See
  `Ipam.Index255IsSubnetAddress` and `Ipam.LastIndexLeavesSubnet`;
- `os.Exit(0)` skips the deferred `cm.Remove()` on the normal path of `Run`: see
  `Run.DeferredRemoveOnlyOnNetworkFailure`;
- a blank pid left by `stop` makes a second `stop` a no-op: see `Stop.StopTwiceIsNoOp`.

dockerCommand/run.go calls `NewProcess` and `RecordContainerInfo` with more arguments
than the versions in container/ take. The model of `Run` follows run.go:

- the record receives the id `Run` drew;
- `NewProcess` is an event carrying the arguments that both versions share.

## Model

| member | source | states |
|---|---|---|
| Ipam.IPAM.constructor | network/ipam.go:20-22 | the allocator starts with no subnet recorded |
| Ipam.FirstZero | network/ipam.go:96-98 | the position found is free, and every earlier one is taken; None exactly when no position is free |
| Ipam.WithSubnet | network/ipam.go:90-93 | a subnet seen for the first time gets 2^hostBits free positions; an existing bitmap and every other subnet are kept |
| Ipam.Mask | network/ipam.go:124 | the network address has four octets |
| Ipam.AllocatedAddress | network/ipam.go:104-110 | the address computed for a position has four octets |
| Ipam.Decrement | network/ipam.go:133 | the decremented address has four octets |
| Ipam.PartialIndexComplete | network/ipam.go:131-136 | after its four rounds the loop has summed every weighted octet difference |
| Ipam.OctetsRebuild | network/ipam.go:107-109 | an index below 2^32 is the weighted sum of the four octets the loop adds |
| Ipam.ReleaseUndoesAllocate | network/ipam.go:104-136 | decrementing the allocated address and taking octet differences to the same network gives the index back, for every network and every 32-bit index |
| Ipam.AllocatedAddressInjective | network/ipam.go:104-110 | distinct indices never yield the same address |
| Ipam.Index255IsSubnetAddress | network/ipam.go:107-110 | in 10.0.0.0/24, index 255 is handed out as 10.0.0.0, the subnet address |
| Ipam.LastIndexLeavesSubnet | network/ipam.go:92-110 | in 10.0.0.0/30 the fourth position is handed out as 10.0.0.4, outside the subnet |
| Ipam.GatewayInSubnet | network/ipam.go:104-110 | position 0 of a subnet with a host bit is in the subnet, and decrementing it gives the network address |
| Ipam.IndexBelowAddressSpace | network/ipam.go:92-96 | every position of a 2^(32-ones) bitmap fits in 32 bits |
| Ipam.FindFree | network/ipam.go:96-98 | the scan returns the first free position, if any |
| Ipam.AddIndex | network/ipam.go:104-110 | the subnet IP is overwritten in place with the address of the position |
| Ipam.IndexOf | network/ipam.go:131-136 | the loop computes the release index of the address |
| Ipam.IPAM.Allocate | network/ipam.go:80-119 | the map holds the subnet's bitmap with the first free position taken; the result is the caller's subnet IP, rewritten to the address, or nil when the bitmap is full; the load error is returned; the map is kept only when the dump succeeds |
| Ipam.IPAM.Release | network/ipam.go:122-147 | `ipaddr` is decremented in place; the index computed against the masked network is cleared; a panic happens exactly when the index lies beyond the bitmap; nil is returned |
| Ipam.GatewayRoundTrip | network/ipam.go:80-147 | allocating a gateway from a new subnet and releasing it with the same IP slice restores the subnet address and leaves the fresh bitmap |
| Ipam.AllocateThenRelease | network/ipam.go:80-147 | releasing the address that was just allocated restores the subnet's bitmap, for every free position |
| CgroupFs.LineFields | cgroups/subsystem/utils.go:24 | a mountinfo line always has a last field |
| CgroupFs.MountpointOfFirstMatch | cgroups/subsystem/utils.go:21-32 | the first line whose options include the name decides: its fifth field is the root |
| CgroupFs.MountpointOfNoMatch | cgroups/subsystem/utils.go:21-34 | "" is the root when no line lists the name |
| CgroupFs.CapitalisedNamesNeverMatch | cgroups/subsystem/utils.go:28-30 | with lower-case kernel options, "CPUShare" and "CPUSet" have root "" |
| CgroupFs.JoinEmptyRoot | cgroups/subsystem/utils.go:45 | joining a plain name onto an empty root gives the relative name |
| CgroupFs.CgroupPathCases | cgroups/subsystem/utils.go:42-58 | an existing directory is returned and nothing is created; a missing one is created only with autoCreate and a successful mkdir; everything else is an error that changes nothing |
| CgroupFs.CgroupFs.Mkdir | cgroups/subsystem/utils.go:50 | `os.Mkdir` on the cgroup filesystem |
| CgroupFs.CgroupFs.WriteFile | cgroups/subsystem/memory.go:25 | `os.WriteFile` replaces one control file of an existing directory |
| CgroupFs.CgroupFs.Remove | cgroups/subsystem/memory.go:51 | `os.Remove` takes a cgroup directory away with its control files |
| CgroupFs.CgroupFs.FindCgroupMountpoint | cgroups/subsystem/utils.go:14-35 | the scan stops at the first matching line and returns the root |
| CgroupFs.CgroupFs.GetCgroupPath | cgroups/subsystem/utils.go:42-58 | stat, then mkdir when missing and allowed; the result and the new state are the specification's |
| CgroupFs.ListsOption | cgroups/subsystem/utils.go:28-32 | the inner loop finds the name exactly when it is among the line's options |
| Subsystem.SetShapeEffect | cgroups/subsystem/memory.go:19-31 | a resolved cgroup exists afterwards; its control file receives the content exactly when the limit is set and the write succeeds; no other file changes |
| Subsystem.AddTaskEffect | cgroups/subsystem/memory.go:34-44 | success exactly when the cgroup exists and `tasks` can be written, which then holds the decimal pid; no directory is created |
| Subsystem.RemoveCgroupEffect | cgroups/subsystem/memory.go:47-53 | success exactly when the cgroup exists and the kernel lets it go; the directory and its files are then gone |
| MemorySubsystem.Set | cgroups/subsystem/memory.go:19-31 | the memory driver's `Set` equals its specification |
| MemorySubsystem.AddProcess | cgroups/subsystem/memory.go:34-44 | the pid is written to `tasks` of an existing cgroup |
| MemorySubsystem.RemoveCgroup | cgroups/subsystem/memory.go:47-53 | the cgroup directory is removed |
| MemorySubsystem.SetEffect | cgroups/subsystem/memory.go:19-31 | the cgroup is created even with an empty limit; `memory.limit_in_bytes` receives the limit verbatim exactly when it is non-empty; a resolution error is returned and changes nothing |
| CpuSubsystem.Set | cgroups/subsystem/cpu.go:19-31 | the CPU share driver's `Set` equals its specification |
| CpuSubsystem.AddProcess | cgroups/subsystem/cpu.go:34-44 | the pid is written to `tasks` of an existing cgroup |
| CpuSubsystem.RemoveCgroup | cgroups/subsystem/cpu.go:47-53 | the cgroup directory is removed |
| CpuSubsystem.SetEffect | cgroups/subsystem/cpu.go:19-31 | a resolution failure is swallowed; `cpu.shares` receives the memory limit when the share is non-empty |
| CpuSetSubsystem.Set | cgroups/subsystem/cpuset.go:19-31 | the CPU set driver's `Set` equals its specification |
| CpuSetSubsystem.AddProcess | cgroups/subsystem/cpuset.go:34-44 | the pid is written to `tasks` of an existing cgroup |
| CpuSetSubsystem.RemoveCgroup | cgroups/subsystem/cpuset.go:47-53 | the cgroup directory is removed |
| CpuSetSubsystem.SetEffect | cgroups/subsystem/cpuset.go:19-31 | a resolution failure is returned; `cpuset.cpus` receives the memory limit when the CPU list is non-empty |
| Registry.RegistryDrivers | cgroups/subsystem/subsystem.go:26-30 | three drivers, memory first, each once, with distinct names |
| Registry.Set | cgroups/subsystem/subsystem.go:17 | `Set` through the interface runs the driver's `Set` |
| Registry.AddProcess | cgroups/subsystem/subsystem.go:20 | `AddProcess` through the interface runs the driver's `AddProcess` |
| Registry.RemoveCgroup | cgroups/subsystem/subsystem.go:23 | `RemoveCgroup` through the interface runs the driver's `RemoveCgroup` |
| CgroupManager.CgroupManager.constructor | cgroups/cgroup_manager.go:22-26 | only the path is set; the resource stays nil |
| CgroupManager.CgroupManager.Set | cgroups/cgroup_manager.go:30-37 | every driver runs `Set` in registry order; nil is always returned |
| CgroupManager.CgroupManager.AddProcess | cgroups/cgroup_manager.go:39-46 | every driver runs `AddProcess` in registry order; nil is always returned |
| CgroupManager.CgroupManager.Remove | cgroups/cgroup_manager.go:48-55 | drivers remove in order until one fails, whose error is returned |
| CgroupManager.UnconstrainedWritesNothing | cgroups/cgroup_manager.go:30-37 | with every limit empty, no file is written |
| CgroupManager.SharedDirectoryRemoveFails | cgroups/cgroup_manager.go:48-55 | when the CPU share and CPU set drivers resolve to one directory, `Remove` never returns nil |
| CgroupManager.RemoveAlwaysFails | cgroups/cgroup_manager.go:48-55 | when mountinfo is unreadable or lists only lower-case options, `Remove` always fails |
| CgroupManager.SetThenAddProcess | cgroups/cgroup_manager.go:30-46 | on a kernel that refuses nothing, the memory cgroup holds the limit and lists the pid |
| CgroupManager.SetAllWritesLimit | cgroups/cgroup_manager.go:30-37 | after `Set` on a kernel that refuses nothing, the memory cgroup directory exists and its limit file holds the limit |
| CgroupManager.AddAllWritesTasks | cgroups/cgroup_manager.go:39-46 | `AddProcess` writes the pid into the memory cgroup's `tasks` and leaves its directory and limit file as they were |
| Volume.VolumeUrlExtract | container/volume.go:173-175 | colon-free pieces that join back to the argument |
| Volume.VolumeRule | container/volume.go:20-24 | the gate accepts exactly `host:target` with both parts non-empty and colon-free, and extracts exactly those two |
| Volume.OverlayOptionsSplit | container/volume.go:82-87 | the option string names the three directories, in order |
| Volume.RootOptionsSplit | container/volume.go:80-87 | the root overlay names the image, the write layer and the work directory |
| Volume.VolumeOptionsSplit | container/volume.go:213 | the volume overlay names the empty lower directory, the host directory and the work directory |
| Volume.CreateReadOnlyLayer | container/volume.go:34-53 | the image is unpacked only when its directory does not exist |
| Volume.CreateWriteLayer | container/volume.go:56-61 | the write layer is created |
| Volume.CreateMountPoint | container/volume.go:65-95 | the mount and work directories are made, then the overlay is mounted |
| Volume.MountVolume | container/volume.go:183-220 | the volume steps run in order on the host |
| Volume.NewWorkSpace | container/volume.go:13-30 | the layers, the mount and, for a valid argument, the volume |
| Volume.ReadOnlyLayerIdempotent | container/volume.go:39-52 | after a build whose mkdir succeeded, a second build with the same image does nothing |
| Volume.MountVolumeTrace | container/volume.go:183-220 | the exact order of the volume steps; the work directory is re-created only when emptying it worked |
| Volume.InvalidVolumeIgnored | container/volume.go:20-29 | an argument the gate rejects causes no volume action |
| Volume.ValidVolumeMountedLast | container/volume.go:20-24 | with a valid volume the last build step mounts it on its target |
| Volume.DeleteMountPoint | container/volume.go:116-129 | unmount, then remove the mount directory |
| Volume.DeleteMountPointWithVolume | container/volume.go:132-158 | the volume is unmounted, then the root mount; then the mount and scratch directories are removed |
| Volume.DeleteWriteLayer | container/volume.go:161-170 | the write layer and the work directory are removed |
| Volume.DeleteWorkSpace | container/volume.go:100-113 | the mount teardown chosen by the gate, then the layers |
| Volume.TeardownRunsEveryStep | container/volume.go:100-170 | every teardown step is attempted, in order, whatever the kernel refuses |
| Volume.TeardownLeavesNoResidue | container/volume.go:100-170 | with no refused removal, nothing under the container's directories remains |
| Volume.TeardownKeepsOutside | container/volume.go:100-170 | a directory lying, by path, outside every removed directory survives, whatever is refused; removal through a mount left in place is not modelled (see Left out) |
| Volume.ImageDirIsClean | container/volume.go:35 | the image directory of a plain name is `/root/<image>`, already clean |
| Volume.ImageOutsideContainer | container/volume.go:35 | the image directory lies outside the container's mount, write layer and work directory |
| Volume.TeardownKeepsImage | container/volume.go:100-170 | teardown never removes an existing image directory |
| Volume.BuildMounts | container/volume.go:13-30 | a build adds the root overlay, then the volume overlay when the volume is valid |
| Volume.BuildTeardownRestoresMounts | container/volume.go:13-113 | with no refused mount or unmount, teardown restores the mount table the build started from |
| ContainerProcess.CreateReadOnlyLayer | container/container_process.go:82-99 | busybox is unpacked only when its directory is missing |
| ContainerProcess.CreateWriteLayer | container/container_process.go:102-107 | a single-level mkdir of the write layer |
| ContainerProcess.CreateMountPoint | container/container_process.go:111-138 | the mount and work directories, then the overlay mount |
| ContainerProcess.MountVolume | container/container_process.go:224-260 | the volume steps with the concatenated target |
| ContainerProcess.NewWorkSpace | container/container_process.go:62-79 | the layers, the mount and, for a valid argument, the volume |
| ContainerProcess.ReadOnlyLayerIdempotent | container/container_process.go:85-97 | the busybox layer is unpacked at most once |
| ContainerProcess.WriteLayerRefusesExisting | container/container_process.go:102-107 | the mkdir fails over an existing write layer and changes no directory |
| ContainerProcess.DeleteMountPoint | container/container_process.go:159-171 | unmount, then remove the mount directory |
| ContainerProcess.DeleteMountPointWithVolume | container/container_process.go:174-199 | the volume is unmounted at the joined target, then the root mount; the directories are removed |
| ContainerProcess.DeleteWriteLayer | container/container_process.go:202-211 | the write layer and `tmpWork/` are removed |
| ContainerProcess.DeleteWorkSpace | container/container_process.go:143-156 | the mount teardown chosen by the gate, then the layers |
| ContainerProcess.TeardownRunsEveryStep | container/container_process.go:143-211 | teardown unmounts the volume before the root mount and attempts every step |
| ContainerProcess.VolumeTargetAgrees | container/container_process.go:176 | for a rooted mount directory ending in '/', the concatenated target and the joined one resolve to the same directory |
| ContainerProcess.WorkDirAgrees | container/container_process.go:207 | `<root>tmpWork/` and `<root>tmpWork` are the same directory |
| ContainerProcess.TeardownLeavesNoResidue | container/container_process.go:143-211 | with no refused removal, nothing under the mount, write or work directory remains |
| ContainerProcess.BuildMounts | container/container_process.go:62-79 | a build adds the root overlay, then the volume overlay when valid |
| ContainerProcess.RootMounts | container/container_process.go:82-138 | the layers add no mount; the mount point step adds exactly the root overlay at the cleaned mount directory |
| ContainerProcess.VolumeMounts | container/container_process.go:224-260 | the volume step adds exactly one overlay, of the host directory, at the cleaned concatenated target |
| ContainerProcess.BuildTeardownRestoresMounts | container/container_process.go:62-211 | with `/root/mnt/` and no refused mount or unmount, teardown restores the mount table |
| ContainerProcess.NewProcess | container/container_process.go:14-59 | pipe, log directory and log file, workspace, then the prepared command |
| ContainerProcess.NewProcessShape | container/container_process.go:14-59 | nil values exactly when the pipe, the log directory or the log file fails, and then no workspace; otherwise `/proc/self/exe init` in `/root/mnt/` with the read end as its only extra file |
| ContainerUtils.DecodeWithoutEscapes | container/utils.go:35-38 | a mount point without backslashes decodes to itself |
| ContainerUtils.DecodeSpace | container/utils.go:35 | `\040` decodes to a space |
| ContainerUtils.DecodeBackslashLast | container/utils.go:35-38 | because the backslash is decoded last, `\134040` decodes to `\040`, not to a space |
| ContainerUtils.ListedInSomeLine | container/utils.go:27-43 | the table lists a path exactly when some line's decoded fifth field is that path |
| ContainerUtils.IsMountPoint | container/utils.go:13-46 | true exactly when some line lists the cleaned absolute path; an error exactly when the path or the file cannot be resolved |
| ContainerUtils.ListsPlainMountPoint | container/utils.go:28-40 | for an escape-free field, a line lists exactly the path it spells |
| ContainerUtils.ShortLineListsNothing | container/utils.go:29-31 | a line with fewer than five fields lists nothing |
| ContainerUtils.VerifyMountNamespace | container/utils.go:49-68 | nil exactly when both links are read and differ |
| Init.PivotDirIsJoin | container/init.go:133 | the directory the old root moves to is `root/.pivot_root` |
| Init.JoinChild | container/init.go:133 | `filepath.Join(dir, name)` of a plain name |
| Init.JoinOntoRoot | container/init.go:148 | `filepath.Join("/", name)` is `/name` |
| Init.ReadCommand | container/init.go:157-167 | the words, joined with spaces, give the message back; no word holds a space; nil exactly when the pipe cannot be read |
| Init.EmptyMessageIsOneWord | container/init.go:26-28 | an empty message is one empty word, so it passes the nil-or-empty test |
| Init.InitCalls.Do | container/init.go:125 | a kernel call is recorded and succeeds unless it is refused |
| Init.PivotRootCall | container/init.go:118-155 | the error and the calls made are those of the specification, with `isMountPoint`'s answer read from the mount table |
| Init.BindAndPivot | container/init.go:124-154 | the bind, the mount-point check, then the remaining calls, each refusal ending pivotRoot with its own error |
| Init.PivotAndDetach | container/init.go:132-154 | mkdir, pivot_root, chdir, unmount and remove, in order, stopping at the first refused call with its error; nil after all five |
| Init.SetUpMount | container/init.go:59-99 | the error and the calls made are the specification's: getwd, `/` made private, pivotRoot on the working directory, then /proc (a failure only logged) and /dev; the mount-point answer is read from the mount table |
| Init.InitProcess | container/init.go:19-56 | the error and the calls made are the specification's: namespace check, command read, setUpMount, then exec of the looked-up path, nil when the lookup fails |
| Init.PivotRootRefusesExistingRoot | container/init.go:120-122 | an existing root is refused before any call |
| Init.UnlistedRootRefused | container/init.go:124-130 | a root not listed as a mount point after the bind ends pivotRoot with that error, the bind its only call |
| Init.PivotFromSucceeds | container/init.go:124-154 | with no call refused and the root listed, every remaining call is made and nil is returned |
| Init.ExistingWorkDirNeverExecs | container/init.go:82-85 | when the working directory exists, `InitProcess` fails after at most making `/` private |
| Init.SharedNamespaceRefused | container/init.go:21-23 | a process sharing pid 1's mount namespace fails without a call |
| Init.PivotRootIgnoresProc | container/init.go:118-155 | the outcome of pivotRoot does not depend on the /proc mount |
| Init.ProcFailureOnlyLogged | container/init.go:88-91 | a failed /proc mount does not change what `setUpMount` does |
| Init.PivotRootStops | container/init.go:125-154 | a prefix of the six calls, all successful but the last; success exactly when all six succeed |
| Init.StopsAtFirstFailure | container/init.go:19-99 | every call but the last succeeds or is the /proc mount |
| Init.ExecOnlyOnSuccess | container/init.go:38-55 | exec happens exactly on success with the command found on the PATH; it is then the last call, with the whole command |
| Init.SetUpMountMakesNoExec | container/init.go:59-99 | `setUpMount` never execs |
| Init.LookPathMissReturnsNil | container/init.go:38-42 | a failed lookup ends with nil and no exec |
| Init.InitSucceeds | container/init.go:19-155 | with nothing refused but perhaps /proc and the working directory listed as a mount point once bound, the exact call sequence up to the exec |
| ContainerInfo.StatusesDistinct | container/container_info.go:16-18 | the three statuses are distinct |
| ContainerInfo.NewInfo | container/container_info.go:43-60 | the name defaults to the id; the command is the words concatenated; the pid reads back with `Atoi`; the status is running |
| ContainerInfo.RandStringBytes | container/container_info.go:101-109 | n characters, each the drawn letter |
| ContainerInfo.IdIsDecimal | container/container_info.go:101-109 | every id is decimal digits only |
| ContainerInfo.RecordEffect | container/container_info.go:41-90 | success exactly when mkdir, create and write all succeed, and then the record reads back under the final name; a failure returns "" and leaves at most an empty file; no other record changes |
| ContainerInfo.InfoStore.MkdirAll | container/container_info.go:71 | `os.MkdirAll` of an info directory |
| ContainerInfo.InfoStore.Create | container/container_info.go:78 | `os.Create` of `config.json` leaves an empty file |
| ContainerInfo.InfoStore.Write | container/container_info.go:85 | a whole record is written to `config.json` |
| ContainerInfo.InfoStore.WriteFile | dockerCommand/stop.go:49 | `os.WriteFile` of `config.json` on the store equals its specification |
| ContainerInfo.WriteFileEffect | dockerCommand/stop.go:49 | it succeeds exactly when the directory exists and neither the open nor the write is refused, and then holds the record; a failure leaves the old file or an unreadable one; no other file or directory changes |
| ContainerInfo.InfoStore.RemoveAll | container/container_info.go:95 | the directory and everything below it go |
| ContainerInfo.RecordContainerInfo | container/container_info.go:41-90 | the steps equal the specification, for some ten-digit decimal id |
| ContainerInfo.DeleteContainerInfo | container/container_info.go:93-98 | the info directory is removed; a failure is only logged |
| ContainerInfo.DeleteRemovesRecord | container/container_info.go:93-98 | after a successful delete no record is found, the directory is gone, and every record outside it stays |
| Run.CommandRoundTrip | dockerCommand/run.go:80-85 | the init process reads back exactly the command sent, when there is a word and no word holds a space |
| Run.SpaceInWordSplits | dockerCommand/run.go:81 | a word holding a space comes back as two words |
| Run.DrawnId | dockerCommand/run.go:17 | the id has one drawn letter per draw |
| Run.DrawnIdUnique | dockerCommand/run.go:17 | the drawn id is the only string with those letters |
| Run.Run | dockerCommand/run.go:15-77 | the events equal the specification, for the id drawn from the draws |
| Run.RunInCgroups | dockerCommand/run.go:38-76 | cgroups are set and the process added, then the network, the command and the teardown |
| Run.SendInitCommand | dockerCommand/run.go:80-85 | the encoded command is written once, then the pipe is closed |
| Run.SendAndWait | dockerCommand/run.go:62-76 | the command is sent; for tty the process is waited for, then the record and the workspace are deleted; the run then exits |
| Run.NameDefaultsToId | dockerCommand/run.go:17-21 | the container runs and is recorded under the given name or else the id |
| Run.RecordFailureStops | dockerCommand/run.go:32-36 | a failed record ends the run: no cgroup, no network, no command, no removal, no exit |
| Run.CgroupsBeforeCommand | dockerCommand/run.go:39-63 | the command is sent once, after the cgroup set and add, and is followed by closing the pipe |
| Run.CommandSentIff | dockerCommand/run.go:24-63 | the command is sent exactly when the process was created, started and recorded and, with a network, it was set up and connected |
| Run.DeferredRemoveOnlyOnNetworkFailure | dockerCommand/run.go:40-76 | the cgroups are removed exactly on the two network-failure returns, and never when the run exits |
| Run.TeardownAfterCgroups | dockerCommand/run.go:66-74 | the teardown after the command is only for tty: wait, then the record, then the workspace |
| Run.TeardownOnlyForTty | dockerCommand/run.go:66-74 | the record and the workspace are deleted only for tty, after the wait, the record first |
| Stop.StoppedInfo | dockerCommand/stop.go:39-40 | status stopped and pid blank; every other field kept |
| Stop.StopContainer | dockerCommand/stop.go:15-52 | the report and the new store are the specification's: lookup, pid parse, SIGTERM, second lookup, then `os.WriteFile` of the stopped record, whose refused write after the truncating open leaves no readable record |
| Stop.StopMissingChangesNothing | dockerCommand/stop.go:17-21 | without a readable record nothing is sent and nothing changes |
| Stop.KillOnlyNumericPid | dockerCommand/stop.go:22-32 | SIGTERM is sent exactly when the record is found and its pid parses, and to that pid; a warning only after a refused kill |
| Stop.KillOutcomeIgnored | dockerCommand/stop.go:28-32 | whether the kill was accepted does not change the records |
| Stop.StopUpdatesRecord | dockerCommand/stop.go:39-51 | after a successful write the record reads back stopped with a blank pid and the rest kept; no other record or directory changes |
| Stop.StopTouchesOnlyItsRecord | dockerCommand/stop.go:34-51 | at most the container's own file changes, only after a record was found there, and then to the stopped record or, after a refused write, to no readable record |
| Stop.StopFailedWrite | dockerCommand/stop.go:28-51 | with the record found and its pid parsed, SIGTERM goes to that pid; a refused open leaves the store as it was; a refused write after the open leaves no record that can be read |
| Stop.StopTwiceIsNoOp | dockerCommand/stop.go:22-26 | a record with a blank pid is neither signalled nor changed |
| Stop.SecondStopDoesNothing | dockerCommand/stop.go:22-40 | the second of two stops, after the first wrote its record, does nothing |
| Remove.RemoveContainer | dockerCommand/remove.go:11-28 | the new store equals the specification |
| Remove.RemoveMissingChangesNothing | dockerCommand/remove.go:13-17 | a missing record means nothing is removed |
| Remove.RemoveRequiresStopped | dockerCommand/remove.go:19-22 | a record that is not stopped is refused with no effect |
| Remove.RemoveDeletesRecord | dockerCommand/remove.go:23-27 | a removable stopped container has no record and no directory left, while everything outside stays |
| Remove.RemoveTouchesOnlyItsDirectory | dockerCommand/remove.go:11-28 | nothing outside the container's info directory is deleted or changed |
| Remove.RemoveIdempotent | dockerCommand/remove.go:13-27 | removing twice is removing once |
| Remove.StopThenRemove | dockerCommand/remove.go:19-27 | after a stop that writes its record and an allowed removal, no record is left |

## Left out

- JSON encoding and decoding are left out: a record is stored as a value, and text that
  does not decode is a file without a record. The marshal errors of
  container/container_info.go:62-66 and dockerCommand/stop.go:42-46 cannot happen for
  records made of strings.
- `load` and `dump` of network/ipam.go:25-77 are left out as file operations. Whether
  `load` fails and whether `dump` succeeds are parameters of `Allocate` and `Release`.
- IPv6 subnets, and the `net.ParseCIDR` text round trip beyond masking, are left out.
- network/network.go, network/bridge.go, nsenter/, command.go, commit.go and main.go are
  not part of this model.
- The lookups of dockerCommand/utils.go (`getContainerPidByName`,
  `getContainerInfoByName`) are not part of this model. Both are `ContainerInfo.LookupIn`.
- Randomness, the clock, the pipe's contents and the PATH lookup are parameters.
- Symbolic links are left out: paths are resolved lexically, with `path.Clean`.
- The archive's contents are left out: `tar` is a step that succeeds or fails.
- File permissions, and the parent-directory requirement of a single-level mkdir beyond
  what the host tracks, are left out.
- Host.Host.Do: a step fails when it is in the `failing` set, fixed in advance, and
  otherwise by the host's state in three cases only: `Mkdir` over an existing
  directory, `Untar` with the archive or the destination missing, and `Umount` of a
  target where nothing is mounted. Every other step succeeds whatever the state, for
  example `MountOverlay` over missing layer directories.
- Host.Host.Do: `MkdirAll(p)` adds only `p` itself to the host's directories, not the
  parents it would create, because no operation of the core depends on those parents.
- Host.Host.Do: `RemoveAll` removes by path and does not follow mounts. A removal of a
  mount directory on which an overlay is still mounted would, on a real host, delete
  files in that overlay's upper directory. The model does not capture that.
- Volume.TeardownKeepsOutside: does not hold on a real host when the volume's `umount`
  is refused. The teardown goes on with `os.RemoveAll` of the mount directory
  (container/volume.go:136-152), which reaches into the volume overlay that is still
  mounted and deletes the host volume directory's contents. In the model the lemma is
  stated for removal by path only.
- CgroupFs.KernelValid: every cgroup member assumes `/proc/self/mountinfo` is in the
  kernel's format of proc(5), where every line has at least five single-space fields.
  On a shorter line the Go scan skips the line when no option matches and panics on
  `fields[4]` when one does (cgroups/subsystem/utils.go:22-31). Neither case is
  modelled, because the kernel never writes such a line.
- Process creation, `Start`, `Wait`, signals, namespaces and `syscall.Exec` are left out.
  They are events or recorded calls, and their outcomes are parameters.
- Concurrency is left out: two commands acting on the same record at once.
- Run.Run: a start failure is modelled as a panic on the nil process.
- Run.Run: `NewProcess` is an event rather than a call of `ContainerProcess.NewProcess`,
  because run.go calls a newer signature than the one in container/.
- Logging is left out. Error messages are paraphrased, and only their presence is
  stated.
- Scanner errors while reading mountinfo are left out: the file is read whole or not at
  all.
- Stop.StopContainer: the second lookup reads the same store as the first. A record
  changed in between by another process is not modelled.
