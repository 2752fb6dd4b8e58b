/**
 * The `Subsystem` interface and the `SubsystemsInstance` registry of
 * cgroups/subsystem/subsystem.go: a fixed list of the three drivers, in the order
 * memory, CPU share, CPU set, and dispatch of the interface's methods to them.
 */
module Registry {
  import opened Wrappers
  import opened CgroupFs
  import opened Subsystem
  import MemorySubsystem
  import CpuSubsystem
  import CpuSetSubsystem

  datatype Driver = Memory | Cpu | CpuSet
  {
    function Name(): string
    {
      match this
      case Memory => MemorySubsystem.Name
      case Cpu => CpuSubsystem.Name
      case CpuSet => CpuSetSubsystem.Name
    }
  }

  /** `SubsystemsInstance`, which nothing modifies. */
  const SubsystemsInstance: seq<Driver> := [Memory, Cpu, CpuSet]

  /** Each driver appears exactly once, memory first, and the names tell them apart. */
  lemma RegistryDrivers()
    ensures |SubsystemsInstance| == 3 && SubsystemsInstance[0] == Memory
    ensures forall d: Driver :: d in SubsystemsInstance
    ensures forall i, j :: 0 <= i < j < |SubsystemsInstance| ==> SubsystemsInstance[i].Name() != SubsystemsInstance[j].Name()
  {
    forall d: Driver
      ensures d in SubsystemsInstance
    {
      match d
      case Memory => assert SubsystemsInstance[0] == d;
      case Cpu => assert SubsystemsInstance[1] == d;
      case CpuSet => assert SubsystemsInstance[2] == d;
    }
  }

  function SetOf(d: Driver, k: Kernel, fs: Fs, cgroupPath: string, res: ResourceConfig): (Option<string>, Fs)
    requires KernelValid(k)
  {
    match d
    case Memory => MemorySubsystem.SetSpec(k, fs, cgroupPath, res)
    case Cpu => CpuSubsystem.SetSpec(k, fs, cgroupPath, res)
    case CpuSet => CpuSetSubsystem.SetSpec(k, fs, cgroupPath, res)
  }

  function AddProcessOf(d: Driver, k: Kernel, fs: Fs, cgroupPath: string, pid: int): (Option<string>, Fs)
    requires KernelValid(k)
  {
    AddTaskSpec(k, fs, d.Name(), cgroupPath, pid)
  }

  function RemoveOf(d: Driver, k: Kernel, fs: Fs, cgroupPath: string): (Option<string>, Fs)
    requires KernelValid(k)
  {
    RemoveCgroupSpec(k, fs, d.Name(), cgroupPath)
  }

  /** `subs.Set(path, res)` through the interface. */
  method Set(d: Driver, cfs: CgroupFs, cgroupPath: string, res: ResourceConfig) returns (err: Option<string>)
    requires cfs.Valid()
    modifies cfs
    ensures (err, cfs.State()) == SetOf(d, cfs.kernel, old(cfs.State()), cgroupPath, res)
  {
    match d
    case Memory => err := MemorySubsystem.Set(cfs, cgroupPath, res);
    case Cpu => err := CpuSubsystem.Set(cfs, cgroupPath, res);
    case CpuSet => err := CpuSetSubsystem.Set(cfs, cgroupPath, res);
  }

  /** `subs.AddProcess(path, pid)` through the interface. */
  method AddProcess(d: Driver, cfs: CgroupFs, cgroupPath: string, pid: int) returns (err: Option<string>)
    requires cfs.Valid()
    modifies cfs
    ensures (err, cfs.State()) == AddProcessOf(d, cfs.kernel, old(cfs.State()), cgroupPath, pid)
  {
    match d
    case Memory => err := MemorySubsystem.AddProcess(cfs, cgroupPath, pid);
    case Cpu => err := CpuSubsystem.AddProcess(cfs, cgroupPath, pid);
    case CpuSet => err := CpuSetSubsystem.AddProcess(cfs, cgroupPath, pid);
  }

  /** `subs.RemoveCgroup(path)` through the interface. */
  method RemoveCgroup(d: Driver, cfs: CgroupFs, cgroupPath: string) returns (err: Option<string>)
    requires cfs.Valid()
    modifies cfs
    ensures (err, cfs.State()) == RemoveOf(d, cfs.kernel, old(cfs.State()), cgroupPath)
  {
    match d
    case Memory => err := MemorySubsystem.RemoveCgroup(cfs, cgroupPath);
    case Cpu => err := CpuSubsystem.RemoveCgroup(cfs, cgroupPath);
    case CpuSet => err := CpuSetSubsystem.RemoveCgroup(cfs, cgroupPath);
  }
}
