/**
 * `CgroupManager` of cgroups/cgroup_manager.go: a hierarchy-relative cgroup path whose
 * operations are handed to every registered driver in registry order.
 */
module CgroupManager {
  import opened Wrappers
  import opened Text
  import opened Paths
  import opened CgroupFs
  import opened Subsystem
  import opened Registry
  import MemorySubsystem
  import CpuSubsystem
  import CpuSetSubsystem

  /** The filesystem after each driver of `ds`, in order, has run `Set`; errors are dropped. */
  function SetAll(k: Kernel, fs: Fs, ds: seq<Driver>, cgroupPath: string, res: ResourceConfig): Fs
    requires KernelValid(k)
    decreases |ds|
  {
    if ds == [] then fs
    else SetOf(ds[|ds| - 1], k, SetAll(k, fs, ds[..|ds| - 1], cgroupPath, res), cgroupPath, res).1
  }

  /** The filesystem after each driver of `ds`, in order, has run `AddProcess`; errors are dropped. */
  function AddAll(k: Kernel, fs: Fs, ds: seq<Driver>, cgroupPath: string, pid: int): Fs
    requires KernelValid(k)
    decreases |ds|
  {
    if ds == [] then fs
    else AddProcessOf(ds[|ds| - 1], k, AddAll(k, fs, ds[..|ds| - 1], cgroupPath, pid), cgroupPath, pid).1
  }

  /** Removal by each driver of `ds` in order, stopping at and returning the first error. */
  function RemoveAll(k: Kernel, fs: Fs, ds: seq<Driver>, cgroupPath: string): (Option<string>, Fs)
    requires KernelValid(k)
    decreases |ds|
  {
    if ds == [] then (None, fs)
    else
      var (e, fs1) := RemoveOf(ds[0], k, fs, cgroupPath);
      if e.Some? then (e, fs1) else RemoveAll(k, fs1, ds[1..], cgroupPath)
  }

  class CgroupManager {
    var path: string
    var resource: Option<ResourceConfig>

    /** `NewCgroupManager(path)`: only the path is set; `Resource` stays nil. */
    constructor (p: string)
      ensures path == p && resource == None
    {
      path := p;
      resource := None;
    }

    /** `Set(res)`: every driver in turn; failures are only logged and nil is returned. */
    method Set(cfs: CgroupFs, res: ResourceConfig) returns (err: Option<string>)
      requires cfs.Valid()
      modifies cfs
      ensures err == None
      ensures cfs.State() == SetAll(cfs.kernel, old(cfs.State()), SubsystemsInstance, path, res)
    {
      var i := 0;
      while i < |SubsystemsInstance|
        invariant 0 <= i <= |SubsystemsInstance|
        invariant cfs.State() == SetAll(cfs.kernel, old(cfs.State()), SubsystemsInstance[..i], path, res)
      {
        var e := Registry.Set(SubsystemsInstance[i], cfs, path, res);
        assert SubsystemsInstance[..i + 1][..i] == SubsystemsInstance[..i];
        i := i + 1;
      }
      assert SubsystemsInstance[..i] == SubsystemsInstance;
      return None;
    }

    /** `AddProcess(pid)`: every driver in turn; failures are only logged and nil is returned. */
    method AddProcess(cfs: CgroupFs, pid: int) returns (err: Option<string>)
      requires cfs.Valid()
      modifies cfs
      ensures err == None
      ensures cfs.State() == AddAll(cfs.kernel, old(cfs.State()), SubsystemsInstance, path, pid)
    {
      var i := 0;
      while i < |SubsystemsInstance|
        invariant 0 <= i <= |SubsystemsInstance|
        invariant cfs.State() == AddAll(cfs.kernel, old(cfs.State()), SubsystemsInstance[..i], path, pid)
      {
        var e := Registry.AddProcess(SubsystemsInstance[i], cfs, path, pid);
        assert SubsystemsInstance[..i + 1][..i] == SubsystemsInstance[..i];
        i := i + 1;
      }
      assert SubsystemsInstance[..i] == SubsystemsInstance;
      return None;
    }

    /** `Remove()`: every driver in turn until one fails, whose error is returned. */
    method Remove(cfs: CgroupFs) returns (err: Option<string>)
      requires cfs.Valid()
      modifies cfs
      ensures (err, cfs.State()) == RemoveAll(cfs.kernel, old(cfs.State()), SubsystemsInstance, path)
    {
      var i := 0;
      while i < |SubsystemsInstance|
        invariant 0 <= i <= |SubsystemsInstance|
        invariant RemoveAll(cfs.kernel, cfs.State(), SubsystemsInstance[i..], path)
               == RemoveAll(cfs.kernel, old(cfs.State()), SubsystemsInstance, path)
      {
        var e := Registry.RemoveCgroup(SubsystemsInstance[i], cfs, path);
        if e.Some? {
          return e;
        }
        assert SubsystemsInstance[i..][1..] == SubsystemsInstance[i + 1..];
        i := i + 1;
      }
      return None;
    }
  }

  // ---------------------------------------------------------------------------
  // Properties of the manager's loops
  // ---------------------------------------------------------------------------

  /** With every limit empty, `Set` writes no file (it may still create directories). */
  lemma UnconstrainedWritesNothing(k: Kernel, fs: Fs, cgroupPath: string)
    requires KernelValid(k)
    ensures SetAll(k, fs, SubsystemsInstance, cgroupPath, Unconstrained).files == fs.files
  {
    var ds := SubsystemsInstance;
    assert ds[..3] == ds && ds[..3][..2] == ds[..2] && ds[..2][..1] == ds[..1] && ds[..1][..0] == [];
    assert ds[..1][0] == Memory && SetAll(k, fs, ds[..1][..0], cgroupPath, Unconstrained) == fs;
    var fs1 := SetAll(k, fs, ds[..1], cgroupPath, Unconstrained);
    var fs2 := SetAll(k, fs, ds[..2], cgroupPath, Unconstrained);
    assert fs1 == SetOf(Memory, k, fs, cgroupPath, Unconstrained).1;
    assert fs2 == SetOf(Cpu, k, fs1, cgroupPath, Unconstrained).1;
    assert SetAll(k, fs, ds, cgroupPath, Unconstrained) == SetOf(CpuSet, k, fs2, cgroupPath, Unconstrained).1;
    MemorySubsystem.SetEffect(k, fs, cgroupPath, Unconstrained);
    CpuSubsystem.SetEffect(k, fs1, cgroupPath, Unconstrained);
    CpuSetSubsystem.SetEffect(k, fs2, cgroupPath, Unconstrained);
  }

  /**
   * When the CPU share and CPU set drivers resolve to the same directory, `Remove` never
   * returns nil: the CPU share driver removes the shared directory (or fails), and then
   * the CPU set driver no longer finds it.
   */
  lemma SharedDirectoryRemoveFails(k: Kernel, fs: Fs, cgroupPath: string)
    requires KernelValid(k)
    requires CgroupDir(k, CpuSubsystem.Name, cgroupPath) == CgroupDir(k, CpuSetSubsystem.Name, cgroupPath)
    ensures RemoveAll(k, fs, SubsystemsInstance, cgroupPath).0.Some?
  {
    var ds := SubsystemsInstance;
    var (e0, fs1) := RemoveOf(Memory, k, fs, cgroupPath);
    if e0.None? {
      assert ds[1..] == [Cpu, CpuSet];
      var (e1, fs2) := RemoveOf(Cpu, k, fs1, cgroupPath);
      RemoveCgroupEffect(k, fs1, CpuSubsystem.Name, cgroupPath);
      if e1.None? {
        assert [Cpu, CpuSet][1..] == [CpuSet];
        RemoveCgroupEffect(k, fs2, CpuSetSubsystem.Name, cgroupPath);
        assert RemoveAll(k, fs2, [CpuSet], cgroupPath).0 == RemoveOf(CpuSet, k, fs2, cgroupPath).0;
      }
    }
  }

  /**
   * Consequence: whenever mountinfo cannot be opened or lists only lower-case options, the
   * two drivers share the relative directory `cgroupPath`, so `Remove` always fails.
   */
  lemma RemoveAlwaysFails(k: Kernel, fs: Fs, cgroupPath: string)
    requires KernelValid(k)
    requires k.mountinfo.Some? ==>
      forall i, j :: 0 <= i < |k.mountinfo.value| && 0 <= j < |Options(k.mountinfo.value[i])| ==>
        !HasUpper(Options(k.mountinfo.value[i])[j])
    ensures RemoveAll(k, fs, SubsystemsInstance, cgroupPath).0.Some?
  {
    if k.mountinfo.Some? {
      CapitalisedNamesNeverMatch(k.mountinfo.value);
    }
    assert Root(k, CpuSubsystem.Name) == "" == Root(k, CpuSetSubsystem.Name);
    SharedDirectoryRemoveFails(k, fs, cgroupPath);
  }

  /**
   * `Set` followed by `AddProcess` on a kernel that refuses nothing: the memory cgroup
   * exists, holds the memory limit verbatim and lists the pid in `tasks`.
   */
  lemma SetThenAddProcess(k: Kernel, fs: Fs, cgroupPath: string, res: ResourceConfig, pid: int)
    requires KernelValid(k) && k.statFails == {} && k.mkdirFails == {} && k.writeFails == {}
    requires res.memoryLimit != ""
    ensures
      var after := AddAll(k, SetAll(k, fs, SubsystemsInstance, cgroupPath, res), SubsystemsInstance, cgroupPath, pid);
      var dir := CgroupDir(k, MemorySubsystem.Name, cgroupPath);
      && dir in after.dirs
      && (dir, MemorySubsystem.LimitFile) in after.files
      && after.files[(dir, MemorySubsystem.LimitFile)] == res.memoryLimit
      && (dir, "tasks") in after.files && after.files[(dir, "tasks")] == Itoa(pid)
  {
    var s3 := SetAll(k, fs, SubsystemsInstance, cgroupPath, res);
    SetAllWritesLimit(k, fs, cgroupPath, res);
    AddAllWritesTasks(k, s3, cgroupPath, res.memoryLimit, pid);
  }

  /** The `Set` half: the memory cgroup is made and its limit written; cpu and cpuset keep both. */
  lemma SetAllWritesLimit(k: Kernel, fs: Fs, cgroupPath: string, res: ResourceConfig)
    requires KernelValid(k) && k.statFails == {} && k.mkdirFails == {} && k.writeFails == {}
    requires res.memoryLimit != ""
    ensures
      var s3 := SetAll(k, fs, SubsystemsInstance, cgroupPath, res);
      var dir := CgroupDir(k, MemorySubsystem.Name, cgroupPath);
      && dir in s3.dirs
      && (dir, MemorySubsystem.LimitFile) in s3.files
      && s3.files[(dir, MemorySubsystem.LimitFile)] == res.memoryLimit
  {
    var ds := SubsystemsInstance;
    var dir := CgroupDir(k, MemorySubsystem.Name, cgroupPath);
    var lim := (dir, MemorySubsystem.LimitFile);
    assert ds[..3] == ds && ds[..3][..2] == ds[..2] && ds[..2][..1] == ds[..1] && ds[..1][..0] == [];
    assert ds[..1][0] == Memory && SetAll(k, fs, ds[..1][..0], cgroupPath, res) == fs;
    var s1 := SetAll(k, fs, ds[..1], cgroupPath, res);
    var s2 := SetAll(k, fs, ds[..2], cgroupPath, res);
    var s3 := SetAll(k, fs, ds, cgroupPath, res);
    assert s1 == SetOf(Memory, k, fs, cgroupPath, res).1;
    assert s2 == SetOf(Cpu, k, s1, cgroupPath, res).1;
    assert s3 == SetOf(CpuSet, k, s2, cgroupPath, res).1;
    CgroupPathCases(k, fs, MemorySubsystem.Name, cgroupPath, true);
    MemorySubsystem.SetEffect(k, fs, cgroupPath, res);
    assert dir in s1.dirs && s1.files[lim] == res.memoryLimit;
    CpuSubsystem.SetEffect(k, s1, cgroupPath, res);
    assert dir in s2.dirs && s2.files[lim] == res.memoryLimit;
    CpuSetSubsystem.SetEffect(k, s2, cgroupPath, res);
  }

  /**
   * The `AddProcess` half: once the memory cgroup exists, every driver writes the pid to its
   * `tasks`, and the memory cgroup keeps the file `limit` names with its contents.
   */
  lemma AddAllWritesTasks(k: Kernel, fs: Fs, cgroupPath: string, limit: string, pid: int)
    requires KernelValid(k) && k.statFails == {} && k.writeFails == {}
    requires var dir := CgroupDir(k, MemorySubsystem.Name, cgroupPath);
      dir in fs.dirs && (dir, MemorySubsystem.LimitFile) in fs.files && fs.files[(dir, MemorySubsystem.LimitFile)] == limit
    ensures
      var after := AddAll(k, fs, SubsystemsInstance, cgroupPath, pid);
      var dir := CgroupDir(k, MemorySubsystem.Name, cgroupPath);
      && dir in after.dirs
      && (dir, MemorySubsystem.LimitFile) in after.files
      && after.files[(dir, MemorySubsystem.LimitFile)] == limit
      && (dir, "tasks") in after.files && after.files[(dir, "tasks")] == Itoa(pid)
  {
    var ds := SubsystemsInstance;
    var dir := CgroupDir(k, MemorySubsystem.Name, cgroupPath);
    var lim := (dir, MemorySubsystem.LimitFile);
    assert ds[..3] == ds && ds[..3][..2] == ds[..2] && ds[..2][..1] == ds[..1] && ds[..1][..0] == [];
    assert ds[..1][0] == Memory;
    assert AddAll(k, fs, ds[..1][..0], cgroupPath, pid) == fs;
    var a1 := AddAll(k, fs, ds[..1], cgroupPath, pid);
    var a2 := AddAll(k, fs, ds[..2], cgroupPath, pid);
    var a3 := AddAll(k, fs, ds, cgroupPath, pid);
    assert a1 == AddProcessOf(Memory, k, fs, cgroupPath, pid).1;
    assert a2 == AddProcessOf(Cpu, k, a1, cgroupPath, pid).1;
    assert a3 == AddProcessOf(CpuSet, k, a2, cgroupPath, pid).1;
    AddTaskEffect(k, fs, MemorySubsystem.Name, cgroupPath, pid);
    assert a1.files[(dir, "tasks")] == Itoa(pid) && a1.files[lim] == limit && dir in a1.dirs;
    AddTaskKeeps(k, a1, CpuSubsystem.Name, cgroupPath, pid, dir, limit);
    AddTaskKeeps(k, a2, CpuSetSubsystem.Name, cgroupPath, pid, dir, limit);
  }

  /** One more `AddProcess` keeps a cgroup whose `tasks` already holds the pid as it is. */
  lemma AddTaskKeeps(k: Kernel, fs: Fs, name: string, cgroupPath: string, pid: int, dir: string, limit: string)
    requires KernelValid(k)
    requires dir in fs.dirs && (dir, MemorySubsystem.LimitFile) in fs.files && fs.files[(dir, MemorySubsystem.LimitFile)] == limit
    requires (dir, "tasks") in fs.files && fs.files[(dir, "tasks")] == Itoa(pid)
    ensures var fs1 := AddTaskSpec(k, fs, name, cgroupPath, pid).1;
      && dir in fs1.dirs && (dir, MemorySubsystem.LimitFile) in fs1.files && fs1.files[(dir, MemorySubsystem.LimitFile)] == limit
      && (dir, "tasks") in fs1.files && fs1.files[(dir, "tasks")] == Itoa(pid)
  {
    AddTaskEffect(k, fs, name, cgroupPath, pid);
  }
}
