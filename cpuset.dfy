/** The CPU set driver of cgroups/subsystem/cpuset.go. */
module CpuSetSubsystem {
  import opened Wrappers
  import opened Text
  import opened CgroupFs
  import opened Subsystem

  /** `Name()`: not a kernel controller name, see `CgroupFs.CapitalisedNamesNeverMatch`. */
  const Name: string := "CPUSet"

  const CpusFile: string := "cpuset.cpus"

  /** `Set` as a value: the test is on `CPUSet` but the value written is `MemoryLimit`. */
  function SetSpec(k: Kernel, fs: Fs, cgroupPath: string, res: ResourceConfig): (Option<string>, Fs)
    requires KernelValid(k)
  {
    SetShape(k, fs, Name, cgroupPath, CpusFile, res.cpuSet != "", res.memoryLimit, true, "set cgroup CPUSet fail")
  }

  method Set(cfs: CgroupFs, cgroupPath: string, res: ResourceConfig) returns (err: Option<string>)
    requires cfs.Valid()
    modifies cfs
    ensures (err, cfs.State()) == SetSpec(cfs.kernel, old(cfs.State()), cgroupPath, res)
  {
    var p := cfs.GetCgroupPath(Name, cgroupPath, true);
    if p.Err? {
      return Some(p.error);
    }
    if res.cpuSet != "" {
      var ok := cfs.WriteFile(p.value, CpusFile, res.memoryLimit);
      if !ok {
        return Some("set cgroup CPUSet fail");
      }
    }
    return None;
  }

  method AddProcess(cfs: CgroupFs, cgroupPath: string, pid: int) returns (err: Option<string>)
    requires cfs.Valid()
    modifies cfs
    ensures (err, cfs.State()) == AddTaskSpec(cfs.kernel, old(cfs.State()), Name, cgroupPath, pid)
  {
    var p := cfs.GetCgroupPath(Name, cgroupPath, false);
    if p.Err? {
      return Some(p.error);
    }
    var ok := cfs.WriteFile(p.value, "tasks", Itoa(pid));
    if !ok {
      return Some("cgroup add process fail");
    }
    return None;
  }

  method RemoveCgroup(cfs: CgroupFs, cgroupPath: string) returns (err: Option<string>)
    requires cfs.Valid()
    modifies cfs
    ensures (err, cfs.State()) == RemoveCgroupSpec(cfs.kernel, old(cfs.State()), Name, cgroupPath)
  {
    var p := cfs.GetCgroupPath(Name, cgroupPath, false);
    if p.Err? {
      return Some(p.error);
    }
    var ok := cfs.Remove(p.value);
    if !ok {
      return Some("remove cgroup: " + p.value);
    }
    return None;
  }

  /**
   * `Set` returns a resolution failure; when the cgroup resolves and `CPUSet` is
   * non-empty, `cpuset.cpus` receives the memory limit (not the CPU list); with an empty
   * `CPUSet` no file changes.
   */
  lemma SetEffect(k: Kernel, fs: Fs, cgroupPath: string, res: ResourceConfig)
    requires KernelValid(k)
    ensures
      var (err, fs1) := SetSpec(k, fs, cgroupPath, res);
      var dir := CgroupDir(k, Name, cgroupPath);
      var resolved := CgroupPathSpec(k, fs, Name, cgroupPath, true).0.Ok?;
      && (!resolved ==> err.Some? && fs1 == fs)
      && (resolved ==> dir in fs1.dirs)
      && (resolved && res.cpuSet == "" ==> err.None? && fs1.files == fs.files)
      && (resolved && res.cpuSet != "" && (dir, CpusFile) !in k.writeFails ==>
            err.None? && fs1.files == fs.files[(dir, CpusFile) := res.memoryLimit])
      && (resolved && res.cpuSet != "" && (dir, CpusFile) in k.writeFails ==>
            err.Some? && fs1.files == fs.files)
  {
    SetShapeEffect(k, fs, Name, cgroupPath, CpusFile, res.cpuSet != "", res.memoryLimit, true, "set cgroup CPUSet fail");
  }
}
