/** The CPU share driver of cgroups/subsystem/cpu.go. */
module CpuSubsystem {
  import opened Wrappers
  import opened Text
  import opened CgroupFs
  import opened Subsystem

  /** `Name()`: not a kernel controller name, see `CgroupFs.CapitalisedNamesNeverMatch`. */
  const Name: string := "CPUShare"

  const SharesFile: string := "cpu.shares"

  /**
   * `Set` as a value: a resolution error is swallowed (nil is returned), the test is on
   * `CPUShare` but the value written is `MemoryLimit`.
   */
  function SetSpec(k: Kernel, fs: Fs, cgroupPath: string, res: ResourceConfig): (Option<string>, Fs)
    requires KernelValid(k)
  {
    SetShape(k, fs, Name, cgroupPath, SharesFile, res.cpuShare != "", res.memoryLimit, false, "set cgroup CPU share fail")
  }

  method Set(cfs: CgroupFs, cgroupPath: string, res: ResourceConfig) returns (err: Option<string>)
    requires cfs.Valid()
    modifies cfs
    ensures (err, cfs.State()) == SetSpec(cfs.kernel, old(cfs.State()), cgroupPath, res)
  {
    var p := cfs.GetCgroupPath(Name, cgroupPath, true);
    if p.Err? {
      return None;
    }
    if res.cpuShare != "" {
      var ok := cfs.WriteFile(p.value, SharesFile, res.memoryLimit);
      if !ok {
        return Some("set cgroup CPU share fail");
      }
    }
    return None;
  }

  method AddProcess(cfs: CgroupFs, cgroupPath: string, pid: int) returns (err: Option<string>)
    requires cfs.Valid()
    modifies cfs
    ensures (err, cfs.State()) == AddTaskSpec(cfs.kernel, old(cfs.State()), Name, cgroupPath, pid)
  {
    var p := cfs.GetCgroupPath(Name, cgroupPath, false);
    if p.Err? {
      return Some(p.error);
    }
    var ok := cfs.WriteFile(p.value, "tasks", Itoa(pid));
    if !ok {
      return Some("cgroup add process fail");
    }
    return None;
  }

  method RemoveCgroup(cfs: CgroupFs, cgroupPath: string) returns (err: Option<string>)
    requires cfs.Valid()
    modifies cfs
    ensures (err, cfs.State()) == RemoveCgroupSpec(cfs.kernel, old(cfs.State()), Name, cgroupPath)
  {
    var p := cfs.GetCgroupPath(Name, cgroupPath, false);
    if p.Err? {
      return Some(p.error);
    }
    var ok := cfs.Remove(p.value);
    if !ok {
      return Some("remove cgroup: " + p.value);
    }
    return None;
  }

  /**
   * `Set` never reports a resolution failure; when the cgroup resolves and `CPUShare` is
   * non-empty, `cpu.shares` receives the memory limit (not the share); with an empty
   * `CPUShare` no file changes.
   */
  lemma SetEffect(k: Kernel, fs: Fs, cgroupPath: string, res: ResourceConfig)
    requires KernelValid(k)
    ensures
      var (err, fs1) := SetSpec(k, fs, cgroupPath, res);
      var dir := CgroupDir(k, Name, cgroupPath);
      var resolved := CgroupPathSpec(k, fs, Name, cgroupPath, true).0.Ok?;
      && (!resolved ==> err.None? && fs1 == fs)
      && (resolved ==> dir in fs1.dirs)
      && (resolved && res.cpuShare == "" ==> err.None? && fs1.files == fs.files)
      && (resolved && res.cpuShare != "" && (dir, SharesFile) !in k.writeFails ==>
            err.None? && fs1.files == fs.files[(dir, SharesFile) := res.memoryLimit])
      && (resolved && res.cpuShare != "" && (dir, SharesFile) in k.writeFails ==>
            err.Some? && fs1.files == fs.files)
  {
    SetShapeEffect(k, fs, Name, cgroupPath, SharesFile, res.cpuShare != "", res.memoryLimit, false, "set cgroup CPU share fail");
  }
}
