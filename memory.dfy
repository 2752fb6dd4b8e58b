/** The memory controller driver of cgroups/subsystem/memory.go. */
module MemorySubsystem {
  import opened Wrappers
  import opened Text
  import opened CgroupFs
  import opened Subsystem

  /** `Name()`. */
  const Name: string := "memory"

  const LimitFile: string := "memory.limit_in_bytes"

  /** `Set` as a value: resolution errors are returned, the limit is written when non-empty. */
  function SetSpec(k: Kernel, fs: Fs, cgroupPath: string, res: ResourceConfig): (Option<string>, Fs)
    requires KernelValid(k)
  {
    SetShape(k, fs, Name, cgroupPath, LimitFile, res.memoryLimit != "", res.memoryLimit, true, "set cgroup memory fail")
  }

  method Set(cfs: CgroupFs, cgroupPath: string, res: ResourceConfig) returns (err: Option<string>)
    requires cfs.Valid()
    modifies cfs
    ensures (err, cfs.State()) == SetSpec(cfs.kernel, old(cfs.State()), cgroupPath, res)
  {
    var p := cfs.GetCgroupPath(Name, cgroupPath, true);
    if p.Err? {
      return Some(p.error);
    }
    if res.memoryLimit != "" {
      var ok := cfs.WriteFile(p.value, LimitFile, res.memoryLimit);
      if !ok {
        return Some("set cgroup memory fail");
      }
    }
    return None;
  }

  method AddProcess(cfs: CgroupFs, cgroupPath: string, pid: int) returns (err: Option<string>)
    requires cfs.Valid()
    modifies cfs
    ensures (err, cfs.State()) == AddTaskSpec(cfs.kernel, old(cfs.State()), Name, cgroupPath, pid)
  {
    var p := cfs.GetCgroupPath(Name, cgroupPath, false);
    if p.Err? {
      return Some(p.error);
    }
    var ok := cfs.WriteFile(p.value, "tasks", Itoa(pid));
    if !ok {
      return Some("cgroup add process fail");
    }
    return None;
  }

  method RemoveCgroup(cfs: CgroupFs, cgroupPath: string) returns (err: Option<string>)
    requires cfs.Valid()
    modifies cfs
    ensures (err, cfs.State()) == RemoveCgroupSpec(cfs.kernel, old(cfs.State()), Name, cgroupPath)
  {
    var p := cfs.GetCgroupPath(Name, cgroupPath, false);
    if p.Err? {
      return Some(p.error);
    }
    var ok := cfs.Remove(p.value);
    if !ok {
      return Some("remove cgroup: " + p.value);
    }
    return None;
  }

  /**
   * `Set` creates the cgroup even when the limit is empty; it writes the limit verbatim to
   * `memory.limit_in_bytes` exactly when the limit is non-empty, and no other file; a
   * resolution failure is returned and changes nothing.
   */
  lemma SetEffect(k: Kernel, fs: Fs, cgroupPath: string, res: ResourceConfig)
    requires KernelValid(k)
    ensures
      var (err, fs1) := SetSpec(k, fs, cgroupPath, res);
      var dir := CgroupDir(k, Name, cgroupPath);
      var resolved := CgroupPathSpec(k, fs, Name, cgroupPath, true).0.Ok?;
      && (!resolved ==> err.Some? && fs1 == fs)
      && (resolved ==> dir in fs1.dirs)
      && (resolved && res.memoryLimit == "" ==> err.None? && fs1.files == fs.files)
      && (resolved && res.memoryLimit != "" && (dir, LimitFile) !in k.writeFails ==>
            err.None? && fs1.files == fs.files[(dir, LimitFile) := res.memoryLimit])
      && (resolved && res.memoryLimit != "" && (dir, LimitFile) in k.writeFails ==>
            err.Some? && fs1.files == fs.files)
  {
    SetShapeEffect(k, fs, Name, cgroupPath, LimitFile, res.memoryLimit != "", res.memoryLimit, true, "set cgroup memory fail");
  }
}
