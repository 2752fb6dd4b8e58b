/**
 * The resource configuration handed to every cgroup driver, and the shape the three
 * drivers of cgroups/subsystem share: `Set` resolves the cgroup (creating it) and writes
 * one control file, `AddProcess` resolves it (without creating it) and writes the pid to
 * `tasks`, `RemoveCgroup` resolves it and removes the directory.
 */
module Subsystem {
  import opened Wrappers
  import opened Text
  import opened CgroupFs

  /** `ResourceConfig`: three independent limits; "" means unconstrained. */
  datatype ResourceConfig = ResourceConfig(memoryLimit: string, cpuShare: string, cpuSet: string)

  const Unconstrained := ResourceConfig("", "", "")

  /**
   * A driver's `Set` as a value. `wanted` is the driver's emptiness test, `content` what it
   * writes, `pathErrors` whether a resolution error is returned (otherwise nil is), and
   * `writeMsg` the error a failed write is wrapped in.
   */
  function SetShape(k: Kernel, fs: Fs, name: string, cgroupPath: string, file: string,
                    wanted: bool, content: string, pathErrors: bool, writeMsg: string): (Option<string>, Fs)
    requires KernelValid(k)
  {
    var (p, fs1) := CgroupPathSpec(k, fs, name, cgroupPath, true);
    if p.Err? then (if pathErrors then Some(p.error) else None, fs1)
    else if !wanted then (None, fs1)
    else
      var (ok, fs2) := WriteSpec(k, fs1, p.value, file, content);
      (if ok then None else Some(writeMsg), fs2)
  }

  /** A driver's `AddProcess(cgroupPath, pid)` as a value. */
  function AddTaskSpec(k: Kernel, fs: Fs, name: string, cgroupPath: string, pid: int): (Option<string>, Fs)
    requires KernelValid(k)
  {
    var (p, fs1) := CgroupPathSpec(k, fs, name, cgroupPath, false);
    if p.Err? then (Some(p.error), fs1)
    else
      var (ok, fs2) := WriteSpec(k, fs1, p.value, "tasks", Itoa(pid));
      (if ok then None else Some("cgroup add process fail"), fs2)
  }

  /** A driver's `RemoveCgroup(cgroupPath)` as a value. */
  function RemoveCgroupSpec(k: Kernel, fs: Fs, name: string, cgroupPath: string): (Option<string>, Fs)
    requires KernelValid(k)
  {
    var (p, fs1) := CgroupPathSpec(k, fs, name, cgroupPath, false);
    if p.Err? then (Some(p.error), fs1)
    else
      var (ok, fs2) := RemoveSpec(k, fs1, p.value);
      (if ok then None else Some("remove cgroup: " + p.value), fs2)
  }

  /**
   * What `Set` does to the filesystem: once the cgroup directory is resolved it exists
   * (even when nothing is written); the control file receives `content` exactly when
   * `wanted` and the write succeeds; no other file changes; the only directory that may
   * appear is the cgroup's own. The error is nil exactly when nothing failed, except that a
   * resolution failure is also nil for a driver that swallows it.
   */
  lemma SetShapeEffect(k: Kernel, fs: Fs, name: string, cgroupPath: string, file: string,
                       wanted: bool, content: string, pathErrors: bool, writeMsg: string)
    requires KernelValid(k)
    ensures
      var (err, fs1) := SetShape(k, fs, name, cgroupPath, file, wanted, content, pathErrors, writeMsg);
      var dir := CgroupDir(k, name, cgroupPath);
      var resolved := CgroupPathSpec(k, fs, name, cgroupPath, true).0.Ok?;
      && fs.dirs <= fs1.dirs <= fs.dirs + {dir}
      && (!resolved ==> fs1 == fs && (err.None? <==> !pathErrors))
      && (resolved ==> dir in fs1.dirs)
      && (resolved && !wanted ==> err.None? && fs1.files == fs.files)
      && (resolved && wanted && (dir, file) !in k.writeFails ==>
            err.None? && fs1.files == fs.files[(dir, file) := content])
      && (resolved && wanted && (dir, file) in k.writeFails ==> err == Some(writeMsg) && fs1.files == fs.files)
  {
    CgroupPathCases(k, fs, name, cgroupPath, true);
  }

  /**
   * What `AddProcess` does: it succeeds exactly when the cgroup directory already exists
   * and `tasks` can be written, and then `tasks` holds the decimal pid; it never creates a
   * directory, and on failure nothing changes.
   */
  lemma AddTaskEffect(k: Kernel, fs: Fs, name: string, cgroupPath: string, pid: int)
    requires KernelValid(k)
    ensures
      var (err, fs1) := AddTaskSpec(k, fs, name, cgroupPath, pid);
      var dir := CgroupDir(k, name, cgroupPath);
      && fs1.dirs == fs.dirs
      && (err.None? <==> StatOf(k, fs, dir) == Exists && (dir, "tasks") !in k.writeFails)
      && (err.None? ==> fs1.files == fs.files[(dir, "tasks") := Itoa(pid)])
      && (err.Some? ==> fs1 == fs)
  {
    CgroupPathCases(k, fs, name, cgroupPath, false);
  }

  /**
   * What `RemoveCgroup` does: it succeeds exactly when the cgroup directory exists and the
   * kernel lets it go, and then the directory and its control files are gone while the
   * rest stays; on failure nothing changes.
   */
  lemma RemoveCgroupEffect(k: Kernel, fs: Fs, name: string, cgroupPath: string)
    requires KernelValid(k)
    ensures
      var (err, fs1) := RemoveCgroupSpec(k, fs, name, cgroupPath);
      var dir := CgroupDir(k, name, cgroupPath);
      && (err.None? <==> StatOf(k, fs, dir) == Exists && dir !in k.removeFails)
      && (err.None? ==> fs1.dirs == fs.dirs - {dir}
                        && (forall key :: key in fs1.files <==> key in fs.files && key.0 != dir)
                        && (forall key :: key in fs1.files ==> fs1.files[key] == fs.files[key]))
      && (err.Some? ==> fs1 == fs)
  {
    CgroupPathCases(k, fs, name, cgroupPath, false);
  }
}
