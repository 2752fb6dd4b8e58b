/**
 * The cgroup virtual filesystem as the drivers of cgroups/subsystem see it, and the two
 * helpers of cgroups/subsystem/utils.go: locating a controller's hierarchy root in
 * /proc/self/mountinfo, and resolving (and perhaps creating) a cgroup directory below it.
 *
 * The filesystem is a set of directories and a map from (directory, file name) to file
 * contents. What only the kernel decides (the mountinfo lines, and which stat, mkdir,
 * write or remove calls fail) is the `Kernel` value fixed when the filesystem is built.
 */
module CgroupFs {
  import opened Wrappers
  import opened Text
  import opened Paths

  /** The kernel's side: mountinfo lines (None: the file cannot be opened) and failing calls. */
  datatype Kernel = Kernel(
    mountinfo: Option<seq<string>>,
    statFails: set<string>,
    mkdirFails: set<string>,
    writeFails: set<(string, string)>,
    removeFails: set<string>)

  datatype Fs = Fs(dirs: set<string>, files: map<(string, string), string>)

  /** The three outcomes `GetCgroupPath` tells apart: found, `os.IsNotExist`, anything else. */
  datatype StatResult = Exists | NotExist | StatError

  // ---------------------------------------------------------------------------
  // /proc/self/mountinfo
  // ---------------------------------------------------------------------------

  /** The single-space separated fields of a mountinfo line. */
  function LineFields(line: string): (fs: seq<string>)
    ensures |fs| >= 1
  {
    Split(line, ' ')
  }

  /** The comma separated options of the last field of a line (the super options). */
  function Options(line: string): seq<string>
  {
    var fs := LineFields(line);
    Split(fs[|fs| - 1], ',')
  }

  /**
   * Lines in the format of proc(5): at least five fields (the fifth is the mount point).
   * Go would panic on `fields[4]` of a shorter line that matched.
   */
  predicate WellFormed(lines: seq<string>)
  {
    forall i :: 0 <= i < |lines| ==> |LineFields(lines[i])| >= 5
  }

  predicate KernelValid(k: Kernel)
  {
    k.mountinfo.Some? ==> WellFormed(k.mountinfo.value)
  }

  /** The mount point of the first line whose options include `name`, or "". */
  function MountpointOf(lines: seq<string>, name: string): string
    requires WellFormed(lines)
    decreases |lines|
  {
    if lines == [] then ""
    else if name in Options(lines[0]) then LineFields(lines[0])[4]
    else MountpointOf(lines[1..], name)
  }

  /** `FindCgroupMountpoint(name)` as a value: "" when mountinfo cannot be opened. */
  function Root(k: Kernel, name: string): string
    requires KernelValid(k)
  {
    match k.mountinfo
    case None => ""
    case Some(lines) => MountpointOf(lines, name)
  }

  /** The first line that lists `name` among its options decides; later lines are ignored. */
  lemma {:induction false} MountpointOfFirstMatch(lines: seq<string>, name: string, i: nat)
    requires WellFormed(lines) && i < |lines|
    requires name in Options(lines[i])
    requires forall j :: 0 <= j < i ==> name !in Options(lines[j])
    ensures MountpointOf(lines, name) == LineFields(lines[i])[4]
    decreases i
  {
    if i > 0 {
      assert name !in Options(lines[0]);
      assert lines[1..][i - 1] == lines[i];
      MountpointOfFirstMatch(lines[1..], name, i - 1);
    }
  }

  /** With no line listing `name` as an option, the root is "". */
  lemma {:induction false} MountpointOfNoMatch(lines: seq<string>, name: string)
    requires WellFormed(lines)
    requires forall j :: 0 <= j < |lines| ==> name !in Options(lines[j])
    ensures MountpointOf(lines, name) == ""
    decreases |lines|
  {
    if lines != [] {
      assert name !in Options(lines[0]);
      MountpointOfNoMatch(lines[1..], name);
    }
  }

  predicate HasUpper(s: string)
  {
    exists i :: 0 <= i < |s| && 'A' <= s[i] <= 'Z'
  }

  /**
   * Matching is exact string equality, so the names "CPUShare" and "CPUSet" are never
   * found among kernel options, which are lower case (such as "cpu", "cpuset", "rw"):
   * their root is "".
   */
  lemma CapitalisedNamesNeverMatch(lines: seq<string>)
    requires WellFormed(lines)
    requires forall i, j :: 0 <= i < |lines| && 0 <= j < |Options(lines[i])| ==> !HasUpper(Options(lines[i])[j])
    ensures MountpointOf(lines, "CPUShare") == "" && MountpointOf(lines, "CPUSet") == ""
  {
    assert HasUpper("CPUShare") by { assert 'A' <= "CPUShare"[0] <= 'Z'; }
    assert HasUpper("CPUSet") by { assert 'A' <= "CPUSet"[0] <= 'Z'; }
    MountpointOfNoMatch(lines, "CPUShare");
    MountpointOfNoMatch(lines, "CPUSet");
  }

  /** With an empty root, `path.Join(root, p)` of a plain name is that relative name. */
  lemma JoinEmptyRoot(p: string)
    requires IsName(p)
    ensures JoinPath(["", p]) == p
  {
    assert ["", p][1..] == [p];
    SplitWithoutSeparator(p, '/');
    assert Resolve([p], false) == StepElement(Resolve([], false), p, false);
  }

  // ---------------------------------------------------------------------------
  // Filesystem primitives as values
  // ---------------------------------------------------------------------------

  function StatOf(k: Kernel, fs: Fs, p: string): StatResult
  {
    if p in k.statFails then StatError else if p in fs.dirs then Exists else NotExist
  }

  /** `os.Mkdir(p)`: fails when the kernel refuses it. */
  function MkdirSpec(k: Kernel, fs: Fs, p: string): (bool, Fs)
  {
    if p in k.mkdirFails then (false, fs) else (true, fs.(dirs := fs.dirs + {p}))
  }

  /** `os.WriteFile(dir/name, content)`: replaces the contents; the directory must exist. */
  function WriteSpec(k: Kernel, fs: Fs, dir: string, name: string, content: string): (bool, Fs)
  {
    if dir in fs.dirs && (dir, name) !in k.writeFails then (true, fs.(files := fs.files[(dir, name) := content]))
    else (false, fs)
  }

  /** `os.Remove(dir)` on a cgroup directory: the directory goes, with its control files. */
  function RemoveSpec(k: Kernel, fs: Fs, dir: string): (bool, Fs)
  {
    if dir in fs.dirs && dir !in k.removeFails then
      (true, Fs(fs.dirs - {dir}, map key | key in fs.files && key.0 != dir :: fs.files[key]))
    else (false, fs)
  }

  /** `GetCgroupPath(name, cgroupPath, autoCreate)` as a value: the result and the new filesystem. */
  function CgroupPathSpec(k: Kernel, fs: Fs, name: string, cgroupPath: string, autoCreate: bool): (Result<string>, Fs)
    requires KernelValid(k)
  {
    var expected := JoinPath([Root(k, name), cgroupPath]);
    var st := StatOf(k, fs, expected);
    if st == Exists || (autoCreate && st == NotExist) then
      if st == NotExist then
        var (ok, fs1) := MkdirSpec(k, fs, expected);
        if ok then (Ok(expected), fs1) else (Err("error when create cgroup"), fs)
      else (Ok(expected), fs)
    else (Err("cgroup path error"), fs)
  }

  /** The cgroup directory of `cgroupPath` in the hierarchy of controller `name`. */
  function CgroupDir(k: Kernel, name: string, cgroupPath: string): string
    requires KernelValid(k)
  {
    JoinPath([Root(k, name), cgroupPath])
  }

  /**
   * The three cases of the resolution rule: an existing directory is returned and nothing
   * is created, whatever `autoCreate` says; a missing one is created only with
   * `autoCreate` and when mkdir succeeds; every other case is an error that changes
   * nothing. Files are never touched, and a success always names an existing directory.
   */
  lemma CgroupPathCases(k: Kernel, fs: Fs, name: string, cgroupPath: string, autoCreate: bool)
    requires KernelValid(k)
    ensures var (r, fs1) := CgroupPathSpec(k, fs, name, cgroupPath, autoCreate);
            var dir := CgroupDir(k, name, cgroupPath);
            && fs1.files == fs.files
            && (r.Ok? ==> r.value == dir && dir in fs1.dirs)
            && (StatOf(k, fs, dir) == Exists ==> r == Ok(dir) && fs1 == fs)
            && (StatOf(k, fs, dir) == NotExist && autoCreate ==>
                  (r.Ok? <==> dir !in k.mkdirFails) && fs1.dirs == (if r.Ok? then fs.dirs + {dir} else fs.dirs))
            && (r.Ok? <==> StatOf(k, fs, dir) == Exists || (autoCreate && StatOf(k, fs, dir) == NotExist && dir !in k.mkdirFails))
            && (r.Err? ==> fs1 == fs)
  {
  }

  // ---------------------------------------------------------------------------
  // The filesystem object
  // ---------------------------------------------------------------------------

  class CgroupFs {
    var dirs: set<string>
    var files: map<(string, string), string>
    const kernel: Kernel

    ghost predicate Valid()
    {
      KernelValid(kernel)
    }

    constructor (k: Kernel, initial: Fs)
      requires KernelValid(k)
      ensures Valid() && kernel == k && State() == initial
    {
      kernel := k;
      dirs := initial.dirs;
      files := initial.files;
    }

    function State(): Fs
      reads this
    {
      Fs(dirs, files)
    }

    function Stat(p: string): StatResult
      reads this
    {
      StatOf(kernel, State(), p)
    }

    method Mkdir(p: string) returns (ok: bool)
      modifies this
      ensures (ok, State()) == MkdirSpec(kernel, old(State()), p)
    {
      ok := p !in kernel.mkdirFails;
      if ok {
        dirs := dirs + {p};
      }
    }

    method WriteFile(dir: string, name: string, content: string) returns (ok: bool)
      modifies this
      ensures (ok, State()) == WriteSpec(kernel, old(State()), dir, name, content)
    {
      ok := dir in dirs && (dir, name) !in kernel.writeFails;
      if ok {
        files := files[(dir, name) := content];
      }
    }

    method Remove(dir: string) returns (ok: bool)
      modifies this
      ensures (ok, State()) == RemoveSpec(kernel, old(State()), dir)
    {
      ok := dir in dirs && dir !in kernel.removeFails;
      if ok {
        dirs := dirs - {dir};
        files := map key | key in files && key.0 != dir :: files[key];
      }
    }

    /** `FindCgroupMountpoint(name)`: scans the lines, stopping at the first match. */
    method FindCgroupMountpoint(name: string) returns (root: string)
      requires Valid()
      ensures root == Root(kernel, name)
    {
      if kernel.mountinfo.None? {
        return "";
      }
      var lines := kernel.mountinfo.value;
      var i := 0;
      while i < |lines|
        invariant 0 <= i <= |lines|
        invariant MountpointOf(lines[i..], name) == MountpointOf(lines, name)
      {
        var found := ListsOption(lines[i], name);
        if found {
          return LineFields(lines[i])[4];
        }
        assert lines[i..][1..] == lines[i + 1..];
        i := i + 1;
      }
      return "";
    }

    /** `GetCgroupPath(name, cgroupPath, autoCreate)`. */
    method GetCgroupPath(name: string, cgroupPath: string, autoCreate: bool) returns (r: Result<string>)
      requires Valid()
      modifies this
      ensures (r, State()) == CgroupPathSpec(kernel, old(State()), name, cgroupPath, autoCreate)
    {
      var root := FindCgroupMountpoint(name);
      var expected := JoinPath([root, cgroupPath]);
      var st := Stat(expected);
      if st == Exists || (autoCreate && st == NotExist) {
        if st == NotExist {
          var ok := Mkdir(expected);
          if !ok {
            return Err("error when create cgroup");
          }
        }
        return Ok(expected);
      } else {
        return Err("cgroup path error");
      }
    }
  }

  /** The inner loop of lines 28-32: whether a line's options include `name`. */
  method ListsOption(line: string, name: string) returns (found: bool)
    ensures found <==> name in Options(line)
  {
    var fields := LineFields(line);
    var opts := Split(fields[|fields| - 1], ',');
    var j := 0;
    while j < |opts|
      invariant 0 <= j <= |opts|
      invariant forall m :: 0 <= m < j ==> opts[m] != name
    {
      if opts[j] == name {
        return true;
      }
      j := j + 1;
    }
    return false;
  }
}
