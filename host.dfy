/**
 * The host as the workspace and init code act on it: a set of directories, a set of
 * files, a mount table, and the trace of every operation attempted, in order. Which
 * operations the kernel (or the external `mount`, `umount` and `tar` commands) refuses is
 * an oracle: the set `failing` of actions that fail. Paths are resolved lexically with
 * `path.Clean`, as the kernel resolves them when symbolic links play no part.
 */
module Host {
  import opened Wrappers
  import opened Text
  import opened Paths

  datatype Action =
    | MkdirAll(path: string)
    | Mkdir(path: string)
    | RemoveAll(path: string)
    | Untar(archive: string, dir: string)
    | MountOverlay(options: string, target: string)
    | Umount(target: string)
    | CreateFile(path: string)

  datatype MountEntry = MountEntry(options: string, target: string)

  datatype HostState = HostState(dirs: set<string>, files: set<string>, mounts: seq<MountEntry>, trace: seq<Action>)

  /** `q` is `p` or lies below it. */
  predicate Within(q: string, p: string)
  {
    q == p || (|p| < |q| && q[..|p|] == p && (q[|p|] == '/' || (|p| > 0 && p[|p| - 1] == '/')))
  }

  /** The position of the most recent mount on `target`, which `umount target` takes off. */
  function LastMountAt(ms: seq<MountEntry>, target: string): (r: Option<nat>)
    ensures r.Some? ==> r.value < |ms| && ms[r.value].target == target
    ensures r.Some? ==> forall j :: r.value < j < |ms| ==> ms[j].target != target
    ensures r.None? ==> forall j :: 0 <= j < |ms| ==> ms[j].target != target
    decreases |ms|
  {
    if ms == [] then None
    else if ms[|ms| - 1].target == target then Some(|ms| - 1)
    else LastMountAt(ms[..|ms| - 1], target)
  }

  /**
   * One operation: it is recorded, and unless the oracle makes it fail it takes effect.
   * `Mkdir` also fails on an existing directory, `Umount` when nothing is mounted there,
   * and `Untar` when the archive or the destination is missing.
   */
  function Apply(failing: set<Action>, h: HostState, a: Action): (r: (bool, HostState))
    ensures r.1.trace == h.trace + [a]
    ensures a in failing ==> !r.0 && r.1 == h.(trace := h.trace + [a])
  {
    var h1 := h.(trace := h.trace + [a]);
    if a in failing then (false, h1)
    else match a
      case MkdirAll(p) => (true, h1.(dirs := h.dirs + {Clean(p)}))
      case Mkdir(p) =>
        if Clean(p) in h.dirs then (false, h1) else (true, h1.(dirs := h.dirs + {Clean(p)}))
      case RemoveAll(p) =>
        (true, h1.(dirs := (set d | d in h.dirs && !Within(d, Clean(p))),
                   files := (set f | f in h.files && !Within(f, Clean(p)))))
      case Untar(archive, dir) => (Clean(archive) in h.files && Clean(dir) in h.dirs, h1)
      case MountOverlay(options, target) => (true, h1.(mounts := h.mounts + [MountEntry(options, Clean(target))]))
      case Umount(target) =>
        (match LastMountAt(h.mounts, Clean(target))
         case None => (false, h1)
         case Some(i) => (true, h1.(mounts := h.mounts[..i] + h.mounts[i + 1..])))
      case CreateFile(p) => (true, h1.(files := h.files + {Clean(p)}))
  }

  /** The state after an operation whose outcome the caller ignores. */
  function Step(failing: set<Action>, h: HostState, a: Action): HostState
  {
    Apply(failing, h, a).1
  }

  predicate PathExistsIn(h: HostState, p: string)
  {
    Clean(p) in h.dirs || Clean(p) in h.files
  }

  /** Only `MountOverlay` and `Umount` change the mount table. */
  predicate TouchesMounts(a: Action)
  {
    a.MountOverlay? || a.Umount?
  }

  /** Only `MkdirAll`, `Mkdir` and `RemoveAll` change the directories. */
  predicate TouchesDirs(a: Action)
  {
    a.MkdirAll? || a.Mkdir? || a.RemoveAll?
  }

  /**
   * What an operation leaves alone: directories, files and mounts that it does not
   * address keep their place; a directory goes only by `RemoveAll` of a path above it.
   */
  lemma ApplyFrame(failing: set<Action>, h: HostState, a: Action)
    ensures var h1 := Step(failing, h, a);
            && (!TouchesMounts(a) ==> h1.mounts == h.mounts)
            && (!TouchesDirs(a) ==> h1.dirs == h.dirs)
            && (forall d :: d in h.dirs && !(a.RemoveAll? && Within(d, Clean(a.path))) ==> d in h1.dirs)
            && (a.MkdirAll? && a !in failing ==> Clean(a.path) in h1.dirs)
            && (a.RemoveAll? && a !in failing ==> forall d :: d in h1.dirs ==> !Within(d, Clean(a.path)) && d in h.dirs)
            && (a.RemoveAll? ==> h1.dirs <= h.dirs)
  {
  }

  /** Mounting on a target and then unmounting the same target restores the mount table. */
  lemma MountUmount(failing: set<Action>, h: HostState, options: string, t1: string, t2: string)
    requires MountOverlay(options, t1) !in failing && Umount(t2) !in failing
    requires Clean(t1) == Clean(t2)
    ensures Step(failing, Step(failing, h, MountOverlay(options, t1)), Umount(t2)).mounts == h.mounts
  {
    var h1 := Step(failing, h, MountOverlay(options, t1));
    assert h1.mounts == h.mounts + [MountEntry(options, Clean(t1))];
    assert LastMountAt(h1.mounts, Clean(t2)) == Some(|h.mounts|);
    assert h1.mounts[..|h.mounts|] == h.mounts;
  }

  /** The host as one object that the workspace and init code change step by step. */
  class Host {
    var dirs: set<string>
    var files: set<string>
    var mounts: seq<MountEntry>
    var trace: seq<Action>
    const failing: set<Action>

    constructor (initial: HostState, refused: set<Action>)
      ensures State() == initial && failing == refused
    {
      dirs := initial.dirs;
      files := initial.files;
      mounts := initial.mounts;
      trace := initial.trace;
      failing := refused;
    }

    function State(): HostState
      reads this
    {
      HostState(dirs, files, mounts, trace)
    }

    /** `PathExists(p)`: an existence test that changes nothing. */
    function PathExists(p: string): bool
      reads this
    {
      PathExistsIn(State(), p)
    }

    /** Perform one operation; `ok` is false when it failed. */
    method Do(a: Action) returns (ok: bool)
      modifies this
      ensures (ok, State()) == Apply(failing, old(State()), a)
    {
      var r := Apply(failing, State(), a);
      ok := r.0;
      dirs, files, mounts, trace := r.1.dirs, r.1.files, r.1.mounts, r.1.trace;
    }
  }
}
