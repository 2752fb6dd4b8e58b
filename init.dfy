/**
 * The first code run inside a new container (container/init.go): check the mount
 * namespace, read the command from the pipe, make the working directory the new root
 * with pivot_root(2), mount /proc and /dev, and exec the command.
 *
 * The system calls made are recorded, in order, on an `InitCalls` object; the calls the
 * kernel refuses form its `failing` set. What the process reads (the two namespace links,
 * the pipe, the working directory, which paths exist, the mount table after the bind
 * mount and the `PATH` lookup) is a `World` value.
 */
module Init {
  import opened Wrappers
  import opened Text
  import opened Paths
  import opened ContainerUtils

  /** The mount(2) flags the code passes. */
  datatype MountFlag = NoExec | NoSuid | NoDev | Private | Rec | Bind | StrictAtime

  datatype Call =
    | Mount(source: string, target: string, fstype: string, flags: set<MountFlag>, data: string)
    | Mkdir(path: string)
    | PivotRoot(newRoot: string, putOld: string)
    | Chdir(path: string)
    /** umount2(2) with MNT_DETACH. */
    | Unmount(target: string)
    | Remove(path: string)
    | Exec(path: string, argv: seq<string>)

  /** What the process reads; `None` where the read fails. */
  datatype World = World(
    selfNs: Option<string>,
    parentNs: Option<string>,
    pipe: Option<string>,
    pwd: Option<string>,
    existing: set<string>,
    mountinfo: Option<seq<string>>,
    lookPath: map<string, string>)

  /** Mount propagation of the whole tree made private, so no mount reaches the host. */
  const PrivateRoot := Mount("", "/", "", {Private, Rec}, "")
  /** proc on /proc with no executables, no set-user-id programs and no devices. */
  const ProcMount := Mount("proc", "/proc", "proc", {NoExec, NoSuid, NoDev}, "")
  /** A tmpfs on /dev. */
  const DevMount := Mount("tmpfs", "/dev", "tmpfs", {NoSuid, StrictAtime}, "mode=755")
  /** Where the old root sits once the new one is in place: `filepath.Join("/", ".pivot_root")`. */
  const OldRootDir := "/.pivot_root"

  /** The new root mounted onto itself, so that it is a mount point of its own. */
  function BindRoot(root: string): Call
  {
    Mount(root, root, "bind", {Bind, Rec}, "")
  }

  /**
   * The directory the old root is moved to, seen from the old root:
   * `filepath.Join(root, ".pivot_root")`.
   */
  function PivotDir(root: string): string
  {
    if root == "" then ".pivot_root" else Clean(root + "/.pivot_root")
  }

  /** The directory the old root moves to is the join the code writes. */
  lemma PivotDirIsJoin(root: string)
    ensures PivotDir(root) == JoinPath([root, ".pivot_root"])
  {
    if root == "" {
      JoinOntoEmpty(".pivot_root");
    } else {
      JoinNonEmpty(root, ".pivot_root");
      assert root + "/" + ".pivot_root" == root + "/.pivot_root";
    }
  }

  /** `filepath.Join(dir, name)` onto a non-empty directory cleans the two joined by a slash. */
  lemma JoinNonEmpty(dir: string, name: string)
    requires dir != ""
    ensures JoinPath([dir, name]) == Clean(dir + "/" + name)
  {
    JoinTwo(dir, name);
  }

  /** `filepath.Join(dir, name)` for a plain name. */
  lemma JoinChild(dir: string, name: string)
    requires IsName(name)
    ensures JoinPath([dir, name]) == if dir == "" then name else Clean(dir + "/" + name)
  {
    JoinTwo(dir, name);
    if dir == "" {
      JoinOntoEmpty(name);
    }
  }

  lemma JoinTwo(dir: string, name: string)
    ensures Join([dir, name], "/") == dir + "/" + name
  {
    assert [dir, name][1..] == [name];
  }

  /** A name joined onto nothing is the name. */
  lemma JoinOntoEmpty(name: string)
    requires IsName(name)
    ensures JoinPath(["", name]) == name
  {
    assert ["", name][1..] == [name];
    SplitWithoutSeparator(name, '/');
    assert Resolve([name], false) == [name] by {
      assert [name][..0] == [];
    }
    assert Join([name], "/") == name;
  }

  /** A name joined onto / is the name under /, which is how `OldRootDir` is spelled. */
  lemma JoinOntoRoot(name: string)
    requires IsName(name)
    ensures JoinPath(["/", name]) == "/" + name
  {
    JoinTwo("/", name);
    assert Join([name], "/") == name;
    CleanOfNames([name]);
    var p := "/" + "/" + name;
    assert p == "" + ['/'] + ("" + ['/'] + name);
    SplitConcat("", '/', "" + ['/'] + name);
    SplitConcat("", '/', "/" + name);
    assert "" + ['/'] + name == "/" + name;
    assert "/" + name == "" + ['/'] + name;
    SplitConcat("", '/', name);
    ResolveSkipsEmpty([""], Split(name, '/'), true);
    assert Split(p, '/') == [""] + [""] + Split(name, '/');
    assert Split("/" + name, '/') == [""] + Split(name, '/');
  }

  /** `isMountPoint(root)` holds in this world. */
  predicate MountPointListed(w: World, root: string)
  {
    AbsPath(w.pwd, root).Some? && w.mountinfo.Some? && ListedIn(w.mountinfo.value, Clean(AbsPath(w.pwd, root).value))
  }

  /** The working directory is known and `isMountPoint` lists it. */
  predicate WorkDirListed(w: World)
  {
    w.pwd.Some? && MountPointListed(w, w.pwd.value)
  }

  /**
   * `readCommand`: the pipe's whole content split at every space, or nothing when it
   * cannot be read. A message that was read always yields at least one (maybe empty) word.
   */
  function ReadCommand(pipe: Option<string>): (cmd: Option<seq<string>>)
    ensures cmd.None? <==> pipe.None?
    ensures cmd.Some? ==> |cmd.value| >= 1 && Join(cmd.value, " ") == pipe.value
    ensures cmd.Some? ==> forall i :: 0 <= i < |cmd.value| ==> ' ' !in cmd.value[i]
  {
    if pipe.None? then None
    else
      JoinSplit(pipe.value, ' ');
      SplitPiecesFree(pipe.value, ' ');
      Some(Split(pipe.value, ' '))
  }

  /** An empty message passes the nil-or-empty test: it is read as one empty word. */
  lemma EmptyMessageIsOneWord()
    ensures ReadCommand(Some("")) == Some([""])
  {
    SplitWithoutSeparator("", ' ');
  }

  // ---------------------------------------------------------------------------
  // Specification
  // ---------------------------------------------------------------------------

  /**
   * The calls pivotRoot makes, in order, when each one succeeds: bind the root onto
   * itself, make the pivot directory, pivot, chdir to the new /, detach the old root and
   * remove its directory.
   */
  function PivotCalls(root: string): seq<Call>
  {
    [BindRoot(root), Mkdir(PivotDir(root)), PivotRoot(root, PivotDir(root)),
     Chdir("/"), Unmount(OldRootDir), Remove(OldRootDir)]
  }

  /** What pivotRoot reports when the call at each position of `PivotCalls` fails. */
  const PivotErrors := ["bind mount of the root fails", "mkdir of the pivot directory fails",
    "pivot_root fails", "chdir fails", "unmount of the old root fails",
    "remove of the old root fails"]

  /**
   * pivotRoot from its `k`-th call on (`calls` is `PivotCalls(root)`): each call is made
   * and, when the kernel refuses it,
   * ends the function with that call's error. Between the bind mount and the mkdir the
   * root must be listed as a mount point; `listed` is the answer `isMountPoint(root)`
   * gives, which the methods below tie to the mount table.
   */
  function PivotFrom(failing: set<Call>, calls: seq<Call>, listed: bool, k: nat): (r: (Option<string>, seq<Call>))
    requires |calls| == |PivotErrors| && k <= |calls|
    ensures k + |r.1| <= |calls|
    decreases |calls| - k
  {
    if k == |calls| then (None, [])
    else if k == 1 && !listed then (Some("root is not a mount point"), [])
    else if calls[k] in failing then (Some(PivotErrors[k]), [calls[k]])
    else
      var rest := PivotFrom(failing, calls, listed, k + 1);
      (rest.0, [calls[k]] + rest.1)
  }

  /** `pivotRoot(root)`: the error, and the calls made in order. */
  function PivotRootSpec(failing: set<Call>, w: World, root: string, listed: bool): (Option<string>, seq<Call>)
  {
    if root in w.existing then (Some("root path check fails"), [])
    else PivotFrom(failing, PivotCalls(root), listed, 0)
  }

  /** `setUpMount`: the error, and the calls made in order; `listed` as for pivotRoot. */
  function SetUpMountSpec(failing: set<Call>, w: World, listed: bool): (Option<string>, seq<Call>)
  {
    if w.pwd.None? then (Some("getwd fails"), [])
    else if PrivateRoot in failing then (Some("making / private fails"), [PrivateRoot])
    else
      var pr := PivotRootSpec(failing, w, w.pwd.value, listed);
      if pr.0.Some? then (pr.0, [PrivateRoot] + pr.1)
      else
        var c := [PrivateRoot] + pr.1 + [ProcMount, DevMount];
        if DevMount in failing then (Some("mount of /dev fails"), c) else (None, c)
  }

  /** `InitProcess`: the error, and the calls made in order; `listed` as for pivotRoot. */
  function InitProcessSpec(failing: set<Call>, w: World, listed: bool): (Option<string>, seq<Call>)
  {
    var e := VerifyMountNamespace(w.selfNs, w.parentNs);
    if e.Some? then (e, [])
    else
      var cmd := ReadCommand(w.pipe);
      if cmd.None? || |cmd.value| == 0 then (Some("no command"), [])
      else
        var su := SetUpMountSpec(failing, w, listed);
        if su.0.Some? then su
        else if cmd.value[0] !in w.lookPath then (None, su.1)
        else (None, su.1 + [Exec(w.lookPath[cmd.value[0]], cmd.value)])
  }

  // ---------------------------------------------------------------------------
  // The process
  // ---------------------------------------------------------------------------

  /** The system calls made so far by the init process. */
  class InitCalls {
    var trace: seq<Call>
    const failing: set<Call>

    constructor(refused: set<Call>)
      ensures trace == [] && failing == refused
    {
      trace := [];
      failing := refused;
    }

    /** Make one call; the kernel refuses exactly the failing ones. */
    method Do(c: Call) returns (ok: bool)
      modifies this
      ensures ok == (c !in failing)
      ensures trace == old(trace) + [c]
    {
      trace := trace + [c];
      ok := c !in failing;
    }
  }

  /**
   * `pivotRoot(root)`: refused for a root path that exists (the code treats a successful
   * stat as the failure), then bound, checked and pivoted by `BindAndPivot`.
   */
  method PivotRootCall(p: InitCalls, w: World, root: string) returns (err: Option<string>)
    modifies p
    ensures var spec := PivotRootSpec(p.failing, w, root, MountPointListed(w, root));
      err == spec.0 && p.trace == old(p.trace) + spec.1
  {
    if root in w.existing {
      assert old(p.trace) + [] == old(p.trace);
      return Some("root path check fails");
    }
    err := BindAndPivot(p, w, root);
  }

  /**
   * pivotRoot once the root path check passed: bind the root onto itself, ask
   * `isMountPoint` about it (a refusal ends pivotRoot), then make the rest of the calls.
   */
  method BindAndPivot(p: InitCalls, w: World, root: string) returns (err: Option<string>)
    modifies p
    ensures var spec := PivotFrom(p.failing, PivotCalls(root), MountPointListed(w, root), 0);
      err == spec.0 && p.trace == old(p.trace) + spec.1
  {
    PivotFromHead(p.failing, PivotCalls(root), MountPointListed(w, root));
    var ok := p.Do(BindRoot(root));
    if !ok {
      return Some("bind mount of the root fails");
    }
    var b, _ := IsMountPoint(w.mountinfo, w.pwd, root);
    if !b {
      return Some("root is not a mount point");
    }
    err := PivotAndDetach(p, root);
  }

  /** pivotRoot's first call and its mount check, over the rest. */
  lemma PivotFromHead(failing: set<Call>, calls: seq<Call>, listed: bool)
    requires |calls| == |PivotErrors|
    ensures var r, rest := PivotFrom(failing, calls, listed, 0), PivotFrom(failing, calls, true, 1);
      && r.0 == (if calls[0] in failing then Some(PivotErrors[0])
                 else if !listed then Some("root is not a mount point") else rest.0)
      && r.1 == (if calls[0] in failing || !listed then [calls[0]] else [calls[0]] + rest.1)
  {
    if calls[0] !in failing {
      var r := PivotFrom(failing, calls, listed, 0);
      if !listed {
        assert PivotFrom(failing, calls, listed, 1) == (Some("root is not a mount point"), []);
        assert r.1 == [calls[0]] + [] == [calls[0]];
      }
    }
  }

  /**
   * The rest of `pivotRoot(root)`, once the root is bound and listed as a mount point:
   * make the pivot directory, pivot, chdir to the new /, detach the old root and remove
   * its directory, stopping at the first call refused.
   */
  method PivotAndDetach(p: InitCalls, root: string) returns (err: Option<string>)
    modifies p
    ensures var spec := PivotFrom(p.failing, PivotCalls(root), true, 1);
      err == spec.0 && p.trace == old(p.trace) + spec.1
  {
    ghost var t0 := p.trace;
    ghost var c := PivotCalls(root);
    PivotTailCases(p.failing, c);
    var pivotDir := PivotDir(root);
    var ok := p.Do(Mkdir(pivotDir));
    assert p.trace == t0 + c[1..2];
    if !ok {
      return Some("mkdir of the pivot directory fails");
    }
    ok := p.Do(PivotRoot(root, pivotDir));
    assert p.trace == t0 + c[1..3];
    if !ok {
      return Some("pivot_root fails");
    }
    ok := p.Do(Chdir("/"));
    assert p.trace == t0 + c[1..4];
    if !ok {
      return Some("chdir fails");
    }
    pivotDir := OldRootDir;
    ok := p.Do(Unmount(pivotDir));
    assert p.trace == t0 + c[1..5];
    if !ok {
      return Some("unmount of the old root fails");
    }
    ok := p.Do(Remove(pivotDir));
    assert p.trace == t0 + c[1..6];
    if !ok {
      return Some("remove of the old root fails");
    }
    err := None;
  }

  /** pivotRoot after the mount check, call by call. */
  lemma PivotTailCases(failing: set<Call>, calls: seq<Call>)
    requires |calls| == |PivotErrors|
    ensures PivotFrom(failing, calls, true, 1) ==
      if calls[1] in failing then (Some(PivotErrors[1]), calls[1..2])
      else if calls[2] in failing then (Some(PivotErrors[2]), calls[1..3])
      else if calls[3] in failing then (Some(PivotErrors[3]), calls[1..4])
      else if calls[4] in failing then (Some(PivotErrors[4]), calls[1..5])
      else if calls[5] in failing then (Some(PivotErrors[5]), calls[1..6])
      else (None, calls[1..6])
  {
    var r1 := PivotFrom(failing, calls, true, 1);
    var r2 := PivotFrom(failing, calls, true, 2);
    var r3 := PivotFrom(failing, calls, true, 3);
    var r4 := PivotFrom(failing, calls, true, 4);
    var r5 := PivotFrom(failing, calls, true, 5);
    assert PivotFrom(failing, calls, true, 6) == (None, []);
    assert r5.1 == calls[5..6];
    if calls[1] in failing {
      assert r1.1 == calls[1..2];
    } else if calls[2] in failing {
      assert r1.1 == [calls[1]] + [calls[2]] == calls[1..3];
    } else if calls[3] in failing {
      assert r1.1 == [calls[1]] + ([calls[2]] + [calls[3]]) == calls[1..4];
    } else if calls[4] in failing {
      assert r1.1 == [calls[1]] + ([calls[2]] + ([calls[3]] + [calls[4]])) == calls[1..5];
    } else {
      assert r4.1 == [calls[4]] + calls[5..6] == calls[4..6];
      assert r3.1 == [calls[3]] + calls[4..6] == calls[3..6];
      assert r2.1 == [calls[2]] + calls[3..6] == calls[2..6];
      assert r1.1 == [calls[1]] + calls[2..6] == calls[1..6];
    }
  }



  method SetUpMount(p: InitCalls, w: World) returns (err: Option<string>)
    modifies p
    ensures var spec := SetUpMountSpec(p.failing, w, WorkDirListed(w));
      err == spec.0 && p.trace == old(p.trace) + spec.1
  {
    ghost var t0 := p.trace;
    if w.pwd.None? {
      assert t0 + [] == t0;
      return Some("getwd fails");
    }
    var pwd := w.pwd.value;
    var ok := p.Do(PrivateRoot);
    if !ok {
      return Some("making / private fails");
    }
    err := PivotRootCall(p, w, pwd);
    ghost var pr := PivotRootSpec(p.failing, w, pwd, WorkDirListed(w)).1;
    assert p.trace == t0 + ([PrivateRoot] + pr);
    if err.Some? {
      return err;
    }
    // a failure to mount /proc is only logged
    ok := p.Do(ProcMount);
    ok := p.Do(DevMount);
    assert p.trace == t0 + ([PrivateRoot] + pr + [ProcMount, DevMount]);
    if !ok {
      return Some("mount of /dev fails");
    }
    return None;
  }

  method InitProcess(p: InitCalls, w: World) returns (err: Option<string>)
    modifies p
    ensures var spec := InitProcessSpec(p.failing, w, WorkDirListed(w));
      err == spec.0 && p.trace == old(p.trace) + spec.1
  {
    ghost var t0 := p.trace;
    assert t0 + [] == t0;
    err := VerifyMountNamespace(w.selfNs, w.parentNs);
    if err.Some? {
      return err;
    }
    var containerCmd := ReadCommand(w.pipe);
    if containerCmd.None? || |containerCmd.value| == 0 {
      return Some("no command");
    }
    err := SetUpMount(p, w);
    if err.Some? {
      return err;
    }
    if containerCmd.value[0] !in w.lookPath {
      // a failed lookup is logged and the process ends without error
      return None;
    }
    var path := w.lookPath[containerCmd.value[0]];
    // a failed exec is only logged
    var _ := p.Do(Exec(path, containerCmd.value));
    assert p.trace == t0 + (SetUpMountSpec(p.failing, w, WorkDirListed(w)).1 + [Exec(path, containerCmd.value)]);
    return None;
  }

  // ---------------------------------------------------------------------------
  // Properties
  // ---------------------------------------------------------------------------

  /**
   * The existence test on the new root is inverted: pivotRoot refuses a root that exists,
   * before making any call.
   */
  lemma PivotRootRefusesExistingRoot(failing: set<Call>, w: World, root: string, listed: bool)
    requires root in w.existing
    ensures PivotRootSpec(failing, w, root, listed).0.Some? && PivotRootSpec(failing, w, root, listed).1 == []
  {
  }

  /**
   * Consequently, when the working directory exists, the container never gets past making
   * / private: InitProcess fails, and neither the pivot nor the exec happens.
   */
  lemma ExistingWorkDirNeverExecs(failing: set<Call>, w: World, listed: bool)
    requires w.pwd.Some? && w.pwd.value in w.existing
    ensures InitProcessSpec(failing, w, listed).0.Some?
    ensures InitProcessSpec(failing, w, listed).1 == [] || InitProcessSpec(failing, w, listed).1 == [PrivateRoot]
  {
    PivotRootRefusesExistingRoot(failing, w, w.pwd.value, listed);
  }

  /** A root that is not listed as a mount point once bound is refused after the bind. */
  lemma UnlistedRootRefused(failing: set<Call>, w: World, root: string)
    requires root !in w.existing && BindRoot(root) !in failing
    ensures PivotRootSpec(failing, w, root, false) == (Some("root is not a mount point"), [BindRoot(root)])
  {
    var c := PivotCalls(root);
    assert PivotFrom(failing, c, false, 1) == (Some("root is not a mount point"), []);
    assert [c[0]] + [] == [BindRoot(root)];
  }

  /** A process sharing the mount namespace of pid 1 makes no call and fails. */
  lemma SharedNamespaceRefused(failing: set<Call>, w: World, listed: bool)
    requires w.selfNs.Some? && w.parentNs == w.selfNs
    ensures InitProcessSpec(failing, w, listed).0.Some? && InitProcessSpec(failing, w, listed).1 == []
  {
  }

  /** pivotRoot makes no mount of proc, so whether that mount fails cannot matter there. */
  lemma PivotRootIgnoresProc(failing: set<Call>, w: World, root: string, listed: bool)
    requires ProcMount !in failing
    ensures PivotRootSpec(failing + {ProcMount}, w, root, listed) == PivotRootSpec(failing, w, root, listed)
  {
    assert ProcMount != BindRoot(root);
    PivotFromIgnores(failing, ProcMount, PivotCalls(root), listed, 0);
  }

  /** A refusal of a call pivotRoot never makes changes nothing from the `k`-th call on. */
  lemma {:induction false} PivotFromIgnores(failing: set<Call>, extra: Call, calls: seq<Call>, listed: bool, k: nat)
    requires |calls| == |PivotErrors| && k <= |calls| && extra !in calls
    ensures PivotFrom(failing + {extra}, calls, listed, k) == PivotFrom(failing, calls, listed, k)
    decreases |calls| - k
  {
    if k < |calls| {
      PivotFromIgnores(failing, extra, calls, listed, k + 1);
    }
  }

  /** Whether mounting /proc works changes nothing in the outcome of setUpMount. */
  lemma ProcFailureOnlyLogged(failing: set<Call>, w: World, listed: bool)
    requires ProcMount !in failing
    ensures SetUpMountSpec(failing + {ProcMount}, w, listed) == SetUpMountSpec(failing, w, listed)
  {
    assert ProcMount != PrivateRoot && ProcMount != DevMount;
    if w.pwd.Some? {
      PivotRootIgnoresProc(failing, w, w.pwd.value, listed);
    }
  }

  /**
   * pivotRoot makes a prefix of its calls, each of which succeeds but, on an error, the
   * last one; it makes all of them exactly when it succeeds.
   */
  lemma PivotRootStops(failing: set<Call>, w: World, root: string, listed: bool)
    ensures var (err, n) := PivotRootSpec(failing, w, root, listed);
      n == PivotCalls(root)[..|n|] &&
      (forall i :: 0 <= i < |n| - 1 ==> n[i] !in failing) &&
      (err.None? <==> n == PivotCalls(root) && forall i :: 0 <= i < |n| ==> n[i] !in failing)
  {
    PivotFromStops(failing, PivotCalls(root), listed, 0);
  }

  /** The same property from the `k`-th call on, position by position. */
  lemma {:induction false} PivotFromStops(failing: set<Call>, calls: seq<Call>, listed: bool, k: nat)
    requires |calls| == |PivotErrors| && k <= |calls|
    ensures var (err, n) := PivotFrom(failing, calls, listed, k);
      k + |n| <= |calls| &&
      (forall i :: 0 <= i < |n| ==> n[i] == calls[k + i]) &&
      (forall i :: 0 <= i < |n| - 1 ==> n[i] !in failing) &&
      (err.None? <==> k + |n| == |calls| && forall i :: 0 <= i < |n| ==> n[i] !in failing)
    decreases |calls| - k
  {
    if k == |calls| || (k == 1 && !listed) {
    } else if calls[k] in failing {
      var n := PivotFrom(failing, calls, listed, k).1;
      assert n == [calls[k]] && n[0] in failing;
    } else {
      PivotFromStops(failing, calls, listed, k + 1);
      var rest := PivotFrom(failing, calls, listed, k + 1);
      var n := [calls[k]] + rest.1;
      assert PivotFrom(failing, calls, listed, k).1 == n;
      ConsNoneRefused(failing, calls[k], rest.1);
    }
  }

  /** No call of `[c] + r` is refused exactly when `c` is not and no call of `r` is. */
  lemma ConsNoneRefused(failing: set<Call>, c: Call, r: seq<Call>)
    ensures var n := [c] + r;
      && (forall i :: 1 <= i < |n| ==> n[i] == r[i - 1])
      && ((forall i :: 0 <= i < |n| ==> n[i] !in failing) <==> c !in failing && forall i :: 0 <= i < |r| ==> r[i] !in failing)
  {
    var n := [c] + r;
    if forall i :: 0 <= i < |n| ==> n[i] !in failing {
      assert n[0] == c;
      forall i | 0 <= i < |r|
        ensures r[i] !in failing
      {
        assert r[i] == n[i + 1];
      }
    }
    if c !in failing && forall i :: 0 <= i < |r| ==> r[i] !in failing {
      forall i | 0 <= i < |n|
        ensures n[i] !in failing
      {
        if i > 0 {
          assert n[i] == r[i - 1];
        }
      }
    }
  }


  /** With none of its calls refused and the root listed, pivotRoot makes them all. */
  lemma {:induction false} PivotFromSucceeds(failing: set<Call>, calls: seq<Call>, k: nat)
    requires |calls| == |PivotErrors| && k <= |calls|
    requires forall c :: c in calls ==> c !in failing
    ensures PivotFrom(failing, calls, true, k) == (None, calls[k..])
    decreases |calls| - k
  {
    if k < |calls| {
      PivotFromSucceeds(failing, calls, k + 1);
      assert calls[k..] == [calls[k]] + calls[k + 1..];
    }
  }

  /**
   * Once a call that returns its error fails, no further call is made: every call but the
   * last one that InitProcess makes succeeds, or is the mount of /proc.
   */
  lemma StopsAtFirstFailure(failing: set<Call>, w: World, listed: bool)
    ensures var n := InitProcessSpec(failing, w, listed).1;
      forall i :: 0 <= i < |n| - 1 ==> n[i] !in failing || n[i] == ProcMount
  {
    if w.pwd.Some? {
      PivotRootStops(failing, w, w.pwd.value, listed);
    }
  }

  /**
   * Exec is reached exactly when InitProcess ends without error and the command's first
   * word is found on the PATH; it is then the last call, with the whole command as argv.
   */
  lemma ExecOnlyOnSuccess(failing: set<Call>, w: World, listed: bool)
    ensures var (err, n) := InitProcessSpec(failing, w, listed);
      (exists i :: 0 <= i < |n| && n[i].Exec?) <==>
        err.None? && ReadCommand(w.pipe).Some? && ReadCommand(w.pipe).value[0] in w.lookPath
    ensures var (err, n) := InitProcessSpec(failing, w, listed);
      forall i :: 0 <= i < |n| && n[i].Exec? ==> i == |n| - 1 && n[i].argv == ReadCommand(w.pipe).value
  {
    SetUpMountMakesNoExec(failing, w, listed);
    var (err, n) := InitProcessSpec(failing, w, listed);
    if err.None? && ReadCommand(w.pipe).Some? && ReadCommand(w.pipe).value[0] in w.lookPath {
      assert n[|n| - 1].Exec?;
    }
  }

  /** setUpMount never execs anything. */
  lemma SetUpMountMakesNoExec(failing: set<Call>, w: World, listed: bool)
    ensures forall i :: 0 <= i < |SetUpMountSpec(failing, w, listed).1| ==> !SetUpMountSpec(failing, w, listed).1[i].Exec?
  {
    if w.pwd.Some? {
      PivotRootStops(failing, w, w.pwd.value, listed);
    }
  }

  /** With a lookup that fails, InitProcess reports success without running anything. */
  lemma LookPathMissReturnsNil(failing: set<Call>, w: World, listed: bool)
    requires VerifyMountNamespace(w.selfNs, w.parentNs).None?
    requires w.pipe.Some? && SetUpMountSpec(failing, w, listed).0.None?
    requires ReadCommand(w.pipe).value[0] !in w.lookPath
    ensures InitProcessSpec(failing, w, listed) == (None, SetUpMountSpec(failing, w, listed).1)
  {
  }

  /**
   * When every call but, possibly, the mount of /proc succeeds, the working directory is
   * new and is listed as a mount point, the calls are exactly: make / private, the whole
   * pivot, mount /proc and /dev, and exec the command.
   */
  lemma InitSucceeds(failing: set<Call>, w: World)
    requires forall c :: c in failing ==> c == ProcMount
    requires VerifyMountNamespace(w.selfNs, w.parentNs).None?
    requires w.pipe.Some? && Split(w.pipe.value, ' ')[0] in w.lookPath
    requires w.pwd.Some? && w.pwd.value !in w.existing
    ensures var root := w.pwd.value;
      var cmd := Split(w.pipe.value, ' ');
      InitProcessSpec(failing, w, true) ==
        (None, [PrivateRoot] + PivotCalls(root) + [ProcMount, DevMount, Exec(w.lookPath[cmd[0]], cmd)])
  {
    var root := w.pwd.value;
    assert PrivateRoot != ProcMount && DevMount != ProcMount && BindRoot(root) != ProcMount;
    var pivot := PivotCalls(root);
    PivotFromSucceeds(failing, pivot, 0);
    assert pivot[0..] == pivot;
    assert SetUpMountSpec(failing, w, true) == (None, [PrivateRoot] + pivot + [ProcMount, DevMount]);
    var cmd := Split(w.pipe.value, ' ');
    assert ReadCommand(w.pipe) == Some(cmd);
    var ex := Exec(w.lookPath[cmd[0]], cmd);
    assert [PrivateRoot] + pivot + [ProcMount, DevMount] + [ex] == [PrivateRoot] + pivot + [ProcMount, DevMount, ex];
  }
}
