/**
 * The older revision of the workspace code (container/container_process.go): the same
 * layers at fixed paths under a root directory (`busybox/`, `writeLayer/`, `tmpWork`),
 * created with a single-level mkdir that fails on an existing directory, and a volume
 * target spelled by concatenation. Also the shape of `NewProcess`: when it gives up and
 * what command it prepares.
 */
module ContainerProcess {
  import opened Wrappers
  import opened Text
  import opened Paths
  import opened Host
  import CI = ContainerInfo
  import V = Volume

  // ---------------------------------------------------------------------------
  // Build
  // ---------------------------------------------------------------------------

  function BusyboxDir(root: string): string { root + "busybox/" }
  function WriteLayerDir(root: string): string { root + "writeLayer/" }
  function WorkDir(root: string): string { root + "tmpWork" }

  /** The root overlay: `<root>/busybox` below, `<root>/writeLayer` above. */
  function RootOptions(root: string): string
  {
    V.OverlayOptions(JoinPath([root, "busybox"]), JoinPath([root, "writeLayer"]), WorkDir(root))
  }

  /** The volume target is the mount directory and the container path concatenated. */
  function VolumeTarget(mnt: string, containerUrl: string): string
  {
    mnt + containerUrl
  }

  function ReadOnlyLayerSpec(failing: set<Action>, h: HostState, root: string): HostState
  {
    if PathExistsIn(h, BusyboxDir(root)) then h
    else Step(failing, Step(failing, h, Mkdir(BusyboxDir(root))), Untar(root + "busybox.tar", BusyboxDir(root)))
  }

  function WriteLayerSpec(failing: set<Action>, h: HostState, root: string): HostState
  {
    Step(failing, h, Mkdir(WriteLayerDir(root)))
  }

  function MountPointSpec(failing: set<Action>, h: HostState, root: string, mnt: string): HostState
  {
    var h1 := Step(failing, h, Mkdir(mnt));
    var h2 := Step(failing, h1, Mkdir(WorkDir(root)));
    Step(failing, h2, MountOverlay(RootOptions(root), mnt))
  }

  function MountVolumeSpec(failing: set<Action>, h: HostState, mnt: string, parts: seq<string>): HostState
    requires |parts| >= 2
  {
    var hostUrl := parts[0];
    var target := VolumeTarget(mnt, parts[1]);
    var h1 := Step(failing, h, MkdirAll(hostUrl));
    var h2 := Step(failing, h1, MkdirAll(target));
    var h3 := Step(failing, h2, MkdirAll(V.VolumeLower(hostUrl)));
    var (removed, h4) := Apply(failing, h3, RemoveAll(V.VolumeWork(hostUrl)));
    var h5 := if removed then Step(failing, h4, MkdirAll(V.VolumeWork(hostUrl))) else h4;
    Step(failing, h5, MountOverlay(V.VolumeOptions(hostUrl), target))
  }

  function NewWorkSpaceSpec(failing: set<Action>, h: HostState, root: string, mnt: string, volume: string): HostState
  {
    var h1 := ReadOnlyLayerSpec(failing, h, root);
    var h2 := WriteLayerSpec(failing, h1, root);
    var h3 := MountPointSpec(failing, h2, root, mnt);
    if volume != "" && V.ValidVolume(volume) then MountVolumeSpec(failing, h3, mnt, V.VolumeUrlExtract(volume))
    else h3
  }

  method CreateReadOnlyLayer(host: Host, root: string)
    modifies host
    ensures host.State() == ReadOnlyLayerSpec(host.failing, old(host.State()), root)
  {
    var busybox := root + "busybox/";
    var present := host.PathExists(busybox);
    if !present {
      var ok := host.Do(Mkdir(busybox));
      ok := host.Do(Untar(root + "busybox.tar", busybox));
    }
  }

  method CreateWriteLayer(host: Host, root: string)
    modifies host
    ensures host.State() == WriteLayerSpec(host.failing, old(host.State()), root)
  {
    var ok := host.Do(Mkdir(root + "writeLayer/"));
  }

  method CreateMountPoint(host: Host, root: string, mnt: string)
    modifies host
    ensures host.State() == MountPointSpec(host.failing, old(host.State()), root, mnt)
  {
    var ok := host.Do(Mkdir(mnt));
    var work := root + "tmpWork";
    ok := host.Do(Mkdir(work));
    var options := V.OverlayOptions(JoinPath([root, "busybox"]), JoinPath([root, "writeLayer"]), work);
    ok := host.Do(MountOverlay(options, mnt));
  }

  method MountVolume(host: Host, mnt: string, parts: seq<string>)
    requires |parts| >= 2
    modifies host
    ensures host.State() == MountVolumeSpec(host.failing, old(host.State()), mnt, parts)
  {
    var hostUrl := parts[0];
    var ok := host.Do(MkdirAll(hostUrl));
    var target := mnt + parts[1];
    ok := host.Do(MkdirAll(target));
    var lower := V.VolumeLower(hostUrl);
    var work := V.VolumeWork(hostUrl);
    ok := host.Do(MkdirAll(lower));
    var removed := host.Do(RemoveAll(work));
    if removed {
      ok := host.Do(MkdirAll(work));
    }
    ok := host.Do(MountOverlay(V.OverlayOptions(lower, hostUrl, work), target));
  }

  method NewWorkSpace(host: Host, root: string, mnt: string, volume: string)
    modifies host
    ensures host.State() == NewWorkSpaceSpec(host.failing, old(host.State()), root, mnt, volume)
  {
    CreateReadOnlyLayer(host, root);
    CreateWriteLayer(host, root);
    CreateMountPoint(host, root, mnt);
    if volume != "" {
      var parts := V.VolumeUrlExtract(volume);
      if |parts| == 2 && parts[0] != "" && parts[1] != "" {
        MountVolume(host, mnt, parts);
      }
    }
  }

  /** The busybox layer is unpacked at most once, as in the newer revision. */
  lemma ReadOnlyLayerIdempotent(failing: set<Action>, h: HostState, root: string)
    requires Mkdir(BusyboxDir(root)) !in failing
    ensures var h1 := ReadOnlyLayerSpec(failing, h, root);
            ReadOnlyLayerSpec(failing, h1, root) == h1
  {
    if !PathExistsIn(h, BusyboxDir(root)) {
      var h0 := Step(failing, h, Mkdir(BusyboxDir(root)));
      ApplyFrame(failing, h0, Untar(root + "busybox.tar", BusyboxDir(root)));
    }
  }

  /**
   * The single-level mkdir of the write layer fails on a second build over a write layer
   * that was not torn down, and then leaves the directories as they were.
   */
  lemma WriteLayerRefusesExisting(failing: set<Action>, h: HostState, root: string)
    requires Clean(WriteLayerDir(root)) in h.dirs
    ensures !Apply(failing, h, Mkdir(WriteLayerDir(root))).0
    ensures WriteLayerSpec(failing, h, root).dirs == h.dirs
  {
  }

  // ---------------------------------------------------------------------------
  // Teardown
  // ---------------------------------------------------------------------------

  function DeleteMountPointSpec(failing: set<Action>, h: HostState, mnt: string): HostState
  {
    Step(failing, Step(failing, h, Umount(mnt)), RemoveAll(mnt))
  }

  function DeleteMountPointWithVolumeSpec(failing: set<Action>, h: HostState, mnt: string, parts: seq<string>): HostState
    requires |parts| >= 2
  {
    var h1 := Step(failing, h, Umount(JoinPath([mnt, parts[1]])));
    var h2 := Step(failing, h1, Umount(mnt));
    var h3 := Step(failing, h2, RemoveAll(mnt));
    Step(failing, h3, RemoveAll(V.VolumeWorkDir(parts[0])))
  }

  function DeleteWriteLayerSpec(failing: set<Action>, h: HostState, root: string): HostState
  {
    Step(failing, Step(failing, h, RemoveAll(root + "writeLayer/")), RemoveAll(root + "tmpWork/"))
  }

  function DeleteWorkSpaceSpec(failing: set<Action>, h: HostState, root: string, mnt: string, volume: string): HostState
  {
    var h1 :=
      if volume != "" && V.ValidVolume(volume) then DeleteMountPointWithVolumeSpec(failing, h, mnt, V.VolumeUrlExtract(volume))
      else DeleteMountPointSpec(failing, h, mnt);
    DeleteWriteLayerSpec(failing, h1, root)
  }

  method DeleteMountPoint(host: Host, mnt: string)
    modifies host
    ensures host.State() == DeleteMountPointSpec(host.failing, old(host.State()), mnt)
  {
    var ok := host.Do(Umount(mnt));
    ok := host.Do(RemoveAll(mnt));
  }

  method DeleteMountPointWithVolume(host: Host, root: string, mnt: string, parts: seq<string>)
    requires |parts| >= 2
    modifies host
    ensures host.State() == DeleteMountPointWithVolumeSpec(host.failing, old(host.State()), mnt, parts)
  {
    var ok := host.Do(Umount(JoinPath([mnt, parts[1]])));
    ok := host.Do(Umount(mnt));
    ok := host.Do(RemoveAll(mnt));
    ok := host.Do(RemoveAll(JoinPath([parts[0], "..", ".volumeWork"])));
  }

  method DeleteWriteLayer(host: Host, root: string)
    modifies host
    ensures host.State() == DeleteWriteLayerSpec(host.failing, old(host.State()), root)
  {
    var ok := host.Do(RemoveAll(root + "writeLayer/"));
    ok := host.Do(RemoveAll(root + "tmpWork/"));
  }

  method DeleteWorkSpace(host: Host, root: string, mnt: string, volume: string)
    modifies host
    ensures host.State() == DeleteWorkSpaceSpec(host.failing, old(host.State()), root, mnt, volume)
  {
    if volume != "" {
      var parts := V.VolumeUrlExtract(volume);
      if |parts| == 2 && parts[0] != "" && parts[1] != "" {
        DeleteMountPointWithVolume(host, root, mnt, parts);
      } else {
        DeleteMountPoint(host, mnt);
      }
    } else {
      DeleteMountPoint(host, mnt);
    }
    DeleteWriteLayer(host, root);
  }

  /** Teardown unmounts the volume before the root mount and attempts every step. */
  lemma TeardownRunsEveryStep(failing: set<Action>, h: HostState, root: string, mnt: string, volume: string)
    ensures DeleteWorkSpaceSpec(failing, h, root, mnt, volume).trace == h.trace +
      (if V.ValidVolume(volume)
       then [Umount(JoinPath([mnt, V.VolumeUrlExtract(volume)[1]])), Umount(mnt), RemoveAll(mnt),
             RemoveAll(V.VolumeWorkDir(V.VolumeUrlExtract(volume)[0]))]
       else [Umount(mnt), RemoveAll(mnt)])
      + [RemoveAll(root + "writeLayer/"), RemoveAll(root + "tmpWork/")]
  {
    if V.ValidVolume(volume) {
      assert volume != "";
    }
  }

  // ---------------------------------------------------------------------------
  // Two spellings of one directory
  // ---------------------------------------------------------------------------

  /**
   * The concatenated volume target and the joined one that teardown unmounts name the
   * same directory once resolved, for a rooted mount directory ending in '/' (as
   * `/root/mnt/` does): the concatenation is harmless there.
   */
  lemma VolumeTargetAgrees(mnt: string, containerUrl: string)
    requires |mnt| >= 2 && mnt[0] == '/' && mnt[|mnt| - 1] == '/'
    ensures Clean(VolumeTarget(mnt, containerUrl)) == Clean(JoinPath([mnt, containerUrl]))
  {
    var a := mnt[..|mnt| - 1];
    assert mnt == a + "/";
    assert Join([mnt, containerUrl], "/") == a + "//" + containerUrl by {
      assert [mnt, containerUrl][1..] == [containerUrl];
    }
    CleanDoubleSlash(a, containerUrl);
    assert VolumeTarget(mnt, containerUrl) == a + "/" + containerUrl;
    CleanIdempotent(a + "/" + containerUrl);
  }

  /** The work directory is created as `<root>tmpWork` and removed as `<root>tmpWork/`: the same directory. */
  lemma WorkDirAgrees(root: string)
    ensures Clean(root + "tmpWork/") == Clean(WorkDir(root))
  {
    assert root + "tmpWork/" == WorkDir(root) + "/";
    CleanTrailingSlash(WorkDir(root));
  }

  /**
   * When no removal is refused, teardown leaves nothing under the mount directory, the
   * write layer or the work directory the build created.
   */
  lemma TeardownLeavesNoResidue(failing: set<Action>, h: HostState, root: string, mnt: string, volume: string)
    requires forall p :: RemoveAll(p) !in failing
    ensures var h1 := DeleteWorkSpaceSpec(failing, h, root, mnt, volume);
            forall d :: d in h1.dirs ==>
              !Within(d, Clean(mnt)) && !Within(d, Clean(WriteLayerDir(root))) && !Within(d, Clean(WorkDir(root)))
  {
    WorkDirAgrees(root);
    var g1 :=
      if volume != "" && V.ValidVolume(volume) then DeleteMountPointWithVolumeSpec(failing, h, mnt, V.VolumeUrlExtract(volume))
      else DeleteMountPointSpec(failing, h, mnt);
    if volume != "" && V.ValidVolume(volume) {
      var parts := V.VolumeUrlExtract(volume);
      var a1 := Step(failing, h, Umount(JoinPath([mnt, parts[1]])));
      var a2 := Step(failing, a1, Umount(mnt));
      var a3 := Step(failing, a2, RemoveAll(mnt));
      ApplyFrame(failing, a2, RemoveAll(mnt));
      ApplyFrame(failing, a3, RemoveAll(V.VolumeWorkDir(parts[0])));
    } else {
      ApplyFrame(failing, Step(failing, h, Umount(mnt)), RemoveAll(mnt));
    }
    assert forall d :: d in g1.dirs ==> !Within(d, Clean(mnt));
    var b1 := Step(failing, g1, RemoveAll(root + "writeLayer/"));
    ApplyFrame(failing, g1, RemoveAll(root + "writeLayer/"));
    ApplyFrame(failing, b1, RemoveAll(root + "tmpWork/"));
  }

  /** The mounts a build adds: the root overlay, then the volume overlay if the volume is valid. */
  lemma BuildMounts(failing: set<Action>, h: HostState, root: string, mnt: string, volume: string)
    requires forall a :: a in failing ==> !TouchesMounts(a)
    ensures NewWorkSpaceSpec(failing, h, root, mnt, volume).mounts ==
      h.mounts + [MountEntry(RootOptions(root), Clean(mnt))]
      + (if V.ValidVolume(volume)
         then [MountEntry(V.VolumeOptions(V.VolumeUrlExtract(volume)[0]), Clean(VolumeTarget(mnt, V.VolumeUrlExtract(volume)[1])))]
         else [])
  {
    RootMounts(failing, h, root, mnt);
    if V.ValidVolume(volume) {
      assert volume != "";
      var h3 := MountPointSpec(failing, WriteLayerSpec(failing, ReadOnlyLayerSpec(failing, h, root), root), root, mnt);
      VolumeMounts(failing, h3, mnt, V.VolumeUrlExtract(volume));
    }
  }

  /** The layers and the root overlay add exactly the root overlay's mount. */
  lemma RootMounts(failing: set<Action>, h: HostState, root: string, mnt: string)
    requires forall a :: a in failing ==> !TouchesMounts(a)
    ensures MountPointSpec(failing, WriteLayerSpec(failing, ReadOnlyLayerSpec(failing, h, root), root), root, mnt).mounts ==
      h.mounts + [MountEntry(RootOptions(root), Clean(mnt))]
  {
    var h1 := ReadOnlyLayerSpec(failing, h, root);
    if !PathExistsIn(h, BusyboxDir(root)) {
      ApplyFrame(failing, h, Mkdir(BusyboxDir(root)));
      ApplyFrame(failing, Step(failing, h, Mkdir(BusyboxDir(root))), Untar(root + "busybox.tar", BusyboxDir(root)));
    }
    var h2 := WriteLayerSpec(failing, h1, root);
    ApplyFrame(failing, h1, Mkdir(WriteLayerDir(root)));
    var m1 := Step(failing, h2, Mkdir(mnt));
    ApplyFrame(failing, h2, Mkdir(mnt));
    ApplyFrame(failing, m1, Mkdir(WorkDir(root)));
  }

  /** Mounting a volume adds exactly the volume overlay's mount. */
  lemma VolumeMounts(failing: set<Action>, h: HostState, mnt: string, parts: seq<string>)
    requires forall a :: a in failing ==> !TouchesMounts(a)
    requires |parts| >= 2
    ensures MountVolumeSpec(failing, h, mnt, parts).mounts ==
      h.mounts + [MountEntry(V.VolumeOptions(parts[0]), Clean(VolumeTarget(mnt, parts[1])))]
  {
    var hostUrl := parts[0];
    var target := VolumeTarget(mnt, parts[1]);
    var v1 := Step(failing, h, MkdirAll(hostUrl));
    var v2 := Step(failing, v1, MkdirAll(target));
    var v3 := Step(failing, v2, MkdirAll(V.VolumeLower(hostUrl)));
    var (removed, v4) := Apply(failing, v3, RemoveAll(V.VolumeWork(hostUrl)));
    ApplyFrame(failing, h, MkdirAll(hostUrl));
    ApplyFrame(failing, v1, MkdirAll(target));
    ApplyFrame(failing, v2, MkdirAll(V.VolumeLower(hostUrl)));
    ApplyFrame(failing, v3, RemoveAll(V.VolumeWork(hostUrl)));
    ApplyFrame(failing, v4, MkdirAll(V.VolumeWork(hostUrl)));
  }

  /**
   * With the fixed mount directory `/root/mnt/` and no refused mount or unmount, tearing
   * down what was built restores the mount table: the unmount of the joined target finds
   * the volume mounted on the concatenated one.
   */
  lemma BuildTeardownRestoresMounts(failing: set<Action>, h: HostState, root: string, volume: string)
    requires forall a :: a in failing ==> !TouchesMounts(a)
    ensures var mnt := "/root/mnt/";
            var built := NewWorkSpaceSpec(failing, h, root, mnt, volume);
            DeleteWorkSpaceSpec(failing, built, root, mnt, volume).mounts == h.mounts
  {
    var mnt := "/root/mnt/";
    var built := NewWorkSpaceSpec(failing, h, root, mnt, volume);
    BuildMounts(failing, h, root, mnt, volume);
    var rootEntry := MountEntry(RootOptions(root), Clean(mnt));
    var g1 :=
      if volume != "" && V.ValidVolume(volume) then DeleteMountPointWithVolumeSpec(failing, built, mnt, V.VolumeUrlExtract(volume))
      else DeleteMountPointSpec(failing, built, mnt);
    if V.ValidVolume(volume) {
      assert volume != "";
      var parts := V.VolumeUrlExtract(volume);
      var joined := JoinPath([mnt, parts[1]]);
      VolumeTargetAgrees(mnt, parts[1]);
      var ve := MountEntry(V.VolumeOptions(parts[0]), Clean(VolumeTarget(mnt, parts[1])));
      assert built.mounts == (h.mounts + [rootEntry]) + [ve];
      V.UmountLast(failing, built, h.mounts + [rootEntry], ve, joined);
      var a1 := Step(failing, built, Umount(joined));
      V.UmountLast(failing, a1, h.mounts, rootEntry, mnt);
      var a2 := Step(failing, a1, Umount(mnt));
      var a3 := Step(failing, a2, RemoveAll(mnt));
      ApplyFrame(failing, a2, RemoveAll(mnt));
      ApplyFrame(failing, a3, RemoveAll(V.VolumeWorkDir(parts[0])));
    } else {
      assert built.mounts == h.mounts + [rootEntry];
      V.UmountLast(failing, built, h.mounts, rootEntry, mnt);
      ApplyFrame(failing, Step(failing, built, Umount(mnt)), RemoveAll(mnt));
    }
    var b1 := Step(failing, g1, RemoveAll(root + "writeLayer/"));
    ApplyFrame(failing, g1, RemoveAll(root + "writeLayer/"));
    ApplyFrame(failing, b1, RemoveAll(root + "tmpWork/"));
  }

  // ---------------------------------------------------------------------------
  // NewProcess
  // ---------------------------------------------------------------------------

  /** Where the child's standard output goes. */
  datatype Output = Terminal | LogFile(path: string)

  /** The ends of the pipe that carries the command to the child. */
  datatype PipeEnd = ReadEnd | WriteEnd

  /** The command `NewProcess` prepares: the re-executed binary, its output, extra files and directory. */
  datatype Cmd = Cmd(path: string, args: seq<string>, stdout: Output, extraFiles: seq<PipeEnd>, dir: string)

  function LogDir(name: string): string { CI.InfoLocation(name) }
  function LogPath(name: string): string { JoinPath([LogDir(name), CI.ContainerLogFile]) }

  const MntUrl := "/root/mnt/"
  const RootUrl := "/root/"

  /**
   * `NewProcess(tty, volume, name)`, with the pipe's creation as an outcome: nothing
   * happens when the pipe cannot be made; a detached container first needs its log
   * directory and log file; then the workspace is built and the command is prepared.
   */
  function NewProcessSpec(failing: set<Action>, h: HostState, tty: bool, volume: string, name: string, pipeOk: bool)
    : (Option<Cmd>, Option<PipeEnd>, HostState)
  {
    if !pipeOk then (None, None, h)
    else
      var (ok1, h1) := if tty then (true, h) else Apply(failing, h, MkdirAll(LogDir(name)));
      if !ok1 then (None, None, h1)
      else
        var (ok2, h2) := if tty then (true, h1) else Apply(failing, h1, CreateFile(LogPath(name)));
        if !ok2 then (None, None, h2)
        else
          var out := if tty then Terminal else LogFile(LogPath(name));
          var h3 := NewWorkSpaceSpec(failing, h2, RootUrl, MntUrl, volume);
          (Some(Cmd("/proc/self/exe", ["init"], out, [ReadEnd], MntUrl)), Some(WriteEnd), h3)
  }

  method NewProcess(host: Host, tty: bool, volume: string, name: string, pipeOk: bool)
    returns (cmd: Option<Cmd>, writePipe: Option<PipeEnd>)
    modifies host
    ensures (cmd, writePipe, host.State()) == NewProcessSpec(host.failing, old(host.State()), tty, volume, name, pipeOk)
  {
    if !pipeOk {
      return None, None;
    }
    var out := Terminal;
    if !tty {
      var logdir := CI.InfoLocation(name);
      var ok := host.Do(MkdirAll(logdir));
      if !ok {
        return None, None;
      }
      var logPath := JoinPath([logdir, CI.ContainerLogFile]);
      ok := host.Do(CreateFile(logPath));
      if !ok {
        return None, None;
      }
      out := LogFile(logPath);
    }
    NewWorkSpace(host, "/root/", "/root/mnt/", volume);
    cmd := Some(Cmd("/proc/self/exe", ["init"], out, [ReadEnd], "/root/mnt/"));
    writePipe := Some(WriteEnd);
  }

  /**
   * `NewProcess` gives back both nil values exactly when the pipe, the log directory or
   * the log file could not be made, and then builds no workspace; otherwise the command
   * re-executes the binary as `init` in `/root/mnt/` with the pipe's read end as its only
   * extra file (descriptor 3), and the caller keeps the write end.
   */
  lemma NewProcessShape(failing: set<Action>, h: HostState, tty: bool, volume: string, name: string, pipeOk: bool)
    ensures var (cmd, wp, h1) := NewProcessSpec(failing, h, tty, volume, name, pipeOk);
            && (cmd.Some? <==> pipeOk && (tty || (MkdirAll(LogDir(name)) !in failing && CreateFile(LogPath(name)) !in failing)))
            && (cmd.None? ==> wp.None? && |h1.trace| <= |h.trace| + 2 && h1.mounts == h.mounts)
            && (cmd.Some? ==> wp == Some(WriteEnd) && cmd.value.extraFiles == [ReadEnd]
                              && cmd.value.dir == "/root/mnt/" && cmd.value.args == ["init"]
                              && cmd.value.stdout == (if tty then Terminal else LogFile(LogPath(name))))
  {
  }
}
