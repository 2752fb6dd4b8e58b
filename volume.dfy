/**
 * The container filesystem of container/volume.go: a read-only image layer unpacked
 * under `/root/<image>`, a per-container write layer and work directory, an overlay
 * mount on `/root/mnt/<name>`, and optionally a data volume `host:target` mounted inside
 * it. Building and tearing down are step sequences on the host; every failure is only
 * logged, so every step after it still runs.
 */
module Volume {
  import opened Wrappers
  import opened Text
  import opened Paths
  import opened Host
  import CI = ContainerInfo

  // ---------------------------------------------------------------------------
  // The volume argument
  // ---------------------------------------------------------------------------

  /** `volumeUrlExtract`: the pieces of the volume argument between colons. */
  function VolumeUrlExtract(volume: string): (parts: seq<string>)
    ensures |parts| >= 1 && forall i :: 0 <= i < |parts| ==> ':' !in parts[i]
    ensures Join(parts, ":") == volume
  {
    JoinSplit(volume, ':');
    SplitPiecesFree(volume, ':');
    Split(volume, ':')
  }

  /** The gate on volume mounting: exactly two pieces, neither empty. */
  predicate ValidVolume(volume: string)
  {
    var parts := VolumeUrlExtract(volume);
    |parts| == 2 && parts[0] != "" && parts[1] != ""
  }

  function VolumeOf(host: string, target: string): string
  {
    host + ":" + target
  }

  /**
   * The gate accepts exactly the strings `host:target` with a non-empty, colon-free host
   * directory and container directory; it then extracts those two.
   */
  lemma VolumeRule(volume: string)
    ensures ValidVolume(volume) <==>
      exists host, target :: host != "" && target != "" && ':' !in host && ':' !in target
                             && volume == VolumeOf(host, target)
    ensures forall host, target :: host != "" && target != "" && ':' !in host && ':' !in target
                             ==> VolumeUrlExtract(VolumeOf(host, target)) == [host, target]
  {
    forall host, target | host != "" && target != "" && ':' !in host && ':' !in target
      ensures VolumeUrlExtract(VolumeOf(host, target)) == [host, target]
    {
      SplitJoin([host, target], ':');
      assert Join([host, target], [':']) == VolumeOf(host, target);
    }
    if ValidVolume(volume) {
      var parts := VolumeUrlExtract(volume);
      assert Join(parts, ":") == parts[0] + ":" + parts[1];
      assert volume == VolumeOf(parts[0], parts[1]);
    }
  }

  // ---------------------------------------------------------------------------
  // Paths and mount options
  // ---------------------------------------------------------------------------

  function ImageDir(image: string): string { JoinPath([CI.RootUrl, image]) }
  function ImageArchive(image: string): string { ImageDir(image) + ".tar" }

  /** The option string of an overlay mount. */
  function OverlayOptions(lower: string, upper: string, work: string): string
  {
    "lowerdir=" + lower + ",upperdir=" + upper + ",workdir=" + work
  }

  /** The root overlay: the image is the lower layer, the write layer the upper. */
  function RootOptions(image: string, name: string): string
  {
    OverlayOptions(ImageDir(image), CI.WriteLayerUrl(name), CI.WorkLayerUrl(name))
  }

  function VolumeTarget(name: string, containerUrl: string): string
  {
    JoinPath([CI.MntUrl(name), containerUrl])
  }

  /** The scratch directory beside the host directory, and its two overlay directories. */
  function VolumeWorkDir(hostUrl: string): string { JoinPath([hostUrl, "..", ".volumeWork"]) }
  function VolumeLower(hostUrl: string): string { JoinPath([VolumeWorkDir(hostUrl), ".emptyLower"]) }
  function VolumeWork(hostUrl: string): string { JoinPath([VolumeWorkDir(hostUrl), ".work"]) }

  /** The volume overlay: an empty lower layer, the host directory as the upper. */
  function VolumeOptions(hostUrl: string): string
  {
    OverlayOptions(VolumeLower(hostUrl), hostUrl, VolumeWork(hostUrl))
  }

  /**
   * When no directory holds a comma, `mount -o` sees exactly the three options with the
   * three directories, in order.
   */
  lemma OverlayOptionsSplit(lower: string, upper: string, work: string)
    requires ',' !in lower && ',' !in upper && ',' !in work
    ensures Split(OverlayOptions(lower, upper, work), ',') ==
      ["lowerdir=" + lower, "upperdir=" + upper, "workdir=" + work]
  {
    var parts := ["lowerdir=" + lower, "upperdir=" + upper, "workdir=" + work];
    assert Join(parts[1..], [',']) == "upperdir=" + upper + [','] + ("workdir=" + work) by {
      assert parts[1..][1..] == ["workdir=" + work];
    }
    assert Join(parts, [',']) == "lowerdir=" + lower + [','] + Join(parts[1..], [',']);
    assert Join(parts, [',']) == OverlayOptions(lower, upper, work);
    SplitJoin(parts, ',');
  }

  /** The root overlay of a comma-free image and name names the image, write layer and work directory. */
  lemma RootOptionsSplit(image: string, name: string)
    requires ',' !in image && ',' !in name
    ensures Split(RootOptions(image, name), ',') ==
      ["lowerdir=" + ImageDir(image), "upperdir=" + CI.WriteLayerUrl(name), "workdir=" + CI.WorkLayerUrl(name)]
  {
    JoinPathKeepsAbsent([CI.RootUrl, image], ',');
    OverlayOptionsSplit(ImageDir(image), CI.WriteLayerUrl(name), CI.WorkLayerUrl(name));
  }

  /** The volume overlay of a comma-free host directory names the scratch directories and the host. */
  lemma VolumeOptionsSplit(hostUrl: string)
    requires ',' !in hostUrl
    ensures Split(VolumeOptions(hostUrl), ',') ==
      ["lowerdir=" + VolumeLower(hostUrl), "upperdir=" + hostUrl, "workdir=" + VolumeWork(hostUrl)]
  {
    JoinPathKeepsAbsent([hostUrl, "..", ".volumeWork"], ',');
    JoinPathKeepsAbsent([VolumeWorkDir(hostUrl), ".emptyLower"], ',');
    JoinPathKeepsAbsent([VolumeWorkDir(hostUrl), ".work"], ',');
    OverlayOptionsSplit(VolumeLower(hostUrl), hostUrl, VolumeWork(hostUrl));
  }

  // ---------------------------------------------------------------------------
  // Build
  // ---------------------------------------------------------------------------

  function ReadOnlyLayerSpec(failing: set<Action>, h: HostState, image: string): HostState
  {
    if PathExistsIn(h, ImageDir(image)) then h
    else Step(failing, Step(failing, h, MkdirAll(ImageDir(image))), Untar(ImageArchive(image), ImageDir(image)))
  }

  function WriteLayerSpec(failing: set<Action>, h: HostState, name: string): HostState
  {
    Step(failing, h, MkdirAll(CI.WriteLayerUrl(name)))
  }

  function MountPointSpec(failing: set<Action>, h: HostState, name: string, image: string): HostState
  {
    var h1 := Step(failing, h, MkdirAll(CI.MntUrl(name)));
    var h2 := Step(failing, h1, MkdirAll(CI.WorkLayerUrl(name)));
    Step(failing, h2, MountOverlay(RootOptions(image, name), CI.MntUrl(name)))
  }

  function MountVolumeSpec(failing: set<Action>, h: HostState, parts: seq<string>, name: string): HostState
    requires |parts| >= 2
  {
    var hostUrl := parts[0];
    var target := VolumeTarget(name, parts[1]);
    var h1 := Step(failing, h, MkdirAll(hostUrl));
    var h2 := Step(failing, h1, MkdirAll(target));
    var h3 := Step(failing, h2, MkdirAll(VolumeLower(hostUrl)));
    var (removed, h4) := Apply(failing, h3, RemoveAll(VolumeWork(hostUrl)));
    var h5 := if removed then Step(failing, h4, MkdirAll(VolumeWork(hostUrl))) else h4;
    Step(failing, h5, MountOverlay(VolumeOptions(hostUrl), target))
  }

  function NewWorkSpaceSpec(failing: set<Action>, h: HostState, image: string, name: string, volume: string): HostState
  {
    var h1 := ReadOnlyLayerSpec(failing, h, image);
    var h2 := WriteLayerSpec(failing, h1, name);
    var h3 := MountPointSpec(failing, h2, name, image);
    if volume != "" && ValidVolume(volume) then MountVolumeSpec(failing, h3, VolumeUrlExtract(volume), name)
    else h3
  }

  method CreateReadOnlyLayer(host: Host, image: string)
    modifies host
    ensures host.State() == ReadOnlyLayerSpec(host.failing, old(host.State()), image)
  {
    var dir := ImageDir(image);
    var present := host.PathExists(dir);
    if !present {
      var ok := host.Do(MkdirAll(dir));
      ok := host.Do(Untar(dir + ".tar", dir));
    }
  }

  method CreateWriteLayer(host: Host, name: string)
    modifies host
    ensures host.State() == WriteLayerSpec(host.failing, old(host.State()), name)
  {
    var ok := host.Do(MkdirAll(CI.WriteLayerUrl(name)));
  }

  method CreateMountPoint(host: Host, name: string, image: string)
    modifies host
    ensures host.State() == MountPointSpec(host.failing, old(host.State()), name, image)
  {
    var mnt := CI.MntUrl(name);
    var ok := host.Do(MkdirAll(mnt));
    var work := CI.WorkLayerUrl(name);
    ok := host.Do(MkdirAll(work));
    var options := OverlayOptions(ImageDir(image), CI.WriteLayerUrl(name), work);
    ok := host.Do(MountOverlay(options, mnt));
  }

  method MountVolume(host: Host, parts: seq<string>, name: string)
    requires |parts| >= 2
    modifies host
    ensures host.State() == MountVolumeSpec(host.failing, old(host.State()), parts, name)
  {
    var hostUrl := parts[0];
    var ok := host.Do(MkdirAll(hostUrl));
    var target := JoinPath([CI.MntUrl(name), parts[1]]);
    ok := host.Do(MkdirAll(target));
    var lower := VolumeLower(hostUrl);
    var work := VolumeWork(hostUrl);
    ok := host.Do(MkdirAll(lower));
    var removed := host.Do(RemoveAll(work));
    if removed {
      ok := host.Do(MkdirAll(work));
    }
    ok := host.Do(MountOverlay(OverlayOptions(lower, hostUrl, work), target));
  }

  method NewWorkSpace(host: Host, image: string, name: string, volume: string)
    modifies host
    ensures host.State() == NewWorkSpaceSpec(host.failing, old(host.State()), image, name, volume)
  {
    CreateReadOnlyLayer(host, image);
    CreateWriteLayer(host, name);
    CreateMountPoint(host, name, image);
    if volume != "" {
      var parts := VolumeUrlExtract(volume);
      if |parts| == 2 && parts[0] != "" && parts[1] != "" {
        MountVolume(host, parts, name);
      }
    }
  }

  /**
   * The image is unpacked at most once: after a call whose directory creation is not
   * refused, a second call with the same image finds the directory and does nothing.
   */
  lemma ReadOnlyLayerIdempotent(failing: set<Action>, h: HostState, image: string)
    requires MkdirAll(ImageDir(image)) !in failing
    ensures var h1 := ReadOnlyLayerSpec(failing, h, image);
            ReadOnlyLayerSpec(failing, h1, image) == h1
  {
    if !PathExistsIn(h, ImageDir(image)) {
      var h0 := Step(failing, h, MkdirAll(ImageDir(image)));
      ApplyFrame(failing, h, MkdirAll(ImageDir(image)));
      ApplyFrame(failing, h0, Untar(ImageArchive(image), ImageDir(image)));
    }
  }

  /**
   * The volume steps, in order: create the host directory, the target, the empty lower
   * directory, empty the work directory, re-create it only if emptying it worked, and
   * mount; each runs whatever happened before.
   */
  lemma MountVolumeTrace(failing: set<Action>, h: HostState, parts: seq<string>, name: string)
    requires |parts| >= 2
    ensures var hostUrl := parts[0];
            var target := VolumeTarget(name, parts[1]);
            MountVolumeSpec(failing, h, parts, name).trace ==
              h.trace + [MkdirAll(hostUrl), MkdirAll(target), MkdirAll(VolumeLower(hostUrl)), RemoveAll(VolumeWork(hostUrl))]
              + (if RemoveAll(VolumeWork(hostUrl)) in failing then [] else [MkdirAll(VolumeWork(hostUrl))])
              + [MountOverlay(VolumeOptions(hostUrl), target)]
  {
  }

  /** An argument the gate rejects causes no volume action at all. */
  lemma InvalidVolumeIgnored(failing: set<Action>, h: HostState, image: string, name: string, volume: string)
    requires !ValidVolume(volume)
    ensures NewWorkSpaceSpec(failing, h, image, name, volume) == NewWorkSpaceSpec(failing, h, image, name, "")
  {
  }

  /** With a valid volume, the last step of the build mounts it on its target inside the container. */
  lemma ValidVolumeMountedLast(failing: set<Action>, h: HostState, image: string, name: string, volume: string)
    requires ValidVolume(volume)
    ensures var parts := VolumeUrlExtract(volume);
            var t := NewWorkSpaceSpec(failing, h, image, name, volume).trace;
            |t| > 0 && t[|t| - 1] == MountOverlay(VolumeOptions(parts[0]), VolumeTarget(name, parts[1]))
  {
    assert volume != "";
  }

  // ---------------------------------------------------------------------------
  // Teardown
  // ---------------------------------------------------------------------------

  function DeleteMountPointSpec(failing: set<Action>, h: HostState, name: string): HostState
  {
    Step(failing, Step(failing, h, Umount(CI.MntUrl(name))), RemoveAll(CI.MntUrl(name)))
  }

  function DeleteMountPointWithVolumeSpec(failing: set<Action>, h: HostState, parts: seq<string>, name: string): HostState
    requires |parts| >= 2
  {
    var h1 := Step(failing, h, Umount(VolumeTarget(name, parts[1])));
    var h2 := Step(failing, h1, Umount(CI.MntUrl(name)));
    var h3 := Step(failing, h2, RemoveAll(CI.MntUrl(name)));
    Step(failing, h3, RemoveAll(VolumeWorkDir(parts[0])))
  }

  function DeleteWriteLayerSpec(failing: set<Action>, h: HostState, name: string): HostState
  {
    Step(failing, Step(failing, h, RemoveAll(CI.WriteLayerUrl(name))), RemoveAll(CI.WorkLayerUrl(name)))
  }

  function DeleteWorkSpaceSpec(failing: set<Action>, h: HostState, volume: string, name: string): HostState
  {
    var h1 :=
      if volume != "" && ValidVolume(volume) then DeleteMountPointWithVolumeSpec(failing, h, VolumeUrlExtract(volume), name)
      else DeleteMountPointSpec(failing, h, name);
    DeleteWriteLayerSpec(failing, h1, name)
  }

  method DeleteMountPoint(host: Host, name: string)
    modifies host
    ensures host.State() == DeleteMountPointSpec(host.failing, old(host.State()), name)
  {
    var mnt := CI.MntUrl(name);
    var ok := host.Do(Umount(mnt));
    ok := host.Do(RemoveAll(mnt));
  }

  method DeleteMountPointWithVolume(host: Host, parts: seq<string>, name: string)
    requires |parts| >= 2
    modifies host
    ensures host.State() == DeleteMountPointWithVolumeSpec(host.failing, old(host.State()), parts, name)
  {
    var mnt := CI.MntUrl(name);
    var target := JoinPath([mnt, parts[1]]);
    var ok := host.Do(Umount(target));
    ok := host.Do(Umount(mnt));
    ok := host.Do(RemoveAll(mnt));
    ok := host.Do(RemoveAll(JoinPath([parts[0], "..", ".volumeWork"])));
  }

  method DeleteWriteLayer(host: Host, name: string)
    modifies host
    ensures host.State() == DeleteWriteLayerSpec(host.failing, old(host.State()), name)
  {
    var ok := host.Do(RemoveAll(CI.WriteLayerUrl(name)));
    ok := host.Do(RemoveAll(CI.WorkLayerUrl(name)));
  }

  method DeleteWorkSpace(host: Host, volume: string, name: string)
    modifies host
    ensures host.State() == DeleteWorkSpaceSpec(host.failing, old(host.State()), volume, name)
  {
    if volume != "" {
      var parts := VolumeUrlExtract(volume);
      if |parts| == 2 && parts[0] != "" && parts[1] != "" {
        DeleteMountPointWithVolume(host, parts, name);
      } else {
        DeleteMountPoint(host, name);
      }
    } else {
      DeleteMountPoint(host, name);
    }
    DeleteWriteLayer(host, name);
  }

  /** The teardown steps in their mandatory order. */
  function TeardownActions(volume: string, name: string): seq<Action>
  {
    if ValidVolume(volume) then
      var parts := VolumeUrlExtract(volume);
      [Umount(VolumeTarget(name, parts[1])), Umount(CI.MntUrl(name)), RemoveAll(CI.MntUrl(name)),
       RemoveAll(VolumeWorkDir(parts[0])), RemoveAll(CI.WriteLayerUrl(name)), RemoveAll(CI.WorkLayerUrl(name))]
    else
      [Umount(CI.MntUrl(name)), RemoveAll(CI.MntUrl(name)), RemoveAll(CI.WriteLayerUrl(name)), RemoveAll(CI.WorkLayerUrl(name))]
  }

  /**
   * Every teardown step is attempted, in order (the volume before the root mount), whatever
   * the kernel refuses.
   */
  lemma TeardownRunsEveryStep(failing: set<Action>, h: HostState, volume: string, name: string)
    ensures DeleteWorkSpaceSpec(failing, h, volume, name).trace == h.trace + TeardownActions(volume, name)
  {
    if ValidVolume(volume) {
      assert volume != "";
    }
  }

  /** The directories of the container that a teardown whose removals succeed wipes out. */
  function ContainerDirs(volume: string, name: string): seq<string>
  {
    [Clean(CI.MntUrl(name)), Clean(CI.WriteLayerUrl(name)), Clean(CI.WorkLayerUrl(name))]
      + (if ValidVolume(volume) then [Clean(VolumeWorkDir(VolumeUrlExtract(volume)[0]))] else [])
  }

  /** When no removal is refused, nothing under the container's directories remains. */
  lemma TeardownLeavesNoResidue(failing: set<Action>, h: HostState, volume: string, name: string)
    requires forall p :: RemoveAll(p) !in failing
    ensures var h1 := DeleteWorkSpaceSpec(failing, h, volume, name);
            forall d, i :: d in h1.dirs && 0 <= i < |ContainerDirs(volume, name)| ==> !Within(d, ContainerDirs(volume, name)[i])
  {
    var mnt := CI.MntUrl(name);
    var g1 :=
      if volume != "" && ValidVolume(volume) then DeleteMountPointWithVolumeSpec(failing, h, VolumeUrlExtract(volume), name)
      else DeleteMountPointSpec(failing, h, name);
    if volume != "" && ValidVolume(volume) {
      var parts := VolumeUrlExtract(volume);
      var a1 := Step(failing, h, Umount(VolumeTarget(name, parts[1])));
      var a2 := Step(failing, a1, Umount(mnt));
      var a3 := Step(failing, a2, RemoveAll(mnt));
      ApplyFrame(failing, a2, RemoveAll(mnt));
      ApplyFrame(failing, a3, RemoveAll(VolumeWorkDir(parts[0])));
      assert forall d :: d in g1.dirs ==> !Within(d, Clean(mnt)) && !Within(d, Clean(VolumeWorkDir(parts[0])));
    } else {
      var a1 := Step(failing, h, Umount(mnt));
      ApplyFrame(failing, a1, RemoveAll(mnt));
      assert forall d :: d in g1.dirs ==> !Within(d, Clean(mnt));
    }
    var b1 := Step(failing, g1, RemoveAll(CI.WriteLayerUrl(name)));
    ApplyFrame(failing, g1, RemoveAll(CI.WriteLayerUrl(name)));
    ApplyFrame(failing, b1, RemoveAll(CI.WorkLayerUrl(name)));
  }

  /** `/root/<x>` does not lie under `/root/<d>/<y>` when `x` is a single name. */
  lemma ShallowNotWithinDeep(x: string, d: string, y: string)
    requires IsName(x) && y != ""
    ensures !Within("/root/" + x, "/root/" + d + "/" + y)
  {
    var q := "/root/" + x;
    var p := "/root/" + d + "/" + y;
    assert p[6 + |d|] == '/';
    assert forall k :: 6 <= k < |q| ==> q[k] == x[k - 6];
    assert forall k :: 6 <= k < |q| ==> q[k] != '/';
  }

  /** `/root/` followed by names, as `path.Clean` leaves it. */
  lemma CleanRootNames(d: string, y: string)
    requires IsName(d) && IsName(y)
    ensures Clean("/root/" + y) == "/root/" + y
    ensures Clean("/root/" + d + "/" + y) == "/root/" + d + "/" + y
  {
    assert IsName("root");
    CleanOfNames(["root", y]);
    assert Join(["root", y], "/") == "root" + "/" + y;
    assert "/" + ("root" + "/" + y) == "/root/" + y;
    CleanOfNames(["root", d, y]);
    assert Join(["root", d, y], "/") == "root" + "/" + (d + "/" + y) by {
      assert ["root", d, y][1..] == [d, y];
      assert Join([d, y], "/") == d + "/" + y;
    }
    assert "/" + ("root" + "/" + (d + "/" + y)) == "/root/" + d + "/" + y;
  }

  /**
   * A directory lying, by path, outside every directory the teardown removes survives it,
   * whatever the kernel refuses. `RemoveAll` removes by path here: a removal that reaches
   * through a mount still in place into another directory is not part of the host model.
   */
  lemma TeardownKeepsOutside(failing: set<Action>, h: HostState, volume: string, name: string, d: string)
    requires d in h.dirs
    requires forall i :: 0 <= i < |ContainerDirs(volume, name)| ==> !Within(d, ContainerDirs(volume, name)[i])
    ensures d in DeleteWorkSpaceSpec(failing, h, volume, name).dirs
  {
    var mnt := CI.MntUrl(name);
    var cds := ContainerDirs(volume, name);
    assert cds[0] == Clean(mnt) && cds[1] == Clean(CI.WriteLayerUrl(name)) && cds[2] == Clean(CI.WorkLayerUrl(name));
    assert !Within(d, cds[0]) && !Within(d, cds[1]) && !Within(d, cds[2]);
    var g1 :=
      if volume != "" && ValidVolume(volume) then DeleteMountPointWithVolumeSpec(failing, h, VolumeUrlExtract(volume), name)
      else DeleteMountPointSpec(failing, h, name);
    if volume != "" && ValidVolume(volume) {
      var parts := VolumeUrlExtract(volume);
      assert !Within(d, Clean(VolumeWorkDir(parts[0]))) by {
        assert ContainerDirs(volume, name)[3] == Clean(VolumeWorkDir(parts[0]));
      }
      var a1 := Step(failing, h, Umount(VolumeTarget(name, parts[1])));
      var a2 := Step(failing, a1, Umount(mnt));
      var a3 := Step(failing, a2, RemoveAll(mnt));
      ApplyFrame(failing, h, Umount(VolumeTarget(name, parts[1])));
      ApplyFrame(failing, a1, Umount(mnt));
      ApplyFrame(failing, a2, RemoveAll(mnt));
      ApplyFrame(failing, a3, RemoveAll(VolumeWorkDir(parts[0])));
    } else {
      var a1 := Step(failing, h, Umount(mnt));
      ApplyFrame(failing, h, Umount(mnt));
      ApplyFrame(failing, a1, RemoveAll(mnt));
    }
    var b1 := Step(failing, g1, RemoveAll(CI.WriteLayerUrl(name)));
    ApplyFrame(failing, g1, RemoveAll(CI.WriteLayerUrl(name)));
    ApplyFrame(failing, b1, RemoveAll(CI.WorkLayerUrl(name)));
  }

  /** The image directory of a plain image name is `/root/<image>`, already clean. */
  lemma ImageDirIsClean(image: string)
    requires IsName(image)
    ensures ImageDir(image) == "/root/" + image && Clean(ImageDir(image)) == ImageDir(image)
  {
    CleanDoubleSlash("/root", image);
    assert Join([CI.RootUrl, image], "/") == "/root" + "//" + image by {
      assert [CI.RootUrl, image][1..] == [image];
    }
    assert "/root" + "/" + image == "/root/" + image;
    CleanRootNames("mnt", image);
  }

  /** `/root/<image>` lies outside `/root/<d>/<name>` for plain names. */
  lemma ImageOutside(image: string, d: string, name: string)
    requires IsName(image) && IsName(d) && IsName(name)
    ensures !Within("/root/" + image, Clean("/root/" + d + "/" + name))
  {
    CleanRootNames(d, name);
    ShallowNotWithinDeep(image, d, name);
  }

  /** The image directory lies outside the container's mount, write layer and work directory. */
  lemma ImageOutsideContainer(image: string, name: string)
    requires IsName(image) && IsName(name)
    ensures var img := "/root/" + image;
            && !Within(img, Clean(CI.MntUrl(name)))
            && !Within(img, Clean(CI.WriteLayerUrl(name)))
            && !Within(img, Clean(CI.WorkLayerUrl(name)))
  {
    assert IsName("mnt") && IsName("writeLayer") && IsName(".tmpWork");
    assert CI.MntUrl(name) == "/root/" + "mnt" + "/" + name;
    assert CI.WriteLayerUrl(name) == "/root/" + "writeLayer" + "/" + name;
    assert CI.WorkLayerUrl(name) == "/root/" + ".tmpWork" + "/" + name;
    ImageOutside(image, "mnt", name);
    ImageOutside(image, "writeLayer", name);
    ImageOutside(image, ".tmpWork", name);
  }

  /**
   * Teardown never removes the image: when the image and the container are plain names
   * and the volume's scratch directory does not contain the image directory, an image
   * directory that existed still exists afterwards, whatever the kernel refuses.
   */
  lemma TeardownKeepsImage(failing: set<Action>, h: HostState, volume: string, name: string, image: string)
    requires IsName(image) && IsName(name)
    requires ValidVolume(volume) ==> !Within(Clean(ImageDir(image)), Clean(VolumeWorkDir(VolumeUrlExtract(volume)[0])))
    requires Clean(ImageDir(image)) in h.dirs
    ensures Clean(ImageDir(image)) in DeleteWorkSpaceSpec(failing, h, volume, name).dirs
  {
    ImageDirIsClean(image);
    ImageOutsideContainer(image, name);
    TeardownKeepsOutside(failing, h, volume, name, Clean(ImageDir(image)));
  }

  // ---------------------------------------------------------------------------
  // Build, then teardown
  // ---------------------------------------------------------------------------

  /** Unmounting the target of the most recent mount takes exactly that mount off. */
  lemma UmountLast(failing: set<Action>, h: HostState, rest: seq<MountEntry>, e: MountEntry, t: string)
    requires Umount(t) !in failing
    requires h.mounts == rest + [e] && e.target == Clean(t)
    ensures Step(failing, h, Umount(t)).mounts == rest
  {
    assert LastMountAt(h.mounts, Clean(t)) == Some(|rest|);
    assert h.mounts[..|rest|] == rest;
  }

  /** The mounts a build adds: the root overlay, then the volume overlay if the volume is valid. */
  lemma BuildMounts(failing: set<Action>, h: HostState, image: string, name: string, volume: string)
    requires forall a :: a in failing ==> !TouchesMounts(a)
    ensures NewWorkSpaceSpec(failing, h, image, name, volume).mounts ==
      h.mounts + [MountEntry(RootOptions(image, name), Clean(CI.MntUrl(name)))]
      + (if ValidVolume(volume)
         then [MountEntry(VolumeOptions(VolumeUrlExtract(volume)[0]), Clean(VolumeTarget(name, VolumeUrlExtract(volume)[1])))]
         else [])
  {
    var h1 := ReadOnlyLayerSpec(failing, h, image);
    if !PathExistsIn(h, ImageDir(image)) {
      ApplyFrame(failing, h, MkdirAll(ImageDir(image)));
      ApplyFrame(failing, Step(failing, h, MkdirAll(ImageDir(image))), Untar(ImageArchive(image), ImageDir(image)));
    }
    assert h1.mounts == h.mounts;
    var h2 := WriteLayerSpec(failing, h1, name);
    ApplyFrame(failing, h1, MkdirAll(CI.WriteLayerUrl(name)));
    var m1 := Step(failing, h2, MkdirAll(CI.MntUrl(name)));
    ApplyFrame(failing, h2, MkdirAll(CI.MntUrl(name)));
    ApplyFrame(failing, m1, MkdirAll(CI.WorkLayerUrl(name)));
    var h3 := MountPointSpec(failing, h2, name, image);
    assert h3.mounts == h.mounts + [MountEntry(RootOptions(image, name), Clean(CI.MntUrl(name)))];
    if ValidVolume(volume) {
      assert volume != "";
      var parts := VolumeUrlExtract(volume);
      var hostUrl := parts[0];
      var target := VolumeTarget(name, parts[1]);
      var v1 := Step(failing, h3, MkdirAll(hostUrl));
      var v2 := Step(failing, v1, MkdirAll(target));
      var v3 := Step(failing, v2, MkdirAll(VolumeLower(hostUrl)));
      var (removed, v4) := Apply(failing, v3, RemoveAll(VolumeWork(hostUrl)));
      ApplyFrame(failing, h3, MkdirAll(hostUrl));
      ApplyFrame(failing, v1, MkdirAll(target));
      ApplyFrame(failing, v2, MkdirAll(VolumeLower(hostUrl)));
      ApplyFrame(failing, v3, RemoveAll(VolumeWork(hostUrl)));
      ApplyFrame(failing, v4, MkdirAll(VolumeWork(hostUrl)));
    }
  }

  /**
   * When the kernel refuses no mount or unmount, tearing down what was built leaves the
   * mount table as it was before: the volume comes off first, then the root overlay.
   */
  lemma BuildTeardownRestoresMounts(failing: set<Action>, h: HostState, image: string, name: string, volume: string)
    requires forall a :: a in failing ==> !TouchesMounts(a)
    ensures var built := NewWorkSpaceSpec(failing, h, image, name, volume);
            DeleteWorkSpaceSpec(failing, built, volume, name).mounts == h.mounts
  {
    var built := NewWorkSpaceSpec(failing, h, image, name, volume);
    BuildMounts(failing, h, image, name, volume);
    var mnt := CI.MntUrl(name);
    var root := MountEntry(RootOptions(image, name), Clean(mnt));
    var g1 :=
      if volume != "" && ValidVolume(volume) then DeleteMountPointWithVolumeSpec(failing, built, VolumeUrlExtract(volume), name)
      else DeleteMountPointSpec(failing, built, name);
    if ValidVolume(volume) {
      assert volume != "";
      var parts := VolumeUrlExtract(volume);
      var target := VolumeTarget(name, parts[1]);
      var ve := MountEntry(VolumeOptions(parts[0]), Clean(target));
      assert built.mounts == (h.mounts + [root]) + [ve];
      UmountLast(failing, built, h.mounts + [root], ve, target);
      var a1 := Step(failing, built, Umount(target));
      UmountLast(failing, a1, h.mounts, root, mnt);
      var a2 := Step(failing, a1, Umount(mnt));
      var a3 := Step(failing, a2, RemoveAll(mnt));
      ApplyFrame(failing, a2, RemoveAll(mnt));
      ApplyFrame(failing, a3, RemoveAll(VolumeWorkDir(parts[0])));
    } else {
      assert built.mounts == h.mounts + [root];
      UmountLast(failing, built, h.mounts, root, mnt);
      ApplyFrame(failing, Step(failing, built, Umount(mnt)), RemoveAll(mnt));
    }
    var b1 := Step(failing, g1, RemoveAll(CI.WriteLayerUrl(name)));
    ApplyFrame(failing, g1, RemoveAll(CI.WriteLayerUrl(name)));
    ApplyFrame(failing, b1, RemoveAll(CI.WorkLayerUrl(name)));
  }
}
