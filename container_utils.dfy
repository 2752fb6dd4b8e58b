/**
 * The helpers of container/utils.go: whether a path is a mount point, read from the
 * lines of `/proc/self/mountinfo` (proc(5)), and whether the process has a mount
 * namespace of its own. File contents and link targets are parameters (`None` when they
 * cannot be read).
 */
module ContainerUtils {
  import opened Wrappers
  import opened Text
  import opened Paths

  /**
   * The octal escapes the kernel writes into a mountinfo path, undone in the order space,
   * tab, newline and, last, backslash.
   */
  function DecodeMountPoint(s: string): string
  {
    var s1 := ReplaceAll(s, "\\040", " ");
    var s2 := ReplaceAll(s1, "\\011", "\t");
    var s3 := ReplaceAll(s2, "\\012", "\n");
    ReplaceAll(s3, "\\134", "\\")
  }

  /** A mount point written without escapes is read back as it is. */
  lemma DecodeWithoutEscapes(s: string)
    requires '\\' !in s
    ensures DecodeMountPoint(s) == s
  {
    ReplaceAllAbsent(s, "\\040", " ");
    ReplaceAllAbsent(s, "\\011", "\t");
    ReplaceAllAbsent(s, "\\012", "\n");
    ReplaceAllAbsent(s, "\\134", "\\");
  }

  /** An escaped space is a space. */
  lemma DecodeSpace()
    ensures DecodeMountPoint("/a\\040b") == "/a b"
  {
    assert ReplaceAll("/a\\040b", "\\040", " ") == "/a b";
    ReplaceAllAbsent("/a b", "\\011", "\t");
    ReplaceAllAbsent("/a b", "\\012", "\n");
    ReplaceAllAbsent("/a b", "\\134", "\\");
  }

  /**
   * Because the backslash is undone last, an escaped backslash followed by the digits
   * 040 stays a backslash and the digits; it is not turned into a space.
   */
  lemma DecodeBackslashLast()
    ensures DecodeMountPoint("\\134040") == "\\040"
  {
    var s := "\\134040";
    assert s[1..] == "134040" && s[..4] == "\\134";
    ReplaceAllAbsent(s[1..], "\\040", " ");
    ReplaceAllAbsent(s[1..], "\\011", "\t");
    ReplaceAllAbsent(s[1..], "\\012", "\n");
    assert ReplaceAll(s, "\\040", " ") == s;
    assert ReplaceAll(s, "\\011", "\t") == s;
    assert ReplaceAll(s, "\\012", "\n") == s;
    assert s[4..] == "040";
    ReplaceAllAbsent(s[4..], "\\134", "\\");
    assert ReplaceAll(s, "\\134", "\\") == "\\040";
  }

  /** A mountinfo line lists `target` as its mount point: its fifth field, decoded. */
  predicate ListsMountPoint(line: string, target: string)
  {
    var fields := Fields(line);
    |fields| >= 5 && DecodeMountPoint(fields[4]) == target
  }

  /** Some line of the table lists `target`, read from the first line on. */
  predicate ListedIn(lines: seq<string>, target: string)
    decreases |lines|
  {
    |lines| > 0 && (ListsMountPoint(lines[0], target) || ListedIn(lines[1..], target))
  }

  /** Listed somewhere means listed on some line. */
  lemma {:induction false} ListedInSomeLine(lines: seq<string>, target: string)
    ensures ListedIn(lines, target) <==> exists i :: 0 <= i < |lines| && ListsMountPoint(lines[i], target)
    decreases |lines|
  {
    if |lines| > 0 {
      ListedInSomeLine(lines[1..], target);
      if ListedIn(lines[1..], target) {
        var i :| 0 <= i < |lines[1..]| && ListsMountPoint(lines[1..][i], target);
        assert ListsMountPoint(lines[i + 1], target);
      }
      if exists i :: 0 <= i < |lines| && ListsMountPoint(lines[i], target) {
        var i :| 0 <= i < |lines| && ListsMountPoint(lines[i], target);
        if i > 0 {
          assert ListsMountPoint(lines[1..][i - 1], target);
        }
      }
    }
  }

  /** `filepath.Abs(p)`: relative paths need the working directory, whose lookup may fail. */
  function AbsPath(cwd: Option<string>, p: string): Option<string>
  {
    if |p| > 0 && p[0] == '/' then Some(Clean(p))
    else if cwd.None? then None
    else Some(Abs(cwd.value, p))
  }

  /**
   * `isMountPoint(path)`: scan the lines for one whose mount point is the cleaned absolute
   * path. It is true exactly when some line lists that path; an error (the path or the
   * file could not be resolved) comes only with false.
   */
  method IsMountPoint(mountinfo: Option<seq<string>>, cwd: Option<string>, path: string) returns (b: bool, err: Option<string>)
    ensures err.Some? <==> AbsPath(cwd, path).None? || mountinfo.None?
    ensures b <==> AbsPath(cwd, path).Some? && mountinfo.Some? && ListedIn(mountinfo.value, Clean(AbsPath(cwd, path).value))
  {
    var abs := AbsPath(cwd, path);
    if abs.None? {
      return false, Some("cannot resolve the absolute path");
    }
    var absPath := Clean(abs.value);
    if mountinfo.None? {
      return false, Some("cannot open /proc/self/mountinfo");
    }
    var lines := mountinfo.value;
    ListedInSomeLine(lines, absPath);
    var i := 0;
    while i < |lines|
      invariant 0 <= i <= |lines|
      invariant forall j :: 0 <= j < i ==> !ListsMountPoint(lines[j], absPath)
      invariant ListedIn(lines, absPath) <==> ListedIn(lines[i..], absPath)
    {
      assert lines[i..][1..] == lines[i + 1..];
      var fields := Fields(lines[i]);
      if |fields| >= 5 {
        var mountPoint := fields[4];
        mountPoint := ReplaceAll(mountPoint, "\\040", " ");
        mountPoint := ReplaceAll(mountPoint, "\\011", "\t");
        mountPoint := ReplaceAll(mountPoint, "\\012", "\n");
        mountPoint := ReplaceAll(mountPoint, "\\134", "\\");
        if mountPoint == absPath {
          return true, None;
        }
      }
      i := i + 1;
    }
    return false, None;
  }

  /** For a field free of escapes, a line lists exactly the path its fifth field spells. */
  lemma ListsPlainMountPoint(line: string, target: string)
    requires |Fields(line)| >= 5 && '\\' !in Fields(line)[4]
    ensures ListsMountPoint(line, target) <==> Fields(line)[4] == target
  {
    DecodeWithoutEscapes(Fields(line)[4]);
  }

  /** A line with fewer than five fields never lists a mount point. */
  lemma ShortLineListsNothing(line: string, target: string)
    requires |Fields(line)| < 5
    ensures !ListsMountPoint(line, target)
  {
  }

  /**
   * `verifyMountNamespace`, with the two links as read: it fails when either link cannot
   * be read, and otherwise exactly when the process shares the mount namespace of pid 1.
   */
  function VerifyMountNamespace(selfNs: Option<string>, parentNs: Option<string>): (err: Option<string>)
    ensures err.None? <==> selfNs.Some? && parentNs.Some? && selfNs.value != parentNs.value
    ensures selfNs.None? || parentNs.None? ==> err.Some?
  {
    if selfNs.None? then Some("cannot read the mount namespace")
    else if parentNs.None? then Some("cannot read the parent's mount namespace")
    else if selfNs.value == parentNs.value then Some("mount namespace not isolated")
    else None
  }
}
