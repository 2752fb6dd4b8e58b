/**
 * `docker run` (dockerCommand/run.go): the order in which it starts the container, records
 * it, puts it under cgroups, connects it to a network, sends it its command and, for an
 * interactive run, waits for it and tears it down.
 *
 * Each step is an `Event` in the run's result; what each step reports (the process was
 * created, started, recorded, the network was set up and connected) is an `Outcomes`
 * value. The deferred removal of the cgroups and the final `os.Exit(0)` are events too, so
 * the result shows which of them happen.
 */
module Run {
  import opened Wrappers
  import opened Text
  import opened Subsystem
  import CI = ContainerInfo
  import Init

  const CgroupPath := "simple-docker"

  datatype Event =
    | NewProcess(tty: bool, volume: string, name: string)
    | StartProcess
    /** A nil pointer is dereferenced: the program stops with no deferred call run. */
    | Panic
    | RecordInfo(pid: int, cmd: seq<string>, name: string, id: string, volume: string)
    | CgroupSet(path: string, res: ResourceConfig)
    | CgroupAddProcess(path: string, pid: int)
    | NetworkInit
    | NetworkConnect(network: string, id: string, name: string)
    | WriteCommand(msg: string)
    | ClosePipe
    | WaitProcess
    | DeleteInfo(name: string)
    | DeleteWorkSpace(volume: string, name: string)
    /** The deferred `cm.Remove()`. */
    | CgroupRemove(path: string)
    | Exit(code: int)

  /** What each step reports. */
  datatype Outcomes = Outcomes(processOk: bool, startOk: bool, pid: int, recordOk: bool, initOk: bool, connectOk: bool)

  /** `sendInitCommand`'s message: the words joined with single spaces. */
  function EncodeCommand(cmd: seq<string>): string
  {
    Join(cmd, " ")
  }

  /**
   * The init process reads back exactly the command sent, whenever the command has at
   * least one word and no word holds a space.
   */
  lemma CommandRoundTrip(cmd: seq<string>)
    requires |cmd| >= 1
    requires forall i :: 0 <= i < |cmd| ==> ' ' !in cmd[i]
    ensures Init.ReadCommand(Some(EncodeCommand(cmd))) == Some(cmd)
  {
    SplitJoin(cmd, ' ');
  }

  /** A word holding a space does not survive: the command read back has more words. */
  lemma SpaceInWordSplits()
    ensures Init.ReadCommand(Some(EncodeCommand(["a b"]))) == Some(["a", "b"])
  {
    var msg := EncodeCommand(["a b"]);
    assert msg == "a" + [' '] + "b";
    assert ' ' !in "a" && ' ' !in "b";
    SplitAfterPrefix("a", ' ', "b");
    SplitWithoutSeparator("b", ' ');
    assert Split(msg, ' ') == ["a"] + ["b"];
    assert ["a"] + ["b"] == ["a", "b"];
  }

  /** The container id drawn by `randStringBytes(10)` from the given draws. */
  function DrawnId(draws: seq<nat>): (id: string)
    requires CI.ValidDraws(draws)
    ensures |id| == |draws|
    ensures forall i :: 0 <= i < |draws| ==> id[i] == CI.Letters[draws[i]]
  {
    seq(|draws|, i requires 0 <= i < |draws| => CI.Letters[draws[i]])
  }

  /** `DrawnId` is the only string with those letters at those positions. */
  lemma DrawnIdUnique(s: string, draws: seq<nat>)
    requires CI.ValidDraws(draws) && |s| == |draws|
    requires forall i :: 0 <= i < |draws| ==> s[i] == CI.Letters[draws[i]]
    ensures s == DrawnId(draws)
  {
  }

  /** The name the container runs under: the given one, or the id when none is given. */
  function ContainerName(name: string, id: string): string
  {
    if name == "" then id else name
  }

  /** The command sent, then for tty the wait and the teardown, then `os.Exit(0)`. */
  function CommandAndTeardown(tty: bool, cmd: seq<string>, volume: string, name: string): seq<Event>
  {
    if tty then [WriteCommand(EncodeCommand(cmd)), ClosePipe, WaitProcess, DeleteInfo(name), DeleteWorkSpace(volume, name), Exit(0)]
    else [WriteCommand(EncodeCommand(cmd)), ClosePipe, Exit(0)]
  }

  /** The steps after the cgroups are in place: network, command, and for tty the teardown. */
  function AfterCgroups(tty: bool, cmd: seq<string>, volume: string, name: string, id: string, nw: string, o: Outcomes): seq<Event>
  {
    if nw == "" then CommandAndTeardown(tty, cmd, volume, name)
    else if !o.initOk then [NetworkInit, CgroupRemove(CgroupPath)]
    else if !o.connectOk then [NetworkInit, NetworkConnect(nw, id, name), CgroupRemove(CgroupPath)]
    else [NetworkInit, NetworkConnect(nw, id, name)] + CommandAndTeardown(tty, cmd, volume, name)
  }

  /** The first three steps: the parent process is created, started and recorded. */
  function Recorded(tty: bool, cmd: seq<string>, volume: string, name: string, id: string, o: Outcomes): seq<Event>
  {
    [NewProcess(tty, volume, name), StartProcess, RecordInfo(o.pid, cmd, name, id, volume)]
  }

  /** `Run`: the events, in order, for the given arguments, id and outcomes. */
  function RunSpec(tty: bool, cmd: seq<string>, res: ResourceConfig, volume: string, name: string, id: string,
                   nw: string, o: Outcomes): seq<Event>
  {
    var name := ContainerName(name, id);
    if !o.processOk then [NewProcess(tty, volume, name), Panic]
    else if !o.startOk then [NewProcess(tty, volume, name), StartProcess, Panic]
    else if !o.recordOk then Recorded(tty, cmd, volume, name, id, o)
    else
      Recorded(tty, cmd, volume, name, id, o) + [CgroupSet(CgroupPath, res), CgroupAddProcess(CgroupPath, o.pid)] +
      AfterCgroups(tty, cmd, volume, name, id, nw, o)
  }

  /**
   * `Run`, with the events it causes as its result. Every return after `defer cm.Remove()`
   * runs the deferred removal; a panic before it and `os.Exit` do not.
   */
  method Run(tty: bool, cmd: seq<string>, res: ResourceConfig, volume: string, containerName: string,
             draws: seq<nat>, nw: string, o: Outcomes) returns (events: seq<Event>)
    requires |draws| == 10 && CI.ValidDraws(draws)
    ensures events == RunSpec(tty, cmd, res, volume, containerName, DrawnId(draws), nw, o)
  {
    var containerId := CI.RandStringBytes(10, draws);
    DrawnIdUnique(containerId, draws);
    var name := containerName;
    if name == "" {
      name := containerId;
    }
    if !o.processOk {
      // Start is called on a nil command
      return [NewProcess(tty, volume, name), Panic];
    }
    if !o.startOk {
      // the failure is only logged, but the pid to record is read from a nil process
      return [NewProcess(tty, volume, name), StartProcess, Panic];
    }
    events := [NewProcess(tty, volume, name), StartProcess, RecordInfo(o.pid, cmd, name, containerId, volume)];
    if !o.recordOk {
      return;
    }
    events := RunInCgroups(events, tty, cmd, res, volume, name, containerId, nw, o);
  }

  /**
   * The rest of `Run` once the container is recorded: from `defer cm.Remove()` and the
   * cgroup setup on.
   */
  method RunInCgroups(before: seq<Event>, tty: bool, cmd: seq<string>, res: ResourceConfig, volume: string,
                      name: string, containerId: string, nw: string, o: Outcomes) returns (events: seq<Event>)
    ensures events == before + [CgroupSet(CgroupPath, res), CgroupAddProcess(CgroupPath, o.pid)] +
                      AfterCgroups(tty, cmd, volume, name, containerId, nw, o)
  {
    var deferred := [CgroupRemove(CgroupPath)];
    var inCgroups := before + [CgroupSet(CgroupPath, res), CgroupAddProcess(CgroupPath, o.pid)];
    events := inCgroups;
    if nw != "" {
      events := events + [NetworkInit];
      if !o.initOk {
        assert events + deferred == inCgroups + [NetworkInit, CgroupRemove(CgroupPath)];
        return events + deferred;
      }
      events := events + [NetworkConnect(nw, containerId, name)];
      if !o.connectOk {
        assert events + deferred == inCgroups + [NetworkInit, NetworkConnect(nw, containerId, name), CgroupRemove(CgroupPath)];
        return events + deferred;
      }
      assert events == inCgroups + [NetworkInit, NetworkConnect(nw, containerId, name)];
    }
    events := SendAndWait(events, tty, cmd, volume, name);
    assert events == inCgroups + AfterCgroups(tty, cmd, volume, name, containerId, nw, o);
  }

  /**
   * The end of `Run` once the network is in place: the command is sent and, for tty, the
   * process waited for and its record and workspace deleted; `os.Exit` ends the program
   * without running the deferred removal.
   */
  method SendAndWait(before: seq<Event>, tty: bool, cmd: seq<string>, volume: string, name: string) returns (events: seq<Event>)
    ensures events == before + CommandAndTeardown(tty, cmd, volume, name)
  {
    events := SendInitCommand(before, cmd);
    if tty {
      events := events + [WaitProcess];
      events := events + [DeleteInfo(name)];
      events := events + [DeleteWorkSpace(volume, name)];
    }
    events := events + [Exit(0)];
  }

  /** `sendInitCommand`: the encoded command written once, then the pipe closed. */
  method SendInitCommand(before: seq<Event>, cmd: seq<string>) returns (events: seq<Event>)
    ensures events == before + [WriteCommand(EncodeCommand(cmd)), ClosePipe]
  {
    var cmdString := Join(cmd, " ");
    events := before + [WriteCommand(cmdString)];
    events := events + [ClosePipe];
  }

  // ---------------------------------------------------------------------------
  // Properties
  // ---------------------------------------------------------------------------

  /** The container is recorded, and runs, under the given name or else the id. */
  lemma NameDefaultsToId(tty: bool, cmd: seq<string>, res: ResourceConfig, volume: string, name: string, id: string,
                         nw: string, o: Outcomes)
    ensures var es := RunSpec(tty, cmd, res, volume, name, id, nw, o);
      es[0] == NewProcess(tty, volume, if name == "" then id else name) &&
      forall i :: 0 <= i < |es| && es[i].RecordInfo? ==> es[i].name == (if name == "" then id else name) && es[i].id == id
  {
  }

  /** A failed record ends the run at once: no cgroup, no network, no command, no deferred removal. */
  lemma RecordFailureStops(tty: bool, cmd: seq<string>, res: ResourceConfig, volume: string, name: string, id: string,
                           nw: string, o: Outcomes)
    requires !o.recordOk
    ensures var es := RunSpec(tty, cmd, res, volume, name, id, nw, o);
      forall i :: 0 <= i < |es| ==>
        !es[i].CgroupSet? && !es[i].CgroupAddProcess? && !es[i].NetworkInit? && !es[i].WriteCommand? &&
        !es[i].CgroupRemove? && !es[i].Exit?
  {
  }

  /**
   * The command is sent only after the cgroups are set and the process added to them, and
   * then exactly once, followed at once by closing the pipe.
   */
  lemma CgroupsBeforeCommand(tty: bool, cmd: seq<string>, res: ResourceConfig, volume: string, name: string, id: string,
                             nw: string, o: Outcomes, j: int)
    requires var es := RunSpec(tty, cmd, res, volume, name, id, nw, o);
      0 <= j < |es| && es[j].WriteCommand?
    ensures var es := RunSpec(tty, cmd, res, volume, name, id, nw, o);
      es[j] == WriteCommand(EncodeCommand(cmd)) && j + 1 < |es| && es[j + 1] == ClosePipe &&
      (exists i, k :: 0 <= i < k < j && es[i] == CgroupSet(CgroupPath, res) && es[k] == CgroupAddProcess(CgroupPath, o.pid)) &&
      forall m :: 0 <= m < |es| && m != j ==> !es[m].WriteCommand?
  {
    var es := RunSpec(tty, cmd, res, volume, name, id, nw, o);
    CommandSentIff(tty, cmd, res, volume, name, id, nw, o);
    var cname := ContainerName(name, id);
    var pre := Recorded(tty, cmd, volume, cname, id, o) + [CgroupSet(CgroupPath, res), CgroupAddProcess(CgroupPath, o.pid)];
    var net: seq<Event> := if nw != "" then [NetworkInit, NetworkConnect(nw, id, cname)] else [];
    var tail := CommandAndTeardown(tty, cmd, volume, cname);
    SentShape(tty, cmd, res, volume, name, id, nw, o);
    forall m | 0 <= m < |es| && es[m].WriteCommand?
      ensures m == 5 + |net|
    {
      assert |pre| == 5 && es == pre + net + tail;
    }
    assert es[3] == CgroupSet(CgroupPath, res) && es[4] == CgroupAddProcess(CgroupPath, o.pid);
  }

  /** When the command is sent, the run is the five steps up to the cgroups, the network, and the rest. */
  lemma SentShape(tty: bool, cmd: seq<string>, res: ResourceConfig, volume: string, name: string, id: string,
                  nw: string, o: Outcomes)
    requires o.processOk && o.startOk && o.recordOk && (nw != "" ==> o.initOk && o.connectOk)
    ensures var cname := ContainerName(name, id);
      RunSpec(tty, cmd, res, volume, name, id, nw, o) ==
        Recorded(tty, cmd, volume, cname, id, o) + [CgroupSet(CgroupPath, res), CgroupAddProcess(CgroupPath, o.pid)] +
        (if nw != "" then [NetworkInit, NetworkConnect(nw, id, cname)] else []) + CommandAndTeardown(tty, cmd, volume, cname)
  {
    if nw == "" {
      var pre := Recorded(tty, cmd, volume, ContainerName(name, id), id, o) + [CgroupSet(CgroupPath, res), CgroupAddProcess(CgroupPath, o.pid)];
      assert pre + [] == pre;
    }
  }

  /**
   * The command is sent exactly when the process was created, started and recorded and,
   * when a network is asked for, it was set up and connected.
   */
  lemma CommandSentIff(tty: bool, cmd: seq<string>, res: ResourceConfig, volume: string, name: string, id: string,
                       nw: string, o: Outcomes)
    ensures var es := RunSpec(tty, cmd, res, volume, name, id, nw, o);
      (exists j :: 0 <= j < |es| && es[j].WriteCommand?) <==>
        o.processOk && o.startOk && o.recordOk && (nw != "" ==> o.initOk && o.connectOk)
  {
    var es := RunSpec(tty, cmd, res, volume, name, id, nw, o);
    if o.processOk && o.startOk && o.recordOk && (nw != "" ==> o.initOk && o.connectOk) {
      var j := if nw != "" then 7 else 5;
      assert es[j].WriteCommand?;
    }
  }

  /**
   * Because `os.Exit` skips deferred calls, the cgroups are removed only on the two
   * network-failure returns, and never on the normal path.
   */
  lemma DeferredRemoveOnlyOnNetworkFailure(tty: bool, cmd: seq<string>, res: ResourceConfig, volume: string, name: string,
                                           id: string, nw: string, o: Outcomes)
    ensures var es := RunSpec(tty, cmd, res, volume, name, id, nw, o);
      (exists i :: 0 <= i < |es| && es[i].CgroupRemove?) <==>
        o.processOk && o.startOk && o.recordOk && nw != "" && !(o.initOk && o.connectOk)
    ensures var es := RunSpec(tty, cmd, res, volume, name, id, nw, o);
      (exists i :: 0 <= i < |es| && es[i].Exit?) ==> forall i :: 0 <= i < |es| ==> !es[i].CgroupRemove?
  {
    var es := RunSpec(tty, cmd, res, volume, name, id, nw, o);
    if o.processOk && o.startOk && o.recordOk && nw != "" && !(o.initOk && o.connectOk) {
      assert es[|es| - 1].CgroupRemove?;
    }
  }

  /** The teardown inside the steps after the cgroups: only for tty, wait first, record before workspace. */
  lemma TeardownAfterCgroups(tty: bool, cmd: seq<string>, volume: string, name: string, id: string, nw: string, o: Outcomes)
    ensures var es := AfterCgroups(tty, cmd, volume, name, id, nw, o);
      forall i :: 0 <= i < |es| && (es[i].DeleteInfo? || es[i].DeleteWorkSpace? || es[i].WaitProcess?) ==> tty
    ensures var es := AfterCgroups(tty, cmd, volume, name, id, nw, o);
      forall i :: 0 <= i < |es| && es[i].DeleteInfo? ==>
        1 <= i < |es| - 2 && es[i - 1] == WaitProcess && es[i + 1] == DeleteWorkSpace(volume, name) && es[i].name == name
  {
    var es := AfterCgroups(tty, cmd, volume, name, id, nw, o);
    if !(nw != "" && !o.initOk) && !(nw != "" && !o.connectOk) {
      var net: seq<Event> := if nw != "" then [NetworkInit, NetworkConnect(nw, id, name)] else [];
      var send := [WriteCommand(EncodeCommand(cmd)), ClosePipe];
      if tty {
        var down := [WaitProcess, DeleteInfo(name), DeleteWorkSpace(volume, name)];
        assert es == net + send + down + [Exit(0)];
        assert |es| == |net| + 6;
        forall i | 0 <= i < |es| && es[i].DeleteInfo?
          ensures i == |net| + 3
        {
        }
      } else {
        assert es == net + send + [] + [Exit(0)];
      }
    }
  }

  /**
   * The record and the workspace are deleted only in an interactive run, after waiting
   * for the process, the record first; a detached run leaves both in place.
   */
  lemma TeardownOnlyForTty(tty: bool, cmd: seq<string>, res: ResourceConfig, volume: string, name: string, id: string,
                           nw: string, o: Outcomes)
    ensures var es := RunSpec(tty, cmd, res, volume, name, id, nw, o);
      forall i :: 0 <= i < |es| && (es[i].DeleteInfo? || es[i].DeleteWorkSpace? || es[i].WaitProcess?) ==> tty
    ensures var es := RunSpec(tty, cmd, res, volume, name, id, nw, o);
      forall i :: 0 <= i < |es| && es[i].DeleteInfo? ==>
        2 <= i < |es| - 2 && es[i - 1] == WaitProcess && es[i + 1] == DeleteWorkSpace(volume, es[i].name) &&
        es[i].name == ContainerName(name, id)
  {
    var es := RunSpec(tty, cmd, res, volume, name, id, nw, o);
    var cname := ContainerName(name, id);
    if o.processOk && o.startOk && o.recordOk {
      var pre := [NewProcess(tty, volume, cname), StartProcess, RecordInfo(o.pid, cmd, cname, id, volume),
                  CgroupSet(CgroupPath, res), CgroupAddProcess(CgroupPath, o.pid)];
      var after := AfterCgroups(tty, cmd, volume, cname, id, nw, o);
      assert es == pre + after;
      TeardownAfterCgroups(tty, cmd, volume, cname, id, nw, o);
      forall i | 5 <= i < |es|
        ensures es[i] == after[i - 5]
      {
      }
    }
  }
}
