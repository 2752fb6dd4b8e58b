/**
 * `docker stop` (dockerCommand/stop.go): read the container's pid from its record, send
 * it SIGTERM, then load the record again, mark it stopped with a blank pid and write it
 * back over the same `config.json`.
 *
 * The records are a `ContainerInfo.InfoStore`. Sending the signal is not modelled as an
 * effect: the pid it goes to is part of the result, and whether the kernel accepted it is
 * a parameter, since a refusal is only warned about.
 */
module Stop {
  import opened Wrappers
  import opened Text
  import opened ContainerInfo

  /** What stopping reports: the pid SIGTERM went to, if any, and whether a warning was logged. */
  datatype Report = Report(killed: Option<int>, warned: bool)

  /** The record as stopping leaves it: status stopped, pid a single blank. */
  function StoppedInfo(info: Info): (r: Info)
    ensures r.status == Stopped && r.pid == " "
    ensures r.id == info.id && r.name == info.name && r.command == info.command
    ensures r.createdTime == info.createdTime && r.volume == info.volume
  {
    info.(status := Stopped, pid := " ")
  }

  /**
   * `StopContainer(name)` on a store `st`: a lookup that fails, or a pid that is not a
   * number, ends it with nothing sent and nothing changed; otherwise the signal is sent
   * and, whatever the kernel answered, the record found by a second lookup is rewritten.
   */
  function StopSpec(failing: set<StoreOp>, st: Store, name: string, killOk: bool): (Report, Store)
  {
    var found := LookupIn(st, name);
    if found.Err? then (Report(None, false), st)
    else
      var pid := Atoi(found.value.pid);
      if pid.None? then (Report(None, false), st)
      else
        var again := LookupIn(st, name);
        if again.Err? then (Report(pid, !killOk), st)
        else (Report(pid, !killOk), WriteFileSpec(failing, st, InfoDir(name), StoppedInfo(again.value)).1)
  }

  /** `StopContainer`, step by step on the store. */
  method StopContainer(store: InfoStore, name: string, killOk: bool) returns (report: Report)
    modifies store
    ensures (report, store.State()) == StopSpec(store.failing, old(store.State()), name, killOk)
  {
    var found := store.Lookup(name);
    if found.Err? {
      return Report(None, false);
    }
    var pidInt := Atoi(found.value.pid);
    if pidInt.None? {
      return Report(None, false);
    }
    // the kill is sent to pidInt; a refusal is only a warning
    var warned := !killOk;
    var containerInfo := store.Lookup(name);
    if containerInfo.Err? {
      return Report(pidInt, warned);
    }
    var info := containerInfo.value;
    info := info.(status := Stopped);
    info := info.(pid := " ");
    // a failed write is only logged
    var ok := store.WriteFile(InfoDir(name), info);
    return Report(pidInt, warned);
  }

  // ---------------------------------------------------------------------------
  // Properties
  // ---------------------------------------------------------------------------

  /** A container without a readable record is neither signalled nor changed. */
  lemma StopMissingChangesNothing(failing: set<StoreOp>, st: Store, name: string, killOk: bool)
    requires LookupIn(st, name).Err?
    ensures StopSpec(failing, st, name, killOk) == (Report(None, false), st)
  {
  }

  /**
   * The signal is sent exactly when the record is found and its pid parses, and then to
   * that pid.
   */
  lemma KillOnlyNumericPid(failing: set<StoreOp>, st: Store, name: string, killOk: bool)
    ensures var r := StopSpec(failing, st, name, killOk).0;
      r.killed.Some? <==> LookupIn(st, name).Ok? && Atoi(LookupIn(st, name).value.pid).Some?
    ensures var r := StopSpec(failing, st, name, killOk).0;
      r.killed.Some? ==> r.killed == Atoi(LookupIn(st, name).value.pid)
    ensures var r := StopSpec(failing, st, name, killOk).0;
      r.warned ==> r.killed.Some? && !killOk
  {
  }

  /** Whether the kernel accepted the signal has no effect on the records. */
  lemma KillOutcomeIgnored(failing: set<StoreOp>, st: Store, name: string)
    ensures StopSpec(failing, st, name, true).1 == StopSpec(failing, st, name, false).1
  {
  }

  /**
   * After a stop whose write succeeds, the record reads back as stopped with a blank pid
   * and every other field kept, and no other record and no directory changes.
   */
  lemma StopUpdatesRecord(failing: set<StoreOp>, st: Store, name: string, killOk: bool)
    requires LookupIn(st, name).Ok? && Atoi(LookupIn(st, name).value.pid).Some?
    requires OpenConfig(InfoDir(name)) !in failing && WriteConfig(InfoDir(name)) !in failing && InfoDir(name) in st.dirs
    ensures var st1 := StopSpec(failing, st, name, killOk).1;
      var old_ := LookupIn(st, name).value;
      && LookupIn(st1, name).Ok?
      && LookupIn(st1, name).value.status == Stopped
      && LookupIn(st1, name).value.pid == " "
      && LookupIn(st1, name).value == old_.(status := Stopped, pid := " ")
    ensures var st1 := StopSpec(failing, st, name, killOk).1;
      st1.dirs == st.dirs &&
      forall d :: d != InfoDir(name) ==> (d in st1.configs <==> d in st.configs) && (d in st.configs ==> st1.configs[d] == st.configs[d])
  {
  }

  /**
   * Whatever happens, a stop changes at most the container's own `config.json`, and only
   * after finding a record there: it then holds that record, stopped, or, when the write
   * after the truncating open is refused, no record that can be read.
   */
  lemma StopTouchesOnlyItsRecord(failing: set<StoreOp>, st: Store, name: string, killOk: bool)
    ensures var st1 := StopSpec(failing, st, name, killOk).1;
      st1.dirs == st.dirs &&
      (forall d :: d != InfoDir(name) ==> (d in st1.configs <==> d in st.configs) && (d in st.configs ==> st1.configs[d] == st.configs[d])) &&
      (st1 != st ==>
         && LookupIn(st, name).Ok?
         && (|| LookupIn(st1, name) == Ok(StoppedInfo(LookupIn(st, name).value))
             || (WriteConfig(InfoDir(name)) in failing && LookupIn(st1, name).Err?)))
  {
  }

  /**
   * A write refused after `os.WriteFile` has truncated `config.json` loses the record: the
   * container was signalled, but neither `stop` nor `rm` can read its record afterwards. A
   * refused open leaves the record as it was.
   */
  lemma StopFailedWrite(failing: set<StoreOp>, st: Store, name: string, killOk: bool)
    requires LookupIn(st, name).Ok? && Atoi(LookupIn(st, name).value.pid).Some? && InfoDir(name) in st.dirs
    ensures var (r, st1) := StopSpec(failing, st, name, killOk);
      && r.killed == Atoi(LookupIn(st, name).value.pid)
      && (OpenConfig(InfoDir(name)) in failing ==> st1 == st)
      && (OpenConfig(InfoDir(name)) !in failing && WriteConfig(InfoDir(name)) in failing ==> LookupIn(st1, name).Err?)
  {
  }

  /**
   * Stopping a stopped container sends nothing and changes nothing: the blank pid it was
   * left with does not parse as a number.
   */
  lemma StopTwiceIsNoOp(failing: set<StoreOp>, st: Store, name: string, killOk: bool)
    requires LookupIn(st, name).Ok? && LookupIn(st, name).value.pid == " "
    ensures StopSpec(failing, st, name, killOk) == (Report(None, false), st)
  {
    AtoiRejectsBlank();
  }

  /** So the second of two stops in a row, the first of which wrote its record, does nothing. */
  lemma {:induction false} SecondStopDoesNothing(failing: set<StoreOp>, st: Store, name: string, k1: bool, k2: bool)
    requires LookupIn(st, name).Ok? && Atoi(LookupIn(st, name).value.pid).Some?
    requires OpenConfig(InfoDir(name)) !in failing && WriteConfig(InfoDir(name)) !in failing && InfoDir(name) in st.dirs
    ensures var st1 := StopSpec(failing, st, name, k1).1;
      StopSpec(failing, st1, name, k2) == (Report(None, false), st1)
  {
    var st1 := StopSpec(failing, st, name, k1).1;
    StopUpdatesRecord(failing, st, name, k1);
    StopTwiceIsNoOp(failing, st1, name, k2);
  }
}
