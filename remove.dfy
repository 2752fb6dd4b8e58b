/**
 * `docker rm` (dockerCommand/remove.go): a container's record is removed, with its whole
 * info directory, only when the record can be read and says the container is stopped.
 * The records are a `ContainerInfo.InfoStore`; cgroups and filesystem layers are not
 * touched.
 */
module Remove {
  import opened Wrappers
  import opened ContainerInfo
  import Host
  import Text
  import Stop

  /**
   * `RemoveContainer(name)` on a store `st`: an unreadable record or one not stopped is
   * left alone; otherwise the info directory goes (a failure is only logged).
   */
  function RemoveSpec(failing: set<StoreOp>, st: Store, name: string): Store
  {
    var found := LookupIn(st, name);
    if found.Err? then st
    else if found.value.status != Stopped then st
    else RemoveAllSpec(failing, st, InfoDir(name)).1
  }

  /** `RemoveContainer`, step by step on the store. */
  method RemoveContainer(store: InfoStore, name: string)
    modifies store
    ensures store.State() == RemoveSpec(store.failing, old(store.State()), name)
  {
    var containerInfo := store.Lookup(name);
    if containerInfo.Err? {
      return;
    }
    if containerInfo.value.status != Stopped {
      return;
    }
    var infoDir := InfoDir(name);
    var ok := store.RemoveAll(infoDir);
  }

  // ---------------------------------------------------------------------------
  // Properties
  // ---------------------------------------------------------------------------

  /** Without a readable record nothing is removed. */
  lemma RemoveMissingChangesNothing(failing: set<StoreOp>, st: Store, name: string)
    requires LookupIn(st, name).Err?
    ensures RemoveSpec(failing, st, name) == st
  {
  }

  /** A running or exited container (any status but stopped) is refused with no effect. */
  lemma RemoveRequiresStopped(failing: set<StoreOp>, st: Store, name: string)
    requires LookupIn(st, name).Ok? && LookupIn(st, name).value.status != Stopped
    ensures RemoveSpec(failing, st, name) == st
  {
  }

  /**
   * A stopped container whose removal the kernel allows is gone: no record, no info
   * directory and nothing below it (its log included), while everything outside that
   * directory stays.
   */
  lemma RemoveDeletesRecord(failing: set<StoreOp>, st: Store, name: string)
    requires LookupIn(st, name).Ok? && LookupIn(st, name).value.status == Stopped
    requires RemoveInfo(InfoDir(name)) !in failing
    ensures var st1 := RemoveSpec(failing, st, name);
      && LookupIn(st1, name).Err?
      && (forall d :: d in st1.dirs ==> !Host.Within(d, InfoDir(name)))
      && (forall d :: d in st.dirs && !Host.Within(d, InfoDir(name)) ==> d in st1.dirs)
      && (forall d :: d in st.configs && !Host.Within(d, InfoDir(name)) ==> d in st1.configs && st1.configs[d] == st.configs[d])
  {
    DeleteRemovesRecord(failing, st, name);
  }

  /** Whatever happens, a remove deletes nothing outside the container's info directory. */
  lemma RemoveTouchesOnlyItsDirectory(failing: set<StoreOp>, st: Store, name: string)
    ensures var st1 := RemoveSpec(failing, st, name);
      && st1.dirs <= st.dirs
      && (forall d :: d in st.dirs && !Host.Within(d, InfoDir(name)) ==> d in st1.dirs)
      && (forall d :: d in st1.configs ==> d in st.configs && st1.configs[d] == st.configs[d])
      && (forall d :: d in st.configs && !Host.Within(d, InfoDir(name)) ==> d in st1.configs)
  {
  }

  /** Removing twice is removing once: the second finds no record, or refuses as the first did. */
  lemma {:induction false} RemoveIdempotent(failing: set<StoreOp>, st: Store, name: string)
    ensures RemoveSpec(failing, RemoveSpec(failing, st, name), name) == RemoveSpec(failing, st, name)
  {
    var st1 := RemoveSpec(failing, st, name);
    var found := LookupIn(st, name);
    if found.Ok? && found.value.status == Stopped && RemoveInfo(InfoDir(name)) !in failing {
      DeleteRemovesRecord(failing, st, name);
      assert LookupIn(st1, name).Err?;
    }
  }

  /**
   * The lifecycle's last two steps: a running container whose stop writes its record and
   * whose removal is allowed has no record left after `stop` then `rm`.
   */
  lemma {:induction false} StopThenRemove(failing: set<StoreOp>, st: Store, name: string, killOk: bool)
    requires LookupIn(st, name).Ok? && Text.Atoi(LookupIn(st, name).value.pid).Some?
    requires OpenConfig(InfoDir(name)) !in failing && WriteConfig(InfoDir(name)) !in failing && InfoDir(name) in st.dirs
    requires RemoveInfo(InfoDir(name)) !in failing
    ensures LookupIn(RemoveSpec(failing, Stop.StopSpec(failing, st, name, killOk).1, name), name).Err?
  {
    var st1 := Stop.StopSpec(failing, st, name, killOk).1;
    Stop.StopUpdatesRecord(failing, st, name, killOk);
    RemoveDeletesRecord(failing, st1, name);
  }
}
