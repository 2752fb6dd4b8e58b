/**
 * Container records (container/container_info.go): the status and path constants, the
 * record built when a container starts, the ten-digit id, and the store of records under
 * `/var/run/minidocker/<name>/config.json`. The store is an abstract directory tree: the
 * info directories that exist, and for each the content of its `config.json` as a
 * record (`Some`) or as a file that holds no record (`None`, an empty or half-written
 * file). Which store operations fail is an oracle.
 */
module ContainerInfo {
  import opened Wrappers
  import opened Text
  import opened Paths
  import Host

  // ---------------------------------------------------------------------------
  // Constants
  // ---------------------------------------------------------------------------

  const Running := "running"
  const Stopped := "stopped"
  const Exited := "exited"
  const ConfigName := "config.json"
  const ContainerLogFile := "container.log"
  const RootUrl := "/root/"

  /** The three statuses are distinct, so a status names exactly one state. */
  lemma StatusesDistinct()
    ensures Running != Stopped && Stopped != Exited && Running != Exited
  {
  }

  /** `DefaultInfoLocation` instantiated with a container name. */
  function InfoLocation(name: string): string
  {
    "/var/run/minidocker/" + name + "/"
  }

  /** `MntUrl`, `WriteLayerUrl` and `WorkLayerUrl` instantiated with a container name. */
  function MntUrl(name: string): string { "/root/mnt/" + name }
  function WriteLayerUrl(name: string): string { "/root/writeLayer/" + name }
  function WorkLayerUrl(name: string): string { "/root/.tmpWork/" + name }

  /** The directory the kernel resolves `InfoLocation(name)` to; records are keyed by it. */
  function InfoDir(name: string): string
  {
    Clean(InfoLocation(name))
  }

  // ---------------------------------------------------------------------------
  // The record
  // ---------------------------------------------------------------------------

  datatype Info = Info(pid: string, id: string, name: string, command: string,
                       createdTime: string, status: string, volume: string)

  /**
   * The record `RecordContainerInfo` builds for a freshly started container: the name
   * defaults to the id, the command is the arguments concatenated without separator, the
   * pid is its decimal form (which `strconv.Atoi` reads back), and the status is running.
   */
  function NewInfo(pid: int, cmd: seq<string>, name: string, volume: string, id: string, createdTime: string): (r: Info)
    ensures r.name == (if name == "" then id else name)
    ensures r.command == Concat(cmd)
    ensures MinInt64 <= pid <= MaxInt64 ==> Atoi(r.pid) == Some(pid)
    ensures r.status == Running && r.id == id && r.volume == volume && r.createdTime == createdTime
  {
    JoinEmptyIsConcat(cmd);
    assert MinInt64 <= pid <= MaxInt64 ==> Atoi(Itoa(pid)) == Some(pid) by {
      if MinInt64 <= pid <= MaxInt64 {
        AtoiItoa(pid);
      }
    }
    Info(Itoa(pid), id, if name == "" then id else name, Join(cmd, ""), createdTime, Running, volume)
  }

  // ---------------------------------------------------------------------------
  // The id: `randStringBytes`
  // ---------------------------------------------------------------------------

  const Letters := "1234567890"

  /** The random draws `rand.Intn(len(letterBytes))` yields are indices into the alphabet. */
  predicate ValidDraws(draws: seq<nat>)
  {
    forall i :: 0 <= i < |draws| ==> draws[i] < |Letters|
  }

  /**
   * `randStringBytes(n)` with the random draws as a parameter: a byte buffer of length `n`
   * filled position by position with the drawn letter.
   */
  method RandStringBytes(n: nat, draws: seq<nat>) returns (s: string)
    requires |draws| == n && ValidDraws(draws)
    ensures |s| == n
    ensures forall i :: 0 <= i < n ==> s[i] == Letters[draws[i]]
  {
    var b := new char[n];
    for i := 0 to n
      invariant forall j :: 0 <= j < i ==> b[j] == Letters[draws[j]]
    {
      b[i] := Letters[draws[i]];
    }
    s := b[..];
  }

  /** Every id drawn that way is made of decimal digits only, whatever the draws. */
  lemma IdIsDecimal(s: string, draws: seq<nat>)
    requires ValidDraws(draws) && |s| == |draws|
    requires forall i :: 0 <= i < |s| ==> s[i] == Letters[draws[i]]
    ensures AllDigits(s)
  {
    forall i | 0 <= i < |s|
      ensures IsDigit(s[i])
    {
      assert s[i] in Letters;
    }
  }

  // ---------------------------------------------------------------------------
  // The store
  // ---------------------------------------------------------------------------

  /** The store operations the kernel may refuse, each on one info directory. */
  datatype StoreOp =
    | MkdirInfo(dir: string)
    | CreateConfig(dir: string)
    /** The open, with truncation, that `os.WriteFile` makes before it writes. */
    | OpenConfig(dir: string)
    | WriteConfig(dir: string)
    | RemoveInfo(dir: string)

  datatype Store = Store(dirs: set<string>, configs: map<string, Option<Info>>)

  /** What `os.MkdirAll` does to the store. */
  function MkdirAllSpec(failing: set<StoreOp>, st: Store, dir: string): (bool, Store)
  {
    if MkdirInfo(dir) in failing then (false, st) else (true, st.(dirs := st.dirs + {dir}))
  }

  /** `os.Create` of `config.json`: it needs the directory and leaves an empty file. */
  function CreateSpec(failing: set<StoreOp>, st: Store, dir: string): (bool, Store)
  {
    if CreateConfig(dir) in failing || dir !in st.dirs then (false, st)
    else (true, st.(configs := st.configs[dir := None]))
  }

  /** Writing a whole record to `config.json` of an existing directory. */
  function WriteSpec(failing: set<StoreOp>, st: Store, dir: string, info: Info): (bool, Store)
  {
    if WriteConfig(dir) in failing || dir !in st.dirs then (false, st)
    else (true, st.(configs := st.configs[dir := Some(info)]))
  }

  /**
   * `os.WriteFile` of `config.json`: it opens the file, creating or truncating it, then
   * writes. A refused open leaves the file as it was; a write refused after the open
   * leaves the file truncated or partly written, which decodes to no record.
   */
  function WriteFileSpec(failing: set<StoreOp>, st: Store, dir: string, info: Info): (bool, Store)
  {
    if OpenConfig(dir) in failing || dir !in st.dirs then (false, st)
    else if WriteConfig(dir) in failing then (false, st.(configs := st.configs[dir := None]))
    else (true, st.(configs := st.configs[dir := Some(info)]))
  }

  /**
   * A refused `os.WriteFile` leaves either the old record or none that can be read; a
   * successful one leaves exactly the record written. No other file changes.
   */
  lemma WriteFileEffect(failing: set<StoreOp>, st: Store, dir: string, info: Info)
    ensures var (ok, st1) := WriteFileSpec(failing, st, dir, info);
      && st1.dirs == st.dirs
      && (ok <==> dir in st.dirs && OpenConfig(dir) !in failing && WriteConfig(dir) !in failing)
      && (ok ==> dir in st1.configs && st1.configs[dir] == Some(info))
      && (!ok ==> st1 == st || (dir in st1.configs && st1.configs[dir].None?))
      && (forall d :: d != dir ==> (d in st1.configs <==> d in st.configs) && (d in st.configs ==> st1.configs[d] == st.configs[d]))
  {
  }

  /** `os.RemoveAll` of an info directory: it and everything below it goes. */
  function RemoveAllSpec(failing: set<StoreOp>, st: Store, dir: string): (bool, Store)
  {
    if RemoveInfo(dir) in failing then (false, st)
    else (true, Store((set d | d in st.dirs && !Host.Within(d, dir)),
                      (map d | d in st.configs && !Host.Within(d, dir) :: st.configs[d])))
  }

  /** Reading and decoding `config.json` of a container (`getContainerInfoByName`). */
  function LookupIn(st: Store, name: string): Result<Info>
  {
    var dir := InfoDir(name);
    if dir !in st.configs then Err("read config file fails")
    else if st.configs[dir].None? then Err("unmarshal config file fails")
    else Ok(st.configs[dir].value)
  }

  /**
   * `RecordContainerInfo(pid, cmd, name, volume)`, with the id and the creation time as
   * parameters: make the directory, create the file, write the record; the first failure
   * returns "" and an error, success returns the final name.
   */
  function RecordSpec(failing: set<StoreOp>, st: Store, pid: int, cmd: seq<string>, name: string,
                      volume: string, id: string, createdTime: string): (string, Option<string>, Store)
  {
    var info := NewInfo(pid, cmd, name, volume, id, createdTime);
    var dir := InfoDir(info.name);
    var (ok1, st1) := MkdirAllSpec(failing, st, dir);
    if !ok1 then ("", Some("mkdir " + dir + " fails"), st1)
    else
      var (ok2, st2) := CreateSpec(failing, st1, dir);
      if !ok2 then ("", Some("create file fails"), st2)
      else
        var (ok3, st3) := WriteSpec(failing, st2, dir, info);
        if !ok3 then ("", Some("write file fails"), st3)
        else (info.name, None, st3)
  }

  /**
   * What recording does: it succeeds exactly when none of the three steps on the
   * container's directory is refused, and then returns the final name and the record can
   * be looked up under it; a failure returns "" and leaves at most an empty `config.json`
   * behind; no other container's record changes.
   */
  lemma RecordEffect(failing: set<StoreOp>, st: Store, pid: int, cmd: seq<string>, name: string,
                     volume: string, id: string, createdTime: string)
    ensures
      var (r, err, st1) := RecordSpec(failing, st, pid, cmd, name, volume, id, createdTime);
      var info := NewInfo(pid, cmd, name, volume, id, createdTime);
      var dir := InfoDir(info.name);
      && (err.None? <==> MkdirInfo(dir) !in failing && CreateConfig(dir) !in failing && WriteConfig(dir) !in failing)
      && (err.None? ==> r == info.name && LookupIn(st1, r) == Ok(info))
      && (err.Some? ==> r == "" && (LookupIn(st1, info.name).Ok? ==> LookupIn(st1, info.name) == LookupIn(st, info.name)))
      && (forall d :: d != dir ==> (d in st1.configs <==> d in st.configs) && (d in st.configs ==> st1.configs[d] == st.configs[d]))
      && st.dirs <= st1.dirs <= st.dirs + {dir}
  {
  }

  // ---------------------------------------------------------------------------
  // The store as an object
  // ---------------------------------------------------------------------------

  class InfoStore {
    var dirs: set<string>
    var configs: map<string, Option<Info>>
    const failing: set<StoreOp>

    constructor (initial: Store, refused: set<StoreOp>)
      ensures State() == initial && failing == refused
    {
      dirs := initial.dirs;
      configs := initial.configs;
      failing := refused;
    }

    function State(): Store
      reads this
    {
      Store(dirs, configs)
    }

    function Lookup(name: string): Result<Info>
      reads this
    {
      LookupIn(State(), name)
    }

    method MkdirAll(dir: string) returns (ok: bool)
      modifies this
      ensures (ok, State()) == MkdirAllSpec(failing, old(State()), dir)
    {
      var r := MkdirAllSpec(failing, State(), dir);
      ok := r.0;
      dirs, configs := r.1.dirs, r.1.configs;
    }

    method Create(dir: string) returns (ok: bool)
      modifies this
      ensures (ok, State()) == CreateSpec(failing, old(State()), dir)
    {
      var r := CreateSpec(failing, State(), dir);
      ok := r.0;
      dirs, configs := r.1.dirs, r.1.configs;
    }

    method Write(dir: string, info: Info) returns (ok: bool)
      modifies this
      ensures (ok, State()) == WriteSpec(failing, old(State()), dir, info)
    {
      var r := WriteSpec(failing, State(), dir, info);
      ok := r.0;
      dirs, configs := r.1.dirs, r.1.configs;
    }

    method WriteFile(dir: string, info: Info) returns (ok: bool)
      modifies this
      ensures (ok, State()) == WriteFileSpec(failing, old(State()), dir, info)
    {
      var r := WriteFileSpec(failing, State(), dir, info);
      ok := r.0;
      dirs, configs := r.1.dirs, r.1.configs;
    }

    method RemoveAll(dir: string) returns (ok: bool)
      modifies this
      ensures (ok, State()) == RemoveAllSpec(failing, old(State()), dir)
    {
      var r := RemoveAllSpec(failing, State(), dir);
      ok := r.0;
      dirs, configs := r.1.dirs, r.1.configs;
    }
  }

  /** `RecordContainerInfo`, step by step on the store; the draws give the id. */
  method RecordContainerInfo(store: InfoStore, pid: int, cmd: seq<string>, name: string, volume: string,
                             draws: seq<nat>, createdTime: string) returns (r: string, err: Option<string>)
    requires |draws| == 10 && ValidDraws(draws)
    modifies store
    ensures exists id :: |id| == 10 && AllDigits(id) &&
              (r, err, store.State()) == RecordSpec(store.failing, old(store.State()), pid, cmd, name, volume, id, createdTime)
  {
    var id := RandStringBytes(10, draws);
    IdIsDecimal(id, draws);
    var info := NewInfo(pid, cmd, name, volume, id, createdTime);
    var dir := InfoDir(info.name);
    var ok := store.MkdirAll(dir);
    if !ok {
      return "", Some("mkdir " + dir + " fails");
    }
    ok := store.Create(dir);
    if !ok {
      return "", Some("create file fails");
    }
    ok := store.Write(dir, info);
    if !ok {
      return "", Some("write file fails");
    }
    r, err := info.name, None;
  }

  /** `DeleteContainerInfo(name)`: remove the whole info directory; a failure is only logged. */
  method DeleteContainerInfo(store: InfoStore, name: string)
    modifies store
    ensures store.State() == RemoveAllSpec(store.failing, old(store.State()), InfoDir(name)).1
  {
    var ok := store.RemoveAll(InfoDir(name));
  }

  /**
   * After a successful delete no record of the container can be found and nothing of it
   * is left, while every record outside its directory stays.
   */
  lemma DeleteRemovesRecord(failing: set<StoreOp>, st: Store, name: string)
    requires RemoveInfo(InfoDir(name)) !in failing
    ensures var st1 := RemoveAllSpec(failing, st, InfoDir(name)).1;
            && LookupIn(st1, name).Err?
            && InfoDir(name) !in st1.dirs
            && (forall d :: d in st.configs && !Host.Within(d, InfoDir(name)) ==> d in st1.configs && st1.configs[d] == st.configs[d])
  {
  }
}
