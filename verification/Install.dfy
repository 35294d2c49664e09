/** Install and uninstall as plans over a host: internal/systemd/install.go,
    internal/systemd/uninstall.go, internal/service/plan.go, with the host as
    internal/systemd/fakehost/fakehost.go simulates it. */
module Install {
  import opened Schema
  import opened EnvFile
  import opened EnvFileRoundTrip
  import opened Settings

  datatype Path = UnitPath | BinaryPath | BinaryDir | ConfigDir | ConfigPath | EnvPath | Elsewhere(name: string)

  /** Permission bits. */
  type Mode = bv9

  const MODE_BINARY: Mode := 0x1ED
  const MODE_DIR: Mode := 0x1ED
  const MODE_CONFIG: Mode := 0x1A4
  const MODE_ENV: Mode := 0x180
  const MODE_UNIT: Mode := 0x1A4

  datatype Entry = File(data: string, mode: Mode, uid: int) | Dir(mode: Mode, uid: int)

  datatype LoadState = Loaded | NotFound | Masked | OtherLoad

  datatype ActiveState = Active | Activating | Reloading | Deactivating | Inactive | FailedState | OtherState

  /** fragment is the path systemd loaded the unit from; onStart is the state a start leads to. */
  datatype Host = Host(root: bool, booted: bool, files: map<Path, Entry>, load: LoadState, fragment: Option<Path>,
                       active: ActiveState, enabled: bool, onStart: ActiveState)

  function At(h: Host, p: Path): Option<Entry> {
    if p in h.files then Some(h.files[p]) else None
  }

  predicate Running(s: ActiveState) {
    s.Active? || s.Activating? || s.Reloading? || s.Deactivating?
  }

  datatype Verb = Stop | Start | Enable | Disable | ResetFailed | DaemonReload

  /** One change to the host. */
  datatype Op =
    | Systemctl(verb: Verb)
    | MakeDir(path: Path, mode: Mode)
    | Copy(from: Path, path: Path, mode: Mode)
    | Write(path: Path, data: string, mode: Mode)
    | Create(path: Path, data: string, mode: Mode)
    | Secure(path: Path, mode: Mode)
    | Remove(path: Path)

  function Control(h: Host, verb: Verb): Host {
    match verb
    case Stop => h.(active := Inactive)
    case Start => h.(active := h.onStart)
    case Enable => h.(enabled := true)
    case Disable => h.(enabled := false)
    case ResetFailed => if h.active.FailedState? then h.(active := Inactive) else h
    case DaemonReload =>
      if UnitPath in h.files then h.(load := Loaded, fragment := Some(UnitPath))
      else if h.fragment == Some(UnitPath) then h.(load := NotFound, fragment := None)
      else h
  }

  function Exec(h: Host, op: Op): Host {
    match op
    case Systemctl(verb) => Control(h, verb)
    case MakeDir(p, mode) => if p in h.files then h else h.(files := h.files[p := Dir(mode, 0)])
    case Copy(from, p, mode) =>
      if from in h.files && h.files[from].File? then h.(files := h.files[p := File(h.files[from].data, mode, 0)]) else h
    case Write(p, data, mode) => h.(files := h.files[p := File(data, mode, 0)])
    case Create(p, data, mode) => if p in h.files then h else h.(files := h.files[p := File(data, mode, 0)])
    case Secure(p, mode) => if p in h.files then h.(files := h.files[p := h.files[p].(mode := mode, uid := 0)]) else h
    case Remove(p) => h.(files := h.files - {p})
  }

  function ExecAll(h: Host, ops: seq<Op>): Host {
    if ops == [] then h else Exec(ExecAll(h, ops[..|ops| - 1]), ops[|ops| - 1])
  }

  // ------------------------------------------------------------ planning

  const MARKER := "# Written by `omnistat service install`; every install rewrites this file."

  predicate OwnUnit(data: string) { MARKER + "\n" <= data }

  /** What install writes: the settings file's header, the starter configuration, the unit. */
  datatype Texts = Texts(header: seq<string>, starter: string, unit: string)

  datatype Options = Options(exe: Path, settings: Inputs, precheck: (Env, Config) -> bool, texts: Texts)

  datatype Refusal =
    | NotRoot | NotBooted | MaskedUnit | ForeignUnit | NoAccess | BadStored | BadSettings | Unstorable | PrecheckFailed
    | NotDirectory

  datatype Planned = Steps(ops: seq<Op>, upgrade: bool) | NotInstalled | Refused(why: Refusal)

  datatype Inspected = Ours(installed: bool) | Barred(why: Refusal)

  /** Whether the unit is there and omnistat's own. */
  function Inspect(h: Host): Inspected {
    if !h.root then Barred(NotRoot)
    else if !h.booted then Barred(NotBooted)
    else if h.load.Masked? then Barred(MaskedUnit)
    else if UnitPath in h.files && h.files[UnitPath].Dir? then Barred(NoAccess)
    else if UnitPath in h.files && !OwnUnit(h.files[UnitPath].data) then Barred(ForeignUnit)
    else if h.fragment.Some? && h.fragment != Some(UnitPath) && !h.load.NotFound? then Barred(ForeignUnit)
    else Ours(UnitPath in h.files)
  }

  /** A path the service must not trust or cannot read. */
  predicate Loose(e: Entry) {
    var need: Mode := if e.Dir? then 0x5 else 0x4;
    e.uid != 0 || e.mode & 0x12 != 0 || e.mode & need != need
  }

  function ConfigSeen(h: Host): Config {
    match At(h, ConfigPath)
    case None => Absent
    case Some(File(data, _, _)) => Content(data)
    case Some(Dir(_, _)) => NoText
  }

  /** The settings the service has now; none when there is no file. */
  function Stored(h: Host): Option<Env> {
    match At(h, EnvPath)
    case None => Some(map[])
    case Some(Dir(_, _)) => None
    case Some(File(data, _, _)) => (match Parse(data) case Settings(env) => Some(env) case BadLine(_, _) => None)
  }

  function StopOps(h: Host): seq<Op> {
    if UnitPath in h.files && Running(h.active) then [Systemctl(Stop)] else []
  }

  function BinaryOps(exe: Path): seq<Op> {
    if exe == BinaryPath then [] else [MakeDir(BinaryDir, MODE_DIR), Copy(exe, BinaryPath, MODE_BINARY)]
  }

  function ConfigDirOps(h: Host): seq<Op> {
    match At(h, ConfigDir)
    case None => [MakeDir(ConfigDir, MODE_DIR)]
    case Some(e) => if Loose(e) then [Secure(ConfigDir, MODE_DIR)] else []
  }

  function ConfigOps(h: Host, starter: string): seq<Op> {
    match At(h, ConfigPath)
    case None => [Create(ConfigPath, starter, MODE_CONFIG)]
    case Some(e) => if Loose(e) then [Secure(ConfigPath, MODE_CONFIG)] else []
  }

  /** What install does, given the text of the settings file. */
  function InstallOps(h: Host, o: Options, text: string): seq<Op> {
    StopOps(h) + BinaryOps(o.exe) + ConfigDirOps(h) + ConfigOps(h, o.texts.starter) +
    [Write(EnvPath, text, MODE_ENV), Write(UnitPath, o.texts.unit, MODE_UNIT),
     Systemctl(DaemonReload), Systemctl(Enable), Systemctl(Start)]
  }

  ghost function InstallPlan(h: Host, o: Options): Planned {
    var unit := Inspect(h);
    if unit.Barred? then Refused(unit.why)
    else if Stored(h).None? then Refused(BadStored)
    else
      var env := Resolve(o.settings, Stored(h).value, ConfigSeen(h));
      if env.Refuses? then Refused(BadSettings)
      else
        var text := Print(Header(o.texts.header), env.env);
        if text.Fault? then Refused(Unstorable)
        else if !o.precheck(env.env, ConfigSeen(h)) then Refused(PrecheckFailed)
        else if ConfigDir in h.files && h.files[ConfigDir].File? then Refused(NotDirectory)
        else Steps(InstallOps(h, o, text.data), unit.installed)
  }

  const REMOVALS: seq<Op> := [Remove(EnvPath), Remove(BinaryPath), Remove(UnitPath), Systemctl(DaemonReload)]

  function UninstallOps(h: Host): seq<Op> {
    (if Running(h.active) then [Systemctl(Stop)] else []) + [Systemctl(Disable), Systemctl(ResetFailed)] + REMOVALS
  }

  function UninstallPlan(h: Host): Planned {
    var unit := Inspect(h);
    if unit.Barred? then Refused(unit.why) else if !unit.installed then NotInstalled else Steps(UninstallOps(h), true)
  }

  // ------------------------------------------------------- running a plan

  lemma {:induction false} ExecAppend(h: Host, a: seq<Op>, b: seq<Op>)
    ensures ExecAll(h, a + b) == ExecAll(ExecAll(h, a), b)
  {
    if b == [] {
      assert a + b == a;
    } else {
      var n := |b| - 1;
      assert (a + b)[..|a| + n] == a + b[..n];
      ExecAppend(h, a, b[..n]);
    }
  }
}
