/** An install that stops anywhere is finished by running it again, and ends in the
    same host as one that was never interrupted. */
module InstallRecovery {
  import opened Schema
  import opened EnvFile
  import opened EnvFileRoundTrip
  import opened Settings
  import opened Install

  /** The running binary is an ordinary file, at its place or somewhere else. */
  predicate Sound(h: Host, o: Options) {
    && (o.exe == BinaryPath || o.exe.Elsewhere?)
    && o.exe in h.files && h.files[o.exe].File?
    && IsHeader(o.texts.header) && OwnUnit(o.texts.unit)
    && TOKEN in o.settings.names
  }

  /** The starter configuration is all comments, so neither the loader nor the
      pre-check tells it from no file. */
  ghost predicate Sane(o: Options) {
    && SaneLoader(o.settings.unset, o.texts.starter)
    && forall env :: o.precheck(env, Content(o.texts.starter)) == o.precheck(env, Absent)
  }

  function Secured(e: Option<Entry>, mode: Mode): Option<Entry> {
    if e.Some? && Loose(e.value) then Some(e.value.(mode := mode, uid := 0)) else e
  }

  /** What an uninterrupted install leaves at a path. */
  function Goal(h: Host, o: Options, text: string, p: Path): Option<Entry>
    requires Sound(h, o)
  {
    match p
    case UnitPath => Some(File(o.texts.unit, MODE_UNIT, 0))
    case EnvPath => Some(File(text, MODE_ENV, 0))
    case BinaryPath => if o.exe == BinaryPath then At(h, p) else Some(File(h.files[o.exe].data, MODE_BINARY, 0))
    case BinaryDir => if o.exe == BinaryPath || At(h, p).Some? then At(h, p) else Some(Dir(MODE_DIR, 0))
    case ConfigDir => if At(h, p).None? then Some(Dir(MODE_DIR, 0)) else Secured(At(h, p), MODE_DIR)
    case ConfigPath =>
      if At(h, p).None? then Some(File(o.texts.starter, MODE_CONFIG, 0)) else Secured(At(h, p), MODE_CONFIG)
    case Elsewhere(_) => At(h, p)
  }

  /** x is the host between the start and the end of an install: every path is as
      it was or as it will be. */
  ghost predicate Between(h: Host, o: Options, text: string, x: Host)
    requires Sound(h, o)
  {
    && x.root == h.root && x.booted == h.booted && x.onStart == h.onStart
    && ((x.load == h.load && x.fragment == h.fragment) || (x.load == Loaded && x.fragment == Some(UnitPath)))
    && forall p :: At(x, p) == At(h, p) || At(x, p) == Goal(h, o, text, p)
  }

  predicate Touches(op: Op, p: Path) { !op.Systemctl? && op.path == p }

  /** A step of the plan, taken anywhere between, brings its path to the goal and
      leaves every other path. */
  lemma OpReachesGoal(h: Host, o: Options, text: string, x: Host, op: Op, p: Path)
    requires Sound(h, o) && Between(h, o, text, x) && op in InstallOps(h, o, text)
    ensures At(Exec(x, op), p) == if Touches(op, p) then Goal(h, o, text, p) else At(x, p)
  {
    hide InstallOps, Loose, OwnUnit, IsHeader;
    if Touches(op, p) {
      OpIsOneOf(h, o, text, op);
      assert At(x, p) == At(h, p) || At(x, p) == Goal(h, o, text, p);
      if op.Copy? {
        assert At(x, o.exe) == At(h, o.exe);
      }
    } else {
      UntouchedStays(x, op, p);
    }
  }

  lemma UntouchedStays(x: Host, op: Op, p: Path)
    requires !Touches(op, p)
    ensures At(Exec(x, op), p) == At(x, p)
  {}

  /** The steps an install can have, with what each says about the host. */
  lemma OpIsOneOf(h: Host, o: Options, text: string, op: Op)
    requires op in InstallOps(h, o, text)
    ensures match op
            case Systemctl(verb) => verb in {Stop, DaemonReload, Enable, Start}
            case MakeDir(p, mode) =>
              mode == MODE_DIR && ((p == BinaryDir && o.exe != BinaryPath) || (p == ConfigDir && At(h, p).None?))
            case Copy(from, p, mode) => from == o.exe != BinaryPath && p == BinaryPath && mode == MODE_BINARY
            case Write(p, data, mode) =>
              || (p == EnvPath && data == text && mode == MODE_ENV)
              || (p == UnitPath && data == o.texts.unit && mode == MODE_UNIT)
            case Create(p, data, mode) =>
              p == ConfigPath && At(h, p).None? && data == o.texts.starter && mode == MODE_CONFIG
            case Secure(p, mode) =>
              && At(h, p).Some? && Loose(At(h, p).value)
              && ((p == ConfigDir && mode == MODE_DIR) || (p == ConfigPath && mode == MODE_CONFIG))
            case Remove(_) => false
  {}

  lemma StepStaysBetween(h: Host, o: Options, text: string, x: Host, op: Op)
    requires Sound(h, o) && Between(h, o, text, x) && op in InstallOps(h, o, text)
    requires op == Systemctl(DaemonReload) ==> UnitPath in x.files
    ensures Between(h, o, text, Exec(x, op))
  {
    hide InstallOps, Goal, Loose;
    OpIsOneOf(h, o, text, op);
    forall p ensures At(Exec(x, op), p) == At(h, p) || At(Exec(x, op), p) == Goal(h, o, text, p) {
      OpReachesGoal(h, o, text, x, op, p);
    }
  }

  function Before(h: Host, o: Options): seq<Op> {
    StopOps(h) + BinaryOps(o.exe) + ConfigDirOps(h) + ConfigOps(h, o.texts.starter)
  }

  function Ending(o: Options, text: string): seq<Op> {
    [Write(EnvPath, text, MODE_ENV), Write(UnitPath, o.texts.unit, MODE_UNIT),
     Systemctl(DaemonReload), Systemctl(Enable), Systemctl(Start)]
  }

  lemma ReloadFollowsUnit(h: Host, o: Options, text: string, k: nat)
    requires k < |InstallOps(h, o, text)| && InstallOps(h, o, text)[k] == Systemctl(DaemonReload)
    ensures k > 0 && InstallOps(h, o, text)[k - 1] == Write(UnitPath, o.texts.unit, MODE_UNIT)
  {
    var before := Before(h, o);
    assert InstallOps(h, o, text) == before + Ending(o, text);
    assert forall op :: op in before ==> op != Systemctl(DaemonReload);
    forall i | 0 <= i < |before| ensures before[i] != Systemctl(DaemonReload) { assert before[i] in before; }
  }

  lemma ExecPrefix(h: Host, ops: seq<Op>, n: nat)
    requires n < |ops|
    ensures ExecAll(h, ops[..n + 1]) == Exec(ExecAll(h, ops[..n]), ops[n])
  {
    assert ops[..n + 1][..n] == ops[..n];
  }

  /** After n steps the host lies between, and what the steps touched is done. */
  lemma {:induction false} PrefixBetween(h: Host, o: Options, text: string, n: nat)
    requires Sound(h, o) && n <= |InstallOps(h, o, text)|
    ensures Between(h, o, text, ExecAll(h, InstallOps(h, o, text)[..n]))
    ensures forall k, p :: 0 <= k < n && Touches(InstallOps(h, o, text)[k], p) ==>
                             At(ExecAll(h, InstallOps(h, o, text)[..n]), p) == Goal(h, o, text, p)
  {
    hide InstallOps, Goal, Exec, Sound;
    var ops := InstallOps(h, o, text);
    if n == 0 {
      assert ops[..0] == [];
    } else {
      var x, op := ExecAll(h, ops[..n - 1]), ops[n - 1];
      PrefixBetween(h, o, text, n - 1);
      ExecPrefix(h, ops, n - 1);
      if op == Systemctl(DaemonReload) {
        ReloadFollowsUnit(h, o, text, n - 1);
        assert Touches(ops[n - 2], UnitPath);
        UnitGoal(h, o, text);
      }
      StepStaysBetween(h, o, text, x, op);
      forall k, p | 0 <= k < n && Touches(ops[k], p) ensures At(Exec(x, op), p) == Goal(h, o, text, p) {
        OpReachesGoal(h, o, text, x, op, p);
      }
    }
  }

  lemma UnitGoal(h: Host, o: Options, text: string)
    requires Sound(h, o)
    ensures Goal(h, o, text, UnitPath).Some?
  {}

  ghost predicate TouchedBy(ops: seq<Op>, p: Path) { exists op :: op in ops && Touches(op, p) }

  /** Every path is touched by a step, or at its goal from the start. */
  lemma TouchedOrDone(h: Host, o: Options, text: string, p: Path)
    requires Sound(h, o)
    ensures TouchedBy(InstallOps(h, o, text), p) || Goal(h, o, text, p) == At(h, p)
  {
    hide Loose, IsHeader, OwnUnit;
    var ops := InstallOps(h, o, text);
    assert ops == Before(h, o) + Ending(o, text);
    var op :=
      match p
      case UnitPath => Write(UnitPath, o.texts.unit, MODE_UNIT)
      case EnvPath => Write(EnvPath, text, MODE_ENV)
      case BinaryPath => Copy(o.exe, BinaryPath, MODE_BINARY)
      case BinaryDir => MakeDir(BinaryDir, MODE_DIR)
      case ConfigDir => if At(h, p).None? then MakeDir(ConfigDir, MODE_DIR) else Secure(ConfigDir, MODE_DIR)
      case ConfigPath =>
        if At(h, p).None? then Create(ConfigPath, o.texts.starter, MODE_CONFIG) else Secure(ConfigPath, MODE_CONFIG)
      case Elsewhere(_) => Systemctl(Start);
    assert forall x :: x in Before(h, o) + Ending(o, text) ==> x in ops;
    assert op in BinaryOps(o.exe) || op in ConfigDirOps(h) || op in ConfigOps(h, o.texts.starter) ==>
        op in Before(h, o);
    if Goal(h, o, text, p) != At(h, p) {
      assert op in ops && Touches(op, p);
    }
  }

  /** An uninterrupted install reaches its goal everywhere, loaded, enabled and started. */
  lemma InstallReachesGoal(h: Host, o: Options, text: string)
    requires Sound(h, o)
    ensures var x := ExecAll(h, InstallOps(h, o, text));
            && (forall p :: At(x, p) == Goal(h, o, text, p))
            && x.root == h.root && x.booted == h.booted && x.onStart == h.onStart
            && x.load == Loaded && x.fragment == Some(UnitPath) && x.active == h.onStart && x.enabled
  {
    hide InstallOps, Goal, Sound;
    var ops := InstallOps(h, o, text);
    var x := ExecAll(h, ops);
    assert ops[..|ops|] == ops;
    PrefixBetween(h, o, text, |ops|);
    forall p ensures At(x, p) == Goal(h, o, text, p) {
      TouchedOrDone(h, o, text, p);
      if TouchedBy(ops, p) {
        var op :| op in ops && Touches(op, p);
        var k :| 0 <= k < |ops| && ops[k] == op;
        assert Touches(ops[k], p);
      }
    }
    EndsStarted(h, o, text);
  }

  lemma EndsStarted(h: Host, o: Options, text: string)
    ensures var x := ExecAll(h, InstallOps(h, o, text));
            x.load == Loaded && x.fragment == Some(UnitPath) && x.active == x.onStart && x.enabled
  {
    var e := Ending(o, text);
    assert InstallOps(h, o, text) == Before(h, o) + e;
    ExecAppend(h, Before(h, o), e);
    var y := ExecAll(h, Before(h, o));
    EndingStarts(y, o, text);
  }

  lemma EndingStarts(y: Host, o: Options, text: string)
    ensures var x := ExecAll(y, Ending(o, text));
            x.load == Loaded && x.fragment == Some(UnitPath) && x.active == x.onStart && x.enabled
  {
    var e := Ending(o, text);
    ExecPrefix(y, e, 0);
    ExecPrefix(y, e, 1);
    ExecPrefix(y, e, 2);
    ExecPrefix(y, e, 3);
    ExecPrefix(y, e, 4);
    assert e[..5] == e;
  }

  // ------------------------------------------------------ planning again

  lemma SecuredIsNotLoose(e: Entry)
    ensures !Loose(e.(mode := MODE_DIR, uid := 0))
    ensures e.File? ==> !Loose(e.(mode := MODE_CONFIG, uid := 0))
    ensures !Loose(Dir(MODE_DIR, 0)) && forall data :: !Loose(File(data, MODE_CONFIG, 0))
  {}

  /** From anywhere between, the goal is the same. */
  lemma GoalSettles(h: Host, o: Options, text: string, x: Host)
    requires Sound(h, o) && Between(h, o, text, x)
    ensures Sound(x, o) && forall p :: Goal(x, o, text, p) == Goal(h, o, text, p)
  {
    assert At(x, o.exe) == At(h, o.exe);
    hide Loose, OwnUnit, IsHeader;
    forall p ensures Goal(x, o, text, p) == Goal(h, o, text, p) {
      assert At(x, p) == At(h, p) || At(x, p) == Goal(h, o, text, p);
      if At(h, p).Some? {
        SecuredIsNotLoose(At(h, p).value);
      } else {
        SecuredIsNotLoose(Dir(MODE_DIR, 0));
      }
    }
  }

  lemma SameHost(a: Host, b: Host)
    requires forall p :: At(a, p) == At(b, p)
    requires a.(files := map[]) == b.(files := map[])
    ensures a == b
  {
    assert forall p :: p in a.files <==> At(a, p).Some?;
    assert forall p :: p in b.files <==> At(b, p).Some?;
    assert forall p :: p in a.files ==> a.files[p] == At(a, p).value;
    assert forall p :: p in b.files ==> b.files[p] == At(b, p).value;
    assert a.files == b.files;
  }

  lemma InspectsAgain(h: Host, o: Options, text: string, x: Host)
    requires Sound(h, o) && Between(h, o, text, x) && Inspect(h).Ours?
    ensures Inspect(x).Ours?
    ensures ConfigDir in h.files && h.files[ConfigDir].File? <==> ConfigDir in x.files && x.files[ConfigDir].File?
  {
    hide OwnUnit, Loose, IsHeader;
    assert At(x, UnitPath) == At(h, UnitPath) || At(x, UnitPath) == Goal(h, o, text, UnitPath);
    assert At(x, ConfigDir) == At(h, ConfigDir) || At(x, ConfigDir) == Goal(h, o, text, ConfigDir);
  }

  lemma ConfigSeenAgain(h: Host, o: Options, text: string, x: Host)
    requires Sound(h, o) && Between(h, o, text, x)
    ensures SameConfig(ConfigSeen(h), ConfigSeen(x), o.texts.starter)
  {
    hide OwnUnit, Loose, IsHeader;
    assert At(x, ConfigPath) == At(h, ConfigPath) || At(x, ConfigPath) == Goal(h, o, text, ConfigPath);
  }

  lemma StoredAgain(h: Host, o: Options, text: string, x: Host, env: Env)
    requires Sound(h, o) && Between(h, o, text, x)
    requires Print(Header(o.texts.header), env) == Printed.Text(text)
    ensures Stored(x) == Stored(h) || Stored(x) == Some(env)
  {
    hide OwnUnit, Loose, Parse, Print, Header;
    assert At(x, EnvPath) == At(h, EnvPath) || At(x, EnvPath) == Goal(h, o, text, EnvPath);
    RoundTrip(o.texts.header, env);
  }

  lemma ResolveAgain(h: Host, o: Options, env: Env, stored: Env, config: Config)
    requires Sane(o) && TOKEN in o.settings.names && Stored(h).Some?
    requires Resolve(o.settings, Stored(h).value, ConfigSeen(h)) == Stores(env)
    requires stored == Stored(h).value || stored == env
    requires SameConfig(ConfigSeen(h), config, o.texts.starter)
    ensures Resolve(o.settings, stored, config) == Stores(env)
    ensures o.precheck(env, config) == o.precheck(env, ConfigSeen(h))
  {
    if stored == env {
      ResolveSettles(o.settings, Stored(h).value, ConfigSeen(h), config, o.texts.starter);
    } else {
      SameResolve(o.settings, stored, ConfigSeen(h), config, o.texts.starter);
    }
  }

  lemma SameResolve(i: Inputs, stored: Env, config: Config, config': Config, starter: string)
    requires SaneLoader(i.unset, starter) && SameConfig(config, config', starter)
    ensures Resolve(i, stored, config) == Resolve(i, stored, config')
  {}

  /** Planning again, from anywhere between and with the same environment and
      answers, succeeds and stores the same settings. */
  lemma PlansAgain(h: Host, o: Options, text: string, x: Host, env: Env)
    requires Sound(h, o) && Sane(o) && InstallPlan(h, o).Steps? && Stored(h).Some?
    requires Resolve(o.settings, Stored(h).value, ConfigSeen(h)) == Stores(env)
    requires Print(Header(o.texts.header), env) == Printed.Text(text)
    requires Between(h, o, text, x)
    ensures InstallPlan(x, o).Steps? && InstallPlan(x, o).ops == InstallOps(x, o, text)
  {
    hide Resolve, Print, Parse, InstallOps, Loose, Header, Sane, Between, IsHeader, OwnUnit, Inspect, Stored,
         ConfigSeen;
    InspectsAgain(h, o, text, x);
    ConfigSeenAgain(h, o, text, x);
    StoredAgain(h, o, text, x, env);
    ResolveAgain(h, o, env, Stored(x).value, ConfigSeen(x));
  }

  /** Running any prefix of the install's steps and then installing again with the
      same environment and answers ends in exactly the host, files, modes, owners,
      stored settings, unit and all, of an install that was not interrupted. */
  lemma InstallResumes(h: Host, o: Options, n: nat)
    requires Sound(h, o) && Sane(o) && InstallPlan(h, o).Steps? && n <= |InstallPlan(h, o).ops|
    ensures var ops := InstallPlan(h, o).ops;
            var x := ExecAll(h, ops[..n]);
            Sound(x, o) && InstallPlan(x, o).Steps? && ExecAll(x, InstallPlan(x, o).ops) == ExecAll(h, ops)
  {
    hide Resolve, Print, InstallOps, Header, Sane, Between, Inspect, Stored, ConfigSeen, Sound, Goal;
    var env := Resolve(o.settings, Stored(h).value, ConfigSeen(h)).env;
    var text := Print(Header(o.texts.header), env).data;
    var x := ExecAll(h, InstallOps(h, o, text)[..n]);
    PrefixBetween(h, o, text, n);
    PlansAgain(h, o, text, x, env);
    GoalSettles(h, o, text, x);
    InstallReachesGoal(h, o, text);
    InstallReachesGoal(x, o, text);
    BetweenKeeps(h, o, text, x);
    SameHost(ExecAll(h, InstallOps(h, o, text)), ExecAll(x, InstallOps(x, o, text)));
  }

  /** After any prefix of an install the stored settings can be read: they are those
      from before or those that were resolved, never anything in between. */
  lemma StoredThroughout(h: Host, o: Options, n: nat)
    requires Sound(h, o) && InstallPlan(h, o).Steps? && n <= |InstallPlan(h, o).ops|
    ensures Stored(h).Some?
    ensures var x := ExecAll(h, InstallPlan(h, o).ops[..n]);
            && Stored(x).Some?
            && (Stored(x) == Stored(h) ||
                Stores(Stored(x).value) == Resolve(o.settings, Stored(h).value, ConfigSeen(h)))
  {
    hide Resolve, Print, InstallOps, Header, Between, Inspect, Stored, ConfigSeen, Sound, Goal;
    var env := Resolve(o.settings, Stored(h).value, ConfigSeen(h)).env;
    var text := Print(Header(o.texts.header), env).data;
    PrefixBetween(h, o, text, n);
    StoredAgain(h, o, text, ExecAll(h, InstallOps(h, o, text)[..n]), env);
  }

  lemma BetweenKeeps(h: Host, o: Options, text: string, x: Host)
    requires Sound(h, o) && Between(h, o, text, x)
    ensures x.root == h.root && x.booted == h.booted && x.onStart == h.onStart
  {}

  /** Runs of install, the k-th one interrupted after stops[k] of its steps. */
  ghost function Interrupted(h: Host, o: Options, stops: seq<nat>): Host {
    if stops == [] then h
    else
      var x, n := Interrupted(h, o, stops[..|stops| - 1]), stops[|stops| - 1];
      var plan := InstallPlan(x, o);
      if plan.Steps? then ExecAll(x, plan.ops[..if n < |plan.ops| then n else |plan.ops|]) else x
  }

  /** However often an install is interrupted, and wherever, the next one can be
      planned and ends where an uninterrupted one does. */
  lemma {:induction false} InstallAlwaysFinishes(h: Host, o: Options, stops: seq<nat>)
    requires Sound(h, o) && Sane(o) && InstallPlan(h, o).Steps?
    ensures var x := Interrupted(h, o, stops);
            && Sound(x, o) && InstallPlan(x, o).Steps?
            && ExecAll(x, InstallPlan(x, o).ops) == ExecAll(h, InstallPlan(h, o).ops)
  {
    hide InstallPlan, ExecAll, Sound, Sane;
    if stops != [] {
      var x, n := Interrupted(h, o, stops[..|stops| - 1]), stops[|stops| - 1];
      InstallAlwaysFinishes(h, o, stops[..|stops| - 1]);
      var ops := InstallPlan(x, o).ops;
      InstallResumes(x, o, if n < |ops| then n else |ops|);
    }
  }

  /** Installing twice is installing once. */
  lemma InstallIsIdempotent(h: Host, o: Options)
    requires Sound(h, o) && Sane(o) && InstallPlan(h, o).Steps?
    ensures var x := ExecAll(h, InstallPlan(h, o).ops);
            InstallPlan(x, o).Steps? && ExecAll(x, InstallPlan(x, o).ops) == x
  {
    hide InstallPlan, ExecAll;
    var ops := InstallPlan(h, o).ops;
    assert ops[..|ops|] == ops;
    InstallResumes(h, o, |ops|);
  }

  // -------------------------------------------- what an install guarantees

  /** Nothing the service reads can be changed by anyone but root, everyone can read
      its configuration, nobody but root its settings, and what is stored is what
      was resolved. An existing configuration keeps its text. */
  lemma InstallSecures(h: Host, o: Options)
    requires Sound(h, o) && InstallPlan(h, o).Steps?
    ensures var x := ExecAll(h, InstallPlan(h, o).ops);
            && At(x, ConfigDir).Some? && !Loose(At(x, ConfigDir).value)
            && At(x, ConfigPath).Some? && (At(x, ConfigPath).value.File? ==> !Loose(At(x, ConfigPath).value))
            && (At(h, ConfigPath).Some? ==> ConfigSeen(x) == ConfigSeen(h))
            && At(x, EnvPath).Some? && At(x, EnvPath).value.mode == MODE_ENV && At(x, EnvPath).value.uid == 0
            && Stored(x).Some? && Stores(Stored(x).value) == Resolve(o.settings, Stored(h).value, ConfigSeen(h))
  {
    hide Resolve, Print, InstallOps, Header, Inspect, Loose, OwnUnit, IsHeader, Parse, ExecAll;
    var env := Resolve(o.settings, Stored(h).value, ConfigSeen(h)).env;
    var text := Print(Header(o.texts.header), env).data;
    InstallReachesGoal(h, o, text);
    var x := ExecAll(h, InstallOps(h, o, text));
    assert forall p :: At(x, p) == Goal(h, o, text, p);
    RoundTrip(o.texts.header, env);
    if At(h, ConfigDir).Some? { SecuredIsNotLoose(At(h, ConfigDir).value); }
    if At(h, ConfigPath).Some? { SecuredIsNotLoose(At(h, ConfigPath).value); }
    SecuredIsNotLoose(Dir(MODE_DIR, 0));
  }
}
