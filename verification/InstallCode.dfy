/** The planners and the step loop as the program runs them, on a host whose methods
    change it, proved to compute the plans of Install.dfy. */
module InstallCode {
  import opened Schema
  import opened EnvFile
  import opened EnvFileCode
  import opened EnvFileRoundTrip
  import opened Settings
  import opened Install
  import opened InstallRecovery
  import opened UninstallRecovery

  /** A reset-failed that fails changes nothing, and the run goes on all the same. */
  predicate Forgiven(op: Op) { op == Systemctl(ResetFailed) }

  /** The steps that are carried out when all of ops are attempted, the first at
      attempt from: those forgiven for failing are not. */
  function Carried(ops: seq<Op>, fails: nat -> bool, from: nat): seq<Op> {
    if ops == [] then []
    else
      var n := |ops| - 1;
      Carried(ops[..n], fails, from) + if Forgiven(ops[n]) && fails(from + n) then [] else [ops[n]]
  }

  lemma {:induction false} NoneForgiven(ops: seq<Op>, fails: nat -> bool, from: nat)
    requires forall op :: op in ops ==> !Forgiven(op)
    ensures Carried(ops, fails, from) == ops
  {
    if ops != [] {
      var n := |ops| - 1;
      NoneForgiven(ops[..n], fails, from);
      assert ops == ops[..n] + [ops[n]] && ops[n] in ops;
    }
  }

  /** A host that may fail any change: attempt k has no effect when fails(k). */
  class Machine {
    const root: bool
    const booted: bool
    const onStart: ActiveState
    const fails: nat -> bool
    var files: map<Path, Entry>
    var load: LoadState
    var fragment: Option<Path>
    var active: ActiveState
    var enabled: bool
    var attempts: nat

    constructor (h: Host, fails: nat -> bool)
      ensures Value() == h && attempts == 0 && this.fails == fails
    {
      root, booted, onStart := h.root, h.booted, h.onStart;
      files, load, fragment, active, enabled := h.files, h.load, h.fragment, h.active, h.enabled;
      this.fails := fails;
      attempts := 0;
    }

    function Value(): Host
      reads this
    {
      Host(root, booted, files, load, fragment, active, enabled, onStart)
    }

    method Stat(p: Path) returns (e: Option<Entry>)
      ensures e == At(Value(), p)
    {
      e := if p in files then Some(files[p]) else None;
    }

    method Control(verb: Verb)
      modifies this
      ensures Value() == Install.Control(old(Value()), verb) && attempts == old(attempts)
    {
      match verb {
        case Stop => active := Inactive;
        case Start => active := onStart;
        case Enable => enabled := true;
        case Disable => enabled := false;
        case ResetFailed =>
          if active.FailedState? {
            active := Inactive;
          }
        case DaemonReload =>
          if UnitPath in files {
            load, fragment := Loaded, Some(UnitPath);
          } else if fragment == Some(UnitPath) {
            load, fragment := NotFound, None;
          }
      }
    }

    /** One change, or no effect at all when it fails. */
    method Perform(op: Op) returns (ok: bool)
      modifies this
      ensures attempts == old(attempts) + 1 && ok == (Forgiven(op) || !fails(old(attempts)))
      ensures Value() == if fails(old(attempts)) then old(Value()) else Exec(old(Value()), op)
    {
      var failed := fails(attempts);
      attempts := attempts + 1;
      ok := Forgiven(op) || !failed;
      if failed {
        return;
      }
      match op {
        case Systemctl(verb) =>
          Control(verb);
        case MakeDir(p, mode) =>
          if p !in files {
            files := files[p := Dir(mode, 0)];
          }
        case Copy(from, p, mode) =>
          if from in files && files[from].File? {
            files := files[p := File(files[from].data, mode, 0)];
          }
        case Write(p, data, mode) =>
          files := files[p := File(data, mode, 0)];
        case Create(p, data, mode) =>
          if p !in files {
            files := files[p := File(data, mode, 0)];
          }
        case Secure(p, mode) =>
          if p in files {
            files := files[p := files[p].(mode := mode, uid := 0)];
          }
        case Remove(p) =>
          files := files - {p};
      }
    }
  }

  /** Runs the steps in order and stops at the first failure: what has been done is
      a prefix of the plan, the whole of it when nothing failed, less the steps
      forgiven for failing. */
  method Apply(m: Machine, ops: seq<Op>) returns (done: nat, ok: bool)
    modifies m
    ensures done <= |ops| && (ok <==> done == |ops|)
    ensures m.Value() == ExecAll(old(m.Value()), Carried(ops[..done], m.fails, old(m.attempts)))
    ensures ok ==> m.Value() == ExecAll(old(m.Value()), Carried(ops, m.fails, old(m.attempts)))
    ensures forall k :: old(m.attempts) <= k < old(m.attempts) + done ==>
            Forgiven(ops[k - old(m.attempts)]) || !m.fails(k)
    ensures !ok ==> !Forgiven(ops[done]) && m.fails(old(m.attempts) + done)
  {
    hide Exec, ExecAll, Carried, Forgiven;
    done := 0;
    NothingCarried(m.Value(), ops, m.fails, m.attempts);
    while done < |ops|
      invariant done <= |ops| && m.attempts == old(m.attempts) + done
      invariant m.Value() == ExecAll(old(m.Value()), Carried(ops[..done], m.fails, old(m.attempts)))
      invariant forall k :: old(m.attempts) <= k < old(m.attempts) + done ==>
                Forgiven(ops[k - old(m.attempts)]) || !m.fails(k)
    {
      CarriedStep(old(m.Value()), ops, done, m.fails, old(m.attempts));
      var performed := m.Perform(ops[done]);
      if !performed {
        return done, false;
      }
      done := done + 1;
    }
    assert ops[..done] == ops;
    ok := true;
  }

  lemma NothingCarried(h: Host, ops: seq<Op>, fails: nat -> bool, from: nat)
    ensures ExecAll(h, Carried(ops[..0], fails, from)) == h
  {
  }

  lemma CarriedStep(h: Host, ops: seq<Op>, n: nat, fails: nat -> bool, from: nat)
    requires n < |ops|
    ensures ExecAll(h, Carried(ops[..n + 1], fails, from)) ==
            (var x := ExecAll(h, Carried(ops[..n], fails, from));
             if Forgiven(ops[n]) && fails(from + n) then x else Exec(x, ops[n]))
  {
    hide Exec;
    assert ops[..n + 1][..n] == ops[..n];
    var before := Carried(ops[..n], fails, from);
    assert before + [] == before;
    assert (before + [ops[n]])[..|before|] == before;
  }

  lemma {:induction false} CarriedAppend(a: seq<Op>, b: seq<Op>, fails: nat -> bool, from: nat)
    ensures Carried(a + b, fails, from) == Carried(a, fails, from) + Carried(b, fails, from + |a|)
  {
    if b == [] {
      assert a + b == a;
    } else {
      var n := |b| - 1;
      assert (a + b)[..|a| + n] == a + b[..n];
      CarriedAppend(a, b[..n], fails, from);
    }
  }

  lemma CarriedAround(a: seq<Op>, op: Op, b: seq<Op>, fails: nat -> bool, from: nat)
    requires forall x :: x in a + b ==> !Forgiven(x)
    requires Forgiven(op) && fails(from + |a|)
    ensures Carried(a + [op] + b, fails, from) == a + b
  {
    hide Carried;
    CarriedAppend(a + [op], b, fails, from);
    CarriedAppend(a, [op], fails, from);
    forall x | x in a ensures !Forgiven(x) { assert x in a + b; }
    forall x | x in b ensures !Forgiven(x) { assert x in a + b; }
    NoneForgiven(a, fails, from);
    NoneForgiven(b, fails, from + |a + [op]|);
    NotCarried(op, fails, from + |a|);
    assert a + [] == a;
  }

  lemma NotCarried(op: Op, fails: nat -> bool, at: nat)
    requires Forgiven(op) && fails(at)
    ensures Carried([op], fails, at) == []
  {
    assert [op][..0] == [];
  }

  /** An uninstall that runs to its end although its reset-failed failed leaves what any
      other does exactly when the service had not failed: there was nothing to reset. */
  lemma UnresetExactly(h: Host, fails: nat -> bool, from: nat)
    requires fails(from + |UninstallOps(h)| - 5)
    ensures ExecAll(h, Carried(UninstallOps(h), fails, from)) == Uninstalled(h) <==> !h.active.FailedState?
  {
    hide Uninstalled, ExecAll, Running, Carried;
    assert UninstallOps(h) == BeforeReset(h) + [Systemctl(ResetFailed)] + REMOVALS;
    CarriedAround(BeforeReset(h), Systemctl(ResetFailed), REMOVALS, fails, from);
    WithoutReset(h);
  }

  method InspectUnit(m: Machine) returns (unit: Inspected)
    ensures unit == Inspect(m.Value())
  {
    if !m.root {
      return Barred(NotRoot);
    }
    if !m.booted {
      return Barred(NotBooted);
    }
    if m.load == Masked {
      return Barred(MaskedUnit);
    }
    var f := m.Stat(UnitPath);
    if f.Some? {
      if f.value.Dir? {
        return Barred(NoAccess);
      }
      if !OwnUnit(f.value.data) {
        return Barred(ForeignUnit);
      }
    }
    if m.fragment != None && m.fragment != Some(UnitPath) && m.load != NotFound {
      return Barred(ForeignUnit);
    }
    unit := Ours(f.Some?);
  }

  method ReadStored(m: Machine) returns (stored: Option<Env>)
    ensures stored == Stored(m.Value())
  {
    hide Parse;
    var f := m.Stat(EnvPath);
    if f.None? {
      return Some(map[]);
    }
    if f.value.Dir? {
      return None;
    }
    var parsed := ParseEnv(f.value.data);
    stored := if parsed.Settings? then Some(parsed.env) else None;
  }

  /** Creates what is missing and fixes what others could change or could not read;
      never rewrites a configuration. */
  method PlanConfig(m: Machine, starter: string) returns (ops: Option<seq<Op>>)
    ensures ops.None? <==> ConfigDir in m.files && m.files[ConfigDir].File?
    ensures ops.Some? ==> ops.value == ConfigDirOps(m.Value()) + ConfigOps(m.Value(), starter)
  {
    hide Loose;
    var steps: seq<Op> := [];
    var dir := m.Stat(ConfigDir);
    if dir.None? {
      steps := steps + [MakeDir(ConfigDir, MODE_DIR)];
    } else if !dir.value.Dir? {
      return None;
    } else if Loose(dir.value) {
      steps := steps + [Secure(ConfigDir, MODE_DIR)];
    }
    var cfg := m.Stat(ConfigPath);
    if cfg.None? {
      steps := steps + [Create(ConfigPath, starter, MODE_CONFIG)];
    } else if Loose(cfg.value) {
      steps := steps + [Secure(ConfigPath, MODE_CONFIG)];
    }
    ops := Some(steps);
  }

  /** Decides everything an install will do, changing nothing. */
  method PlanInstall(m: Machine, o: Options) returns (plan: Planned)
    ensures plan == InstallPlan(m.Value(), o)
  {
    hide Inspect, Stored, Resolve, Print, Loose, Header, ConfigDirOps, ConfigOps, OwnUnit;
    var unit := InspectUnit(m);
    if unit.Barred? {
      return Refused(unit.why);
    }
    var stored := ReadStored(m);
    if stored.None? {
      return Refused(BadStored);
    }
    var config := ConfigSeen(m.Value());
    var env := ResolveSettings(o.settings, stored.value, config);
    if env.Refuses? {
      return Refused(BadSettings);
    }
    var text := FormatEnv(o.texts.header, env.env);
    if text.Fault? {
      return Refused(Unstorable);
    }
    if !o.precheck(env.env, config) {
      return Refused(PrecheckFailed);
    }
    var ops: seq<Op> := [];
    InstalledMeans(m.Value());
    if unit.installed && Running(m.active) {
      ops := ops + [Systemctl(Stop)];
    }
    if o.exe != BinaryPath {
      ops := ops + [MakeDir(BinaryDir, MODE_DIR), Copy(o.exe, BinaryPath, MODE_BINARY)];
    }
    var fixes := PlanConfig(m, o.texts.starter);
    if fixes.None? {
      return Refused(NotDirectory);
    }
    ops := ops + fixes.value;
    ops := ops + [Write(EnvPath, text.data, MODE_ENV), Write(UnitPath, o.texts.unit, MODE_UNIT),
                  Systemctl(DaemonReload), Systemctl(Enable), Systemctl(Start)];
    assert ops == InstallOps(m.Value(), o, text.data);
    plan := Steps(ops, unit.installed);
  }

  /** An install that fails, at whatever steps, run again up to so many times, leaves
      the host as if nothing had failed as soon as one run succeeds. */
  method InstallRetried(m: Machine, o: Options, runs: nat) returns (ok: bool)
    requires Sound(m.Value(), o) && Sane(o) && InstallPlan(m.Value(), o).Steps?
    modifies m
    ensures ok ==> m.Value() == ExecAll(old(m.Value()), InstallPlan(old(m.Value()), o).ops)
    ensures InstallPlan(m.Value(), o).Steps?
    ensures !ok ==> ExecAll(m.Value(), InstallPlan(m.Value(), o).ops) ==
                    ExecAll(old(m.Value()), InstallPlan(old(m.Value()), o).ops)
  {
    hide InstallPlan, ExecAll, Sound, Sane;
    ok := false;
    for i := 0 to runs
      invariant Sound(m.Value(), o) && InstallPlan(m.Value(), o).Steps?
      invariant ExecAll(m.Value(), InstallPlan(m.Value(), o).ops) ==
                ExecAll(old(m.Value()), InstallPlan(old(m.Value()), o).ops)
    {
      ghost var h := m.Value();
      var plan := PlanInstall(m, o);
      var done;
      ghost var from := m.attempts;
      done, ok := Apply(m, plan.ops);
      InstallForgivesNothing(h, o, done, m.fails, from);
      InstallResumes(h, o, done);
      assert plan.ops[..|plan.ops|] == plan.ops;
      if ok {
        return;
      }
    }
  }

  lemma InstallForgivesNothing(h: Host, o: Options, n: nat, fails: nat -> bool, from: nat)
    requires InstallPlan(h, o).Steps? && n <= |InstallPlan(h, o).ops|
    ensures Carried(InstallPlan(h, o).ops[..n], fails, from) == InstallPlan(h, o).ops[..n]
  {
    hide Inspect, Stored, Resolve, Print, Loose, Header;
    var ops := InstallPlan(h, o).ops;
    NoneForgiven(ops[..n], fails, from);
  }

  lemma InstalledMeans(h: Host)
    ensures Inspect(h).Ours? ==> (Inspect(h).installed <==> UnitPath in h.files)
  {}

  /** Decides everything an uninstall will do: settings and binary go before the unit. */
  method PlanUninstall(m: Machine) returns (plan: Planned)
    ensures plan == UninstallPlan(m.Value())
  {
    var unit := InspectUnit(m);
    if unit.Barred? {
      return Refused(unit.why);
    }
    if !unit.installed {
      return NotInstalled;
    }
    var ops: seq<Op> := [];
    if Running(m.active) {
      ops := ops + [Systemctl(Stop)];
    }
    ops := ops + [Systemctl(Disable), Systemctl(ResetFailed)];
    var paths := [EnvPath, BinaryPath, UnitPath];
    ghost var before := ops;
    for i := 0 to |paths|
      invariant ops == before + REMOVALS[..i]
    {
      ops := ops + [Remove(paths[i])];
    }
    ops := ops + [Systemctl(DaemonReload)];
    assert ops == UninstallOps(m.Value());
    plan := Steps(ops, true);
  }
}
