/** An uninstall that stops anywhere: what running it again does, and the one place
    where it does not finish the work (internal/systemd/uninstall.go). */
module UninstallRecovery {
  import opened Schema
  import opened EnvFile
  import opened EnvFileRoundTrip
  import opened Settings
  import opened Install
  import opened InstallRecovery

  function Settle(s: ActiveState): ActiveState {
    if Running(s) || s.FailedState? then Inactive else s
  }

  /** What an uninterrupted uninstall leaves. */
  function Uninstalled(h: Host): Host {
    var loaded := h.fragment == Some(UnitPath);
    h.(files := h.files - {EnvPath, BinaryPath, UnitPath},
       active := Settle(h.active), enabled := false,
       load := if loaded then NotFound else h.load,
       fragment := if loaded then None else h.fragment)
  }

  /** Every step but the reload moves towards the same end. */
  lemma StepTowardsEnd(x: Host, op: Op)
    requires op in [Systemctl(Disable), Systemctl(ResetFailed), Remove(EnvPath), Remove(BinaryPath), Remove(UnitPath)]
             || (op == Systemctl(Stop) && Running(x.active))
    ensures Uninstalled(Exec(x, op)) == Uninstalled(x)
    ensures Exec(x, op).fragment == x.fragment && Exec(x, op).load == x.load
  {
    if op.Remove? {
      assert (x.files - {op.path}) - {EnvPath, BinaryPath, UnitPath} == x.files - {EnvPath, BinaryPath, UnitPath};
    }
  }

  const STOPPED: seq<Op> := [Systemctl(Disable), Systemctl(ResetFailed)] + REMOVALS

  lemma UninstallShape(h: Host)
    ensures UninstallOps(h) == (if Running(h.active) then [Systemctl(Stop)] else []) + STOPPED && |STOPPED| == 6
    ensures forall k :: 0 <= k < 5 ==>
              STOPPED[k] in [Systemctl(Disable), Systemctl(ResetFailed), Remove(EnvPath), Remove(BinaryPath),
                             Remove(UnitPath)]
  {}

  ghost predicate Prefixed(h: Host, x: Host, n: nat) {
    && x.root == h.root && x.booted == h.booted && x.onStart == h.onStart && !Running(x.active)
    && (n > 0 ==> !x.enabled) && (n > 1 ==> !x.active.FailedState?)
    && (EnvPath in x.files ==> n <= 2) && (BinaryPath in x.files ==> n <= 3)
    && (UnitPath in x.files <==> UnitPath in h.files && n <= 4)
    && (forall p :: p !in {EnvPath, BinaryPath, UnitPath} ==> At(x, p) == At(h, p))
    && (UnitPath in x.files ==> x.files[UnitPath] == h.files[UnitPath])
    && (n < 6 ==> Uninstalled(x) == Uninstalled(h) && x.load == h.load && x.fragment == h.fragment)
  }

  /** After n of the steps that follow the stop: files go in order, the unit file
      after the settings and the binary, and nothing else changes. */
  lemma {:induction false} StoppedPrefix(h: Host, n: nat)
    requires n <= 6 && !Running(h.active)
    ensures Prefixed(h, ExecAll(h, STOPPED[..n]), n)
  {
    hide Uninstalled, Prefixed, Exec, Running;
    UninstallShape(h);
    if n == 0 {
      NothingYet(h);
      assert STOPPED[..0] == [];
    } else {
      var x, op := ExecAll(h, STOPPED[..n - 1]), STOPPED[n - 1];
      StoppedPrefix(h, n - 1);
      ExecPrefix(h, STOPPED, n - 1);
      if n < 6 { StepTowardsEnd(x, op); }
      StoppedStep(h, x, n - 1);
    }
  }

  lemma NothingYet(h: Host)
    requires !Running(h.active)
    ensures Prefixed(h, h, 0)
  {}

  lemma StoppedStep(h: Host, x: Host, n: nat)
    requires n < 6 && Prefixed(h, x, n)
    requires n < 5 ==> Uninstalled(Exec(x, STOPPED[n])) == Uninstalled(x)
    ensures Prefixed(h, Exec(x, STOPPED[n]), n + 1)
  {
    hide Uninstalled;
    var op, y := STOPPED[n], Exec(x, STOPPED[n]);
    NothingElseChanges(x, op);
    if op.Systemctl? {
      assert y.files == x.files;
    } else {
      assert y.active == x.active && y.enabled == x.enabled && y.load == x.load && y.fragment == x.fragment;
    }
    forall p | p !in {EnvPath, BinaryPath, UnitPath} ensures At(y, p) == At(h, p) {
      assert At(x, p) == At(h, p);
    }
  }

  lemma NothingElseChanges(x: Host, op: Op)
    requires op.Systemctl? || op.Remove?
    ensures var y := Exec(x, op);
            && y.root == x.root && y.booted == x.booted && y.onStart == x.onStart
            && (forall p :: p in y.files <==> p in x.files && op != Remove(p))
            && (forall p :: p in y.files ==> y.files[p] == x.files[p])
  {}

  /** The host once the service has stopped: the same end lies ahead. */
  function Halted(h: Host): Host {
    if Running(h.active) then Exec(h, Systemctl(Stop)) else h
  }

  lemma HaltedKeeps(h: Host)
    ensures !Running(Halted(h).active) && Uninstalled(Halted(h)) == Uninstalled(h)
    ensures Halted(h).files == h.files && Inspect(Halted(h)) == Inspect(h) && Halted(h).fragment == h.fragment
    ensures Halted(h).load == h.load
  {
    if Running(h.active) { StepTowardsEnd(h, Systemctl(Stop)); }
  }

  /** A prefix of an uninstall is the host itself, or a prefix of what follows the stop. */
  lemma PrefixIsHalted(h: Host, n: nat)
    requires n <= |UninstallOps(h)|
    ensures var m := n - (|UninstallOps(h)| - 6);
            ExecAll(h, UninstallOps(h)[..n]) == if m < 0 then h else ExecAll(Halted(h), STOPPED[..m])
  {
    hide Uninstalled, REMOVALS;
    UninstallShape(h);
    var ops := UninstallOps(h);
    if Running(h.active) {
      if n > 0 {
        assert ops[..n] == [Systemctl(Stop)] + STOPPED[..n - 1];
        ExecAppend(h, [Systemctl(Stop)], STOPPED[..n - 1]);
        ExecOne(h, Systemctl(Stop));
      }
    } else {
      assert ops == STOPPED;
    }
  }

  lemma ExecOne(h: Host, op: Op)
    ensures ExecAll(h, [op]) == Exec(h, op)
  {
    assert [op][..0] == [];
  }

  /** In every prefix of an uninstall the unit file is gone only after the settings,
      with the token, and the binary are. */
  lemma UnitGoesLast(h: Host, n: nat)
    requires n <= |UninstallOps(h)| && UnitPath in h.files
    ensures var x := ExecAll(h, UninstallOps(h)[..n]);
            UnitPath !in x.files ==> EnvPath !in x.files && BinaryPath !in x.files
  {
    hide Uninstalled, UninstallOps, Exec, Running;
    var m := n - (|UninstallOps(h)| - 6);
    UninstallShape(h);
    HaltedKeeps(h);
    PrefixIsHalted(h, n);
    if m >= 0 { StoppedPrefix(Halted(h), m); }
  }

  /** An uninterrupted uninstall. */
  lemma UninstallReaches(h: Host)
    ensures ExecAll(h, UninstallOps(h)) == Uninstalled(h)
  {
    hide UninstallOps, Running, Uninstalled;
    UninstallShape(h);
    HaltedKeeps(h);
    PrefixIsHalted(h, |UninstallOps(h)|);
    assert UninstallOps(h)[..|UninstallOps(h)|] == UninstallOps(h) && STOPPED[..6] == STOPPED;
    var x := ExecAll(Halted(h), STOPPED[..5]);
    StoppedPrefix(Halted(h), 5);
    ExecPrefix(Halted(h), STOPPED, 5);
    LastIsReload(x);
  }

  /** The reload forgets the unit. */
  lemma LastIsReload(x: Host)
    requires UnitPath !in x.files && BinaryPath !in x.files && EnvPath !in x.files
    requires !Running(x.active) && !x.active.FailedState? && !x.enabled
    ensures Exec(x, Systemctl(DaemonReload)) == Uninstalled(x)
  {
    assert x.files == x.files - {EnvPath, BinaryPath, UnitPath};
  }

  /** What comes before the reset-failed. */
  function BeforeReset(h: Host): seq<Op> {
    (if Running(h.active) then [Systemctl(Stop)] else []) + [Systemctl(Disable)]
  }

  lemma InTurn(x: Host)
    ensures ExecAll(x, REMOVALS) ==
            Exec(Exec(Exec(Exec(x, Remove(EnvPath)), Remove(BinaryPath)), Remove(UnitPath)), Systemctl(DaemonReload))
  {
    hide Exec;
    ExecPrefix(x, REMOVALS, 0);
    ExecPrefix(x, REMOVALS, 1);
    ExecPrefix(x, REMOVALS, 2);
    ExecPrefix(x, REMOVALS, 3);
    assert REMOVALS[..4] == REMOVALS && REMOVALS[..0] == [];
  }

  lemma RemovalsRemove(x: Host)
    ensures ExecAll(x, REMOVALS) == Uninstalled(x).(active := x.active, enabled := x.enabled)
  {
    hide Running, Settle, ExecAll;
    InTurn(x);
    assert x.files - {EnvPath} - {BinaryPath} - {UnitPath} == x.files - {EnvPath, BinaryPath, UnitPath};
  }

  /** An uninstall without its reset leaves a failed service marked as failed, and is
      otherwise the same. */
  lemma WithoutReset(h: Host)
    ensures ExecAll(h, BeforeReset(h) + REMOVALS) == Uninstalled(h) <==> !h.active.FailedState?
  {
    hide REMOVALS;
    ExecAppend(h, BeforeReset(h), REMOVALS);
    var x := ExecAll(h, BeforeReset(h));
    if Running(h.active) {
      ExecAppend(h, [Systemctl(Stop)], [Systemctl(Disable)]);
      ExecOne(h, Systemctl(Stop));
      ExecOne(Exec(h, Systemctl(Stop)), Systemctl(Disable));
    } else {
      assert BeforeReset(h) == [Systemctl(Disable)];
      ExecOne(h, Systemctl(Disable));
    }
    RemovalsRemove(x);
  }

  /** Uninstall run to its end, or nothing where there is nothing to uninstall. */
  function Rerun(x: Host): Host {
    if UninstallPlan(x).Steps? then ExecAll(x, UninstallPlan(x).ops) else x
  }

  /** What a prefix leaves, short of the last step, has the same end ahead. */
  lemma PrefixEndsAlike(h: Host, n: nat)
    requires n < |UninstallOps(h)|
    ensures Uninstalled(ExecAll(h, UninstallOps(h)[..n])) == Uninstalled(h)
  {
    hide Uninstalled, UninstallOps, Exec, Running;
    var m := n - (|UninstallOps(h)| - 6);
    UninstallShape(h);
    HaltedKeeps(h);
    PrefixIsHalted(h, n);
    if m >= 0 { StoppedPrefix(Halted(h), m); }
  }

  /** As long as the unit file is there, uninstall finds it. */
  lemma PrefixFindsUnit(h: Host, n: nat)
    requires UninstallPlan(h).Steps? && n + 1 < |UninstallOps(h)|
    ensures UninstallPlan(ExecAll(h, UninstallOps(h)[..n])).Steps?
  {
    hide Uninstalled, UninstallOps, Exec, Running, OwnUnit;
    var m := n - (|UninstallOps(h)| - 6);
    UninstallShape(h);
    HaltedKeeps(h);
    PrefixIsHalted(h, n);
    if m >= 0 { StoppedPrefix(Halted(h), m); }
  }

  /** Before the unit file is gone, running again finishes. */
  lemma EarlyResumes(h: Host, n: nat)
    requires UninstallPlan(h).Steps? && n + 1 < |UninstallOps(h)|
    ensures Rerun(ExecAll(h, UninstallOps(h)[..n])) == Uninstalled(h)
  {
    hide Uninstalled, UninstallOps, ExecAll, Inspect;
    var x := ExecAll(h, UninstallOps(h)[..n]);
    PrefixEndsAlike(h, n);
    PrefixFindsUnit(h, n);
    UninstallReaches(x);
  }

  /** With the unit file gone and the reload to come, nothing is found. */
  lemma LateResumes(h: Host)
    requires UninstallPlan(h).Steps?
    ensures var n := |UninstallOps(h)| - 1;
            n >= 0 && (Rerun(ExecAll(h, UninstallOps(h)[..n])) == Uninstalled(h) <==> h.fragment != Some(UnitPath))
  {
    hide Uninstalled, UninstallOps, Exec, Running, Inspect;
    UninstallShape(h);
    HaltedKeeps(h);
    PrefixIsHalted(h, |UninstallOps(h)| - 1);
    StoppedPrefix(Halted(h), 5);
    Unfinished(h, ExecAll(h, UninstallOps(h)[..|UninstallOps(h)| - 1]));
  }

  /** Running uninstall again after any prefix ends where an uninterrupted one does,
      except in one place: when the unit file has been removed and systemd, which
      loaded the unit from it, has not been told. Then nothing is found to uninstall. */
  lemma UninstallResumesExactly(h: Host, n: nat)
    requires UninstallPlan(h).Steps? && n <= |UninstallOps(h)|
    ensures var ops := UninstallOps(h);
            var x := ExecAll(h, ops[..n]);
            Rerun(x) == ExecAll(h, ops) <==> !(n == |ops| - 1 && h.fragment == Some(UnitPath))
  {
    hide Uninstalled, UninstallOps, ExecAll, Inspect;
    var ops := UninstallOps(h);
    UninstallReaches(h);
    if n + 1 < |ops| {
      EarlyResumes(h, n);
    } else if n < |ops| {
      LateResumes(h);
    } else {
      assert ops[..n] == ops;
      NothingFound(h);
    }
  }

  /** Neither install nor uninstall does anything to a unit that is not omnistat's own;
      and after any prefix of either, the unit is still its own or not there. */
  lemma OursThroughout(h: Host, o: Options, n: nat)
    requires Sound(h, o)
    ensures !InstallPlan(h, o).Refused? || !UninstallPlan(h).Refused? ==> Inspect(h).Ours?
    ensures InstallPlan(h, o).Steps? && n <= |InstallPlan(h, o).ops| ==>
              Inspect(ExecAll(h, InstallPlan(h, o).ops[..n])).Ours?
    ensures UninstallPlan(h).Steps? && n <= |UninstallPlan(h).ops| ==>
              Inspect(ExecAll(h, UninstallPlan(h).ops[..n])).Ours?
  {
    hide Inspect, Sound, UninstallOps, InstallOps, ExecAll, Resolve, Print, Stored, ConfigSeen, Header;
    if InstallPlan(h, o).Steps? && n <= |InstallPlan(h, o).ops| {
      var env := Resolve(o.settings, Stored(h).value, ConfigSeen(h)).env;
      var text := Print(Header(o.texts.header), env).data;
      PrefixBetween(h, o, text, n);
      InspectsAgain(h, o, text, ExecAll(h, InstallOps(h, o, text)[..n]));
    }
    if UninstallPlan(h).Steps? && n <= |UninstallPlan(h).ops| { UninstallKeepsOurs(h, n); }
  }

  lemma UninstallKeepsOurs(h: Host, n: nat)
    requires UninstallPlan(h).Steps? && n <= |UninstallOps(h)|
    ensures Inspect(ExecAll(h, UninstallOps(h)[..n])).Ours?
  {
    hide Uninstalled, UninstallOps, Exec, Running, OwnUnit, Inspect;
    var m := n - (|UninstallOps(h)| - 6);
    UninstallShape(h);
    HaltedKeeps(h);
    PrefixIsHalted(h, n);
    if m == 6 {
      assert UninstallOps(h)[..n] == UninstallOps(h);
      UninstallReaches(h);
      NothingFound(h);
    } else if m >= 0 {
      StoppedPrefix(Halted(h), m);
      PrefixedIsOurs(Halted(h), ExecAll(h, UninstallOps(h)[..n]), m);
    }
  }

  lemma PrefixedIsOurs(h: Host, x: Host, n: nat)
    requires Prefixed(h, x, n) && n < 6 && Inspect(h).Ours?
    ensures Inspect(x).Ours?
  {
    hide Uninstalled, OwnUnit;
  }

  /** What the gap leaves: the unit still loaded, and nothing else. */
  lemma Unfinished(h: Host, x: Host)
    requires UninstallPlan(h).Steps? && Prefixed(Halted(h), x, 5) && x.load == h.load && x.fragment == h.fragment
    ensures UninstallPlan(x) == NotInstalled
    ensures x == Uninstalled(h) <==> h.fragment != Some(UnitPath)
    ensures Uninstalled(h) == if h.fragment == Some(UnitPath) then x.(load := NotFound, fragment := None) else x
  {
    HaltedKeeps(h);
    assert x.files == x.files - {EnvPath, BinaryPath, UnitPath};
    assert Uninstalled(x) == Uninstalled(h);
  }

  lemma NothingFound(h: Host)
    requires UninstallPlan(h).Steps?
    ensures UninstallPlan(Uninstalled(h)) == NotInstalled
  {}
}
