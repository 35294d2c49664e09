/** The settings an install stores (internal/service/settings.go): the stored ones,
    those of the installer's environment, and what the operator is asked for. */
module Settings {
  import opened Text
  import opened EnvFile

  const TOKEN := "OMNISMITH_ACCESS_TOKEN"
  const PROJECT := "OMNISMITH_PROJECT_ID"

  type Getenv = string -> string

  /** What a prompt comes to. */
  datatype Reply = Typed(text: string) | NoTerminal | PromptBroken

  /** The config file as the loader finds it. */
  datatype Config = Absent | Content(data: string) | NoText

  /** Whether a configuration that loads leaves the project unset: what askProject
      learns from the loader, given the settings and the config file. */
  type Loader = (Env, Config) -> bool

  datatype Inputs = Inputs(names: seq<string>, getenv: Getenv, replaceToken: bool, secret: Reply, line: Reply,
                           unset: Loader)

  datatype SettingsFault = NoToken | TokenUnread | ProjectUnread

  datatype Resolved = Stores(env: Env) | Refuses(fault: SettingsFault)

  function Lookup(env: Env, k: string): string {
    if k in env then env[k] else ""
  }

  function Captured(env: Env, names: seq<string>, getenv: Getenv): Env {
    if names == [] then env
    else
      var before, k := Captured(env, names[..|names| - 1], getenv), names[|names| - 1];
      if TrimSpace(getenv(k)) != "" then before[k := TrimSpace(getenv(k))] else before
  }

  function WithProject(i: Inputs, env: Env, config: Config): Resolved {
    if Lookup(env, PROJECT) != "" || !i.unset(env, config) then Stores(env)
    else
      match i.line
      case Typed(id) => Stores(if TrimSpace(id) != "" then env[PROJECT := TrimSpace(id)] else env)
      case NoTerminal => Stores(env)
      case PromptBroken => Refuses(ProjectUnread)
  }

  predicate FromEnv(i: Inputs) { TrimSpace(i.getenv(TOKEN)) != "" }

  function WithToken(i: Inputs, env: Env): Resolved {
    if FromEnv(i) || (!i.replaceToken && Lookup(env, TOKEN) != "") then Stores(env)
    else
      match i.secret
      case Typed(t) => if TrimSpace(t) == "" then Refuses(NoToken) else Stores(env[TOKEN := TrimSpace(t)])
      case NoTerminal => Refuses(NoToken)
      case PromptBroken => Refuses(TokenUnread)
  }

  function Resolve(i: Inputs, stored: Env, config: Config): Resolved {
    var p := WithProject(i, Captured(stored, i.names, i.getenv), config);
    if p.Refuses? then p else WithToken(i, p.env)
  }

  method AskProject(i: Inputs, env: Env, config: Config) returns (r: Resolved)
    ensures r == WithProject(i, env, config)
  {
    if Lookup(env, PROJECT) != "" {
      return Stores(env);
    }
    if !i.unset(env, config) {
      return Stores(env);
    }
    if i.line.NoTerminal? {
      return Stores(env);
    }
    if i.line.PromptBroken? {
      return Refuses(ProjectUnread);
    }
    var id := TrimSpace(i.line.text);
    if id != "" {
      return Stores(env[PROJECT := id]);
    }
    r := Stores(env);
  }

  method ResolveSettings(i: Inputs, stored: Env, config: Config) returns (r: Resolved)
    ensures r == Resolve(i, stored, config)
  {
    hide TrimSpace;
    var env := stored;
    for n := 0 to |i.names|
      invariant env == Captured(stored, i.names[..n], i.getenv)
    {
      assert i.names[..n + 1][..n] == i.names[..n];
      var v := TrimSpace(i.getenv(i.names[n]));
      if v != "" {
        env := env[i.names[n] := v];
      }
    }
    assert i.names[..|i.names|] == i.names;
    r := AskProject(i, env, config);
    if r.Refuses? {
      return;
    }
    env := r.env;
    var fromEnv := TrimSpace(i.getenv(TOKEN)) != "";
    if !fromEnv && (i.replaceToken || Lookup(env, TOKEN) == "") {
      if i.secret.NoTerminal? {
        return Refuses(NoToken);
      }
      if i.secret.PromptBroken? {
        return Refuses(TokenUnread);
      }
      var tok := TrimSpace(i.secret.text);
      if tok == "" {
        return Refuses(NoToken);
      }
      env := env[TOKEN := tok];
    }
    r := Stores(env);
  }

  // ------------------------------------------------------------- laws

  /** A set variable replaces, an absent one keeps what was stored. */
  lemma {:induction false} CapturedExactly(env: Env, names: seq<string>, getenv: Getenv, k: string)
    ensures Lookup(Captured(env, names, getenv), k) ==
            if k in names && TrimSpace(getenv(k)) != "" then TrimSpace(getenv(k)) else Lookup(env, k)
    ensures k in Captured(env, names, getenv) <==> k in env || (k in names && TrimSpace(getenv(k)) != "")
  {
    hide TrimSpace;
    if names != [] {
      var n := |names| - 1;
      CapturedExactly(env, names[..n], getenv, k);
      assert k in names <==> k in names[..n] || k == names[n];
    }
  }

  /** The prompt for the project shows in what is stored exactly when neither the
      settings nor a configuration that loads set the project. */
  lemma ProjectAskedExactly(i: Inputs, env: Env, config: Config)
    ensures (forall line :: WithProject(i.(line := line), env, config) == WithProject(i, env, config)) <==>
            Lookup(env, PROJECT) != "" || !i.unset(env, config)
  {
    if Lookup(env, PROJECT) == "" && i.unset(env, config) {
      var other := if i.line.PromptBroken? then NoTerminal else PromptBroken;
      assert WithProject(i.(line := other), env, config) != WithProject(i, env, config);
    }
  }

  /** Where each stored value comes from: the environment if it sets one, else a prompt
      for a token that is missing or to be replaced or for a project set nowhere,
      else what was stored before. A token there always is. */
  lemma OriginOfEach(i: Inputs, stored: Env, config: Config, k: string)
    requires Resolve(i, stored, config).Stores? && TOKEN in i.names
    ensures var env := Resolve(i, stored, config).env;
            && Lookup(env, TOKEN) != ""
            && Lookup(env, k) ==
               if k in i.names && TrimSpace(i.getenv(k)) != "" then TrimSpace(i.getenv(k))
               else if k == TOKEN && (i.replaceToken || Lookup(stored, TOKEN) == "")
               then (if i.secret.Typed? then TrimSpace(i.secret.text) else "")
               else if k == PROJECT && Lookup(stored, PROJECT) == "" && i.line.Typed? &&
                       i.unset(Captured(stored, i.names, i.getenv), config)
               then TrimSpace(i.line.text)
               else Lookup(stored, k)
  {
    hide TrimSpace;
    var first := Captured(stored, i.names, i.getenv);
    CapturedExactly(stored, i.names, i.getenv, k);
    CapturedExactly(stored, i.names, i.getenv, TOKEN);
    CapturedExactly(stored, i.names, i.getenv, PROJECT);
    assert TOKEN != PROJECT;
    hide Captured;
    var second := WithProject(i, first, config).env;
    assert k != PROJECT ==> Lookup(second, k) == Lookup(first, k);
  }

  /** Capturing once more changes nothing in settings that already hold it. */
  lemma {:induction false} CaptureSettled(env: Env, names: seq<string>, getenv: Getenv)
    requires forall k :: k in names && TrimSpace(getenv(k)) != "" ==> k in env && env[k] == TrimSpace(getenv(k))
    ensures Captured(env, names, getenv) == env
  {
    hide TrimSpace;
    if names != [] {
      var n := |names| - 1;
      assert names == names[..n] + [names[n]];
      CaptureSettled(env, names[..n], getenv);
      assert names[n] in names;
      if TrimSpace(getenv(names[n])) != "" {
        assert env[names[n] := TrimSpace(getenv(names[n]))] == env;
      }
    }
  }

  predicate AlikeButToken(env: Env, env': Env) {
    env - {TOKEN} == env' - {TOKEN}
  }

  /** The loader's verdict on the project does not look at the token, and the
      starter file, all comments, reads like no file. */
  ghost predicate SaneLoader(unset: Loader, starter: string) {
    && (forall env, env', config :: AlikeButToken(env, env') ==> unset(env, config) == unset(env', config))
    && (forall env :: unset(env, Content(starter)) == unset(env, Absent))
  }

  predicate SameConfig(a: Config, b: Config, starter: string) {
    a == b || (a == Absent && b == Content(starter))
  }

  /** Resolving again, from what was stored, with the same environment and the same
      answers, stores the same settings, even when the token is replaced. */
  lemma ResolveSettles(i: Inputs, stored: Env, config: Config, config': Config, starter: string)
    requires SaneLoader(i.unset, starter) && SameConfig(config, config', starter)
    requires Resolve(i, stored, config).Stores?
    requires TOKEN in i.names
    ensures var env := Resolve(i, stored, config).env; Resolve(i, env, config') == Stores(env)
  {
    hide TrimSpace;
    var first := Captured(stored, i.names, i.getenv);
    var second := WithProject(i, first, config).env;
    var env := WithToken(i, second).env;
    assert TOKEN != PROJECT;
    forall k | k in i.names && TrimSpace(i.getenv(k)) != "" ensures k in env && env[k] == TrimSpace(i.getenv(k)) {
      CapturedExactly(stored, i.names, i.getenv, k);
    }
    CaptureSettled(env, i.names, i.getenv);
    ProjectSettled(i, first, config, config', starter);
  }

  lemma ProjectSettled(i: Inputs, first: Env, config: Config, config': Config, starter: string)
    requires SaneLoader(i.unset, starter) && SameConfig(config, config', starter)
    requires WithProject(i, first, config).Stores? && WithToken(i, WithProject(i, first, config).env).Stores?
    ensures var env := WithToken(i, WithProject(i, first, config).env).env;
            WithProject(i, env, config') == Stores(env) && WithToken(i, env) == Stores(env)
  {
    hide TrimSpace;
    var second := WithProject(i, first, config).env;
    var env := WithToken(i, second).env;
    assert TOKEN != PROJECT;
    assert Lookup(env, PROJECT) == Lookup(second, PROJECT);
    assert AlikeButToken(env, second);
    assert i.unset(env, config') == i.unset(second, config);
  }
}
