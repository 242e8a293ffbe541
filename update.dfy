/** `Update` (internal/setup/update.go): pull the dotfiles repository,
    reload the manifest when it changed, restow the active groups, refresh
    the external assets on request, and record the path in the state.
    git, the manifest loader, platform detection and the state file are
    oracles. */
module Update {
  import opened Text
  import opened Manifest
  import Stow
  import External

  datatype UpdateOptions = UpdateOptions(updateExternal: bool, skipRestow: bool)

  /** What the update learns from outside the program. */
  datatype Env = Env(
    gitDirExists: bool,             // os.Stat(<dotfiles>/.git) finds something
    oldHeadOut: Option<string>,     // `git rev-parse HEAD` before the pull, None when it fails
    pullOk: bool,                   // `git pull --rebase` in the dotfiles directory
    newHeadOut: Option<string>,     // `git rev-parse HEAD` after the pull
    diffOut: Option<string>,        // `git diff --name-only old new -- <manifest>`
    reload: Option<Config>,         // config.LoadFromPath, None when it fails
    stow: Stow.Env,
    detect: Option<Platform>,       // platform.Detect
    ext: External.Env,
    saveOk: bool)                   // state.Save

  datatype UpdateError = NotGitRepository(path: string) | PullFailed

  /** What an update that returned nil did: the config and state it leaves
      behind, and the restow and external runs it made, if any. */
  datatype UpdateOutcome = UpdateOutcome(
    cfg: Config,
    state: Option<State>,
    restowed: Option<Stow.StowResult>,
    externalRun: Option<Result<External.ExternalResult, External.CloneError>>)

  /** `gitHead`: the trimmed output, or "" when git fails. */
  function Head(out: Option<string>): string {
    match out
    case None => ""
    case Some(o) => TrimSpace(o)
  }

  /** `gitFileChanged`: git names the file; a failure counts as unchanged. */
  predicate FileChanged(out: Option<string>) {
    out.Some? && TrimSpace(out.value) != ""
  }

  /** The manifest is reloaded when the pull moved HEAD and touched it. */
  predicate ShouldReload(env: Env) {
    var oldHead := Head(env.oldHeadOut);
    var newHead := Head(env.newHeadOut);
    oldHead != "" && newHead != "" && oldHead != newHead && FileChanged(env.diffOut)
  }

  /** The config after the reload step; a failed reload keeps the old one. */
  function ReloadedConfig(cfg: Config, env: Env): Config {
    if ShouldReload(env) && env.reload.Some? then env.reload.value else cfg
  }

  /** The groups to restow: those the state names, else the core groups. */
  function RestowSet(cfg: Config, st: Option<State>): seq<ConfigItem> {
    if st.Some? && |st.value.configs| > 0 then StateConfigs(cfg, st.value.configs) else cfg.core
  }

  /** Restowing runs with neither dry run nor force. */
  const RestowOptions := Stow.Options(false, false)

  function RestowStep(cfg: Config, dotfiles: string, st: Option<State>, opts: UpdateOptions, env: Env)
    : Option<Stow.StowResult>
  {
    var configs := RestowSet(cfg, st);
    if opts.skipRestow || |configs| == 0 then None
    else Some(Stow.BatchAll(Stow.RestowOp, dotfiles, configs, RestowOptions, env.stow))
  }

  /** Externals are refreshed with `Update` set and no dry run. */
  const RefreshOptions := External.Options(false, true)

  function ExternalStep(cfg: Config, opts: UpdateOptions, env: Env)
    : Option<Result<External.ExternalResult, External.CloneError>>
  {
    if !opts.updateExternal || |cfg.external| == 0 || env.detect.None? then None
    else if !env.ext.gitAvailable then Some(Err(External.GitNotFound))
    else Some(Ok(External.ClassifyAll(cfg.external, env.detect.value, RefreshOptions, env.ext)))
  }

  /** The state with the dotfiles path recorded; whether saving it worked
      does not matter. */
  function StateStep(st: Option<State>, dotfiles: string): Option<State> {
    match st
    case None => None
    case Some(s) => Some(s.(dotfilesPath := dotfiles))
  }

  /** The whole update. */
  function PlannedUpdate(cfg: Config, dotfiles: string, st: Option<State>, opts: UpdateOptions, env: Env)
    : Result<UpdateOutcome, UpdateError>
  {
    if !env.gitDirExists then Err(NotGitRepository(dotfiles))
    else if !env.pullOk then Err(PullFailed)
    else
      var cfg' := ReloadedConfig(cfg, env);
      Ok(UpdateOutcome(cfg', StateStep(st, dotfiles), RestowStep(cfg', dotfiles, st, opts, env),
                       ExternalStep(cfg', opts, env)))
  }

  // ---------------------------------------------------------------------
  // The update as the program runs it

  /** The loop that builds the restow set from the state. */
  method SelectRestow(cfg: Config, st: Option<State>) returns (configs: seq<ConfigItem>)
    ensures configs == RestowSet(cfg, st)
  {
    if st.Some? && |st.value.configs| > 0 {
      var scs := st.value.configs;
      configs := [];
      var i := 0;
      while i < |scs|
        invariant 0 <= i <= |scs|
        invariant configs == StateConfigs(cfg, scs[..i])
      {
        assert scs[..i + 1][..i] == scs[..i];
        var item := GetConfigByName(cfg, scs[i].name);
        if item.Some? {
          configs := configs + [item.value];
        }
        i := i + 1;
      }
      assert scs[..i] == scs;
    } else {
      configs := cfg.core;
    }
  }

  /** The head comparison and the conditional reload. */
  method ReloadConfig(cfg: Config, env: Env) returns (current: Config)
    ensures current == ReloadedConfig(cfg, env)
  {
    current := cfg;
    var oldHead := Head(env.oldHeadOut);
    var newHead := Head(env.newHeadOut);
    if oldHead != "" && newHead != "" && oldHead != newHead {
      var configChanged := FileChanged(env.diffOut);
      if configChanged && env.reload.Some? {
        current := env.reload.value;
      }
    }
  }

  method RestowActive(cfg: Config, dotfiles: string, st: Option<State>, opts: UpdateOptions, env: Env)
    returns (restowed: Option<Stow.StowResult>)
    ensures restowed == RestowStep(cfg, dotfiles, st, opts, env)
  {
    restowed := None;
    if !opts.skipRestow {
      var configs := SelectRestow(cfg, st);
      if |configs| > 0 {
        var result := Stow.RestowConfigs(dotfiles, configs, RestowOptions, env.stow);
        restowed := Some(result);
      }
    }
  }

  method RefreshExternal(cfg: Config, opts: UpdateOptions, env: Env)
    returns (externalRun: Option<Result<External.ExternalResult, External.CloneError>>)
    ensures externalRun == ExternalStep(cfg, opts, env)
  {
    externalRun := None;
    if opts.updateExternal && |cfg.external| > 0 {
      if env.detect.Some? {
        var result := External.CloneExternal(cfg, env.detect.value, RefreshOptions, env.ext);
        externalRun := Some(result);
      }
    }
  }

  /** `Update`: the caller's config and state are returned rather than
      overwritten. */
  method Update(cfg: Config, dotfiles: string, st: Option<State>, opts: UpdateOptions, env: Env)
    returns (r: Result<UpdateOutcome, UpdateError>)
    ensures r == PlannedUpdate(cfg, dotfiles, st, opts, env)
  {
    if !env.gitDirExists {
      return Err(NotGitRepository(dotfiles));
    }
    if !env.pullOk {
      return Err(PullFailed);
    }
    var current := ReloadConfig(cfg, env);
    var restowed := RestowActive(current, dotfiles, st, opts, env);
    var externalRun := RefreshExternal(current, opts, env);
    var state := st;
    if state.Some? {
      state := Some(state.value.(dotfilesPath := dotfiles));
    }
    return Ok(UpdateOutcome(current, state, restowed, externalRun));
  }

  // ---------------------------------------------------------------------
  // Properties

  /** Without a `.git` entry nothing else happens: no pull, no restow, no
      state change, whatever the other oracles say. */
  lemma NotGitStopsEverything(cfg: Config, dotfiles: string, st: Option<State>, opts: UpdateOptions, env1: Env, env2: Env)
    requires !env1.gitDirExists && !env2.gitDirExists
    ensures PlannedUpdate(cfg, dotfiles, st, opts, env1) == PlannedUpdate(cfg, dotfiles, st, opts, env2)
              == Err(NotGitRepository(dotfiles))
  {
  }

  /** An update that succeeds pulled in a git repository. */
  lemma SuccessMeansPulled(cfg: Config, dotfiles: string, st: Option<State>, opts: UpdateOptions, env: Env)
    ensures PlannedUpdate(cfg, dotfiles, st, opts, env).Ok? <==> env.gitDirExists && env.pullOk
    ensures env.gitDirExists && !env.pullOk ==> PlannedUpdate(cfg, dotfiles, st, opts, env) == Err(PullFailed)
  {
  }

  /** The config changes only through a reload, which needs two known,
      different heads and a manifest git reports as changed. */
  lemma ReloadOnlyWhenChanged(cfg: Config, dotfiles: string, st: Option<State>, opts: UpdateOptions, env: Env)
    requires PlannedUpdate(cfg, dotfiles, st, opts, env).Ok?
    ensures var out := PlannedUpdate(cfg, dotfiles, st, opts, env).value;
            out.cfg != cfg ==>
              && Head(env.oldHeadOut) != "" && Head(env.newHeadOut) != ""
              && Head(env.oldHeadOut) != Head(env.newHeadOut)
              && FileChanged(env.diffOut) && env.reload == Some(out.cfg)
    ensures !FileChanged(env.diffOut) ==> PlannedUpdate(cfg, dotfiles, st, opts, env).value.cfg == cfg
  {
  }

  /** Identical heads never reload, whatever the diff says: two git answers
      that differ only in surrounding white space name the same head. */
  lemma SameHeadKeepsConfig(cfg: Config, env: Env)
    requires Head(env.oldHeadOut) == Head(env.newHeadOut)
    ensures ReloadedConfig(cfg, env) == cfg
  {
  }

  /** The restow set: with state entries, the declared groups they name
      (every name the manifest knows contributes, unknown ones are
      dropped); without them, the core groups. */
  lemma RestowSetMeaning(cfg: Config, st: Option<State>)
    ensures st.None? || st.value.configs == [] ==> RestowSet(cfg, st) == cfg.core
    ensures st.Some? && st.value.configs != [] ==>
              && |RestowSet(cfg, st)| <= |st.value.configs|
              && (forall c :: c in RestowSet(cfg, st) ==> c in GetAllConfigs(cfg) && ConfigState(c.name) in st.value.configs)
              && (forall sc :: sc in st.value.configs && GetConfigByName(cfg, sc.name).Some? ==>
                    GetConfigByName(cfg, sc.name).value in RestowSet(cfg, st))
  {
    if st.Some? && st.value.configs != [] {
      var scs := st.value.configs;
      StateConfigsSound(cfg, scs);
      StateConfigsComplete(cfg, scs);
      forall c | c in RestowSet(cfg, st)
        ensures c in GetAllConfigs(cfg) && ConfigState(c.name) in scs
      {
        var k :| 0 <= k < |StateConfigs(cfg, scs)| && StateConfigs(cfg, scs)[k] == c;
      }
      forall sc | sc in scs && GetConfigByName(cfg, sc.name).Some?
        ensures GetConfigByName(cfg, sc.name).value in RestowSet(cfg, st)
      {
        var j :| 0 <= j < |scs| && scs[j] == sc;
      }
    }
  }

  /** `SkipRestow` suppresses all restowing; otherwise the restow set is
      restowed exactly when it is non-empty, on the reloaded config. */
  lemma RestowGate(cfg: Config, dotfiles: string, st: Option<State>, opts: UpdateOptions, env: Env)
    requires PlannedUpdate(cfg, dotfiles, st, opts, env).Ok?
    ensures var out := PlannedUpdate(cfg, dotfiles, st, opts, env).value;
            && (opts.skipRestow ==> out.restowed.None?)
            && (out.restowed.Some? <==> !opts.skipRestow && RestowSet(out.cfg, st) != [])
            && (out.restowed.Some? ==>
                  Stow.Size(out.restowed.value) == |RestowSet(out.cfg, st)|)
  {
    var out := PlannedUpdate(cfg, dotfiles, st, opts, env).value;
    if out.restowed.Some? {
      Stow.BatchSize(Stow.RestowOp, dotfiles, RestowSet(out.cfg, st), RestowOptions, env.stow);
    }
  }

  /** Externals are refreshed only on request, with assets declared and the
      platform detected; a refresh classifies every asset. */
  lemma ExternalGate(cfg: Config, dotfiles: string, st: Option<State>, opts: UpdateOptions, env: Env)
    requires PlannedUpdate(cfg, dotfiles, st, opts, env).Ok?
    ensures var out := PlannedUpdate(cfg, dotfiles, st, opts, env).value;
            && (out.externalRun.Some? <==> opts.updateExternal && out.cfg.external != [] && env.detect.Some?)
            && (out.externalRun.Some? && out.externalRun.value.Ok? ==>
                  var res := out.externalRun.value.value;
                  |res.cloned| + |res.updated| + |res.failed| + |res.skipped| == |out.cfg.external|)
  {
    var out := PlannedUpdate(cfg, dotfiles, st, opts, env).value;
    if out.externalRun.Some? && out.externalRun.value.Ok? {
      External.ClassifySize(out.cfg.external, env.detect.value, RefreshOptions, env.ext);
    }
  }

  /** A successful update records the dotfiles path in the state and
      changes nothing else in it; a failing save changes nothing. */
  lemma StateRecordsPath(cfg: Config, dotfiles: string, st: Option<State>, opts: UpdateOptions, env1: Env, env2: Env)
    requires PlannedUpdate(cfg, dotfiles, st, opts, env1).Ok?
    requires env2 == env1.(saveOk := !env1.saveOk)
    ensures var out := PlannedUpdate(cfg, dotfiles, st, opts, env1).value;
            && out.state.Some? == st.Some?
            && (st.Some? ==> out.state.value.dotfilesPath == dotfiles
                             && out.state.value.(dotfilesPath := st.value.dotfilesPath) == st.value)
    ensures PlannedUpdate(cfg, dotfiles, st, opts, env1) == PlannedUpdate(cfg, dotfiles, st, opts, env2)
  {
  }
}
