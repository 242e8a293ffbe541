/** `Uninstall` (internal/setup/uninstall.go): unstow the active groups,
    optionally remove the external assets and the machine-specific files,
    then delete the state file. Removal of machine files and of the state
    file are oracles. */
module Uninstall {
  import opened Manifest
  import Stow
  import External

  datatype UninstallOptions = UninstallOptions(removeExternal: bool, removeMachine: bool)

  datatype Env = Env(
    stow: Stow.Env,
    ext: External.Env,
    removeMachineOk: MachinePrompt -> bool,   // machine.RemoveMachineConfig succeeds
    deleteOk: bool)                           // state.Delete succeeds

  /** An asset whose removal failed, with the reason `RemoveExternal` gave. */
  datatype RemovalFailure = RemovalFailure(ext: ExternalDep, error: External.RemoveError)

  /** What the uninstall did; its failures are only reported. */
  datatype UninstallReport = UninstallReport(
    unstowed: Option<Stow.StowResult>,
    externalFailures: seq<RemovalFailure>,
    machineFailures: seq<MachinePrompt>)

  datatype UninstallError = StateDeleteFailed

  /** The groups to unstow: those the state names, else every group. */
  function UnstowSet(cfg: Config, st: Option<State>): seq<ConfigItem> {
    if st.Some? && |st.value.configs| > 0 then StateConfigs(cfg, st.value.configs) else GetAllConfigs(cfg)
  }

  /** Removal of assets runs without dry run. */
  const RemoveOptions := External.Options(false, false)

  /** The failed removals, in declaration order; each asset is removed by
      its id. */
  function ExternalFailures(cfg: Config, exts: seq<ExternalDep>, env: Env): seq<RemovalFailure>
    decreases |exts|
  {
    if exts == [] then []
    else
      var n := |exts| - 1;
      ExternalFailures(cfg, exts[..n], env) + FailureOf(cfg, exts[n], env)
  }

  lemma ExternalFailuresLast(cfg: Config, exts: seq<ExternalDep>, env: Env)
    requires exts != []
    ensures ExternalFailures(cfg, exts, env)
              == ExternalFailures(cfg, exts[..|exts| - 1], env) + FailureOf(cfg, exts[|exts| - 1], env)
  {
  }

  /** What removing one asset adds to the failures. */
  function FailureOf(cfg: Config, e: ExternalDep, env: Env): seq<RemovalFailure> {
    var err := External.RemoveExternal(cfg, e.id, RemoveOptions, env.ext);
    if err.Some? then [RemovalFailure(e, err.value)] else []
  }

  /** The machine configs whose files could not be removed, in order. */
  function MachineFailures(mcs: seq<MachinePrompt>, env: Env): seq<MachinePrompt>
    decreases |mcs|
  {
    if mcs == [] then []
    else
      var n := |mcs| - 1;
      MachineFailures(mcs[..n], env) + (if env.removeMachineOk(mcs[n]) then [] else [mcs[n]])
  }

  function PlannedReport(cfg: Config, dotfiles: string, st: Option<State>, opts: UninstallOptions, env: Env)
    : UninstallReport
  {
    var configs := UnstowSet(cfg, st);
    UninstallReport(
      if |configs| == 0 then None
      else Some(Stow.BatchAll(Stow.UnstowOp, dotfiles, configs, Stow.Options(false, false), env.stow)),
      if opts.removeExternal then ExternalFailures(cfg, cfg.external, env) else [],
      if opts.removeMachine then MachineFailures(cfg.machineConfig, env) else [])
  }

  // ---------------------------------------------------------------------
  // The uninstall as the program runs it

  method SelectUnstow(cfg: Config, st: Option<State>) returns (configs: seq<ConfigItem>)
    ensures configs == UnstowSet(cfg, st)
  {
    if st.Some? && |st.value.configs| > 0 {
      var scs := st.value.configs;
      configs := [];
      var i := 0;
      while i < |scs|
        invariant 0 <= i <= |scs|
        invariant configs == StateConfigs(cfg, scs[..i])
      {
        assert scs[..i + 1][..i] == scs[..i];
        var item := GetConfigByName(cfg, scs[i].name);
        if item.Some? {
          configs := configs + [item.value];
        }
        i := i + 1;
      }
      assert scs[..i] == scs;
    } else {
      configs := GetAllConfigs(cfg);
    }
  }

  /** One turn of the removal loop. */
  method RemoveOne(cfg: Config, e: ExternalDep, env: Env, failures: seq<RemovalFailure>)
    returns (next: seq<RemovalFailure>)
    ensures next == failures + FailureOf(cfg, e, env)
  {
    next := failures;
    var err := External.RemoveExternal(cfg, e.id, RemoveOptions, env.ext);
    if err.Some? {
      next := next + [RemovalFailure(e, err.value)];
    }
  }

  /** The loop removing every declared asset; a failure does not stop it. */
  method RemoveExternals(cfg: Config, env: Env) returns (failures: seq<RemovalFailure>)
    ensures failures == ExternalFailures(cfg, cfg.external, env)
  {
    failures := [];
    var exts := cfg.external;
    var i := 0;
    while i < |exts|
      invariant 0 <= i <= |exts|
      invariant failures == ExternalFailures(cfg, exts[..i], env)
    {
      assert exts[..i + 1][..i] == exts[..i];
      ExternalFailuresLast(cfg, exts[..i + 1], env);
      failures := RemoveOne(cfg, exts[i], env, failures);
      i := i + 1;
    }
    assert exts[..i] == exts;
  }

  /** The loop removing every machine-specific file. */
  method RemoveMachineFiles(cfg: Config, env: Env) returns (failures: seq<MachinePrompt>)
    ensures failures == MachineFailures(cfg.machineConfig, env)
  {
    failures := [];
    var mcs := cfg.machineConfig;
    var i := 0;
    while i < |mcs|
      invariant 0 <= i <= |mcs|
      invariant failures == MachineFailures(mcs[..i], env)
    {
      assert mcs[..i + 1][..i] == mcs[..i];
      if !env.removeMachineOk(mcs[i]) {
        failures := failures + [mcs[i]];
      }
      i := i + 1;
    }
    assert mcs[..i] == mcs;
  }

  /** `Uninstall`: every step runs, and only the deletion of the state file
      can make it fail. */
  method Uninstall(cfg: Config, dotfiles: string, st: Option<State>, opts: UninstallOptions, env: Env)
    returns (report: UninstallReport, err: Option<UninstallError>)
    ensures report == PlannedReport(cfg, dotfiles, st, opts, env)
    ensures err.Some? <==> !env.deleteOk
  {
    var configs := SelectUnstow(cfg, st);
    var unstowed: Option<Stow.StowResult> := None;
    if |configs| > 0 {
      var result := Stow.UnstowConfigs(dotfiles, configs, Stow.Options(false, false), env.stow);
      unstowed := Some(result);
    }
    var externalFailures: seq<RemovalFailure> := [];
    if opts.removeExternal && |cfg.external| > 0 {
      externalFailures := RemoveExternals(cfg, env);
    }
    var machineFailures: seq<MachinePrompt> := [];
    if opts.removeMachine && |cfg.machineConfig| > 0 {
      machineFailures := RemoveMachineFiles(cfg, env);
    }
    report := UninstallReport(unstowed, externalFailures, machineFailures);
    if !env.deleteOk {
      return report, Some(StateDeleteFailed);
    }
    return report, None;
  }

  // ---------------------------------------------------------------------
  // Properties

  /** The unstow set: with state entries, the declared groups they name;
      without them, every group, core first. */
  lemma UnstowSetMeaning(cfg: Config, st: Option<State>)
    ensures st.None? || st.value.configs == [] ==> UnstowSet(cfg, st) == cfg.core + cfg.optional
    ensures st.Some? && st.value.configs != [] ==>
              && |UnstowSet(cfg, st)| <= |st.value.configs|
              && (forall c :: c in UnstowSet(cfg, st) ==> c in GetAllConfigs(cfg) && ConfigState(c.name) in st.value.configs)
              && (forall sc :: sc in st.value.configs && GetConfigByName(cfg, sc.name).Some? ==>
                    GetConfigByName(cfg, sc.name).value in UnstowSet(cfg, st))
  {
    if st.Some? && st.value.configs != [] {
      var scs := st.value.configs;
      StateConfigsSound(cfg, scs);
      StateConfigsComplete(cfg, scs);
      forall c | c in UnstowSet(cfg, st)
        ensures c in GetAllConfigs(cfg) && ConfigState(c.name) in scs
      {
        var k :| 0 <= k < |StateConfigs(cfg, scs)| && StateConfigs(cfg, scs)[k] == c;
      }
      forall sc | sc in scs && GetConfigByName(cfg, sc.name).Some?
        ensures GetConfigByName(cfg, sc.name).value in UnstowSet(cfg, st)
      {
        var j :| 0 <= j < |scs| && scs[j] == sc;
      }
    }
  }

  /** A recorded asset failure is a declared asset together with the error
      `RemoveExternal` reports for its id. */
  lemma {:induction false} ExternalFailuresSound(cfg: Config, exts: seq<ExternalDep>, env: Env)
    ensures |ExternalFailures(cfg, exts, env)| <= |exts|
    ensures forall f :: f in ExternalFailures(cfg, exts, env) ==>
              f.ext in exts && External.RemoveExternal(cfg, f.ext.id, RemoveOptions, env.ext) == Some(f.error)
    decreases |exts|
  {
    if exts != [] {
      var n := |exts| - 1;
      ExternalFailuresSound(cfg, exts[..n], env);
      forall f | f in ExternalFailures(cfg, exts[..n], env)
        ensures f.ext in exts
      {
        assert f.ext in exts[..n];
      }
    }
  }

  /** Every declared asset whose removal fails is recorded. */
  lemma {:induction false} ExternalFailuresComplete(cfg: Config, exts: seq<ExternalDep>, env: Env)
    ensures forall e :: e in exts && External.RemoveExternal(cfg, e.id, RemoveOptions, env.ext).Some? ==>
              RemovalFailure(e, External.RemoveExternal(cfg, e.id, RemoveOptions, env.ext).value)
                in ExternalFailures(cfg, exts, env)
    decreases |exts|
  {
    if exts != [] {
      var n := |exts| - 1;
      ExternalFailuresComplete(cfg, exts[..n], env);
      forall e | e in exts && External.RemoveExternal(cfg, e.id, RemoveOptions, env.ext).Some?
        ensures RemovalFailure(e, External.RemoveExternal(cfg, e.id, RemoveOptions, env.ext).value)
                  in ExternalFailures(cfg, exts, env)
      {
        if e != exts[n] {
          var j :| 0 <= j < |exts| && exts[j] == e;
          assert exts[..n][j] == e;
        }
      }
    }
  }

  /** A machine config is reported exactly when its file could not be
      removed. */
  lemma {:induction false} MachineFailuresExact(mcs: seq<MachinePrompt>, env: Env)
    ensures forall mc :: mc in MachineFailures(mcs, env) <==> mc in mcs && !env.removeMachineOk(mc)
    decreases |mcs|
  {
    if mcs != [] {
      var n := |mcs| - 1;
      MachineFailuresExact(mcs[..n], env);
      assert mcs == mcs[..n] + [mcs[n]];
    }
  }

  /** The flags only switch whole steps on and off: unstowing does not
      depend on them, and without them nothing else is attempted. */
  lemma FlagsGateRemovals(cfg: Config, dotfiles: string, st: Option<State>, opts: UninstallOptions, env: Env)
    ensures PlannedReport(cfg, dotfiles, st, opts, env).unstowed
              == PlannedReport(cfg, dotfiles, st, UninstallOptions(false, false), env).unstowed
    ensures !opts.removeExternal ==> PlannedReport(cfg, dotfiles, st, opts, env).externalFailures == []
    ensures !opts.removeMachine ==> PlannedReport(cfg, dotfiles, st, opts, env).machineFailures == []
  {
  }

  /** Unstowing reports every selected group as unstowed or failed. */
  lemma UnstowCoversSet(cfg: Config, dotfiles: string, st: Option<State>, opts: UninstallOptions, env: Env)
    requires UnstowSet(cfg, st) != []
    ensures var res := PlannedReport(cfg, dotfiles, st, opts, env).unstowed;
            && res.Some?
            && |res.value.success| + |res.value.failed| == |UnstowSet(cfg, st)|
            && res.value.skipped == []
  {
    var configs := UnstowSet(cfg, st);
    Stow.BatchSize(Stow.UnstowOp, dotfiles, configs, Stow.Options(false, false), env.stow);
    Stow.UnstowNeverSkips(dotfiles, configs, Stow.Options(false, false), env.stow);
  }
}
