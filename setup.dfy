/** The install pipeline (internal/setup/setup.go): platform detection,
    then the dependency, stow, external and machine phases, each of which
    can be skipped and none of which aborts the others. Dependency checking
    and installation, platform detection, machine-config status and
    template rendering are oracles. */
module Setup {
  import opened Text
  import opened Manifest
  import Stow
  import External
  import Prompts

  /** A dependency that failed to install (deps.InstallError). */
  datatype InstallError = InstallError(item: DependencyItem)

  /** What deps.Install reports. */
  datatype DepsInstallResult = DepsInstallResult(installed: seq<DependencyItem>, failed: seq<InstallError>)

  /** A written machine-specific file (machine.RenderResult). */
  datatype RenderResult = RenderResult(id: string, destination: string)

  /** One entry of machine.CheckMachineConfigStatus. */
  datatype MachineStatus = MachineStatus(id: string, status: string)

  datatype SetupError =
    | DetectFailed
    | DepsCheckFailed
    | DepsInstallFailed
    | ExternalFailed(cloneError: External.CloneError)
    | CollectFailedFor(configId: string, cause: Prompts.MachineError)
    | WriteFailed(writeId: string)

  datatype InstallOptions = InstallOptions(
    auto: bool,
    minimal: bool,
    skipDeps: bool,
    skipExternal: bool,
    skipMachine: bool,
    skipStow: bool,
    overwrite: bool)

  /** What the pipeline learns from outside the program. */
  datatype Env = Env(
    detect: Option<Platform>,                     // platform.Detect, None when it fails
    missingDeps: Option<seq<DependencyItem>>,     // deps.Check(...).GetMissing(), None when Check fails
    installDeps: Option<DepsInstallResult>,       // deps.Install, None when it fails
    stow: Stow.Env,
    ext: External.Env,
    machineStatus: seq<MachineStatus>,            // machine.CheckMachineConfigStatus
    render: (MachinePrompt, map<string, string>, bool) -> Option<RenderResult>)  // RenderAndWrite

  datatype InstallResult = InstallResult(
    platform: Platform,
    depsInstalled: seq<DependencyItem>,
    depsFailed: seq<InstallError>,
    configsStowed: seq<string>,
    configsFailed: seq<Stow.StowError>,
    externalCloned: seq<ExternalDep>,
    externalFailed: seq<External.ExternalError>,
    machineConfigs: seq<RenderResult>,
    errors: seq<SetupError>)

  function Fresh(p: Platform): InstallResult {
    InstallResult(p, [], [], [], [], [], [], [], [])
  }

  /** `HasErrors`: something failed in some phase. */
  predicate HasErrors(r: InstallResult) {
    |r.depsFailed| > 0 || |r.configsFailed| > 0 || |r.externalFailed| > 0 || |r.errors| > 0
  }

  // ---------------------------------------------------------------------
  // The phases, as functions of the result so far

  /** `installDependencies`: nothing is installed when nothing is missing;
      a failed check or install is reported as an error. */
  function DepsStep(r: InstallResult, env: Env): (s: InstallResult)
    ensures s.(depsInstalled := r.depsInstalled, depsFailed := r.depsFailed, errors := r.errors) == r
    ensures |r.errors| <= |s.errors| <= |r.errors| + 1 && s.errors[..|r.errors|] == r.errors
  {
    match env.missingDeps
    case None => r.(errors := r.errors + [DepsCheckFailed])
    case Some(missing) =>
      if |missing| == 0 then r
      else match env.installDeps
        case None => r.(errors := r.errors + [DepsInstallFailed])
        case Some(ir) => r.(depsInstalled := ir.installed, depsFailed := ir.failed)
  }

  /** The groups the stow phase handles. */
  function StowSelection(cfg: Config, minimal: bool): seq<ConfigItem> {
    if minimal then cfg.core else GetAllConfigs(cfg)
  }

  /** The stow phase runs with neither dry run nor force. */
  const InstallStowOptions := Stow.Options(false, false)

  /** `stowConfigs`: the stowed and failed names of the selected groups. */
  function StowStep(r: InstallResult, cfg: Config, dotfiles: string, opts: InstallOptions, env: Env): (s: InstallResult)
    ensures s.(configsStowed := r.configsStowed, configsFailed := r.configsFailed) == r
  {
    var configs := StowSelection(cfg, opts.minimal);
    if |configs| == 0 then r
    else
      var batch := Stow.BatchAll(Stow.StowOp, dotfiles, configs, InstallStowOptions, env.stow);
      r.(configsStowed := batch.success, configsFailed := batch.failed)
  }

  /** The external phase fetches without dry run or update. */
  const InstallExternalOptions := External.Options(false, false)

  /** `cloneExternal`: only the cloned and the failed assets are kept. */
  function ExternalStep(r: InstallResult, cfg: Config, p: Platform, env: Env): (s: InstallResult)
    ensures s.(externalCloned := r.externalCloned, externalFailed := r.externalFailed, errors := r.errors) == r
    ensures |r.errors| <= |s.errors| <= |r.errors| + 1 && s.errors[..|r.errors|] == r.errors
  {
    if |cfg.external| == 0 then r
    else if !env.ext.gitAvailable then r.(errors := r.errors + [ExternalFailed(External.GitNotFound)])
    else
      var res := External.ClassifyAll(cfg.external, p, InstallExternalOptions, env.ext);
      r.(externalCloned := res.cloned, externalFailed := res.failed)
  }

  /** The machine configs reported "missing", in status order, each looked
      up by id. */
  function NeedsConfig(statuses: seq<MachineStatus>, cfg: Config): seq<MachinePrompt>
    decreases |statuses|
  {
    if statuses == [] then []
    else
      var n := |statuses| - 1;
      var st := statuses[n];
      var i := Prompts.MachineIndex(cfg.machineConfig, st.id);
      NeedsConfig(statuses[..n], cfg) + (if st.status == "missing" && i < |cfg.machineConfig| then [cfg.machineConfig[i]] else [])
  }

  /** What collecting and rendering one needed config gives: its rendered
      file or one error, and the input left over. */
  function MachineOne(cfg: Config, mc: MachinePrompt, opts: InstallOptions, env: Env, input: Prompts.Input)
    : (seq<RenderResult>, seq<SetupError>, Prompts.Input)
  {
    var collected := Prompts.CollectSingle(cfg, mc.id, opts.auto, input);
    if collected.0.Err? then ([], [CollectFailedFor(mc.id, collected.0.error)], collected.1)
    else
      var written := env.render(mc, collected.0.value.values, opts.overwrite);
      if written.None? then ([], [WriteFailed(mc.id)], collected.1)
      else ([written.value], [], collected.1)
  }

  /** The configs collected and rendered in turn; a failure does not stop
      the others. */
  function MachineSteps(cfg: Config, needs: seq<MachinePrompt>, opts: InstallOptions, env: Env, input: Prompts.Input)
    : (seq<RenderResult>, seq<SetupError>)
    decreases |needs|
  {
    if needs == [] then ([], [])
    else
      var one := MachineOne(cfg, needs[0], opts, env, input);
      var tail := MachineSteps(cfg, needs[1..], opts, env, one.2);
      (one.0 + tail.0, one.1 + tail.1)
  }

  /** `configureMachine`. */
  function MachineStep(r: InstallResult, cfg: Config, opts: InstallOptions, env: Env, input: Prompts.Input): (s: InstallResult)
    ensures s.(machineConfigs := r.machineConfigs, errors := r.errors) == r
    ensures |r.machineConfigs| <= |s.machineConfigs| && s.machineConfigs[..|r.machineConfigs|] == r.machineConfigs
    ensures |r.errors| <= |s.errors| && s.errors[..|r.errors|] == r.errors
  {
    if |cfg.machineConfig| == 0 then r
    else
      var (rs, es) := MachineSteps(cfg, NeedsConfig(env.machineStatus, cfg), opts, env, input);
      r.(machineConfigs := r.machineConfigs + rs, errors := r.errors + es)
  }

  /** The whole pipeline: detection is the only fatal step; the phases run
      in the order dependencies, stow, external, machine. */
  function PlannedInstall(cfg: Config, dotfiles: string, opts: InstallOptions, env: Env, input: Prompts.Input)
    : Result<InstallResult, SetupError>
  {
    match env.detect
    case None => Err(DetectFailed)
    case Some(p) =>
      var r0 := Fresh(p);
      var r1 := if opts.skipDeps then r0 else DepsStep(r0, env);
      var r2 := if opts.skipStow then r1 else StowStep(r1, cfg, dotfiles, opts, env);
      var r3 := if opts.skipExternal then r2 else ExternalStep(r2, cfg, p, env);
      var r4 := if opts.skipMachine then r3 else MachineStep(r3, cfg, opts, env, input);
      Ok(r4)
  }

  // ---------------------------------------------------------------------
  // The pipeline as the program runs it

  method InstallDependencies(env: Env, result: InstallResult) returns (next: InstallResult, err: Option<SetupError>)
    ensures err.None? ==> next == DepsStep(result, env)
    ensures err.Some? ==> next.(errors := next.errors + [err.value]) == DepsStep(result, env)
  {
    next := result;
    if env.missingDeps.None? {
      return next, Some(DepsCheckFailed);
    }
    var missing := env.missingDeps.value;
    if |missing| == 0 {
      return next, None;
    }
    if env.installDeps.None? {
      return next, Some(DepsInstallFailed);
    }
    var installResult := env.installDeps.value;
    next := next.(depsInstalled := installResult.installed);
    next := next.(depsFailed := installResult.failed);
    return next, None;
  }

  method StowConfigs(cfg: Config, dotfiles: string, opts: InstallOptions, env: Env, result: InstallResult)
    returns (next: InstallResult)
    ensures next == StowStep(result, cfg, dotfiles, opts, env)
  {
    var configs: seq<ConfigItem>;
    if opts.minimal {
      configs := cfg.core;
    } else {
      configs := GetAllConfigs(cfg);
    }
    if |configs| == 0 {
      return result;
    }
    var stowResult := Stow.StowConfigs(dotfiles, configs, InstallStowOptions, env.stow);
    next := result.(configsStowed := stowResult.success);
    next := next.(configsFailed := stowResult.failed);
  }

  method CloneExternal(cfg: Config, p: Platform, env: Env, result: InstallResult)
    returns (next: InstallResult, err: Option<SetupError>)
    ensures err.None? ==> next == ExternalStep(result, cfg, p, env)
    ensures err.Some? ==> next.(errors := next.errors + [err.value]) == ExternalStep(result, cfg, p, env)
  {
    if |cfg.external| == 0 {
      return result, None;
    }
    var extResult := External.CloneExternal(cfg, p, InstallExternalOptions, env.ext);
    if extResult.Err? {
      return result, Some(ExternalFailed(extResult.error));
    }
    next := result.(externalCloned := extResult.value.cloned);
    next := next.(externalFailed := extResult.value.failed);
    return next, None;
  }

  /** The loop that picks the machine configs whose status is "missing". */
  method SelectMissing(cfg: Config, statuses: seq<MachineStatus>) returns (needs: seq<MachinePrompt>)
    ensures needs == NeedsConfig(statuses, cfg)
  {
    needs := [];
    var i := 0;
    while i < |statuses|
      invariant 0 <= i <= |statuses|
      invariant needs == NeedsConfig(statuses[..i], cfg)
    {
      assert statuses[..i + 1][..i] == statuses[..i];
      var status := statuses[i];
      if status.status == "missing" {
        var mc := Prompts.GetMachineConfigByID(cfg, status.id);
        if mc.Some? {
          needs := needs + [mc.value];
        }
      }
      i := i + 1;
    }
    assert statuses[..i] == statuses;
  }

  /** One turn of the machine loop: collect, then render and write. */
  method ConfigureOne(cfg: Config, mc: MachinePrompt, opts: InstallOptions, env: Env, input: Prompts.Input)
    returns (rendered: seq<RenderResult>, errs: seq<SetupError>, rest: Prompts.Input)
    ensures rendered == MachineOne(cfg, mc, opts, env, input).0
    ensures errs == MachineOne(cfg, mc, opts, env, input).1
    ensures rest == MachineOne(cfg, mc, opts, env, input).2
  {
    var promptResult;
    promptResult, rest := Prompts.CollectSingleConfig(cfg, mc.id, opts.auto, input);
    if promptResult.Err? {
      return [], [CollectFailedFor(mc.id, promptResult.error)], rest;
    }
    var renderResult := env.render(mc, promptResult.value.values, opts.overwrite);
    if renderResult.None? {
      return [], [WriteFailed(mc.id)], rest;
    }
    return [renderResult.value], [], rest;
  }

  /** The first config is configured before the rest, on the input it
      leaves. */
  lemma MachineStepsFirst(cfg: Config, needs: seq<MachinePrompt>, opts: InstallOptions, env: Env, input: Prompts.Input)
    requires needs != []
    ensures var one := MachineOne(cfg, needs[0], opts, env, input);
            && MachineSteps(cfg, needs, opts, env, input).0 == one.0 + MachineSteps(cfg, needs[1..], opts, env, one.2).0
            && MachineSteps(cfg, needs, opts, env, input).1 == one.1 + MachineSteps(cfg, needs[1..], opts, env, one.2).1
  {
  }

  /** One turn of the machine loop, stated against the configs still to do. */
  method ConfigureNext(cfg: Config, todo: seq<MachinePrompt>, opts: InstallOptions, env: Env, input: Prompts.Input)
    returns (rendered: seq<RenderResult>, errs: seq<SetupError>, rest: Prompts.Input)
    requires todo != []
    ensures rendered + MachineSteps(cfg, todo[1..], opts, env, rest).0 == MachineSteps(cfg, todo, opts, env, input).0
    ensures errs + MachineSteps(cfg, todo[1..], opts, env, rest).1 == MachineSteps(cfg, todo, opts, env, input).1
  {
    MachineStepsFirst(cfg, todo, opts, env, input);
    rendered, errs, rest := ConfigureOne(cfg, todo[0], opts, env, input);
  }

  /** The loop over the needed configs, in order, threading the input. */
  method CollectAndRender(cfg: Config, needs: seq<MachinePrompt>, opts: InstallOptions, env: Env, input: Prompts.Input)
    returns (rendered: seq<RenderResult>, errs: seq<SetupError>)
    ensures rendered == MachineSteps(cfg, needs, opts, env, input).0
    ensures errs == MachineSteps(cfg, needs, opts, env, input).1
  {
    rendered, errs := [], [];
    var rest := input;
    var todo := needs;
    ghost var planned := MachineSteps(cfg, needs, opts, env, input);
    while todo != []
      invariant rendered + MachineSteps(cfg, todo, opts, env, rest).0 == planned.0
      invariant errs + MachineSteps(cfg, todo, opts, env, rest).1 == planned.1
      decreases |todo|
    {
      var oneRendered, oneErrs, next := ConfigureNext(cfg, todo, opts, env, rest);
      ghost var tail := MachineSteps(cfg, todo[1..], opts, env, next);
      assert rendered + (oneRendered + tail.0) == (rendered + oneRendered) + tail.0;
      assert errs + (oneErrs + tail.1) == (errs + oneErrs) + tail.1;
      rendered, errs, rest := rendered + oneRendered, errs + oneErrs, next;
      todo := todo[1..];
    }
    assert rendered + [] == rendered && errs + [] == errs;
  }

  /** `configureMachine`: every per-config failure is recorded and the loop
      goes on. */
  method ConfigureMachine(cfg: Config, opts: InstallOptions, env: Env, input: Prompts.Input, result: InstallResult)
    returns (next: InstallResult)
    ensures next == MachineStep(result, cfg, opts, env, input)
  {
    if |cfg.machineConfig| == 0 {
      return result;
    }
    var needs := SelectMissing(cfg, env.machineStatus);
    if |needs| == 0 {
      return result;
    }
    var rendered, errs := CollectAndRender(cfg, needs, opts, env, input);
    next := result.(machineConfigs := result.machineConfigs + rendered, errors := result.errors + errs);
  }

  /** `Install`. */
  method Install(cfg: Config, dotfiles: string, opts: InstallOptions, env: Env, input: Prompts.Input)
    returns (r: Result<InstallResult, SetupError>)
    ensures r == PlannedInstall(cfg, dotfiles, opts, env, input)
  {
    if env.detect.None? {
      return Err(DetectFailed);
    }
    var p := env.detect.value;
    var result := Fresh(p);
    var err: Option<SetupError>;
    if !opts.skipDeps {
      result, err := InstallDependencies(env, result);
      if err.Some? {
        result := result.(errors := result.errors + [err.value]);
      }
    }
    if !opts.skipStow {
      result := StowConfigs(cfg, dotfiles, opts, env, result);
    }
    if !opts.skipExternal {
      result, err := CloneExternal(cfg, p, env, result);
      if err.Some? {
        result := result.(errors := result.errors + [err.value]);
      }
    }
    if !opts.skipMachine {
      result := ConfigureMachine(cfg, opts, env, input, result);
    }
    return Ok(result);
  }

  // ---------------------------------------------------------------------
  // Properties of the pipeline

  /** A failed platform detection is the only fatal error: no result. */
  lemma DetectionFatal(cfg: Config, dotfiles: string, opts: InstallOptions, env: Env, input: Prompts.Input)
    ensures PlannedInstall(cfg, dotfiles, opts, env, input).Err? <==> env.detect.None?
    ensures env.detect.None? ==> PlannedInstall(cfg, dotfiles, opts, env, input) == Err(DetectFailed)
  {
  }

  /** A skipped phase leaves its fields of the result empty. */
  lemma SkippedPhasesEmpty(cfg: Config, dotfiles: string, opts: InstallOptions, env: Env, input: Prompts.Input)
    requires env.detect.Some?
    ensures var r := PlannedInstall(cfg, dotfiles, opts, env, input).value;
            && r.platform == env.detect.value
            && (opts.skipDeps ==> r.depsInstalled == [] && r.depsFailed == [])
            && (opts.skipStow ==> r.configsStowed == [] && r.configsFailed == [])
            && (opts.skipExternal ==> r.externalCloned == [] && r.externalFailed == [])
            && (opts.skipMachine ==> r.machineConfigs == [])
  {
    var p := env.detect.value;
    var r1 := if opts.skipDeps then Fresh(p) else DepsStep(Fresh(p), env);
    var r2 := if opts.skipStow then r1 else StowStep(r1, cfg, dotfiles, opts, env);
    var r3 := if opts.skipExternal then r2 else ExternalStep(r2, cfg, p, env);
    var r4 := if opts.skipMachine then r3 else MachineStep(r3, cfg, opts, env, input);
    assert PlannedInstall(cfg, dotfiles, opts, env, input) == Ok(r4);
    assert r4.platform == r3.platform == r2.platform == r1.platform == p;
  }

  /** With every phase skipped the result holds only the platform. */
  lemma AllSkipped(cfg: Config, dotfiles: string, opts: InstallOptions, env: Env, input: Prompts.Input)
    requires opts.skipDeps && opts.skipStow && opts.skipExternal && opts.skipMachine
    requires env.detect.Some?
    ensures PlannedInstall(cfg, dotfiles, opts, env, input) == Ok(Fresh(env.detect.value))
    ensures !HasErrors(PlannedInstall(cfg, dotfiles, opts, env, input).value)
  {
  }

  /** When nothing is missing, nothing is installed, whatever the installer
      would have done. */
  lemma NoMissingNoInstall(r: InstallResult, env1: Env, env2: Env)
    requires env1.missingDeps == Some([]) && env2.missingDeps == Some([])
    ensures DepsStep(r, env1) == DepsStep(r, env2) == r
  {
  }

  /** A failing dependency phase does not stop the later phases: what they
      record does not depend on the dependency oracles. */
  lemma DepsFailureDoesNotAbort(cfg: Config, dotfiles: string, opts: InstallOptions, env1: Env, env2: Env,
                                input: Prompts.Input)
    requires env1.detect.Some? && env1.detect == env2.detect
    requires env1.stow == env2.stow && env1.ext == env2.ext
    requires env1.machineStatus == env2.machineStatus && env1.render == env2.render
    ensures var a := PlannedInstall(cfg, dotfiles, opts, env1, input).value;
            var b := PlannedInstall(cfg, dotfiles, opts, env2, input).value;
            SameLaterPhases(a, b)
  {
    var p := env1.detect.value;
    var a1 := if opts.skipDeps then Fresh(p) else DepsStep(Fresh(p), env1);
    var b1 := if opts.skipDeps then Fresh(p) else DepsStep(Fresh(p), env2);
    var a2 := if opts.skipStow then a1 else StowStep(a1, cfg, dotfiles, opts, env1);
    var b2 := if opts.skipStow then b1 else StowStep(b1, cfg, dotfiles, opts, env2);
    var a3 := if opts.skipExternal then a2 else ExternalStep(a2, cfg, p, env1);
    var b3 := if opts.skipExternal then b2 else ExternalStep(b2, cfg, p, env2);
    var a4 := if opts.skipMachine then a3 else MachineStep(a3, cfg, opts, env1, input);
    var b4 := if opts.skipMachine then b3 else MachineStep(b3, cfg, opts, env2, input);
    assert PlannedInstall(cfg, dotfiles, opts, env1, input) == Ok(a4);
    assert PlannedInstall(cfg, dotfiles, opts, env2, input) == Ok(b4);
    assert SameLaterPhases(a1, b1);
    StowStepLocal(a1, b1, cfg, dotfiles, opts, env1, env2);
    ExternalStepLocal(a2, b2, cfg, p, env1, env2);
    MachineStepLocal(a3, b3, cfg, opts, env1, env2, input);
  }

  /** Two results agree on what the stow, external and machine phases
      record. */
  predicate SameLaterPhases(a: InstallResult, b: InstallResult) {
    && a.configsStowed == b.configsStowed && a.configsFailed == b.configsFailed
    && a.externalCloned == b.externalCloned && a.externalFailed == b.externalFailed
    && a.machineConfigs == b.machineConfigs
  }

  lemma StowStepLocal(a: InstallResult, b: InstallResult, cfg: Config, dotfiles: string, opts: InstallOptions,
                      env1: Env, env2: Env)
    requires SameLaterPhases(a, b) && env1.stow == env2.stow
    ensures SameLaterPhases(StowStep(a, cfg, dotfiles, opts, env1), StowStep(b, cfg, dotfiles, opts, env2))
  {
  }

  lemma ExternalStepLocal(a: InstallResult, b: InstallResult, cfg: Config, p: Platform, env1: Env, env2: Env)
    requires SameLaterPhases(a, b) && env1.ext == env2.ext
    ensures SameLaterPhases(ExternalStep(a, cfg, p, env1), ExternalStep(b, cfg, p, env2))
  {
  }

  lemma MachineStepLocal(a: InstallResult, b: InstallResult, cfg: Config, opts: InstallOptions, env1: Env, env2: Env,
                         input: Prompts.Input)
    requires SameLaterPhases(a, b) && env1.machineStatus == env2.machineStatus && env1.render == env2.render
    ensures SameLaterPhases(MachineStep(a, cfg, opts, env1, input), MachineStep(b, cfg, opts, env2, input))
  {
    assert MachineSteps(cfg, NeedsConfig(env1.machineStatus, cfg), opts, env1, input)
        == MachineSteps(cfg, NeedsConfig(env2.machineStatus, cfg), opts, env2, input) by {
      MachineStepsSameEnv(cfg, NeedsConfig(env1.machineStatus, cfg), opts, env1, env2, input);
    }
  }

  /** The machine loop reads only the render oracle of the environment. */
  lemma {:induction false} MachineStepsSameEnv(cfg: Config, needs: seq<MachinePrompt>, opts: InstallOptions,
                                               env1: Env, env2: Env, input: Prompts.Input)
    requires env1.render == env2.render
    ensures MachineSteps(cfg, needs, opts, env1, input) == MachineSteps(cfg, needs, opts, env2, input)
    decreases |needs|
  {
    if needs != [] {
      assert MachineOne(cfg, needs[0], opts, env1, input) == MachineOne(cfg, needs[0], opts, env2, input);
      MachineStepsSameEnv(cfg, needs[1..], opts, env1, env2, MachineOne(cfg, needs[0], opts, env1, input).2);
    }
  }

  /** A failed dependency check is the first error recorded, and it makes
      the run report errors. */
  lemma DepsCheckErrorFirst(cfg: Config, dotfiles: string, opts: InstallOptions, env: Env, input: Prompts.Input)
    requires env.detect.Some? && !opts.skipDeps && env.missingDeps.None?
    ensures var r := PlannedInstall(cfg, dotfiles, opts, env, input).value;
            |r.errors| > 0 && r.errors[0] == DepsCheckFailed && HasErrors(r)
  {
    var p := env.detect.value;
    var r1 := DepsStep(Fresh(p), env);
    assert r1.errors == [DepsCheckFailed];
    var r2 := if opts.skipStow then r1 else StowStep(r1, cfg, dotfiles, opts, env);
    assert r2.errors == r1.errors;
    var r3 := if opts.skipExternal then r2 else ExternalStep(r2, cfg, p, env);
    assert r3.errors[..1] == r2.errors;
    var r4 := if opts.skipMachine then r3 else MachineStep(r3, cfg, opts, env, input);
    assert r4.errors[..|r3.errors|] == r3.errors;
  }

  /** Minimal mode stows exactly the core groups; otherwise the optional
      groups follow the core ones in every list. */
  lemma StowSelectionOrder(r: InstallResult, cfg: Config, dotfiles: string, opts: InstallOptions, env: Env)
    ensures var core := Stow.BatchAll(Stow.StowOp, dotfiles, cfg.core, InstallStowOptions, env.stow);
            var optional := Stow.BatchAll(Stow.StowOp, dotfiles, cfg.optional, InstallStowOptions, env.stow);
            var s := StowStep(r, cfg, dotfiles, opts, env);
            && (opts.minimal && cfg.core != [] ==> s.configsStowed == core.success && s.configsFailed == core.failed)
            && (!opts.minimal && GetAllConfigs(cfg) != [] ==>
                  s.configsStowed == core.success + optional.success && s.configsFailed == core.failed + optional.failed)
  {
    Stow.BatchAppend(Stow.StowOp, dotfiles, cfg.core, cfg.optional, InstallStowOptions, env.stow);
  }

  /** The external phase keeps the cloned and failed assets only: updated
      and skipped ones are dropped, so at most every asset is kept. */
  lemma ExternalKeepsClonedAndFailed(r: InstallResult, cfg: Config, p: Platform, env: Env)
    requires cfg.external != [] && env.ext.gitAvailable
    ensures var res := External.ClassifyAll(cfg.external, p, InstallExternalOptions, env.ext);
            var s := ExternalStep(r, cfg, p, env);
            && s.externalCloned == res.cloned && s.externalFailed == res.failed
            && |s.externalCloned| + |s.externalFailed| + |res.skipped| + |res.updated| == |cfg.external|
  {
    External.ClassifySize(cfg.external, p, InstallExternalOptions, env.ext);
  }

  /** Every config picked for collection is a declared machine config that
      some status reports as "missing". */
  lemma {:induction false} NeedsOnlyMissing(statuses: seq<MachineStatus>, cfg: Config)
    ensures |NeedsConfig(statuses, cfg)| <= |statuses|
    ensures forall k :: 0 <= k < |NeedsConfig(statuses, cfg)| ==>
              NeedsConfig(statuses, cfg)[k] in cfg.machineConfig &&
              MachineStatus(NeedsConfig(statuses, cfg)[k].id, "missing") in statuses
    decreases |statuses|
  {
    if statuses != [] {
      var n := |statuses| - 1;
      NeedsOnlyMissing(statuses[..n], cfg);
      var prev := NeedsConfig(statuses[..n], cfg);
      var all := NeedsConfig(statuses, cfg);
      var st := statuses[n];
      var i := Prompts.MachineIndex(cfg.machineConfig, st.id);
      assert all == prev + (if st.status == "missing" && i < |cfg.machineConfig| then [cfg.machineConfig[i]] else []);
      forall k | 0 <= k < |all|
        ensures all[k] in cfg.machineConfig && MachineStatus(all[k].id, "missing") in statuses
      {
        if k < |prev| {
          assert all[k] == prev[k];
          assert MachineStatus(prev[k].id, "missing") in statuses[..n];
        } else {
          assert all[k] == cfg.machineConfig[i] && st == MachineStatus(all[k].id, "missing");
        }
      }
    }
  }

  /** Each needed machine config yields exactly one rendered file or one
      error. */
  lemma {:induction false} MachineOneEach(cfg: Config, needs: seq<MachinePrompt>, opts: InstallOptions, env: Env,
                                          input: Prompts.Input)
    ensures |MachineSteps(cfg, needs, opts, env, input).0| + |MachineSteps(cfg, needs, opts, env, input).1| == |needs|
    decreases |needs|
  {
    if needs != [] {
      MachineOneEach(cfg, needs[1..], opts, env, MachineOne(cfg, needs[0], opts, env, input).2);
    }
  }

  // ---------------------------------------------------------------------
  // Summary

  function PlatformLine(r: InstallResult): string {
    "Platform: " + r.platform.os + (if r.platform.distro != "" then " (" + r.platform.distro + ")" else "") + "\n"
  }

  function DepsLine(r: InstallResult): string {
    "Dependencies: " + NatToString(|r.depsInstalled|) + " installed, " + NatToString(|r.depsFailed|) + " failed\n"
  }

  function ConfigsLine(r: InstallResult): string {
    "Configs: " + NatToString(|r.configsStowed|) + " stowed, " + NatToString(|r.configsFailed|) + " failed\n"
  }

  function ExternalLine(r: InstallResult): string {
    "External: " + NatToString(|r.externalCloned|) + " cloned, " + NatToString(|r.externalFailed|) + " failed\n"
  }

  function MachineLine(r: InstallResult): string {
    "Machine configs: " + NatToString(|r.machineConfigs|) + " configured\n"
  }

  /** The lines of `Summary`, in order. */
  function SummaryLines(r: InstallResult): seq<string> {
    [PlatformLine(r)]
    + (if |r.depsInstalled| > 0 || |r.depsFailed| > 0 then [DepsLine(r)] else [])
    + (if |r.configsStowed| > 0 || |r.configsFailed| > 0 then [ConfigsLine(r)] else [])
    + (if |r.externalCloned| > 0 || |r.externalFailed| > 0 then [ExternalLine(r)] else [])
    + (if |r.machineConfigs| > 0 then [MachineLine(r)] else [])
  }

  function Concat(lines: seq<string>): string {
    if lines == [] then "" else lines[0] + Concat(lines[1..])
  }

  /** `Summary`. */
  function Summary(r: InstallResult): string {
    Concat(SummaryLines(r))
  }

  /** The text of some lines followed by more lines. */
  lemma {:induction false} ConcatAppend(a: seq<string>, b: seq<string>)
    ensures Concat(a + b) == Concat(a) + Concat(b)
    decreases |a|
  {
    if a == [] {
      assert [] + b == b;
    } else {
      assert (a + b)[1..] == a[1..] + b;
      ConcatAppend(a[1..], b);
    }
  }

  /** The text of a line that may be left out. */
  function Maybe(present: bool, line: string): string {
    if present then line else ""
  }

  lemma ConcatOptional(present: bool, line: string)
    ensures Concat(if present then [line] else []) == Maybe(present, line)
  {
    if present {
      assert Concat([line]) == line + Concat([]);
    }
  }

  /** The text of a first line followed by four groups of lines. */
  lemma ConcatFive(first: string, o1: seq<string>, o2: seq<string>, o3: seq<string>, o4: seq<string>)
    ensures Concat([first] + o1 + o2 + o3 + o4) == first + Concat(o1) + Concat(o2) + Concat(o3) + Concat(o4)
  {
    var p := [first];
    ConcatAppend(p + o1 + o2 + o3, o4);
    ConcatAppend(p + o1 + o2, o3);
    ConcatAppend(p + o1, o2);
    ConcatAppend(p, o1);
    assert Concat(p) == first + Concat([]);
  }

  /** `Summary` is the platform line followed by each present count line. */
  lemma SummaryText(r: InstallResult)
    ensures Summary(r) == PlatformLine(r)
              + Maybe(|r.depsInstalled| > 0 || |r.depsFailed| > 0, DepsLine(r))
              + Maybe(|r.configsStowed| > 0 || |r.configsFailed| > 0, ConfigsLine(r))
              + Maybe(|r.externalCloned| > 0 || |r.externalFailed| > 0, ExternalLine(r))
              + Maybe(|r.machineConfigs| > 0, MachineLine(r))
  {
    var b1 := |r.depsInstalled| > 0 || |r.depsFailed| > 0;
    var b2 := |r.configsStowed| > 0 || |r.configsFailed| > 0;
    var b3 := |r.externalCloned| > 0 || |r.externalFailed| > 0;
    var b4 := |r.machineConfigs| > 0;
    ConcatFive(PlatformLine(r), if b1 then [DepsLine(r)] else [], if b2 then [ConfigsLine(r)] else [],
               if b3 then [ExternalLine(r)] else [], if b4 then [MachineLine(r)] else []);
    ConcatOptional(b1, DepsLine(r));
    ConcatOptional(b2, ConfigsLine(r));
    ConcatOptional(b3, ExternalLine(r));
    ConcatOptional(b4, MachineLine(r));
  }

  /** The first line of `Summary`: the OS, then the distribution if known. */
  method PlatformHeader(r: InstallResult) returns (line: string)
    ensures line == PlatformLine(r)
  {
    line := "Platform: " + r.platform.os;
    if r.platform.distro != "" {
      line := line + " (" + r.platform.distro + ")";
    }
    line := line + "\n";
  }

  /** `Summary` as the program builds it, one `+=` at a time. */
  method BuildSummary(r: InstallResult) returns (summary: string)
    ensures summary == Summary(r)
  {
    summary := PlatformHeader(r);
    ghost var built := summary;
    if |r.depsInstalled| > 0 || |r.depsFailed| > 0 {
      summary := summary + DepsLine(r);
    }
    assert summary == built + Maybe(|r.depsInstalled| > 0 || |r.depsFailed| > 0, DepsLine(r));
    built := summary;
    if |r.configsStowed| > 0 || |r.configsFailed| > 0 {
      summary := summary + ConfigsLine(r);
    }
    assert summary == built + Maybe(|r.configsStowed| > 0 || |r.configsFailed| > 0, ConfigsLine(r));
    built := summary;
    if |r.externalCloned| > 0 || |r.externalFailed| > 0 {
      summary := summary + ExternalLine(r);
    }
    assert summary == built + Maybe(|r.externalCloned| > 0 || |r.externalFailed| > 0, ExternalLine(r));
    built := summary;
    if |r.machineConfigs| > 0 {
      summary := summary + MachineLine(r);
    }
    assert summary == built + Maybe(|r.machineConfigs| > 0, MachineLine(r));
    SummaryText(r);
  }

  /** Every summary line starts with its own letter. */
  lemma LineHeads(r: InstallResult)
    ensures PlatformLine(r)[0] == 'P' && DepsLine(r)[0] == 'D' && ConfigsLine(r)[0] == 'C'
    ensures ExternalLine(r)[0] == 'E' && MachineLine(r)[0] == 'M'
  {
  }

  /** The summary starts with the platform line. */
  lemma SummaryStartsWithPlatform(r: InstallResult)
    ensures SummaryLines(r)[0] == PlatformLine(r)
    ensures HasPrefix(Summary(r), "Platform: " + r.platform.os)
  {
    var lines := SummaryLines(r);
    assert Summary(r) == PlatformLine(r) + Concat(lines[1..]);
    var head := "Platform: " + r.platform.os;
    assert PlatformLine(r)[..|head|] == head;
  }

  /** Each count line is in the summary exactly when one of its counts is
      non-zero. */
  lemma SummaryLinesPresent(r: InstallResult)
    ensures DepsLine(r) in SummaryLines(r) <==> |r.depsInstalled| > 0 || |r.depsFailed| > 0
    ensures ConfigsLine(r) in SummaryLines(r) <==> |r.configsStowed| > 0 || |r.configsFailed| > 0
    ensures ExternalLine(r) in SummaryLines(r) <==> |r.externalCloned| > 0 || |r.externalFailed| > 0
    ensures MachineLine(r) in SummaryLines(r) <==> |r.machineConfigs| > 0
  {
    LineHeads(r);
  }
}
