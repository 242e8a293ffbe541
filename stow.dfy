/** The symlink manager (internal/stow/manager.go): the argument vector
    handed to GNU stow and the batch loops over config groups. Running
    stow and inspecting the filesystem are oracles. */
module Stow {
  import opened Text
  import opened Manifest

  datatype Env = Env(
    home: string,                 // $HOME
    clean: string -> string,      // filepath.Clean
    notExist: string -> bool,     // os.Stat reports that the path does not exist
    stowOk: seq<string> -> bool)  // `stow args...` exits with status 0

  datatype Options = Options(dryRun: bool, force: bool)

  datatype Op = StowOp | UnstowOp | RestowOp

  /** A failed stow, unstow or restow of one group ("stow failed", ...). */
  datatype StowError = StowError(configName: string, op: Op)

  datatype StowResult = StowResult(success: seq<string>, failed: seq<StowError>, skipped: seq<string>)

  const EmptyResult := StowResult([], [], [])

  // ---------------------------------------------------------------------
  // Argument vectors

  /** The option flags that precede the target, directory and package. */
  function Flags(op: Op, opts: Options): seq<string> {
    var mode := match op
      case StowOp => ["-v"]
      case UnstowOp => ["-v", "-D"]
      case RestowOp => ["-v", "-R"];
    mode + (if opts.dryRun then ["-n"] else []) + (if opts.force && op != UnstowOp then ["--adopt"] else [])
  }

  /** The whole argument vector for one package. */
  function StowArgs(op: Op, opts: Options, home: string, dotfiles: string, pkg: string): seq<string> {
    Flags(op, opts) + ["-t", home, "-d", dotfiles, pkg]
  }

  /** `StowWithCount`: `stow -v [-n] [--adopt] -t HOME -d dotfiles pkg`. */
  method StowWithCount(dotfiles: string, pkg: string, opts: Options, env: Env)
    returns (args: seq<string>, ok: bool)
    ensures args == ["-v"] + (if opts.dryRun then ["-n"] else []) + (if opts.force then ["--adopt"] else [])
                    + ["-t", env.home, "-d", dotfiles, pkg]
    ensures args == StowArgs(StowOp, opts, env.home, dotfiles, pkg)
    ensures ok == env.stowOk(args)
  {
    args := ["-v"];
    if opts.dryRun {
      args := args + ["-n"];
    }
    if opts.force {
      args := args + ["--adopt"];
    }
    args := args + ["-t", env.home];
    args := args + ["-d", dotfiles];
    args := args + [pkg];
    ok := env.stowOk(args);
  }

  /** `UnstowWithCount`: `stow -v -D [-n] -t HOME -d dotfiles pkg`; `Force`
      plays no part. */
  method UnstowWithCount(dotfiles: string, pkg: string, opts: Options, env: Env)
    returns (args: seq<string>, ok: bool)
    ensures args == ["-v", "-D"] + (if opts.dryRun then ["-n"] else []) + ["-t", env.home, "-d", dotfiles, pkg]
    ensures args == StowArgs(UnstowOp, opts, env.home, dotfiles, pkg)
    ensures ok == env.stowOk(args)
  {
    args := ["-v", "-D"];
    if opts.dryRun {
      args := args + ["-n"];
    }
    args := args + ["-t", env.home];
    args := args + ["-d", dotfiles];
    args := args + [pkg];
    ok := env.stowOk(args);
  }

  /** `RestowWithCount`: `stow -v -R [-n] [--adopt] -t HOME -d dotfiles pkg`. */
  method RestowWithCount(dotfiles: string, pkg: string, opts: Options, env: Env)
    returns (args: seq<string>, ok: bool)
    ensures args == ["-v", "-R"] + (if opts.dryRun then ["-n"] else []) + (if opts.force then ["--adopt"] else [])
                    + ["-t", env.home, "-d", dotfiles, pkg]
    ensures args == StowArgs(RestowOp, opts, env.home, dotfiles, pkg)
    ensures ok == env.stowOk(args)
  {
    args := ["-v", "-R"];
    if opts.dryRun {
      args := args + ["-n"];
    }
    if opts.force {
      args := args + ["--adopt"];
    }
    args := args + ["-t", env.home];
    args := args + ["-d", dotfiles];
    args := args + [pkg];
    ok := env.stowOk(args);
  }

  /** "--adopt" is passed exactly when forcing a stow or restow; never for
      an unstow. "-n" is passed exactly on a dry run. */
  lemma FlagMeaning(op: Op, opts: Options)
    ensures "--adopt" in Flags(op, opts) <==> opts.force && op != UnstowOp
    ensures "-n" in Flags(op, opts) <==> opts.dryRun
    ensures Flags(op, opts)[0] == "-v"
    ensures op == UnstowOp ==> Flags(op, opts)[1] == "-D"
    ensures op == RestowOp ==> Flags(op, opts)[1] == "-R"
  {
    var f := Flags(op, opts);
    if "--adopt" in f {
      var k :| 0 <= k < |f| && f[k] == "--adopt";
      assert k < |f|;
    }
    if "-n" in f {
      var k :| 0 <= k < |f| && f[k] == "-n";
      assert k < |f|;
    }
  }

  /** The package, directory and target always end the vector, after every
      flag, whatever the names. */
  lemma ArgsLayout(op: Op, opts: Options, home: string, dotfiles: string, pkg: string)
    ensures var args := StowArgs(op, opts, home, dotfiles, pkg);
            && |args| == |Flags(op, opts)| + 5
            && args[..|args| - 5] == Flags(op, opts)
            && args[|args| - 5..] == ["-t", home, "-d", dotfiles, pkg]
  {
  }

  // ---------------------------------------------------------------------
  // Batches

  datatype Outcome = Done | Fail | Skip

  /** The package directory of a group. */
  function PackageDir(dotfiles: string, c: ConfigItem, env: Env): string {
    env.clean(JoinPath(dotfiles, c.path))
  }

  /** What happens to one group: skipped when its directory is missing
      (stow and restow only), otherwise decided by stow run on its path. */
  function ItemOutcome(op: Op, dotfiles: string, c: ConfigItem, opts: Options, env: Env): Outcome {
    if op != UnstowOp && env.notExist(PackageDir(dotfiles, c, env)) then Skip
    else if env.stowOk(StowArgs(op, opts, env.home, dotfiles, c.path)) then Done
    else Fail
  }

  /** The result with the group's name appended to the list `o` names. */
  function Record(res: StowResult, op: Op, c: ConfigItem, o: Outcome): StowResult {
    match o
    case Done => res.(success := res.success + [c.name])
    case Fail => res.(failed := res.failed + [StowError(c.name, op)])
    case Skip => res.(skipped := res.skipped + [c.name])
  }

  /** Every group handled, one after the other, in input order. */
  function BatchAll(op: Op, dotfiles: string, configs: seq<ConfigItem>, opts: Options, env: Env): StowResult
    decreases |configs|
  {
    if configs == [] then EmptyResult
    else
      var n := |configs| - 1;
      Record(BatchAll(op, dotfiles, configs[..n], opts, env), op, configs[n],
             ItemOutcome(op, dotfiles, configs[n], opts, env))
  }

  /** One group: its directory check, then the matching stow call. */
  method RunItem(op: Op, dotfiles: string, c: ConfigItem, opts: Options, env: Env, result: StowResult)
    returns (next: StowResult)
    ensures next == Record(result, op, c, ItemOutcome(op, dotfiles, c, opts, env))
  {
    if op != UnstowOp {
      var configPath := env.clean(JoinPath(dotfiles, c.path));
      if env.notExist(configPath) {
        return result.(skipped := result.skipped + [c.name]);
      }
    }
    var args, ok;
    match op {
      case StowOp => args, ok := StowWithCount(dotfiles, c.path, opts, env);
      case UnstowOp => args, ok := UnstowWithCount(dotfiles, c.path, opts, env);
      case RestowOp => args, ok := RestowWithCount(dotfiles, c.path, opts, env);
    }
    if !ok {
      next := result.(failed := result.failed + [StowError(c.name, op)]);
    } else {
      next := result.(success := result.success + [c.name]);
    }
  }

  /** The loop shared by `StowConfigs`, `UnstowConfigs` and `RestowConfigs`. */
  method RunBatch(op: Op, dotfiles: string, configs: seq<ConfigItem>, opts: Options, env: Env)
    returns (result: StowResult)
    ensures result == BatchAll(op, dotfiles, configs, opts, env)
  {
    result := EmptyResult;
    var i := 0;
    while i < |configs|
      invariant 0 <= i <= |configs|
      invariant result == BatchAll(op, dotfiles, configs[..i], opts, env)
    {
      assert configs[..i + 1][..i] == configs[..i];
      result := RunItem(op, dotfiles, configs[i], opts, env, result);
      i := i + 1;
    }
    assert configs[..i] == configs;
  }

  /** `StowConfigs`. */
  method StowConfigs(dotfiles: string, configs: seq<ConfigItem>, opts: Options, env: Env)
    returns (result: StowResult)
    ensures result == BatchAll(StowOp, dotfiles, configs, opts, env)
  {
    result := RunBatch(StowOp, dotfiles, configs, opts, env);
  }

  /** `UnstowConfigs`. */
  method UnstowConfigs(dotfiles: string, configs: seq<ConfigItem>, opts: Options, env: Env)
    returns (result: StowResult)
    ensures result == BatchAll(UnstowOp, dotfiles, configs, opts, env)
    ensures result.skipped == []
  {
    result := RunBatch(UnstowOp, dotfiles, configs, opts, env);
    UnstowNeverSkips(dotfiles, configs, opts, env);
  }

  /** `RestowConfigs`. */
  method RestowConfigs(dotfiles: string, configs: seq<ConfigItem>, opts: Options, env: Env)
    returns (result: StowResult)
    ensures result == BatchAll(RestowOp, dotfiles, configs, opts, env)
  {
    result := RunBatch(RestowOp, dotfiles, configs, opts, env);
  }

  function Size(r: StowResult): nat {
    |r.success| + |r.failed| + |r.skipped|
  }

  function Concat(a: StowResult, b: StowResult): StowResult {
    StowResult(a.success + b.success, a.failed + b.failed, a.skipped + b.skipped)
  }

  /** Failures do not stop the batch: every group lands in exactly one list. */
  lemma {:induction false} BatchSize(op: Op, dotfiles: string, configs: seq<ConfigItem>, opts: Options, env: Env)
    ensures Size(BatchAll(op, dotfiles, configs, opts, env)) == |configs|
    decreases |configs|
  {
    if configs != [] {
      BatchSize(op, dotfiles, configs[..|configs| - 1], opts, env);
    }
  }

  lemma RecordConcat(x: StowResult, y: StowResult, op: Op, c: ConfigItem, o: Outcome)
    ensures Record(Concat(x, y), op, c, o) == Concat(x, Record(y, op, c, o))
  {
    match o
    case Done => assert x.success + (y.success + [c.name]) == (x.success + y.success) + [c.name];
    case Fail =>
      var e := StowError(c.name, op);
      assert x.failed + (y.failed + [e]) == (x.failed + y.failed) + [e];
    case Skip => assert x.skipped + (y.skipped + [c.name]) == (x.skipped + y.skipped) + [c.name];
  }

  /** Groups are handled independently and each list keeps input order:
      the batch of a concatenation is the concatenation of the batches. */
  lemma {:induction false} BatchAppend(op: Op, dotfiles: string, a: seq<ConfigItem>, b: seq<ConfigItem>, opts: Options, env: Env)
    ensures BatchAll(op, dotfiles, a + b, opts, env) ==
              Concat(BatchAll(op, dotfiles, a, opts, env), BatchAll(op, dotfiles, b, opts, env))
    decreases |b|
  {
    var ra := BatchAll(op, dotfiles, a, opts, env);
    if b == [] {
      assert a + b == a;
      assert Concat(ra, EmptyResult) == ra;
    } else {
      var n := |b| - 1;
      var o := ItemOutcome(op, dotfiles, b[n], opts, env);
      assert (a + b)[..|a + b| - 1] == a + b[..n];
      assert (a + b)[|a + b| - 1] == b[n];
      calc {
        BatchAll(op, dotfiles, a + b, opts, env);
        Record(BatchAll(op, dotfiles, a + b[..n], opts, env), op, b[n], o);
        { BatchAppend(op, dotfiles, a, b[..n], opts, env); }
        Record(Concat(ra, BatchAll(op, dotfiles, b[..n], opts, env)), op, b[n], o);
        { RecordConcat(ra, BatchAll(op, dotfiles, b[..n], opts, env), op, b[n], o); }
        Concat(ra, Record(BatchAll(op, dotfiles, b[..n], opts, env), op, b[n], o));
      }
    }
  }

  /** Unstowing checks no directory, so nothing is ever skipped. */
  lemma {:induction false} UnstowNeverSkips(dotfiles: string, configs: seq<ConfigItem>, opts: Options, env: Env)
    ensures BatchAll(UnstowOp, dotfiles, configs, opts, env).skipped == []
    decreases |configs|
  {
    if configs != [] {
      UnstowNeverSkips(dotfiles, configs[..|configs| - 1], opts, env);
    }
  }

  /** A group whose directory is missing is skipped, and whether stow would
      succeed plays no part: the tool is not run for it. */
  lemma MissingDirectorySkipped(op: Op, dotfiles: string, c: ConfigItem, opts: Options, env1: Env, env2: Env)
    requires op != UnstowOp
    requires env1.clean == env2.clean && env1.notExist == env2.notExist
    requires env1.notExist(PackageDir(dotfiles, c, env1))
    ensures ItemOutcome(op, dotfiles, c, opts, env1) == Skip
    ensures ItemOutcome(op, dotfiles, c, opts, env2) == Skip
  {
  }

  /** The names of the groups on whose path stow succeeds (`ok`) or fails
      (`!ok`). */
  function RanNames(op: Op, dotfiles: string, configs: seq<ConfigItem>, opts: Options, env: Env, ok: bool): set<string> {
    set c | c in configs && env.stowOk(StowArgs(op, opts, env.home, dotfiles, c.path)) == ok :: c.name
  }

  function Names(configs: seq<ConfigItem>): set<string> {
    set c | c in configs :: c.name
  }

  /** The lists hold the groups' names, while stow is run on their paths. */
  lemma {:induction false} NamesFromConfigs(op: Op, dotfiles: string, configs: seq<ConfigItem>, opts: Options, env: Env)
    ensures forall k :: 0 <= k < |BatchAll(op, dotfiles, configs, opts, env).success| ==>
              BatchAll(op, dotfiles, configs, opts, env).success[k] in RanNames(op, dotfiles, configs, opts, env, true)
    ensures forall k :: 0 <= k < |BatchAll(op, dotfiles, configs, opts, env).failed| ==>
              && BatchAll(op, dotfiles, configs, opts, env).failed[k].op == op
              && BatchAll(op, dotfiles, configs, opts, env).failed[k].configName in RanNames(op, dotfiles, configs, opts, env, false)
    ensures forall k :: 0 <= k < |BatchAll(op, dotfiles, configs, opts, env).skipped| ==>
              BatchAll(op, dotfiles, configs, opts, env).skipped[k] in Names(configs)
    decreases |configs|
  {
    if configs != [] {
      var n := |configs| - 1;
      var init := configs[..n];
      var last := configs[n];
      NamesFromConfigs(op, dotfiles, init, opts, env);
      assert forall c :: c in init ==> c in configs;
      assert last in configs;
      var prev := BatchAll(op, dotfiles, init, opts, env);
      var r := BatchAll(op, dotfiles, configs, opts, env);
      var o := ItemOutcome(op, dotfiles, last, opts, env);
      assert r == Record(prev, op, last, o);
      assert RanNames(op, dotfiles, init, opts, env, true) <= RanNames(op, dotfiles, configs, opts, env, true);
      assert RanNames(op, dotfiles, init, opts, env, false) <= RanNames(op, dotfiles, configs, opts, env, false);
      assert Names(init) <= Names(configs);
      assert o == Done ==> last.name in RanNames(op, dotfiles, configs, opts, env, true);
      assert o == Fail ==> last.name in RanNames(op, dotfiles, configs, opts, env, false);
      assert last.name in Names(configs);
    }
  }
}
