/** The external asset manager (internal/deps/external.go): platform
    conditions, destination paths, and the per-asset choice between skipping,
    updating, cloning and failing. git and the filesystem are oracles. */
module External {
  import opened Text
  import opened Manifest

  /** What the asset manager learns from outside the program. */
  datatype Env = Env(
    home: Option<string>,              // os.UserHomeDir, None when it fails
    clean: string -> string,           // filepath.Clean
    // The destination exists. For cloning and status (`checkDestination`)
    // this is "os.Stat succeeds"; `RemoveExternal` instead goes on unless
    // os.Stat reports not-exist, so there a permission error counts as
    // present. No single run uses both readings.
    destExists: string -> bool,
    isGit: string -> bool,             // the destination is a directory holding .git
    gitAvailable: bool,                // git is found in PATH
    pullOk: string -> bool,            // `git -C path pull --ff-only` succeeds
    cloneOk: (string, string) -> bool, // `git clone --depth 1 url dest` succeeds
    copyOk: (string, string) -> bool,  // clone to a temporary directory, drop .git, move
    removeOk: string -> bool)          // os.RemoveAll succeeds

  datatype Options = Options(dryRun: bool, update: bool)

  datatype FailReason =
    | ExpandFailed
    | UpdateFailed
    | CloneFailed
    | CopyFailed
    | UnknownMethod(fetchMethod: string)

  /** "condition not met" and "already exists". */
  datatype SkipReason = ConditionNotMet | AlreadyExists

  datatype ExternalError = ExternalError(dep: ExternalDep, reason: FailReason)

  datatype ExternalSkipped = ExternalSkipped(dep: ExternalDep, reason: SkipReason)

  datatype ExternalResult = ExternalResult(
    cloned: seq<ExternalDep>,
    updated: seq<ExternalDep>,
    failed: seq<ExternalError>,
    skipped: seq<ExternalSkipped>)

  const EmptyResult := ExternalResult([], [], [], [])

  datatype CloneError = GitNotFound

  // ---------------------------------------------------------------------
  // Platform conditions

  /** Some comma-separated, trimmed alternative equals `actual`. */
  function AnyAlternative(alts: seq<string>, actual: string): (r: bool)
    ensures r <==> exists alt :: alt in alts && TrimSpace(alt) == actual
  {
    if alts == [] then false
    else if TrimSpace(alts[0]) == actual then true
    else
      var r := AnyAlternative(alts[1..], actual);
      assert forall alt :: alt in alts ==> alt == alts[0] || alt in alts[1..];
      r
  }

  /** `matchesValue`: `wanted` is a comma-separated list of alternatives. */
  function MatchesValue(actual: string, wanted: string): (r: bool)
    ensures r <==> exists alt :: alt in Split(wanted, ',') && TrimSpace(alt) == actual
  {
    AnyAlternative(Split(wanted, ','), actual)
  }

  predicate Recognised(key: string) {
    key in {"platform", "os", "distro", "package_manager", "wsl", "arch", "architecture"}
  }

  /** What one condition entry demands of the platform. */
  predicate KeyHolds(key: string, value: string, p: Platform) {
    if key == "platform" || key == "os" then MatchesValue(p.os, value)
    else if key == "distro" then MatchesValue(p.distro, value)
    else if key == "package_manager" then MatchesValue(p.packageManager, value)
    else if key == "wsl" then (value == "true" ==> p.isWSL) && (value == "false" ==> !p.isWSL)
    else if key == "arch" || key == "architecture" then MatchesValue(p.architecture, value)
    else true
  }

  /** `checkCondition`: every entry of the condition map holds. */
  function CheckCondition(condition: map<string, string>, p: Platform): (r: bool)
    ensures |condition| == 0 ==> r
  {
    forall key :: key in condition ==> KeyHolds(key, condition[key], p)
  }

  /** An entry whose key is not recognised imposes nothing. */
  lemma UnrecognisedKeyIgnored(condition: map<string, string>, key: string, value: string, p: Platform)
    requires !Recognised(key) && key !in condition
    ensures CheckCondition(condition[key := value], p) == CheckCondition(condition, p)
  {
    var c' := condition[key := value];
    if CheckCondition(condition, p) {
      forall k | k in c' ensures KeyHolds(k, c'[k], p) {
        if k != key {
          assert KeyHolds(k, condition[k], p);
        }
      }
    }
    if CheckCondition(c', p) {
      forall k | k in condition ensures KeyHolds(k, condition[k], p) {
        assert c'[k] == condition[k];
      }
    }
  }

  /** The condition is the conjunction of its parts. */
  lemma ConditionConjunction(c1: map<string, string>, c2: map<string, string>, p: Platform)
    requires c1.Keys !! c2.Keys
    ensures CheckCondition(c1 + c2, p) == (CheckCondition(c1, p) && CheckCondition(c2, p))
  {
    var c := c1 + c2;
    if CheckCondition(c, p) {
      forall k | k in c1 ensures KeyHolds(k, c1[k], p) {
        assert c[k] == c1[k];
      }
      forall k | k in c2 ensures KeyHolds(k, c2[k], p) {
        assert c[k] == c2[k];
      }
    }
  }

  /** "wsl" accepts "true" and "false"; any other value constrains nothing. */
  lemma WslCondition(value: string, p: Platform)
    ensures CheckCondition(map["wsl" := value], p) <==>
              (value == "true" ==> p.isWSL) && (value == "false" ==> !p.isWSL)
  {
    SingleEntry("wsl", value, p);
  }

  /** A condition with a single entry is that entry's demand. */
  lemma SingleEntry(key: string, value: string, p: Platform)
    ensures CheckCondition(map[key := value], p) == KeyHolds(key, value, p)
  {
    assert key in map[key := value];
  }

  /** A word that can appear as one alternative of a condition value. */
  predicate PlainWord(w: string) {
    w != [] && ',' !in w && !IsSpace(w[0]) && !IsSpace(w[|w| - 1])
  }

  /** `os: "a,b"` (for instance "linux,darwin") admits exactly the platforms
      whose OS is `a` or `b`. */
  lemma OsAlternatives(a: string, b: string, p: Platform)
    requires PlainWord(a) && PlainWord(b)
    ensures CheckCondition(map["os" := a + "," + b], p) <==> p.os == a || p.os == b
  {
    var value := a + "," + b;
    SingleEntry("os", value, p);
    assert value == a + [','] + b;
    SplitFirst(a, b, ',');
    SplitNone(b, ',');
    var alts := Split(value, ',');
    assert alts == [a, b];
    TrimmedWord(a);
    TrimmedWord(b);
    assert AnyAlternative(alts[1..], p.os) == AnyAlternative([b], p.os);
  }

  // ---------------------------------------------------------------------
  // Paths

  /** `expandPath`: a leading "~/" becomes the home directory; every path is
      cleaned; a missing home directory is an error only for "~/" paths. */
  function ExpandPath(path: string, env: Env): (r: Option<string>)
    ensures !HasPrefix(path, "~/") ==> r == Some(env.clean(path))
    ensures HasPrefix(path, "~/") ==>
              r == (if env.home.Some? then Some(env.clean(JoinPath(env.home.value, path[2..]))) else None)
  {
    if HasPrefix(path, "~/") then
      match env.home
      case None => None
      case Some(home) => Some(env.clean(JoinPath(home, path[2..])))
    else Some(env.clean(path))
  }

  // ---------------------------------------------------------------------
  // The per-asset decision of CloneExternal

  datatype Outcome = Cloned | Updated | Skipped(skip: SkipReason) | Failed(fail: FailReason)

  /** An empty method means "clone". */
  function EffectiveMethod(m: string): string {
    if m == "" then "clone" else m
  }

  function FetchOutcome(m: string, url: string, dest: string, env: Env): Outcome {
    if m == "clone" then (if env.cloneOk(url, dest) then Cloned else Failed(CloneFailed))
    else if m == "copy" then (if env.copyOk(url, dest) then Cloned else Failed(CopyFailed))
    else Failed(UnknownMethod(m))
  }

  /** Where one asset lands when git is available. */
  function AssetOutcome(ext: ExternalDep, p: Platform, opts: Options, env: Env): Outcome {
    if !CheckCondition(ext.condition, p) then Skipped(ConditionNotMet)
    else match ExpandPath(ext.destination, env)
      case None => Failed(ExpandFailed)
      case Some(dest) =>
        if env.destExists(dest) then
          if opts.update && env.isGit(dest) then
            if !opts.dryRun && !env.pullOk(dest) then Failed(UpdateFailed) else Updated
          else Skipped(AlreadyExists)
        else if opts.dryRun then Cloned
        else FetchOutcome(EffectiveMethod(ext.fetchMethod), ext.url, dest, env)
  }

  /** The result with `ext` appended to the bucket `o` names. */
  function Record(res: ExternalResult, ext: ExternalDep, o: Outcome): ExternalResult {
    match o
    case Cloned => res.(cloned := res.cloned + [ext])
    case Updated => res.(updated := res.updated + [ext])
    case Skipped(why) => res.(skipped := res.skipped + [ExternalSkipped(ext, why)])
    case Failed(why) => res.(failed := res.failed + [ExternalError(ext, why)])
  }

  /** Every asset recorded, one after the other, in declaration order. */
  function ClassifyAll(exts: seq<ExternalDep>, p: Platform, opts: Options, env: Env): ExternalResult
    decreases |exts|
  {
    if exts == [] then EmptyResult
    else
      var n := |exts| - 1;
      Record(ClassifyAll(exts[..n], p, opts, env), exts[n], AssetOutcome(exts[n], p, opts, env))
  }

  function Concat(a: ExternalResult, b: ExternalResult): ExternalResult {
    ExternalResult(a.cloned + b.cloned, a.updated + b.updated, a.failed + b.failed, a.skipped + b.skipped)
  }

  function Size(r: ExternalResult): nat {
    |r.cloned| + |r.updated| + |r.failed| + |r.skipped|
  }

  /** Each asset lands in exactly one bucket: the sizes add up. */
  lemma {:induction false} ClassifySize(exts: seq<ExternalDep>, p: Platform, opts: Options, env: Env)
    ensures Size(ClassifyAll(exts, p, opts, env)) == |exts|
    decreases |exts|
  {
    if exts != [] {
      ClassifySize(exts[..|exts| - 1], p, opts, env);
    }
  }

  /** A single asset goes to the one bucket its outcome names. */
  lemma SingleAsset(ext: ExternalDep, p: Platform, opts: Options, env: Env)
    ensures ClassifyAll([ext], p, opts, env) == Record(EmptyResult, ext, AssetOutcome(ext, p, opts, env))
  {
    assert [ext][..0] == [];
  }

  /** Assets are handled independently and in order: classifying a
      concatenation concatenates the buckets. */
  lemma RecordConcat(x: ExternalResult, y: ExternalResult, ext: ExternalDep, o: Outcome)
    ensures Record(Concat(x, y), ext, o) == Concat(x, Record(y, ext, o))
  {
    match o
    case Cloned => assert x.cloned + (y.cloned + [ext]) == (x.cloned + y.cloned) + [ext];
    case Updated => assert x.updated + (y.updated + [ext]) == (x.updated + y.updated) + [ext];
    case Skipped(why) =>
      var e := ExternalSkipped(ext, why);
      assert x.skipped + (y.skipped + [e]) == (x.skipped + y.skipped) + [e];
    case Failed(why) =>
      var e := ExternalError(ext, why);
      assert x.failed + (y.failed + [e]) == (x.failed + y.failed) + [e];
  }

  /** The last asset is recorded after all the others. */
  lemma ClassifyLast(exts: seq<ExternalDep>, p: Platform, opts: Options, env: Env)
    requires exts != []
    ensures ClassifyAll(exts, p, opts, env)
              == Record(ClassifyAll(exts[..|exts| - 1], p, opts, env), exts[|exts| - 1], AssetOutcome(exts[|exts| - 1], p, opts, env))
  {
  }

  lemma {:induction false} ClassifyAppend(a: seq<ExternalDep>, b: seq<ExternalDep>, p: Platform, opts: Options, env: Env)
    ensures ClassifyAll(a + b, p, opts, env) == Concat(ClassifyAll(a, p, opts, env), ClassifyAll(b, p, opts, env))
    decreases |b|
  {
    var ca := ClassifyAll(a, p, opts, env);
    if b == [] {
      assert a + b == a;
      assert ClassifyAll(b, p, opts, env) == EmptyResult;
      assert Concat(ca, EmptyResult) == ca;
    } else {
      var n := |b| - 1;
      var o := AssetOutcome(b[n], p, opts, env);
      var ab := a + b;
      assert ab[..|ab| - 1] == a + b[..n];
      assert ab[|ab| - 1] == b[n];
      ClassifyLast(ab, p, opts, env);
      ClassifyLast(b, p, opts, env);
      ClassifyAppend(a, b[..n], p, opts, env);
      RecordConcat(ca, ClassifyAll(b[..n], p, opts, env), b[n], o);
    }
  }

  /** An existing destination is never cloned; unless an update of a git
      working copy is asked for, it is skipped as "already exists". */
  lemma ExistingNeverCloned(ext: ExternalDep, p: Platform, opts: Options, env: Env)
    requires CheckCondition(ext.condition, p)
    requires ExpandPath(ext.destination, env).Some? && env.destExists(ExpandPath(ext.destination, env).value)
    ensures AssetOutcome(ext, p, opts, env) != Cloned
    ensures !(opts.update && env.isGit(ExpandPath(ext.destination, env).value)) ==>
              AssetOutcome(ext, p, opts, env) == Skipped(AlreadyExists)
  {
  }

  /** A dry run consults neither the pull nor the fetch oracles. */
  lemma DryRunFetchesNothing(ext: ExternalDep, p: Platform, opts: Options, env1: Env, env2: Env)
    requires opts.dryRun
    requires env1.home == env2.home && env1.clean == env2.clean
    requires env1.destExists == env2.destExists && env1.isGit == env2.isGit
    ensures AssetOutcome(ext, p, opts, env1) == AssetOutcome(ext, p, opts, env2)
    ensures AssetOutcome(ext, p, opts, env1) in {Cloned, Updated, Skipped(ConditionNotMet),
                                                  Skipped(AlreadyExists), Failed(ExpandFailed)}
  {
  }

  /** A method other than "", "clone" and "copy" is a per-asset failure. */
  lemma UnknownMethodFails(ext: ExternalDep, p: Platform, opts: Options, env: Env)
    requires ext.fetchMethod !in {"", "clone", "copy"} && !opts.dryRun
    requires CheckCondition(ext.condition, p)
    requires ExpandPath(ext.destination, env).Some? && !env.destExists(ExpandPath(ext.destination, env).value)
    ensures AssetOutcome(ext, p, opts, env) == Failed(UnknownMethod(ext.fetchMethod))
  {
  }

  /** The body of `CloneExternal`'s loop: one asset is checked, updated or
      fetched, and recorded in its bucket. */
  method RecordAsset(result: ExternalResult, ext: ExternalDep, p: Platform, opts: Options, env: Env)
    returns (next: ExternalResult)
    ensures next == Record(result, ext, AssetOutcome(ext, p, opts, env))
  {
    if !CheckCondition(ext.condition, p) {
      return result.(skipped := result.skipped + [ExternalSkipped(ext, ConditionNotMet)]);
    }
    var expanded := ExpandPath(ext.destination, env);
    if expanded.None? {
      return result.(failed := result.failed + [ExternalError(ext, ExpandFailed)]);
    }
    var destPath := expanded.value;
    if env.destExists(destPath) {
      if opts.update && env.isGit(destPath) {
        if !opts.dryRun && !env.pullOk(destPath) {
          return result.(failed := result.failed + [ExternalError(ext, UpdateFailed)]);
        }
        return result.(updated := result.updated + [ext]);
      }
      return result.(skipped := result.skipped + [ExternalSkipped(ext, AlreadyExists)]);
    }
    if opts.dryRun {
      return result.(cloned := result.cloned + [ext]);
    }
    var m := ext.fetchMethod;
    if m == "" {
      m := "clone";
    }
    var cloneErr: Option<FailReason>;
    if m == "clone" {
      cloneErr := if env.cloneOk(ext.url, destPath) then None else Some(CloneFailed);
    } else if m == "copy" {
      cloneErr := if env.copyOk(ext.url, destPath) then None else Some(CopyFailed);
    } else {
      cloneErr := Some(UnknownMethod(m));
    }
    if cloneErr.Some? {
      next := result.(failed := result.failed + [ExternalError(ext, cloneErr.value)]);
    } else {
      next := result.(cloned := result.cloned + [ext]);
    }
  }

  /** `CloneExternal`: nothing to do for an empty list; otherwise git must be
      available, and then every asset is recorded in declaration order. */
  method CloneExternal(cfg: Config, p: Platform, opts: Options, env: Env)
    returns (r: Result<ExternalResult, CloneError>)
    ensures cfg.external == [] ==> r == Ok(EmptyResult)
    ensures cfg.external != [] && !env.gitAvailable ==> r == Err(GitNotFound)
    ensures cfg.external != [] && env.gitAvailable ==> r == Ok(ClassifyAll(cfg.external, p, opts, env))
  {
    var result := EmptyResult;
    if |cfg.external| == 0 {
      return Ok(result);
    }
    if !env.gitAvailable {
      return Err(GitNotFound);
    }
    var exts := cfg.external;
    var i := 0;
    while i < |exts|
      invariant 0 <= i <= |exts|
      invariant result == ClassifyAll(exts[..i], p, opts, env)
    {
      assert exts[..i + 1][..i] == exts[..i];
      result := RecordAsset(result, exts[i], p, opts, env);
      i := i + 1;
    }
    assert exts[..i] == exts;
    return Ok(result);
  }

  // ---------------------------------------------------------------------
  // Lookup by id, CloneSingle, RemoveExternal

  /** The position of the first asset with this id, or `|exts|`. */
  function FindIndex(exts: seq<ExternalDep>, id: string): (i: nat)
    ensures i <= |exts|
    ensures i < |exts| ==> exts[i].id == id
    ensures forall j :: 0 <= j < i ==> exts[j].id != id
  {
    if exts == [] then 0 else if exts[0].id == id then 0 else 1 + FindIndex(exts[1..], id)
  }

  /** The first declared asset with this id. */
  function FindExternal(exts: seq<ExternalDep>, id: string): Option<ExternalDep> {
    var i := FindIndex(exts, id);
    if i < |exts| then Some(exts[i]) else None
  }

  datatype SingleError =
    | NotFound(id: string)
    | ConditionUnmet(id: string)
    | DestinationExists(path: string)
    | Failure(reason: FailReason)

  /** `CloneSingle`: as one step of `CloneExternal` for the first asset with
      this id, except that an unknown id, an unmet condition and an existing
      destination that is not updated are errors rather than skips. */
  function CloneSingle(cfg: Config, p: Platform, id: string, opts: Options, env: Env): (r: Option<SingleError>)
    ensures FindExternal(cfg.external, id).None? ==> r == Some(NotFound(id))
    ensures FindExternal(cfg.external, id).Some? ==>
              var o := AssetOutcome(FindExternal(cfg.external, id).value, p, opts, env);
              && (r.None? <==> o == Cloned || o == Updated)
              && (r == Some(ConditionUnmet(id)) <==> o == Skipped(ConditionNotMet))
              && (r.Some? && r.value.DestinationExists? <==> o == Skipped(AlreadyExists))
              && (forall why :: r == Some(Failure(why)) <==> o == Failed(why))
  {
    match FindExternal(cfg.external, id)
    case None => Some(NotFound(id))
    case Some(found) =>
      if !CheckCondition(found.condition, p) then Some(ConditionUnmet(id))
      else match ExpandPath(found.destination, env)
        case None => Some(Failure(ExpandFailed))
        case Some(dest) =>
          if env.destExists(dest) then
            if opts.update && env.isGit(dest) then
              if !opts.dryRun && !env.pullOk(dest) then Some(Failure(UpdateFailed)) else None
            else Some(DestinationExists(dest))
          else if opts.dryRun then None
          else
            var m := EffectiveMethod(found.fetchMethod);
            if m == "clone" then (if env.cloneOk(found.url, dest) then None else Some(Failure(CloneFailed)))
            else if m == "copy" then (if env.copyOk(found.url, dest) then None else Some(Failure(CopyFailed)))
            else Some(Failure(UnknownMethod(m)))
  }

  datatype RemoveError =
    | RemoveNotFound(id: string)
    | RemovePathFailed
    | NotInstalled(id: string, path: string)
    | RemoveFailed(path: string)

  /** `RemoveExternal`: removes the first asset with this id; a dry run only
      checks that it is present. */
  function RemoveExternal(cfg: Config, id: string, opts: Options, env: Env): (r: Option<RemoveError>)
    ensures r == Some(RemoveNotFound(id)) <==> FindExternal(cfg.external, id).None?
    ensures r.None? <==>
              && FindExternal(cfg.external, id).Some?
              && ExpandPath(FindExternal(cfg.external, id).value.destination, env).Some?
              && var dest := ExpandPath(FindExternal(cfg.external, id).value.destination, env).value;
                 env.destExists(dest) && (opts.dryRun || env.removeOk(dest))
  {
    match FindExternal(cfg.external, id)
    case None => Some(RemoveNotFound(id))
    case Some(found) =>
      match ExpandPath(found.destination, env)
      case None => Some(RemovePathFailed)
      case Some(dest) =>
        if !env.destExists(dest) then Some(NotInstalled(id, dest))
        else if opts.dryRun then None
        else if !env.removeOk(dest) then Some(RemoveFailed(dest))
        else None
  }

  // ---------------------------------------------------------------------
  // CheckExternalStatus

  datatype StatusKind = Installed | Missing | StatusSkipped | StatusError

  datatype ExternalStatus = ExternalStatus(dep: ExternalDep, status: StatusKind, reason: string, path: string)

  /** The status reported for one asset. */
  function StatusOf(ext: ExternalDep, p: Platform, env: Env): ExternalStatus {
    if !CheckCondition(ext.condition, p) then ExternalStatus(ext, StatusSkipped, "condition not met", "")
    else match ExpandPath(ext.destination, env)
      case None => ExternalStatus(ext, StatusError, "invalid path", "")
      case Some(dest) =>
        if env.destExists(dest) then
          ExternalStatus(ext, Installed, if env.isGit(dest) then "" else "not a git repo", dest)
        else ExternalStatus(ext, Missing, "", dest)
  }

  /** The status report agrees with what a plain (non-updating) clone run
      would do with each asset. */
  lemma StatusAgreesWithClone(ext: ExternalDep, p: Platform, opts: Options, env: Env)
    requires !opts.update
    ensures var s := StatusOf(ext, p, env).status;
            var o := AssetOutcome(ext, p, opts, env);
            && (s == StatusSkipped <==> o == Skipped(ConditionNotMet))
            && (s == StatusError <==> o == Failed(ExpandFailed))
            && (s == Installed <==> o == Skipped(AlreadyExists))
            && (s == Missing <==> o == Cloned || (o.Failed? && o.fail != ExpandFailed))
  {
  }

  /** The status of one asset, as the loop of `CheckExternalStatus` works
      it out. */
  method CheckOne(ext: ExternalDep, p: Platform, env: Env) returns (status: ExternalStatus)
    ensures status == StatusOf(ext, p, env)
  {
    if !CheckCondition(ext.condition, p) {
      return ExternalStatus(ext, StatusSkipped, "condition not met", "");
    }
    var expanded := ExpandPath(ext.destination, env);
    if expanded.None? {
      return ExternalStatus(ext, StatusError, "invalid path", "");
    }
    var destPath := expanded.value;
    if env.destExists(destPath) {
      if env.isGit(destPath) {
        status := ExternalStatus(ext, Installed, "", destPath);
      } else {
        status := ExternalStatus(ext, Installed, "not a git repo", destPath);
      }
    } else {
      status := ExternalStatus(ext, Missing, "", destPath);
    }
  }

  /** `CheckExternalStatus`: one status per declared asset, in order. */
  method CheckExternalStatus(cfg: Config, p: Platform, env: Env) returns (statuses: seq<ExternalStatus>)
    ensures |statuses| == |cfg.external|
    ensures forall i :: 0 <= i < |statuses| ==> statuses[i] == StatusOf(cfg.external[i], p, env)
  {
    statuses := [];
    for i := 0 to |cfg.external|
      invariant |statuses| == i
      invariant forall k :: 0 <= k < i ==> statuses[k] == StatusOf(cfg.external[k], p, env)
    {
      var status := CheckOne(cfg.external[i], p, env);
      statuses := statuses + [status];
    }
  }
}
