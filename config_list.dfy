/** The configuration listing (internal/ui/config_list.go): which groups,
    assets and machine configs are shown, and with which status. The
    listing is modelled as the sequence of entries it prints, without the
    styling. */
module ConfigList {
  import opened Manifest
  import External

  /** One printed entry. */
  datatype Entry =
    | Section(title: string)
    | ConfigShown(name: string, description: string, installed: bool)
    | ConfigUnavailable(name: string, os: string)
    | ExternalShown(name: string, installed: bool, info: string)
    | ExternalMismatch(name: string)
    | MachineShown(description: string, configured: bool, info: string)
    | ArchivedShown(name: string, description: string)
    | InstalledCount(count: nat)
    | DotfilesAt(path: string)
    | NoState

  // ---------------------------------------------------------------------
  // Platform match and status

  /** `isPlatformMatch`: some entry names the OS, the distribution or "all". */
  predicate IsPlatformMatch(platforms: seq<string>, p: Platform)
    decreases |platforms|
  {
    platforms != [] &&
    (platforms[0] == p.os || platforms[0] == "all" || platforms[0] == p.distro
     || IsPlatformMatch(platforms[1..], p))
  }

  /** The match holds exactly when one of the entries matches. */
  lemma {:induction false} PlatformMatchMeaning(platforms: seq<string>, p: Platform)
    ensures IsPlatformMatch(platforms, p) <==>
              exists k :: 0 <= k < |platforms| && (platforms[k] == p.os || platforms[k] == "all" || platforms[k] == p.distro)
    decreases |platforms|
  {
    if platforms != [] {
      PlatformMatchMeaning(platforms[1..], p);
      if IsPlatformMatch(platforms[1..], p) {
        var k :| 0 <= k < |platforms[1..]| &&
                 (platforms[1..][k] == p.os || platforms[1..][k] == "all" || platforms[1..][k] == p.distro);
        assert platforms[k + 1] == platforms[1..][k];
      }
      if exists k :: 0 <= k < |platforms| && (platforms[k] == p.os || platforms[k] == "all" || platforms[k] == p.distro) {
        var k :| 0 <= k < |platforms| && (platforms[k] == p.os || platforms[k] == "all" || platforms[k] == p.distro);
        if k > 0 {
          assert platforms[1..][k - 1] == platforms[k];
        }
      }
    }
  }

  /** The names the state records as installed; none without a state. */
  function InstalledNames(st: Option<State>): set<string> {
    if st.None? then {} else set c | c in st.value.configs :: c.name
  }

  /** The loop filling the `installed` map from the state. */
  method InstalledMap(st: Option<State>) returns (installed: map<string, bool>)
    ensures installed == InstalledMapOf(st)
  {
    installed := map[];
    if st.Some? {
      var configs := st.value.configs;
      for i := 0 to |configs|
        invariant installed.Keys == set c | c in configs[..i] :: c.name
        invariant forall name :: name in installed ==> installed[name]
      {
        assert configs[..i + 1] == configs[..i] + [configs[i]];
        installed := installed[configs[i].name := true];
      }
      assert configs[..|configs|] == configs;
    }
    assert installed.Keys == InstalledMapOf(st).Keys;
  }

  /** `printConfigStatus`: a group meant for other platforms is listed only
      with `showAll`; others show whether they are installed. */
  function ConfigEntries(c: ConfigItem, installed: map<string, bool>, p: Platform, showAll: bool): seq<Entry> {
    if |c.platforms| > 0 && !IsPlatformMatch(c.platforms, p) then
      if showAll then [ConfigUnavailable(c.name, p.os)] else []
    else [ConfigShown(c.name, c.description, c.name in installed && installed[c.name])]
  }

  /** An asset counts as installed when the state has an installed entry
      for its id; one whose condition fails is listed only with `showAll`. */
  function ExternalEntries(e: ExternalDep, st: Option<State>, p: Platform, showAll: bool): seq<Entry> {
    var installed := st.Some? && e.id in st.value.externalDeps && st.value.externalDeps[e.id].installed;
    if !External.CheckCondition(e.condition, p) then
      if showAll then [ExternalMismatch(e.name)] else []
    else [ExternalShown(e.name, installed, if installed then st.value.externalDeps[e.id].path else "not installed")]
  }

  /** A machine config is configured when the state has an entry for it. */
  function MachineEntry(mc: MachinePrompt, st: Option<State>): Entry {
    var configured := st.Some? && mc.id in st.value.machineConfig;
    MachineShown(mc.description, configured, if configured then st.value.machineConfig[mc.id].configPath else "not configured")
  }

  // ---------------------------------------------------------------------
  // The listing, section by section

  function ConfigSection(cs: seq<ConfigItem>, installed: map<string, bool>, p: Platform, showAll: bool): seq<Entry>
    decreases |cs|
  {
    if cs == [] then [] else ConfigSection(cs[..|cs| - 1], installed, p, showAll) + ConfigEntries(cs[|cs| - 1], installed, p, showAll)
  }

  function ExternalSection(es: seq<ExternalDep>, st: Option<State>, p: Platform, showAll: bool): seq<Entry>
    decreases |es|
  {
    if es == [] then [] else ExternalSection(es[..|es| - 1], st, p, showAll) + ExternalEntries(es[|es| - 1], st, p, showAll)
  }

  function MachineSection(mcs: seq<MachinePrompt>, st: Option<State>): (r: seq<Entry>)
    ensures |r| == |mcs|
    ensures forall k :: 0 <= k < |mcs| ==> r[k] == MachineEntry(mcs[k], st)
    decreases |mcs|
  {
    if mcs == [] then [] else MachineSection(mcs[..|mcs| - 1], st) + [MachineEntry(mcs[|mcs| - 1], st)]
  }

  function ArchivedSection(cs: seq<ConfigItem>): (r: seq<Entry>)
    ensures |r| == |cs|
    ensures forall k :: 0 <= k < |cs| ==> r[k] == ArchivedShown(cs[k].name, cs[k].description)
    decreases |cs|
  {
    if cs == [] then [] else ArchivedSection(cs[..|cs| - 1]) + [ArchivedShown(cs[|cs| - 1].name, cs[|cs| - 1].description)]
  }

  function SummarySection(st: Option<State>): seq<Entry> {
    [Section("Summary")] +
    match st
    case None => [NoState]
    case Some(s) => [InstalledCount(|s.configs|)] + (if s.dotfilesPath != "" then [DotfilesAt(s.dotfilesPath)] else [])
  }

  function OptionalPart(cfg: Config, installed: map<string, bool>, p: Platform, showAll: bool): seq<Entry> {
    if |cfg.optional| > 0 then [Section("Optional Configs")] + ConfigSection(cfg.optional, installed, p, showAll) else []
  }

  function ExternalPart(cfg: Config, st: Option<State>, p: Platform, showAll: bool): seq<Entry> {
    if |cfg.external| > 0 then [Section("External Dependencies")] + ExternalSection(cfg.external, st, p, showAll) else []
  }

  function MachinePart(cfg: Config, st: Option<State>): seq<Entry> {
    if |cfg.machineConfig| > 0 then [Section("Machine Configurations")] + MachineSection(cfg.machineConfig, st) else []
  }

  function ArchivedPart(cfg: Config, showAll: bool): seq<Entry> {
    if |cfg.archived| > 0 && showAll then [Section("Archived Configs (deprecated)")] + ArchivedSection(cfg.archived) else []
  }

  /** The `installed` map: true for every name the state records. */
  function InstalledMapOf(st: Option<State>): map<string, bool> {
    map name | name in InstalledNames(st) :: true
  }

  /** Everything `PrintConfigList` prints, in order. */
  function Listing(cfg: Config, st: Option<State>, p: Platform, showAll: bool): seq<Entry> {
    var installed := InstalledMapOf(st);
    [Section("Core Configs")] + ConfigSection(cfg.core, installed, p, showAll)
    + OptionalPart(cfg, installed, p, showAll)
    + ExternalPart(cfg, st, p, showAll)
    + MachinePart(cfg, st)
    + ArchivedPart(cfg, showAll)
    + SummarySection(st)
  }

  // ---------------------------------------------------------------------
  // The listing as the program prints it

  method PrintConfigs(cs: seq<ConfigItem>, installed: map<string, bool>, p: Platform, showAll: bool)
    returns (out: seq<Entry>)
    ensures out == ConfigSection(cs, installed, p, showAll)
  {
    out := [];
    for i := 0 to |cs|
      invariant out == ConfigSection(cs[..i], installed, p, showAll)
    {
      assert cs[..i + 1][..i] == cs[..i];
      out := out + ConfigEntries(cs[i], installed, p, showAll);
    }
    assert cs[..|cs|] == cs;
  }

  method PrintExternals(es: seq<ExternalDep>, st: Option<State>, p: Platform, showAll: bool)
    returns (out: seq<Entry>)
    ensures out == ExternalSection(es, st, p, showAll)
  {
    out := [];
    for i := 0 to |es|
      invariant out == ExternalSection(es[..i], st, p, showAll)
    {
      assert es[..i + 1][..i] == es[..i];
      out := out + ExternalEntries(es[i], st, p, showAll);
    }
    assert es[..|es|] == es;
  }

  method PrintMachineConfigs(mcs: seq<MachinePrompt>, st: Option<State>) returns (out: seq<Entry>)
    ensures out == MachineSection(mcs, st)
  {
    out := [];
    for i := 0 to |mcs|
      invariant out == MachineSection(mcs[..i], st)
    {
      assert mcs[..i + 1][..i] == mcs[..i];
      out := out + [MachineEntry(mcs[i], st)];
    }
    assert mcs[..|mcs|] == mcs;
  }

  method PrintArchived(cs: seq<ConfigItem>) returns (out: seq<Entry>)
    ensures out == ArchivedSection(cs)
  {
    out := [];
    for i := 0 to |cs|
      invariant out == ArchivedSection(cs[..i])
    {
      assert cs[..i + 1][..i] == cs[..i];
      out := out + [ArchivedShown(cs[i].name, cs[i].description)];
    }
    assert cs[..|cs|] == cs;
  }

  /** `PrintConfigList`. */
  method PrintConfigList(cfg: Config, st: Option<State>, p: Platform, showAll: bool) returns (out: seq<Entry>)
    ensures out == Listing(cfg, st, p, showAll)
  {
    var installed := InstalledMap(st);
    var core := PrintConfigs(cfg.core, installed, p, showAll);
    var optional: seq<Entry> := [];
    if |cfg.optional| > 0 {
      optional := PrintConfigs(cfg.optional, installed, p, showAll);
      optional := [Section("Optional Configs")] + optional;
    }
    var externals: seq<Entry> := [];
    if |cfg.external| > 0 {
      externals := PrintExternals(cfg.external, st, p, showAll);
      externals := [Section("External Dependencies")] + externals;
    }
    var machine: seq<Entry> := [];
    if |cfg.machineConfig| > 0 {
      machine := PrintMachineConfigs(cfg.machineConfig, st);
      machine := [Section("Machine Configurations")] + machine;
    }
    var archived: seq<Entry> := [];
    if |cfg.archived| > 0 && showAll {
      archived := PrintArchived(cfg.archived);
      archived := [Section("Archived Configs (deprecated)")] + archived;
    }
    out := [Section("Core Configs")] + core + optional + externals + machine + archived + SummarySection(st);
  }

  // ---------------------------------------------------------------------
  // Properties

  /** A group shows as installed exactly when the state records its name. */
  lemma InstalledMeansNamed(c: ConfigItem, st: Option<State>, p: Platform, showAll: bool)
    ensures forall e :: e in ConfigEntries(c, InstalledMapOf(st), p, showAll) && e.ConfigShown? ==>
              (e.installed <==> st.Some? && ConfigState(c.name) in st.value.configs)
  {
    if st.Some? && c.name in InstalledNames(st) {
      var s :| s in st.value.configs && s.name == c.name;
      assert s == ConfigState(c.name);
    }
  }

  /** A group with no platform list is always shown; one whose list does
      not match is shown only with `showAll`, as unavailable. */
  lemma ConfigVisibility(c: ConfigItem, installed: map<string, bool>, p: Platform, showAll: bool)
    ensures c.platforms == [] ==> |ConfigEntries(c, installed, p, showAll)| == 1
                                  && ConfigEntries(c, installed, p, showAll)[0].ConfigShown?
    ensures c.platforms != [] && !IsPlatformMatch(c.platforms, p) ==>
              ConfigEntries(c, installed, p, showAll) == (if showAll then [ConfigUnavailable(c.name, p.os)] else [])
    ensures ConfigEntries(c, installed, p, showAll) == [] <==> !showAll && c.platforms != [] && !IsPlatformMatch(c.platforms, p)
  {
  }

  /** An asset shows as installed exactly when the state has an installed
      entry for its id; a failing condition hides it unless `showAll`. */
  lemma ExternalStatus(e: ExternalDep, st: Option<State>, p: Platform, showAll: bool)
    ensures External.CheckCondition(e.condition, p) ==>
              var entries := ExternalEntries(e, st, p, showAll);
              |entries| == 1 && entries[0].ExternalShown?
              && (entries[0].installed <==> st.Some? && e.id in st.value.externalDeps && st.value.externalDeps[e.id].installed)
    ensures !External.CheckCondition(e.condition, p) ==>
              ExternalEntries(e, st, p, showAll) == (if showAll then [ExternalMismatch(e.name)] else [])
  {
  }

  /** An entry that `showAll` alone brings into the listing. */
  predicate ShownOnlyWithAll(e: Entry) {
    e.ExternalMismatch? || e.ConfigUnavailable? || e.ArchivedShown?
  }

  predicate NoneHidden(s: seq<Entry>) {
    forall k :: 0 <= k < |s| ==> !ShownOnlyWithAll(s[k])
  }

  lemma NoneHiddenConcat(a: seq<Entry>, b: seq<Entry>)
    requires NoneHidden(a) && NoneHidden(b)
    ensures NoneHidden(a + b)
  {
    forall k | 0 <= k < |a + b| ensures !ShownOnlyWithAll((a + b)[k]) {
      if k >= |a| {
        assert (a + b)[k] == b[k - |a|];
      }
    }
  }

  /** Without `showAll`, no mismatched asset, unavailable group or archived
      config is listed. */
  lemma HiddenWithoutShowAll(cfg: Config, st: Option<State>, p: Platform)
    ensures NoneHidden(Listing(cfg, st, p, false))
  {
    var installed := InstalledMapOf(st);
    var core := ConfigSection(cfg.core, installed, p, false);
    var opt := OptionalPart(cfg, installed, p, false);
    var ext := ExternalPart(cfg, st, p, false);
    var mach := MachinePart(cfg, st);
    var arch := ArchivedPart(cfg, false);
    NoHiddenConfig(cfg.core, installed, p);
    NoHiddenOptional(cfg, p, installed);
    NoHiddenExternal(cfg, st, p);
    NoHiddenMachine(cfg, st);
    NoHiddenSummary(st);
    assert arch == [];
    NoneHiddenConcat([Section("Core Configs")], core);
    NoneHiddenConcat([Section("Core Configs")] + core, opt);
    NoneHiddenConcat([Section("Core Configs")] + core + opt, ext);
    NoneHiddenConcat([Section("Core Configs")] + core + opt + ext, mach);
    NoneHiddenConcat([Section("Core Configs")] + core + opt + ext + mach, arch);
    NoneHiddenConcat([Section("Core Configs")] + core + opt + ext + mach + arch, SummarySection(st));
  }

  lemma NoHiddenOptional(cfg: Config, p: Platform, installed: map<string, bool>)
    ensures NoneHidden(OptionalPart(cfg, installed, p, false))
  {
    if |cfg.optional| > 0 {
      NoHiddenConfig(cfg.optional, installed, p);
      NoneHiddenConcat([Section("Optional Configs")], ConfigSection(cfg.optional, installed, p, false));
    }
  }

  lemma NoHiddenExternal(cfg: Config, st: Option<State>, p: Platform)
    ensures NoneHidden(ExternalPart(cfg, st, p, false))
  {
    if |cfg.external| > 0 {
      NoMismatch(cfg.external, st, p);
      NoneHiddenConcat([Section("External Dependencies")], ExternalSection(cfg.external, st, p, false));
    }
  }

  lemma NoHiddenSummary(st: Option<State>)
    ensures NoneHidden(SummarySection(st))
  {
  }

  lemma NoHiddenMachine(cfg: Config, st: Option<State>)
    ensures NoneHidden(MachinePart(cfg, st))
  {
    if |cfg.machineConfig| > 0 {
      var section := MachineSection(cfg.machineConfig, st);
      assert NoneHidden(section);
      NoneHiddenConcat([Section("Machine Configurations")], section);
    }
  }

  lemma {:induction false} NoHiddenConfig(cs: seq<ConfigItem>, installed: map<string, bool>, p: Platform)
    ensures NoneHidden(ConfigSection(cs, installed, p, false))
    decreases |cs|
  {
    if cs != [] {
      NoHiddenConfig(cs[..|cs| - 1], installed, p);
      NoneHiddenConcat(ConfigSection(cs[..|cs| - 1], installed, p, false), ConfigEntries(cs[|cs| - 1], installed, p, false));
    }
  }

  lemma {:induction false} NoMismatch(es: seq<ExternalDep>, st: Option<State>, p: Platform)
    ensures NoneHidden(ExternalSection(es, st, p, false))
    decreases |es|
  {
    if es != [] {
      NoMismatch(es[..|es| - 1], st, p);
      NoneHiddenConcat(ExternalSection(es[..|es| - 1], st, p, false), ExternalEntries(es[|es| - 1], st, p, false));
    }
  }

  /** With a state, the machine section shows each machine config as
      configured exactly when the state's map has its id. */
  lemma MachineConfigured(mcs: seq<MachinePrompt>, st: Option<State>)
    ensures forall k :: 0 <= k < |mcs| ==>
              (MachineSection(mcs, st)[k].configured <==> st.Some? && mcs[k].id in st.value.machineConfig)
  {
  }
}
