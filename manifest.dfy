/** The installer's declarative manifest, the detected platform and the
    persisted installation state, as immutable values. */
module Manifest {

  datatype Option<+T> = None | Some(value: T)

  datatype Result<+T, +E> = Ok(value: T) | Err(error: E)

  /** What platform detection reports; read-only for a whole run. */
  datatype Platform = Platform(
    os: string,
    distro: string,
    packageManager: string,
    architecture: string,
    isWSL: bool)

  /** One symlinkable group; empty `platforms` means every platform. */
  datatype ConfigItem = ConfigItem(
    name: string,
    path: string,
    description: string,
    platforms: seq<string>)

  /** A third-party asset fetched with git, gated by a platform condition. */
  datatype ExternalDep = ExternalDep(
    id: string,
    name: string,
    url: string,
    destination: string,
    fetchMethod: string,
    condition: map<string, string>)

  /** One field of a machine config; `kind` is "text", "confirm",
      "password" or "select". */
  datatype PromptField = PromptField(
    id: string,
    prompt: string,
    kind: string,
    defaultValue: string,
    required: bool)

  /** A generated, machine-specific file. */
  datatype MachinePrompt = MachinePrompt(
    id: string,
    description: string,
    destination: string,
    prompts: seq<PromptField>,
    template: string)

  datatype DependencyItem = DependencyItem(name: string)

  datatype Config = Config(
    core: seq<ConfigItem>,
    optional: seq<ConfigItem>,
    archived: seq<ConfigItem>,
    external: seq<ExternalDep>,
    machineConfig: seq<MachinePrompt>)

  datatype ConfigState = ConfigState(name: string)

  datatype ExternalState = ExternalState(installed: bool, path: string)

  datatype MachineState = MachineState(configPath: string)

  /** The persisted record of what is active on this machine. */
  datatype State = State(
    dotfilesPath: string,
    configs: seq<ConfigState>,
    externalDeps: map<string, ExternalState>,
    machineConfig: map<string, MachineState>)

  /** Every stowable group: the core ones, then the optional ones. */
  function GetAllConfigs(cfg: Config): seq<ConfigItem> {
    cfg.core + cfg.optional
  }

  /** The position of the first item of `items` called `name`, or `|items|`. */
  function FirstNamedIndex(items: seq<ConfigItem>, name: string): (i: nat)
    ensures i <= |items|
    ensures i < |items| ==> items[i].name == name
    ensures forall j :: 0 <= j < i ==> items[j].name != name
  {
    if items == [] then 0
    else if items[0].name == name then 0
    else 1 + FirstNamedIndex(items[1..], name)
  }

  /** The declared group called `name`, looked up among all groups. */
  function GetConfigByName(cfg: Config, name: string): (r: Option<ConfigItem>)
    ensures r.Some? ==> r.value.name == name && r.value in GetAllConfigs(cfg)
    ensures r.None? ==> forall c :: c in GetAllConfigs(cfg) ==> c.name != name
  {
    var all := GetAllConfigs(cfg);
    var i := FirstNamedIndex(all, name);
    if i < |all| then Some(all[i]) else None
  }

  /** The declared groups the state names, in state order; names the
      manifest no longer declares are dropped. */
  function StateConfigs(cfg: Config, scs: seq<ConfigState>): seq<ConfigItem>
    decreases |scs|
  {
    if scs == [] then []
    else
      var n := |scs| - 1;
      StateConfigs(cfg, scs[..n]) + (match GetConfigByName(cfg, scs[n].name) case Some(c) => [c] case None => [])
  }

  /** Every selected group is declared and named by some state entry, and
      there are no more of them than state entries. */
  lemma {:induction false} StateConfigsSound(cfg: Config, scs: seq<ConfigState>)
    ensures |StateConfigs(cfg, scs)| <= |scs|
    ensures forall k :: 0 <= k < |StateConfigs(cfg, scs)| ==>
              StateConfigs(cfg, scs)[k] in GetAllConfigs(cfg) && ConfigState(StateConfigs(cfg, scs)[k].name) in scs
    decreases |scs|
  {
    if scs != [] {
      var n := |scs| - 1;
      StateConfigsSound(cfg, scs[..n]);
      var prev := StateConfigs(cfg, scs[..n]);
      var all := StateConfigs(cfg, scs);
      forall k | 0 <= k < |all|
        ensures all[k] in GetAllConfigs(cfg) && ConfigState(all[k].name) in scs
      {
        if k < |prev| {
          assert all[k] == prev[k] && ConfigState(prev[k].name) in scs[..n];
        } else {
          assert all[k] == GetConfigByName(cfg, scs[n].name).value;
          assert ConfigState(all[k].name) == scs[n];
        }
      }
    }
  }

  /** Every state entry whose name the manifest declares contributes its
      group. */
  lemma {:induction false} StateConfigsComplete(cfg: Config, scs: seq<ConfigState>)
    ensures forall j :: 0 <= j < |scs| && GetConfigByName(cfg, scs[j].name).Some? ==>
              GetConfigByName(cfg, scs[j].name).value in StateConfigs(cfg, scs)
    decreases |scs|
  {
    if scs != [] {
      var n := |scs| - 1;
      StateConfigsComplete(cfg, scs[..n]);
      var prev := StateConfigs(cfg, scs[..n]);
      var all := StateConfigs(cfg, scs);
      assert all[..|prev|] == prev;
      forall j | 0 <= j < |scs| && GetConfigByName(cfg, scs[j].name).Some?
        ensures GetConfigByName(cfg, scs[j].name).value in all
      {
        if j < n {
          assert scs[..n][j] == scs[j];
          var c := GetConfigByName(cfg, scs[j].name).value;
          assert c in prev;
          var k :| 0 <= k < |prev| && prev[k] == c;
          assert all[k] == c;
        } else {
          assert all[|all| - 1] == GetConfigByName(cfg, scs[n].name).value;
        }
      }
    }
  }
}
