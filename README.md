# A verified model of the go4dot (GopherDot) installer core

go4dot installs a user's dotfiles on a machine. A manifest names:

- **config groups**: directories that GNU stow symlinks into the home directory;
- **external assets**: third-party git repositories, cloned or copied, and gated by a platform condition;
- **machine configs**: machine-specific files whose values are collected by prompting.

The program installs, updates and uninstalls all of this. It also lists what is active and reports its progress on the terminal.

This project models the decision logic of that core in Dafny and proves properties of it. Every effect on the outside world becomes an oracle that the model is handed: git, stow, dnf/yum/rpm, the filesystem, standard input and platform detection. Each oracle is a field of a per-module `Env` value, is fixed for one run, and is consulted in the same places as the program.

One module per source file:

| module | source | form |
|---|---|---|
| `Text` (text.dfy) | Go's `strings` functions the core uses | functions |
| `Manifest` (manifest.dfy) | the config, state and platform records the core reads | datatypes, functions |
| `External` (external.dfy) | internal/deps/external.go | functions; methods for the loops |
| `Prompts` (prompts.dfy) | internal/machine/prompts.go | methods over a line-by-line input, proved against functions |
| `Stow` (stow.dfy) | internal/stow/manager.go | methods building argument vectors and batch results |
| `Setup` (setup.dfy) | internal/setup/setup.go | methods per install phase, proved against step functions |
| `Update` (update.dfy) | internal/setup/update.go | methods, proved against `PlannedUpdate` |
| `Uninstall` (uninstall.dfy) | internal/setup/uninstall.go | methods, proved against `PlannedReport` |
| `Packages` (packages.dfy) | internal/platform/packages.go and packages_dnf.go | functions; methods for `Install` and `Search` |
| `ConfigList` (config_list.dfy) | internal/ui/config_list.go | methods building the listing, proved against `Listing` |
| `Progress` (progress.dfy) | internal/ui/progress.go | a `ProgressTracker` class and pure formatters |

Each loop of the source is a `method` with a `while` or `for` loop. Its `ensures` ties the result to a recursive specification function, and the properties the program promises are lemmas about that function. The step tracker is a class whose methods update its fields in place.

## Model

| member | source | states |
|---|---|---|
| Manifest.GetConfigByName | internal/setup/uninstall.go:30-33 | a found group is declared and has the name asked for; `None` means no declared group has that name |
| Manifest.StateConfigsSound | internal/setup/uninstall.go:28-34 | each group selected from the state is declared and named by a state entry, and there are no more groups than state entries |
| Manifest.StateConfigsComplete | internal/setup/update.go:101-107 | every state entry whose name resolves contributes its group; unknown names are only dropped |
| External.AssetOutcome | internal/deps/external.go:55-156 | the outcome of one asset: an unmet condition skips it; a path that does not expand fails it; an existing destination is pulled (except on a dry run) when updating a git working copy, and otherwise skipped; a dry run counts as cloned; otherwise the fetch method decides (`ExistingNeverCloned`, `DryRunFetchesNothing` and `UnknownMethodFails` state its cases) |
| External.ClassifyAll | internal/deps/external.go:54-157 | every asset recorded in the bucket of its outcome, in declaration order (`ClassifySize` and `ClassifyAppend` state its meaning) |
| External.MatchesValue | internal/deps/external.go:355-364 | holds exactly when some comma-separated alternative of the expected value, once trimmed, equals the actual value |
| External.CheckCondition | internal/deps/external.go:319-322 | an empty condition map always holds |
| External.UnrecognisedKeyIgnored | internal/deps/external.go:324-351 | adding an entry whose key is not recognised changes nothing |
| External.ConditionConjunction | internal/deps/external.go:324-351 | a condition holds exactly when both of its disjoint parts hold |
| External.SingleEntry | internal/deps/external.go:324-351 | a one-entry condition is that entry's demand on the platform |
| External.WslCondition | internal/deps/external.go:338-344 | `wsl: "true"` demands WSL, `wsl: "false"` demands its absence, and any other value demands nothing |
| External.OsAlternatives | internal/deps/external.go:326-329 | `os: "a,b"` admits exactly the platforms whose OS is a or b |
| External.ExpandPath | internal/deps/external.go:285-294 | only a leading "~/" is replaced by the home directory; every path is cleaned |
| External.ClassifySize | internal/deps/external.go:54-157 | each declared asset lands in exactly one of cloned, updated, failed or skipped |
| External.SingleAsset | internal/deps/external.go:54-157 | one asset goes to the one bucket its outcome names |
| External.ClassifyAppend | internal/deps/external.go:54-157 | assets are handled independently and in declaration order: classifying a + b is classifying a, then b |
| External.ExistingNeverCloned | internal/deps/external.go:80-112 | an existing destination is never cloned; unless an update of a git working copy is asked for, it is skipped as "already exists" |
| External.DryRunFetchesNothing | internal/deps/external.go:80-125 | a dry run consults neither the pull nor the clone oracles, and never fails on a fetch |
| External.UnknownMethodFails | internal/deps/external.go:128-147 | a method other than "", "clone" and "copy" makes the asset fail with "unknown method" |
| External.RecordAsset | internal/deps/external.go:55-156 | one turn of the loop records the asset in the bucket of its outcome |
| External.CloneExternal | internal/deps/external.go:42-160 | no assets gives an empty result without checking for git; missing git is an error with no result; otherwise every asset is classified in order |
| External.CloneSingle | internal/deps/external.go:163-230 | unknown id, unmet condition and an existing destination that cannot be updated are errors; otherwise the outcome is that of one step of `CloneExternal` |
| External.RemoveExternal | internal/deps/external.go:508-550 | an unknown id is exactly the not-found error; the removal succeeds exactly when the asset is found, its path expands, its destination exists and either it is a dry run or the deletion succeeds |
| External.StatusAgreesWithClone | internal/deps/external.go:233-274 | the status report agrees with what a non-updating clone run would do with each asset |
| External.CheckOne | internal/deps/external.go:236-270 | the loop body computes the status of one asset |
| External.CheckExternalStatus | internal/deps/external.go:233-274 | one status per declared asset, in declaration order |
| Prompts.ResolveField | internal/machine/prompts.go:103-183 | the value of one field and the input left: skipped prompts take the default (an error for a required field without one); a read error fails; end of input takes `EofValue`; otherwise lines are read until one is accepted (the lemmas below state its cases) |
| Prompts.ConfirmValue | internal/machine/prompts.go:133-145 | y/yes/true/1 give "true", n/no/false/0 and the empty answer give "false", compared lower-cased and trimmed; anything else is rejected |
| Prompts.EofValue | internal/machine/prompts.go:154-164 | at end of input: the default if there is one, else an error for a required field, else "" |
| Prompts.CollectSinglePrompt | internal/machine/prompts.go:103-183 | the prompting loop yields the value and the remaining input that `ResolveField` specifies |
| Prompts.SkipUsesDefault | internal/machine/prompts.go:105-110 | with prompts skipped no input is read; a required field without default is an error, and every other field gets its default |
| Prompts.SettleWord | internal/machine/prompts.go:168-181 | a non-empty answer without surrounding white space is kept as it is |
| Prompts.ConfirmLine | internal/machine/prompts.go:133-181 | a confirm field's value is its normalised answer |
| Prompts.ConfirmNormalisation | internal/machine/prompts.go:136-144 | a confirm line gives "true" exactly for the yes words and "false" exactly for the no words or an empty answer |
| Prompts.ConfirmNeverDefaults | internal/machine/prompts.go:139-173 | an empty confirm answer is "false" whatever the default |
| Prompts.TextEmptyLineUsesDefault | internal/machine/prompts.go:168-173 | an empty text answer is replaced by a non-empty default |
| Prompts.TextLineTrimmed | internal/machine/prompts.go:168-181 | any other text answer is taken trimmed |
| Prompts.RequiredEmptyReprompts | internal/machine/prompts.go:176-179 | an empty answer to a required field without default consumes the line and asks again |
| Prompts.RequiredNeverEmpty | internal/machine/prompts.go:154-181 | a required field never resolves to the empty string |
| Prompts.ResolveConsumes | internal/machine/prompts.go:122-182 | resolving a field only consumes lines from the front of the input, at least one when it prompts |
| Prompts.CollectPrompts | internal/machine/prompts.go:79-100 | the result carries the config's id and the collected values; the first field error aborts |
| Prompts.CollectKeys | internal/machine/prompts.go:91-97 | a successful collection has exactly one key per field id |
| Prompts.SkipCollectsDefaults | internal/machine/prompts.go:91-110 | with prompts skipped, distinct ids and every required field defaulted: success, each field gets its default, earlier keys survive, and no input is read |
| Prompts.SkipFailsWithoutDefault | internal/machine/prompts.go:91-110 | with prompts skipped, a required field without default makes the collection fail |
| Prompts.CollectMachineConfig | internal/machine/prompts.go:28-47 | every machine config is collected in order from the shared input; the first failure is the result |
| Prompts.CollectAllShape | internal/machine/prompts.go:38-46 | a successful run yields one result per machine config, in order, each with that config's id |
| Prompts.GetMachineConfigByID | internal/machine/prompts.go:186-193 | the first machine config with the id, or none exactly when no config has it |
| Prompts.CollectSingleConfig | internal/machine/prompts.go:50-76 | an unknown id is an error exactly when no machine config has that id; a success carries the id asked for |
| Prompts.ListMachineConfigs | internal/machine/prompts.go:196-214 | one (id, description) pair per machine config, in order |
| Stow.BatchAll | internal/stow/manager.go:152-177 | the results of one stow, unstow or restow batch, one group at a time in order (`BatchSize`, `BatchAppend` and `NamesFromConfigs` state its meaning) |
| Stow.StowWithCount | internal/stow/manager.go:39-71 | `stow -v [-n] [--adopt] -t HOME -d dotfiles pkg`, and success is the oracle's answer on that vector |
| Stow.UnstowWithCount | internal/stow/manager.go:79-106 | `stow -v -D [-n] -t HOME -d dotfiles pkg`, with no `--adopt` even when forcing |
| Stow.RestowWithCount | internal/stow/manager.go:114-145 | `stow -v -R [-n] [--adopt] -t HOME -d dotfiles pkg` |
| Stow.FlagMeaning | internal/stow/manager.go:45-131 | "--adopt" appears exactly when forcing a stow or restow, "-n" exactly on a dry run, and the operation flag follows "-v" |
| Stow.ArgsLayout | internal/stow/manager.go:55-57 | the target, directory and package always end the vector |
| Stow.RunItem | internal/stow/manager.go:152-176 | one group: skipped when its directory is missing (stow or restow only), otherwise success or failure as stow answers |
| Stow.RunBatch | internal/stow/manager.go:148-229 | the batch loop computes `BatchAll` for the operation |
| Stow.StowConfigs | internal/stow/manager.go:148-178 | the stow batch result |
| Stow.UnstowConfigs | internal/stow/manager.go:181-199 | the unstow batch result, with nothing skipped |
| Stow.RestowConfigs | internal/stow/manager.go:202-229 | the restow batch result |
| Stow.BatchSize | internal/stow/manager.go:152-177 | failures do not stop the batch: every group lands in exactly one list |
| Stow.BatchAppend | internal/stow/manager.go:152-177 | groups are handled independently and each list keeps input order |
| Stow.UnstowNeverSkips | internal/stow/manager.go:185-198 | unstowing checks no directory, so nothing is skipped |
| Stow.MissingDirectorySkipped | internal/stow/manager.go:155-162 | a group whose directory is missing is skipped whatever stow would answer |
| Stow.NamesFromConfigs | internal/stow/manager.go:156-173 | the lists hold the groups' names while stow runs on their paths |
| Setup.HasErrors | internal/setup/setup.go:39-42 | holds exactly when the result records an error (`DepsCheckErrorFirst` and `AllSkipped` use it) |
| Setup.DepsStep | internal/setup/setup.go:98-137 | the dependency phase changes only its own fields and adds at most one error after the earlier ones |
| Setup.StowStep | internal/setup/setup.go:140-180 | the stow phase changes only the stowed and failed names |
| Setup.ExternalStep | internal/setup/setup.go:183-217 | the external phase changes only the cloned and failed assets and adds at most one error |
| Setup.MachineStep | internal/setup/setup.go:220-283 | the machine phase only appends to the rendered files and to the errors |
| Setup.InstallDependencies | internal/setup/setup.go:98-137 | the phase's effect and the error it returns agree with `DepsStep` |
| Setup.StowConfigs | internal/setup/setup.go:140-180 | the phase's effect is `StowStep` |
| Setup.CloneExternal | internal/setup/setup.go:183-217 | the phase's effect and the error it returns agree with `ExternalStep` |
| Setup.SelectMissing | internal/setup/setup.go:228-238 | the loop picks the declared machine configs whose status is "missing", in status order |
| Setup.ConfigureOne | internal/setup/setup.go:263-275 | one needed config: a collect error or a write error is recorded, otherwise the rendered file |
| Setup.ConfigureNext | internal/setup/setup.go:262-276 | one turn of the loop, stated against the configs still to do |
| Setup.CollectAndRender | internal/setup/setup.go:262-276 | the loop over the needed configs, in order, threading the input; a failure does not stop it |
| Setup.ConfigureMachine | internal/setup/setup.go:220-283 | the phase's effect is `MachineStep` |
| Setup.Install | internal/setup/setup.go:45-95 | the pipeline's result is `PlannedInstall`: detection, then dependencies, stow, external and machine, each unless skipped |
| Setup.DetectionFatal | internal/setup/setup.go:50-54 | the install fails exactly when platform detection fails, and then with no result |
| Setup.SkippedPhasesEmpty | internal/setup/setup.go:58-92 | a skipped phase leaves its fields of the result empty |
| Setup.AllSkipped | internal/setup/setup.go:45-95 | with every phase skipped the result holds only the platform and has no errors |
| Setup.NoMissingNoInstall | internal/setup/setup.go:107-111 | when nothing is missing, nothing is installed, whatever the installer would do |
| Setup.DepsFailureDoesNotAbort | internal/setup/setup.go:57-92 | a failing dependency phase does not change what the later phases record |
| Setup.DepsCheckErrorFirst | internal/setup/setup.go:39-62 | a failed dependency check is the first error recorded and makes `HasErrors` true |
| Setup.StowSelectionOrder | internal/setup/setup.go:144-149 | minimal mode stows exactly the core groups; otherwise the optional groups follow the core ones |
| Setup.ExternalKeepsClonedAndFailed | internal/setup/setup.go:203-204 | the install result keeps the cloned and failed assets of the clone run, not the updated or skipped ones |
| Setup.NeedsOnlyMissing | internal/setup/setup.go:228-238 | every config picked for collection is declared and has status "missing" |
| Setup.MachineOneEach | internal/setup/setup.go:262-276 | each needed config yields exactly one rendered file or one error |
| Setup.LineHeads | internal/setup/setup.go:293-322 | each summary line starts with the initial of its own label (P, D, C, E, M), so no two kinds of line coincide |
| Setup.SummaryStartsWithPlatform | internal/setup/setup.go:296-300 | the summary starts with the platform line |
| Setup.SummaryLinesPresent | internal/setup/setup.go:302-319 | each count line is present exactly when one of its counts is non-zero |
| Setup.SummaryText | internal/setup/setup.go:293-322 | the summary text is the platform line followed by each present count line |
| Setup.PlatformHeader | internal/setup/setup.go:296-300 | the first line: the OS, then the distribution when it is known |
| Setup.BuildSummary | internal/setup/setup.go:293-322 | the `+=` construction yields `Summary` |
| Update.Head | internal/setup/update.go:180-188 | git's output trimmed, or the empty head when git fails (`SameHeadKeepsConfig` uses it) |
| Update.FileChanged | internal/setup/update.go:191-199 | git names the file; a failed diff counts as unchanged (`ReloadOnlyWhenChanged` uses it) |
| Update.SelectRestow | internal/setup/update.go:100-111 | the loop builds the restow set |
| Update.ReloadConfig | internal/setup/update.go:36-87 | the head comparison and the conditional reload yield `ReloadedConfig` |
| Update.RestowActive | internal/setup/update.go:90-126 | the restow step: nothing when skipped or when the set is empty |
| Update.RefreshExternal | internal/setup/update.go:129-164 | the external refresh runs only on request with assets declared and a platform detected |
| Update.Update | internal/setup/update.go:25-177 | the update's outcome is `PlannedUpdate` |
| Update.NotGitStopsEverything | internal/setup/update.go:31-34 | without a `.git` entry the outcome is the same whatever every other oracle answers |
| Update.SuccessMeansPulled | internal/setup/update.go:48-52 | an update succeeds exactly when the path is a git repository and the pull succeeds |
| Update.ReloadOnlyWhenChanged | internal/setup/update.go:63-82 | the config changes only through a successful reload after two known, different heads and a changed manifest |
| Update.SameHeadKeepsConfig | internal/setup/update.go:63 | identical heads never reload |
| Update.RestowSetMeaning | internal/setup/update.go:100-111 | with state entries, the declared groups they name, in state order; otherwise the core groups |
| Update.RestowGate | internal/setup/update.go:90-126 | `SkipRestow` suppresses restowing; otherwise the restow set is restowed when non-empty |
| Update.ExternalGate | internal/setup/update.go:129-145 | externals are refreshed with update set only on request and with assets declared |
| Update.StateRecordsPath | internal/setup/update.go:167-176 | a successful update keeps a state exactly when there was one, sets its dotfiles path and changes nothing else in it; whether saving succeeds does not change the outcome |
| Uninstall.SelectUnstow | internal/setup/uninstall.go:27-38 | the loop builds the unstow set |
| Uninstall.RemoveOne | internal/setup/uninstall.go:65-75 | one removal adds its failure, if any, to the list |
| Uninstall.RemoveExternals | internal/setup/uninstall.go:60-76 | every declared asset is removed in order; failures are collected, not fatal |
| Uninstall.RemoveMachineFiles | internal/setup/uninstall.go:79-95 | every machine file is removed in order; failures are collected, not fatal |
| Uninstall.Uninstall | internal/setup/uninstall.go:21-107 | the report is `PlannedReport`, and the only error is a failed deletion of the state file |
| Uninstall.UnstowSetMeaning | internal/setup/uninstall.go:27-38 | with state entries, the declared groups they name; otherwise every group, core first |
| Uninstall.ExternalFailuresSound | internal/setup/uninstall.go:65-75 | each recorded failure is a declared asset with the error its removal reports |
| Uninstall.ExternalFailuresComplete | internal/setup/uninstall.go:65-75 | every declared asset whose removal fails is recorded |
| Uninstall.MachineFailuresExact | internal/setup/uninstall.go:84-94 | a machine config is reported exactly when its file could not be removed |
| Uninstall.FlagsGateRemovals | internal/setup/uninstall.go:59-95 | unstowing does not depend on the flags, and a cleared flag means no failures reported for its step |
| Uninstall.UnstowCoversSet | internal/setup/uninstall.go:40-57 | every selected group is reported as unstowed or failed, and none as skipped |
| Packages.GetPackageManager | internal/platform/packages.go:34-48 | the selected manager is the one the id names; any other id is an unsupported-manager error |
| Packages.GetPackageManagerRoundTrip | internal/platform/packages.go:34-48 | every manager is selected by its own id, and an id fails exactly when no manager has it |
| Packages.MapPackageName | internal/platform/packages.go:66-97 | the table's entry for the name and manager, or the name unchanged |
| Packages.KnownMappings | internal/platform/packages.go:69-86 | fd is fd-find on dnf and apt and fd on brew and pacman; neovim and ripgrep keep their names |
| Packages.YumKeepsNames | internal/platform/packages.go:89-96 | no table row names yum, so yum keeps every generic name |
| Packages.NeedsSudo | internal/platform/packages_dnf.go:88-90 | dnf and yum always need sudo (`InstallCommandLayout` shows the command starts with it) |
| Packages.IsInstalled | internal/platform/packages_dnf.go:45-52 | the query for the mapped name succeeded and its trimmed answer does not contain "not installed" (`FailedQueryNotInstalled` and `NotInstalledAnswer` state its cases) |
| Packages.MappedNames | internal/platform/packages_dnf.go:26-30 | one mapped name per package, in order |
| Packages.Install | internal/platform/packages_dnf.go:20-43 | no packages runs nothing; otherwise one install command, failing exactly when it fails |
| Packages.InstallCommandLayout | internal/platform/packages_dnf.go:26-34 | `sudo <manager> install -y` followed by the mapped packages; yum keeps the names |
| Packages.FailedQueryNotInstalled | internal/platform/packages_dnf.go:45-52 | a failed rpm query means not installed |
| Packages.NotInstalledAnswer | internal/platform/packages_dnf.go:45-52 | an answer containing "not installed" means not installed |
| Packages.Update | internal/platform/packages_dnf.go:54-60 | the cache refresh command runs and the operation never fails |
| Packages.SearchLine | internal/platform/packages_dnf.go:73-79 | the package one search-output line names, if the line is kept (`SearchLineMeaning` states its meaning) |
| Packages.ParseLine | internal/platform/packages_dnf.go:73-79 | one turn of the search loop yields `SearchLine` of its line |
| Packages.Search | internal/platform/packages_dnf.go:62-86 | a failed search is an error; otherwise the packages the kept lines name, in order |
| Packages.SearchLineMeaning | internal/platform/packages_dnf.go:69-83 | a line is kept exactly when it holds ':' and does not start with '='; the name is the text before the first ':', trimmed, cut at its first '.' |
| Packages.KeptCount | internal/platform/packages_dnf.go:69-83 | there are as many results as lines exactly when every line is kept |
| Packages.KeptSound | internal/platform/packages_dnf.go:69-83 | each result comes from some line |
| Packages.SearchResultsShape | internal/platform/packages_dnf.go:73-79 | results hold neither ':' nor '.', and there are no more of them than lines |
| ConfigList.IsPlatformMatch | internal/ui/config_list.go:126-137 | some platform entry is the OS, "all" or the distribution (`PlatformMatchMeaning` proves this reading of the recursion) |
| ConfigList.PlatformMatchMeaning | internal/ui/config_list.go:126-137 | a match holds exactly when some entry names the OS, "all" or the distribution |
| ConfigList.InstalledMap | internal/ui/config_list.go:14-19 | the loop builds the installed map of the state (`InstalledMeansNamed` states what it means) |
| ConfigList.ConfigEntries | internal/ui/config_list.go:110-124 | a group's line, with its installed mark; a group whose platforms do not match is shown only with showAll (`InstalledMeansNamed` and `ConfigVisibility` state it) |
| ConfigList.ExternalEntries | internal/ui/config_list.go:42-61 | an asset's line, installed as the state records it; an asset whose condition fails is shown only with showAll (`ExternalStatus` states it) |
| ConfigList.MachineSection | internal/ui/config_list.go:66-85 | one entry per machine config, in order |
| ConfigList.ArchivedSection | internal/ui/config_list.go:88-96 | one entry per archived group, in order |
| ConfigList.PrintConfigs | internal/ui/config_list.go:23-32 | the group loop yields `ConfigSection` |
| ConfigList.PrintExternals | internal/ui/config_list.go:36-63 | the asset loop yields `ExternalSection` |
| ConfigList.PrintMachineConfigs | internal/ui/config_list.go:66-85 | the machine loop yields `MachineSection` |
| ConfigList.PrintArchived | internal/ui/config_list.go:88-96 | the archived loop yields `ArchivedSection` |
| ConfigList.PrintConfigList | internal/ui/config_list.go:12-108 | the whole listing is `Listing` |
| ConfigList.InstalledMeansNamed | internal/ui/config_list.go:110-124 | a group shows as installed exactly when the state records its name |
| ConfigList.ConfigVisibility | internal/ui/config_list.go:112-117 | a group without platforms is always shown; a mismatched one only with showAll |
| ConfigList.ExternalStatus | internal/ui/config_list.go:42-61 | an asset shows as installed exactly when the state has an installed entry for its id |
| ConfigList.HiddenWithoutShowAll | internal/ui/config_list.go:50-96 | without showAll, no mismatched asset, unavailable group or archived group is listed |
| ConfigList.MachineConfigured | internal/ui/config_list.go:72-77 | a machine config is configured exactly when the state has its id |
| Progress.FormatProgress | internal/ui/progress.go:341-346 | the message, preceded by "[c/t] " when both counts are positive (`FormatProgressShape` states it) |
| Progress.FormatProgressWithIcon | internal/ui/progress.go:349-355 | the icon, a space, the counter when both counts are positive, then the message (`FormatProgressWithIconShape` states it) |
| Progress.FormatProgressShape | internal/ui/progress.go:341-346 | "[c/t] " precedes the message exactly when both counts are positive; otherwise the text is the message |
| Progress.FormatProgressWithIconShape | internal/ui/progress.go:349-355 | the icon comes first and the message last, with the counter between exactly when both counts are positive |
| Progress.SummaryPartsOrder | internal/ui/progress.go:160-179 | a part only for each non-zero count, in the order succeeded, failed, skipped |
| Progress.ProgressTracker.constructor | internal/ui/progress.go:27-33 | total steps from the step names, progress shown, zero counters |
| Progress.ProgressTracker.StartStep | internal/ui/progress.go:36-53 | out of range changes nothing; otherwise the step becomes current with no items, and its header is printed |
| Progress.ProgressTracker.SetItemCount | internal/ui/progress.go:56-60 | only the item total changes |
| Progress.ProgressTracker.NextItem | internal/ui/progress.go:63-68 | the item counter moves by exactly one and the task is recorded |
| Progress.ProgressTracker.ProgressLine | internal/ui/progress.go:71-89 | nothing while progress is hidden; otherwise the indented line with the counter when it is visible |
| Progress.ProgressTracker.IconLine | internal/ui/progress.go:92-157 | the same line with an icon after the counter |
| Progress.ProgressTracker.StepSummary | internal/ui/progress.go:160-179 | no line for all-zero counts; otherwise the parts joined with ", " |
| Progress.CounterRule | internal/ui/progress.go:81-86 | the item counter is shown exactly when both counts are positive, right after the indentation |

## Left out

- Subprocesses, the filesystem, standard input and environment variables are oracles, fixed for a whole run. This covers git, stow, sudo/dnf/yum, rpm, `exec.LookPath`, `os.Stat`, `os.RemoveAll` and `HOME`/`os.UserHomeDir`.
- Path cleaning (`filepath.Clean`/`filepath.Join`) is an oracle function.
- `gitCloneThenCopy`, `copyDir` and `copyFile` are not modelled: the clone and copy methods are each one success oracle.
- `IsStowInstalled`, `ValidateStow` and the `IsAvailable` checks of the package managers are tool probes and are left out.
- Platform detection, `deps.Check`/`deps.Install`, `machine.CheckMachineConfigStatus`, `machine.RenderAndWrite`, `machine.RemoveMachineConfig`, `config.LoadFromPath`, `state.Save` and `state.Delete` are oracles. Their packages are not part of this model.
- `GetAllConfigs` is assumed to be the core groups, then the optional ones. `GetConfigByName` is assumed to find the first such group with the name.
- `platform.CheckCondition` (called from config_list.go) is not part of this model. The listing uses the same condition check as external.go.
- All printing, lipgloss styling and progress callbacks are left out. The listing and the tracker's lines are returned as values, not printed.
- The bubbletea progress bar, `RunWithProgress` (goroutines and channels) and the tracker's mutex are left out.
- `InstallResult`, the configuration that `Update` overwrites, the state it edits and the uninstall report are passed and returned by value, not shared through pointers. Aliasing between them is therefore not captured.
- Prompt input is a sequence of complete lines, each without its '\n', followed by end of file or a read error.
  - A final line without '\n' counts as end of file, as the program treats it.
  - `bufio.Reader` read-ahead is not modelled, so each machine config continues on the same input.
  - `strings.ToLower` is modelled on ASCII letters only; Latin-1 capitals such as 'À' are left as they are. None of them lowers to a confirm word, so the prompts are unaffected. `strings.TrimSpace` is modelled on the Latin-1 white-space characters.
- Prompts.CollectPrompts: on a field error the model drops the partly filled values that `collectPrompts` returns alongside the error; no caller uses them.
- External.StatusOf: the "invalid path" reason does not carry the wrapped error text.
- Progress.ProgressTracker.NextItem: does not model integer overflow of the item counter, because a Go `int` cannot realistically reach its limit here.
- `Summary` with an absent platform (a nil pointer dereference in the program) cannot arise in the model: every `InstallResult` carries a platform.
- The APT, Homebrew and pacman managers are not part of this model. Only their selection and their names in the mapping table are.
- `Update` runs `git pull --rebase` (update.go:48), not a fast-forward-only pull. The model follows the code.
- External.Env.destExists is one oracle for two checks in the program. Cloning and the status report count a destination as present only when `os.Stat` succeeds (external.go:297-304). `RemoveExternal` counts it as present unless `os.Stat` reports not-exist (external.go:526), so there a permission error counts as present. No single run uses both, and the model does not tie the two readings together.
- update.go and setup.go set an `ExternalOptions.RepoRoot` field that external.go does not declare. The field has no effect in the code shown, and the model omits it.
