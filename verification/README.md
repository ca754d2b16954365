# A verified model of axctl

axctl is a daemon that puts one interface in front of several Wayland compositors. This project models
the stateful and algorithmic parts of it in Dafny and proves what they guarantee on every input, every
run and every interleaving. Where the code keeps less than its comments or its manual say, the code is
modelled as it is, a lemma names an input or a run on which the promise fails, and another lemma states
the exact condition under which it holds.

| files | part of axctl |
|---|---|
| `TomlConfig`, `ConfigLoader`, `LoaderTheorems`, `LoaderFields`, `LoaderReach`, `LoaderIncludes` | TOML configuration: the overlay of one file on another, the depth-limited include loader over arbitrary include graphs, the watch list |
| `ModifierMachine` | the "modifier released alone" detector behind the key monitor |
| `IpcConfig`, `AppearanceKeys`, `KeybindBatch`, `ConfigCache` | the cached configuration, atomic setting batches, keybind upserts |
| `NiriBinds`, `ShellTokens`, `KdlText` | the niri keybind generator, its tokenizer and its quoting |
| `ConfigSync`, `ConfigRaces`, `ConfigSchedules`, `ConfigServer` | cache, generated files and key monitor kept in step by the server, one request at a time and with several at once |
| `IdleInhibitors`, `IdleMonitors`, `MonitorManager` | Wayland objects owned by inhibitors; idle monitors under concurrent operations |
| `EventFanout`, `EventOrder`, `EventStreams`, `EventResubscribe`, `EventDumps`, `EventServer` | notification queues, and the order in which notifications reach a client |
| `WindowCache`, `FullscreenParity` | the window cache, fullscreen transitions on niri |
| `WireCodec`, `FixedPoint`, `ObjectTable` | the Wayland wire format, the 24.8 conversions, the client's object table |
| `Prelude`, `Strings` | shared vocabulary |

Code that changes state is modelled as classes and loops, each method proved against a specification
function; the laws are lemmas about those functions. Code whose difficulty is concurrency (the fan-out,
the idle monitors, overlapping configuration requests, message dispatch) is modelled as a state machine
whose actions are the critical sections of the source, and the laws range over all runs of that machine;
classes beside it perform the same critical sections in the order of the source and are proved to be runs
of the machine. Inputs from outside (files, compositor answers, failing requests, map iteration order) are
parameters or arbitrary choices.

Promises that the code does not keep, as proved here:

- README.md:247-248 says that a modifier fires when released without any other key press in between;
  a second modifier press restarts the detection (`DisturbedHoldFires`, `UndisturbedIff`).
- pkg/server/config_state.go:112-114 calls the copy of a payload lossless; it erases the dynamic
  binds (`CloneLosslessIff`), so a modifier-alone bind among them is handled by nobody
  (`DynamicModifierBindIsLost`, `NothingLostIff`), and the first partial update removes dynamic binds
  from the generated file (`PartialUpdateDropsDynamic`).
- pkg/server/server.go:144-154 caches before it writes, so a keybind batch whose write fails leaves the
  key monitor behind the cache (`FailedWriteLeavesMonitorBehind`) until the next request that succeeds
  (`SuccessRestoresSync`); which requests break the step, exactly, is `StepKeepsSyncIff`.
- pkg/server/server.go:110-154 holds no lock across a request, so two requests that both succeed can lose
  a bind from the file or leave an old command in the monitor (`RaceLosesBind`, `RaceLeavesOldCommand`);
  which orders of their steps are safe, exactly, is `ConfigSchedules.InStepIff`. A TOML target is written by pkg/config/apply.go:35-38 only; requests write the default path
  (`TargetFollowsIff`).
- pkg/config/loader.go:110-125 cuts off at depth ten and never revisits a file, so a file close to the
  root may not be loaded (`WithinTenIsNotEnough`, `WithinTenIff`, `CompleteIff`); pkg/config/loader.go:182-230 drops the
  target and the workspace style of a file that has includes (`TargetSurvivesIff`).
- pkg/server/server.go:31-36 promises that notifications reach a client in the order of the broadcasts. A
  read lock does not order broadcasts that overlap (`OverlappingBroadcastsReorder`, `OutOfOrderIff`), and a
  client that subscribes again has two writers on one connection, even when the old queue is empty
  (`ResubscribingReorders`, `EmptyQueueReorders`, `StreamOutOfOrderIff`, `ResubscribeIff`).
- pkg/ipc/wayland/client/context.go:97-112 tests for a zombie and then runs the handler, so a proxy
  destroyed in between still handles the message (`DestroyedProxyHandles`, `HandledAfterDestroyIff`).
- pkg/ipc/modifier_self.go:8-15 says that modifier-alone binds are left to the monitor; the generator leaves
  out more of them than the monitor takes (`SkippedAndUnhandled`, `SelfGroupIff`).
- pkg/server/idle.go:515-532 leaks a notification when two updates of one monitor overlap
  (`TwoUpdatesLeak`), and pkg/server/idle.go:113-192 when an update completes between a reconnect and the
  clearing of the monitors (`ReconnectLeaks`); `LeakIff` says exactly when.
- pkg/ipc/mango/watches.go:194-213 sends focus events without an address, which leaves two focused
  windows in the cache (`AddresslessFocusBreaksCache`, `FocusEventSoundIff`).
- pkg/ipc/niri/client.go:1277-1295 reports one window per layout message
  (`SwapHidesOneWindow`, `MessageTruthfulIff`).

## Model

| member | source | states |
|---|---|---|
| `LoaderTheorems.WatchListIsReadLog` | pkg/config/loader.go:52-108 | on every include graph the watch list is the list of files the loader reads, in reading order, each once, and as a set it is exactly what the loader marks visited, although the two recursions test the depth differently |
| `LoaderTheorems.LoadConfigIsPostOrderFold` | pkg/config/loader.go:110-167 | loading succeeds exactly when the root parses; the tree-shaped merge then equals, on the carried fields, one left fold over the parsed marked files in post-order, each once, the root last |
| `LoaderTheorems.LoadIsFold` | pkg/config/loader.go:110-167 | the same for a load started anywhere, at any depth and with any files already marked |
| `LoaderTheorems.FoldFromEmpty` | pkg/config/loader.go:182-230 | a fold of overlays may start from the empty configuration and be overlaid afterwards |
| `LoaderTheorems.VisitFacts` | pkg/config/loader.go:110-160 | a walk marks each path once, never one already marked, and completes exactly the marked paths that parse |
| `ConfigLoader.LoadMarks` | pkg/config/loader.go:110-167 | what a load marks and reads is what the plain depth-limited walk marks, whatever is merged |
| `ConfigLoader.Loader.LoadRecursive` | pkg/config/loader.go:110-167 | the recursion over the shared visited map returns the specified configuration or error and leaves the specified marks |
| `ConfigLoader.Loader.LoadIncludes` | pkg/config/loader.go:132-164 | the loop over include patterns merges what loading all matches in order gives; a bad pattern is skipped |
| `ConfigLoader.Loader.LoadMatches` | pkg/config/loader.go:140-163 | the loop over one pattern's matches; a match with no absolute path or a failing load is skipped |
| `ConfigLoader.Collector.CollectIncludePaths` | pkg/config/loader.go:75-108 | the second traversal appends to its output and marks exactly what its specification says |
| `ConfigLoader.Collector.CollectMatches` | pkg/config/loader.go:87-106 | its inner loop over the matches of one pattern |
| `ConfigLoader.ResolveIncludePaths` | pkg/config/loader.go:52-73 | the returned list is the specified watch list, or the given path alone when it cannot be resolved |
| `LoaderIncludes.IncludesInOrder` | pkg/config/loader.go:136-150 | the includes of a file, told from its patterns and the glob results alone: every absolute match of every pattern that globs, pattern after pattern and match after match, each place once |
| `LoaderIncludes.IncludesIff` | pkg/config/loader.go:79-88 | a file includes another exactly when that is an absolute match of one of its patterns |
| `LoaderIncludes.IncludesAreLoaded` | pkg/config/loader.go:110-160 | every include of a marked file that was not cut at depth ten is marked and watched |
| `LoaderIncludes.FlatWatchList` | pkg/config/loader.go:52-108 | without nested includes the watch list is the root and then the files it names, each once, in the order in which it names them first |
| `LoaderIncludes.FlatSetting` | pkg/config/loader.go:144-165 | without nested includes a setting that the root leaves open comes from the file that sets it and is named last |
| `LoaderFields.LoadedSettingIsLastWriter` | pkg/config/loader.go:182-325 | every scalar setting comes from the last file in post-order that sets it, so the root wins over all includes |
| `LoaderFields.FoldLastWriter` | pkg/config/loader.go:249-325 | a fold of overlays gives each setting its last writer's value |
| `LoaderFields.MergeOverridesSetting` | pkg/config/loader.go:249-325 | one overlay gives the source's value if it sets the setting and keeps the old one otherwise |
| `LoaderFields.LoadedListsAreConcatenated` | pkg/config/loader.go:207-230 | keybinds, rules and start-up commands are the post-order concatenation of what each file contributes: nothing lost, repeated or reordered |
| `LoaderFields.TargetSurvivesIff` | pkg/config/loader.go:182-230 | target and workspace style survive loading exactly when the root has no includes or does not set them |
| `LoaderReach.LoadedWithinTenIncludes` | pkg/config/loader.go:110-125 | every file read is reached from the root by a chain of at most ten includes |
| `LoaderReach.CompleteIff` | pkg/config/loader.go:110-125 | everything reachable is loaded exactly when each include of each file first reached at depth ten was marked anyway |
| `LoaderReach.WithinTenIff` | pkg/config/loader.go:110-125 | every file at most ten includes away is loaded exactly when each include, itself at most ten away, of a file first reached at depth ten was marked anyway |
| `LoaderReach.ShortChainsAreComplete` | pkg/config/loader.go:110-125 | if no chain of includes without repetition is longer than eleven files, everything reachable is loaded, however many files there are |
| `LoaderReach.ElevenFilesAlwaysComplete` | pkg/config/loader.go:110-125 | in particular an include-closed set of at most eleven files |
| `LoaderReach.WithinTenIsNotEnough` | pkg/config/loader.go:110-125 | counterexample: a file two includes away from the root that is never loaded |
| `LoaderReach.FailingIncludeIsEmpty` | pkg/config/loader.go:122-163 | an include that cannot be read or parsed has exactly the effect of an empty file, for the result and for the marks |
| `TomlConfig.MergeAssociative` | pkg/config/loader.go:182-230 | overlaying is associative on whole configurations |
| `TomlConfig.MergeIdentity` | pkg/config/loader.go:182-230 | the empty configuration is a right identity, and a left identity up to the fields that are not carried |
| `TomlConfig.MergeIgnoresDropped` | pkg/config/loader.go:182-230 | target, includes and workspace style of the source have no influence |
| `TomlConfig.MergeExecAssociative` | pkg/config/loader.go:232-247 | merging the dynamically typed start-up values is associative |
| `TomlConfig.MergeExecCommands` | pkg/config/loader.go:232-247 | merging two start-up values contributes exactly the commands of the first and then those of the second |
| `TomlConfig.CommandsInOrder` | pkg/config/loader.go:232-247 | an exec value contributes exactly its texts that are not empty, in their order |
| `TomlConfig.ConfigCell.Merge` | pkg/config/loader.go:182-230 | the field-by-field update through pointers has the value of the overlay function |
| `TomlConfig.ConfigCell.OverlayAppearance` | pkg/config/loader.go:249-325 | the nested appearance overlay, allocating missing sections |
| `TomlConfig.ConfigCell.CombineExec` | pkg/config/loader.go:232-247 | the type switch and the append loop compute the merged value |
| `TomlConfig.ConfigCell.AppendCommands` | pkg/config/types.go:237-261 | appends exactly the non-empty commands of the value, in order |
| `ModifierMachine.RunMeans` | pkg/keymon/machine.go:71-117 | after any history the held keys are those pressed and not released since, and the candidate flag holds exactly when some modifier press happened with no other key down, nothing cancelled it since, and some modifier has been down ever since |
| `ModifierMachine.GroupCodes` | pkg/keymon/machine.go:14-45 | the eight key codes that are modifiers, and the group of each |
| `ModifierMachine.FiresExactlyOnLoneRelease` | pkg/keymon/machine.go:93-117 | a group fires exactly on the release of the only modifier held while that past-time condition holds, and it is that modifier's group |
| `ModifierMachine.UndisturbedIff` | pkg/keymon/machine.go:93-117 | a modifier that fires was held with no other key press or wheel in between exactly when no further modifier press restarted the candidate |
| `ModifierMachine.DisturbedHoldFires` | pkg/keymon/machine.go:93-117 | counterexample to README.md:247-248: SUPER fires although T was pressed during the hold |
| `ModifierMachine.Machine.Process` | pkg/keymon/machine.go:79-91 | one event moves the mutable machine as the specification does, for every event type |
| `ModifierMachine.Machine.ProcessKey` | pkg/keymon/machine.go:93-117 | the key branch, repeats and unknown values included |
| `ModifierMachine.Machine.ResetAll` | pkg/keymon/machine.go:71-77 | a reset forgets everything |
| `KeybindBatch.ApplyRefinesMap` | pkg/server/config_state.go:156-194 | under first-match lookup a batch is a finite-map update: the payload's last bind for a combo, else nothing if it is unbound, else the old bind |
| `KeybindBatch.UnbindAllNamed` | pkg/server/config_state.go:157-171 | the named sections lose exactly the unbound binds and gain nothing |
| `KeybindBatch.NamedSurvivesIff` | pkg/server/config_state.go:127-171 | on the raw fields: a bind of a named section survives a batch unchanged exactly when no unbind has its key and, joined by blanks, its modifiers |
| `KeybindBatch.CustomSurvivesIff` | pkg/server/config_state.go:156-180 | on the raw fields: unbinding leaves exactly the custom binds that no unbind names |
| `KeybindBatch.CustomGoneIff` | pkg/server/config_state.go:156-195 | on the raw fields: a custom trigger exists after a batch exactly when the payload binds it, or it existed and no unbind names it |
| `KeybindBatch.BoundIsFirst` | pkg/server/config_state.go:180-195 | the last bind of the payload with its key and modifiers is the first custom bind with them afterwards |
| `Strings.JoinInjective` | pkg/server/config_state.go:127-129 | different lists of words are joined to different texts |
| `KeybindBatch.ApplyKeepsOrder` | pkg/server/config_state.go:172-194 | survivors keep their order and place, new combos follow in order of first appearance, and combos stay unique |
| `KeybindBatch.ApplyTwiceIsApplySequence` | pkg/server/config_state.go:156-194 | two successive payloads give the very same lists as one combined payload |
| `KeybindBatch.KeybindTable.ApplyPayload` | pkg/server/config_state.go:156-194 | the two loops over the shared configuration compute that update |
| `KeybindBatch.KeybindTable.Unbind` | pkg/server/config_state.go:157-179 | one unbind deletes from both named sections and rebuilds the custom list |
| `KeybindBatch.KeybindTable.DeleteMatching` | pkg/server/config_state.go:160-170 | deleting while ranging over a map removes exactly the matching entries in any iteration order |
| `KeybindBatch.KeybindTable.Bind` | pkg/server/config_state.go:180-193 | replaces the first match in place or appends |
| `IpcConfig.CloneLosslessIff` | pkg/server/config_state.go:112-125 | the copy is lossless exactly when there are no dynamic binds, contrary to its comment |
| `IpcConfig.SelfGroupMeans` | pkg/ipc/modifier_self.go:8-54 | which group a bind has, for every bind: enabled, spawning, one modifier, and a key of that modifier |
| `ConfigCache.AnyOrder` | pkg/server/config_state.go:62-81 | a batch of settings has the same outcome in whatever order the map yields it |
| `ConfigCache.ReadAfterBatch` | pkg/server/config_state.go:62-94 | reading a setting after an accepted batch gives the coerced value if the batch names it, else the old value |
| `ConfigCache.ReadBack` | pkg/ipc/config.go:361-423 | after an accepted batch each key it sets reads as what its value stands for: a value of the key's type as itself, a number for an integer key toward zero, a trimmed text by scanning or as true or false in either case |
| `ConfigCache.RejectedIff` | pkg/server/config_state.go:62-81 | a name is rejected exactly when it names no key or its value stands for nothing of the key's type |
| `ConfigCache.WrittenReads` | pkg/server/config_state.go:62-94 | over any history of accepted batches the last one to name a key decides what it reads as |
| `ConfigCache.ConfigState.SetKeys` | pkg/server/config_state.go:62-81 | all or nothing: the whole batch is applied and becomes part of the history that reads see, or nothing changes and exactly the offending names are reported, each once |
| `ConfigCache.ConfigState.Write` | pkg/server/config_state.go:68-75 | the loop over the batch computes the order-free outcome and collects exactly the rejected names |
| `ConfigCache.ConfigState.SetKey` | pkg/server/config_state.go:55-57 | the one-entry batch |
| `ConfigCache.ConfigState.GetKey` | pkg/server/config_state.go:62-94 | over the history of accepted batches: a key reads as the value the last batch to name it gave it, coerced, or else as seeded, whatever failed batches and keybind changes came between |
| `ConfigCache.ConfigState.ApplyKeybinds` | pkg/server/config_state.go:100-110 | caches and returns the updated copy; only keybinds change |
| `AppearanceKeys.GetAfterOverlay` | pkg/ipc/config.go:218-331 | lens law: reading after a typed overlay gives the written value for each written key and the old value for every other |
| `AppearanceKeys.CoerceIff` | pkg/ipc/config.go:361-423 | for every key and every form of value, what it is coerced to, told without the coercions |
| `AppearanceKeys.RefusedIff` | pkg/ipc/config.go:361-423 | which forms each key refuses |
| `AppearanceKeys.NamesReadFields` | pkg/ipc/config.go:277-331 | the ten names, and the field that each reads |
| `AppearanceKeys.OverlayKeepsRest` | pkg/ipc/config.go:218-276 | a write changes nothing that no key names |
| `AppearanceKeys.OverlayOne` | pkg/ipc/config.go:218-275 | writing one more key is overlaying it |
| `AppearanceKeys.AppearanceCell.Set` | pkg/ipc/config.go:218-275 | a key is written exactly when its name is known and its value coerces; a refused value changes nothing |
| `AppearanceKeys.KeyOfInjective` | pkg/ipc/config.go:218-275 | no two setting names denote the same setting |
| `ConfigSync.StepKeepsSyncIff` | pkg/server/server.go:759-894 | for every file: one request keeps file and key monitor in step with the cache exactly unless it is a keybind batch that is not loaded and changes which commands may win, a batch that changes what the file says without writing it, a full apply written but not loaded that differs from the cache, or a full apply to another file |
| `ConfigSync.AlwaysInSyncIff` | pkg/server/server.go:96-154 | over every sequence of requests, the server is in step after each one exactly when none of them is of that kind |
| `ConfigSync.RunsEndInSync` | pkg/server/server.go:96-154 | from any start it is in step at the end if some request that wrote the file succeeded and none of that kind followed |
| `ConfigSync.SuccessRestoresSync` | pkg/server/server.go:144-154 | a request that succeeds puts the monitor and the file it writes in step whatever failed before |
| `ConfigSync.TargetFollowsIff` | pkg/server/server.go:144-154 | after a TOML apply to a target file, a successful keybind request leaves that file in step exactly when the target is the default path or the batch changes nothing of what the file says |
| `ConfigSync.SettingsKeepSync` | pkg/server/server.go:760-774 | a settings update keeps binds and monitor in step even when its write fails |
| `ConfigSync.UnbindKeyRemoves` | pkg/server/server.go:881-902 | after the removal of a modifier-alone bind exactly the cached binds with its key and modifiers are gone |
| `ConfigSync.BindKeyBinds` | pkg/server/server.go:850-880 | after a runtime modifier-alone bind the first cached bind with its key and modifiers runs the command |
| `ConfigSync.UnambiguousBatch` | pkg/server/config_state.go:135-154 | without ambiguous groups a batch leaves the monitor right exactly when it changes no group's winning command |
| `ConfigSync.BatchOutput` | pkg/ipc/niri/generator.go:583-676 | a batch leaves what the file says exactly when it unbinds no written system bind and the custom list writes the same nodes |
| `ConfigSync.SyncedIff` | pkg/server/config_state.go:131-154 | the monitor runs a registration of cached keybinds exactly when it runs, for every group, a command that may win |
| `ConfigSync.KeymonComesFromSkippedBind` | pkg/server/config_state.go:131-154 | every command the monitor runs is the non-empty argument of a cached system or custom bind that the generator skips |
| `ConfigSync.FileComesFromState` | pkg/ipc/niri/generator.go:583-676 | every bind in a file that is in step comes from a cached bind (dynamic ones apart), and the monitor handles none of them |
| `ConfigSync.StateReachesFile` | pkg/ipc/niri/generator.go:583-676 | every cached system or custom bind that can be written is in each file that is in step |
| `ConfigSync.ServedWhen` | pkg/server/config_state.go:135-154 | a modifier group runs its last custom command, or failing that some system one; only an empty command leaves it unserved |
| `ConfigSync.RegisteredIff` | pkg/server/config_state.go:115-154 | a group is registered exactly when a system or custom bind has it: dynamic binds are lost in the copy |
| `ConfigSync.NothingLostIff` | pkg/server/config_state.go:115-154 | all modifier-alone groups are registered exactly when the dynamic binds bring none of their own |
| `ConfigSync.DynamicModifierBindIsLost` | pkg/server/server.go:110-121 | counterexample: a dynamic modifier-alone bind is handled by neither the file nor the monitor |
| `ConfigSync.PartialUpdateDropsDynamic` | pkg/server/server.go:144-154 | the first partial update after an apply keeps all written binds but the dynamic ones, and keeps those exactly when there are none |
| `ConfigSync.FailedWriteLeavesMonitorBehind` | pkg/server/server.go:144-154 | counterexample: a keybind batch whose write fails leaves the cache ahead of the monitor |
| `ConfigSync.SelfComboIsQuiet` | pkg/ipc/niri/generator.go:134-164 | no bind, enabled or not and whatever it runs, that shares its combo with a modifier-alone bind is ever written |
| `ConfigSync.KeymonBinds` | pkg/server/config_state.go:135-154 | the three loops build a possible registration: last custom, else some dynamic, else some system bind |
| `ConfigSchedules.InStepIff` | pkg/server/server.go:110-154 | for every interleaving of requests, failing or not, and on the order of its steps alone: file and monitor end in step whatever the requests ask for exactly when the file carries the keybinds of the last full apply or batch to have changed the cache and the monitor was read after the last change; after any other order, some requests taking the same steps end out of step |
| `ConfigSchedules.FileInStepIff` | pkg/server/server.go:144-154 | a file ends in step for all requests of a schedule exactly when it carries the keybinds of the last full apply or batch to have changed the cache |
| `ConfigSchedules.MonitorInStepIff` | pkg/server/server.go:110-121 | the monitor ends in step for all requests of a schedule exactly when what was set last was read after the last change of the cached keybinds |
| `ConfigSchedules.SchedulesInOrder` | pkg/server/server.go:110-154 | runs with the same schedule agree on who wrote, changed and set last and on where every request stands, so freshness depends on the order of steps alone |
| `ConfigSchedules.MarkedRun` | pkg/server/server.go:110-154 | every schedule is taken by requests that all bring different keybinds and are refused in the same places |
| `ConfigRaces.DifferentRequestsIff` | pkg/server/server.go:110-154 | over every interleaving of requests that bring different keybinds: the same two conditions are exact for each such run, file and monitor separately |
| `ConfigRaces.StepKeepsInv` | pkg/server/server.go:110-154 | every step of every request keeps: the cache, each file and the monitor hold what the recorded requests brought, up to the dynamic binds lost in copies |
| `ConfigRaces.OrderlyRunsInStep` | pkg/server/server.go:110-154 | requests that do not overlap, and whose files are all loaded from one path, leave the server in step |
| `ConfigRaces.OvertakenWriteIff` | pkg/server/server.go:144-154 | a batch whose write is overtaken by any number of later batches and settings, in whatever order they write: the file ends in step exactly when those batches together unbind no written system bind and leave the custom nodes as they are |
| `ConfigRaces.StaleSettingIff` | pkg/server/server.go:110-121 | two runtime binds of which the first reads the cache before and sets the monitor after the second: in step exactly when what it read may still win |
| `ConfigRaces.RaceLosesBind` | pkg/server/server.go:144-154 | counterexample: two requests that each add a bind both succeed, and the file lacks one of the binds |
| `ConfigRaces.RaceLeavesOldCommand` | pkg/server/server.go:110-121 | counterexample: two requests that bind the lone Super key both succeed, and the monitor runs the older command |
| `ConfigServer.NiriServer.SetBinds` | pkg/keymon/monitor.go:107-115 | the monitor keeps exactly the non-empty commands, in a critical section of its own |
| `ConfigServer.NiriServer.ReadCache` | pkg/server/server.go:110-121 | what is read for the monitor is a possible registration of the cached copy |
| `ConfigServer.NiriServer.SyncKeyMonitor` | pkg/server/server.go:110-121 | two critical sections; uninterrupted, the monitor then runs a possible registration of what is cached |
| `ConfigServer.NiriServer.WriteFile` | pkg/server/config_handler.go:67-151 | what the written path holds after each outcome of write and reload |
| `ConfigServer.NiriServer.Apply` | pkg/server/server.go:776-797 | a full apply, by request or from the TOML to its target, caches and registers only after the file is loaded |
| `ConfigServer.NiriServer.SetKeys` | pkg/server/server.go:144-154 | a settings update caches first and writes the default path second |
| `ConfigServer.NiriServer.KeybindsBatch` | pkg/server/server.go:144-154 | a keybind batch caches first and writes the default path second |
| `ConfigServer.NiriServer.BindKey` | pkg/server/server.go:850-880 | a runtime modifier-alone bind goes to cache and monitor only; any other runtime bind is refused on niri |
| `ConfigServer.NiriServer.UnbindKey` | pkg/server/server.go:881-902 | its removal likewise |
| `IdleInhibitors.IdleManager.MapSurface` | pkg/server/idle.go:794-915 | for every schedule of answers it succeeds exactly when everything but the input region is answered and configured in time; a failed mapping leaves nothing behind, and a successful one adds exactly the layer surface, the region if any, the pool and the buffer |
| `IdleInhibitors.IdleManager.CreateShmBuffer` | pkg/server/idle.go:842-881 | the memfd is closed on every path; pool and buffer survive only together |
| `IdleInhibitors.IdleManager.CreateLayerSurface` | pkg/server/idle.go:798-840 | a layer surface and perhaps a region, or nothing |
| `IdleInhibitors.IdleManager.Attempt` | pkg/server/idle.go:935-994 | one attempt succeeds exactly when compositor and inhibitor manager are there and the inhibitor is granted, and is mapped exactly when layer shell and shm are there and the mapping is answered; an error names its cause and leaves nothing open, a success opens exactly what the inhibitor holds |
| `IdleInhibitors.IdleManager.Enable` | pkg/server/idle.go:917-994 | enabling succeeds exactly when the first attempt does, or the second after a broken pipe and a reconnect, and an error names the first cause; an error leaves open only what was open before, a success owns exactly the new objects, all on the current connection |
| `IdleInhibitors.IdleManager.Disable` | pkg/server/idle.go:917-933 | releases each held object once and nothing else |
| `IdleInhibitors.IdleManager.DestroyParts` | pkg/server/idle.go:758-779 | releases each part once |
| `IdleInhibitors.IdleManager.Reconnect` | pkg/server/idle.go:101-192 | a new connection makes every inhibitor forget what it held; a failed one changes no bookkeeping |
| `IdleInhibitors.IdleManager.Switch` | pkg/server/idle.go:702-722 | before and after, each object of the connection that was not lost belongs to exactly one inhibitor; disabling gives back exactly its objects |
| `IdleInhibitors.IdleManager.SetIdleInhibitorEnabled` | pkg/server/idle.go:702-722 | a no-op in the wanted state, an error for an unknown id; disabling always succeeds and enabling exactly when the inhibitor is granted on the first or the retried attempt |
| `IdleInhibitors.IdleManager.CreateIdleInhibitor` | pkg/server/idle.go:683-700 | an enabled one is created exactly when it can be enabled; a failed create leaves neither an entry nor an object; when the 32-bit identifier is in use again, exactly the objects of the overwritten inhibitor are lost |
| `IdleInhibitors.IdleManager.DestroyIdleInhibitor` | pkg/server/idle.go:736-756 | removes the entry and releases exactly its objects |
| `IdleInhibitors.IdleManager.Inhibit` | pkg/server/idle.go:251-275 | the single legacy inhibitor, created once and then only switched, with success exactly when the switch can be made; an error if its entry has gone |
| `IdleInhibitors.AllDisabledHoldsNothing` | pkg/server/idle.go:917-994 | with every inhibitor disabled none owns an object of the connection |
| `IdleInhibitors.EnableAccounts` | pkg/server/idle.go:917-994 | after a successful enable, retried or not, the inhibitors together own exactly the live objects, none twice |
| `IdleMonitors.QuiescentRunsLeakNothing` | pkg/server/idle.go:492-553 | with at most one refresh in flight per monitor, and none completing between a reconnect and the clearing of the monitors, when all operations have finished every live notification is the one installed on a listed, undeleted monitor |
| `IdleMonitors.DisciplinedRunsKeepTrack` | pkg/server/idle.go:584-661 | throughout such a run no live notification is ever without somebody who will destroy it |
| `IdleMonitors.OrphanedExactlyBy` | pkg/server/idle.go:584-661 | in any run, exactly which step loses a notification and which finds it again |
| `IdleMonitors.StepKeepsBasic` | pkg/server/idle.go:492-681 | however many updates run at once, every notification is in one place at a time and belongs to its creator |
| `IdleMonitors.FlipsAlternate` | pkg/server/idle.go:663-681 | in every run the reported flips of a monitor alternate, beginning with idle |
| `IdleMonitors.DeletedStaysQuiet` | pkg/server/idle.go:663-681 | a deleted monitor never flips again |
| `IdleMonitors.TwoUpdatesLeak` | pkg/server/idle.go:515-532 | counterexample: a run with two updates of one monitor at once that ends with an unowned live notification |
| `IdleMonitors.ReconnectLeaks` | pkg/server/idle.go:113-192 | counterexample: a single update that installs its notification on the new connection before the monitors are cleared leaves it live and unowned |
| `IdleMonitors.LeakIff` | pkg/server/idle.go:584-661 | in every run, disciplined or not, a live notification has nobody to destroy it exactly when some critical section lost it and none found it again |
| `MonitorManager.IdleManager.RefreshMonitor` | pkg/server/idle.go:584-661 | a refresh is a run of its own critical sections; uninterrupted it ends with a live notification exactly if the monitor is enabled and a request is granted, and with the idle flag cleared; it fails exactly for a destroyed monitor or a refused request |
| `MonitorManager.IdleManager.ReleaseFormer` | pkg/server/idle.go:584-607 | its first half: the old notification goes, the idle flag is cleared |
| `MonitorManager.IdleManager.RequestNotification` | pkg/server/idle.go:609-645 | a notification is had exactly when the first request is granted, or the second after a broken pipe and a reconnect, with notifier and seat there each time |
| `MonitorManager.IdleManager.InstallOrDiscard` | pkg/server/idle.go:647-660 | the new notification is installed, or destroyed when the monitor was destroyed meanwhile |
| `MonitorManager.IdleManager.CreateIdleMonitor` | pkg/server/idle.go:492-513 | ends with a listed monitor that has a live notification exactly if enabled, or with no entry and no notification |
| `MonitorManager.IdleManager.UpdateIdleMonitor` | pkg/server/idle.go:515-532 | an error for an unknown monitor, otherwise a refresh with the new settings |
| `MonitorManager.IdleManager.DestroyIdleMonitor` | pkg/server/idle.go:534-553 | the monitor is unlisted and deleted, and exactly its notification is gone |
| `MonitorManager.IdleManager.HandleEvent` | pkg/server/idle.go:663-681 | after a notification's handler, late or not, a monitor that is not deleted has the reported state, a flip is recorded exactly on a change, and the flips still alternate |
| `EventFanout.RunsAreSafe` | pkg/server/server.go:1484-1516 | over every interleaving nothing is sent on or closed after a close; per subscription, written, held and queued messages are an in-order subsequence of the offered ones, at most 256 are queued, and one is dropped exactly when 256 are |
| `EventFanout.EndedBroadcastReachedEveryone` | pkg/server/server.go:1484-1516 | a finished broadcast was offered to every client still subscribed since it began, once |
| `EventFanout.ClosedStaysClosed` | pkg/server/server.go:438-445 | a closed queue gains no message ever again |
| `EventFanout.OpenIffListed` | pkg/server/server.go:1424-1433 | in every run a queue is open exactly while a subscribed connection uses it |
| `EventOrder.DisorderedByOvertaking` | pkg/server/server.go:1484-1516 | of all steps exactly the offers that overtake an earlier broadcast put a subscription's offers out of order |
| `EventOrder.OutOfOrderIff` | pkg/server/server.go:1484-1516 | over every run, when no broadcast is running: some subscription was offered events out of order exactly when some offer overtook |
| `EventOrder.SerialBroadcastsInOrder` | pkg/server/server.go:31-50 | if broadcasts do not overlap, no offer overtakes and every subscription is offered them in order |
| `EventOrder.OverlappingBroadcastsReorder` | pkg/server/server.go:31-50 | counterexample to the comment: a run in which a client is offered two overlapping broadcasts in the other order |
| `EventStreams.StreamOutOfOrderIff` | pkg/server/server.go:42-50 | over every run, a connection is sent events out of order exactly when some writer wrote the event in its hand after a later one of its own queue, or after a newer subscription had sent an event |
| `EventStreams.LateIff` | pkg/server/server.go:42-50 | a write is late for one of these two reasons and for no other |
| `EventStreams.RunKeepsStreamInv` | pkg/server/server.go:1424-1433 | in every run an older subscription of a connection was only offered earlier events than a newer one, and a stream holds exactly what its subscriptions wrote |
| `EventResubscribe.StreamsInOrder` | pkg/server/server.go:31-50 | if no offer overtakes and nobody subscribes again while the old subscription has an event queued or in the hand of its writer, every connection is sent its events in order |
| `EventResubscribe.ResubscribeIff` | pkg/server/server.go:1424-1433 | with serial broadcasts, subscribing again can lead to a stream out of order exactly when the old subscription has an event queued for a writer that works, or received and not yet written |
| `EventResubscribe.EmptyQueueReorders` | pkg/server/server.go:44-50 | counterexample to an empty queue being enough: the old writer has received its last event, the connection subscribes again, and the later event is sent first |
| `EventResubscribe.ResubscribingReorders` | pkg/server/server.go:1424-1433 | counterexample to the comment: with serial broadcasts a client that subscribes again is sent a later event first |
| `EventDumps.DumpGoesOnIff` | pkg/server/server.go:1433-1446 | a connection about to send its state dump can ever go on exactly unless its queue is full and the queue's writer has stopped |
| `EventFanout.StepKeepsInv` | pkg/server/server.go:1424-1446 | every step of every goroutine keeps: open queues for subscribed clients, one queue each, nothing lost between offer and socket |
| `EventFanout.DeliveredIsSubsequence` | pkg/server/server.go:42-50 | what a writer wrote, what it holds and what is queued is an in-order selection of the offered messages |
| `EventServer.SoloBroadcast` | pkg/server/server.go:1484-1516 | in whatever order a broadcast that runs alone ranges over the clients, its atomic steps end in the one stated effect |
| `EventServer.Server.BroadcastEvent` | pkg/server/server.go:1484-1516 | each client's queue gets the message, or drops it when full; nothing else changes |
| `EventServer.Server.OfferAll` | pkg/server/server.go:1509-1515 | the loop over the client map has that effect in any iteration order |
| `EventServer.Server.Subscribe` | pkg/server/server.go:1424-1432 | an earlier queue of the connection is closed once and replaced by a fresh one, and keeps what it still has to send |
| `EventServer.Server.Disconnect` | pkg/server/server.go:438-445 | the cleanup closes the queue of a subscribed connection and forgets it |
| `EventServer.Server.Receive` | pkg/server/server.go:44-45 | a writer receives the first queued message, which makes room in the queue, and holds it |
| `EventServer.Server.WriteOut` | pkg/server/server.go:46-48 | it writes what it holds on its connection if the connection takes it, or stops |
| `EventServer.Server.WriteLoop` | pkg/server/server.go:44-50 | uninterrupted, on a connection that takes so many messages the writer sends that many in order, or all, and stops at the next, losing nothing but that message |
| `WindowCache.RunsStaySound` | pkg/server/server.go:272-393 | over every run of well-formed events ids are unique and at most one window is focused |
| `WindowCache.FocusEventSoundIff` | pkg/server/server.go:300-330 | a focus event of any form keeps that exactly unless it adds a focused window beside a marked one |
| `WindowCache.ClosedLeaves` | pkg/server/server.go:283-294 | a closed window leaves the cache, every other one stays as it is |
| `WindowCache.FocusedMarks` | pkg/server/server.go:296-315 | a focus event marks exactly the addressed window and then adds an untracked one |
| `WindowCache.TitleChanges` | pkg/server/server.go:316-350 | a title event changes that title alone and then adds an untracked window |
| `WindowCache.FloatingChanges` | pkg/server/server.go:380-388 | a floating event changes that flag of that window alone |
| `WindowCache.RefreshTakesOver` | pkg/server/server.go:351-379 | a refresh takes over the dump and marks exactly the active window |
| `WindowCache.ClosedStaysAway` | pkg/server/server.go:283-294 | over every run a window that was closed and not announced again is not in the cache |
| `WindowCache.EditChanges` | pkg/ipc/cache.go:40-77 | each targeted change, field by field |
| `WindowCache.AddresslessFocusBreaksCache` | pkg/ipc/mango/watches.go:194-213 | counterexample: the focus events Mango sends leave two focused windows |
| `WindowCache.RemoveIsMapRemove` | pkg/ipc/cache.go:28-38 | removing from the list is removing from the map of ids |
| `WindowCache.EditIsMapEdit` | pkg/ipc/cache.go:40-77 | a targeted update is an update of one map entry, and of none for an unknown id |
| `WindowCache.MarkIsMapMark` | pkg/ipc/cache.go:115-121 | marking focuses exactly the entry with that id |
| `WindowCache.AddIsMapAdd` | pkg/ipc/cache.go:22-26 | appending is adding to the map; ids stay unique exactly when the id was new |
| `WindowCache.StateCache.RemoveWindow` | pkg/ipc/cache.go:28-38 | the filtering loop |
| `WindowCache.StateCache.UpdateWindow` | pkg/ipc/cache.go:40-77 | the search loop that edits the first match in place |
| `WindowCache.StateCache.MarkWindowFocused` | pkg/ipc/cache.go:115-121 | the loop over all windows |
| `WindowCache.StateCache.HandleEvent` | pkg/server/server.go:265-394 | the event loop's body performs the specified update for every event |
| `WindowCache.StateCache.InitCache` | pkg/server/server.go:75-94 | a refresh replaces the list if the dump succeeded and then marks the active window |
| `FixedPoint.ToFloatExact` | pkg/ipc/wayland/client/util.go:7-11 | fixed-to-float gives exactly f/256 for every 32-bit f |
| `FixedPoint.FromFloatIsNearest` | pkg/ipc/wayland/client/util.go:13-17 | float-to-fixed gives the nearest multiple of 1/256, ties to even, modulo 2^32, up to magnitude 2^43 - 1 |
| `FixedPoint.FixedRoundTrip` | pkg/ipc/wayland/client/util.go:7-17 | float-to-fixed after fixed-to-float is the identity on all 32-bit values |
| `FixedPoint.FloatRoundTripIff` | pkg/ipc/wayland/client/util.go:7-17 | of all numbers, the other round trip errs by at most 1/512 exactly on [-2^23 - 1/512, 2^23 - 1/512) |
| `FixedPoint.ConversionsExist` | pkg/ipc/wayland/client/util.go:7-17 | the rounded sums and bit patterns the results speak of exist |
| `WireCodec.WordOfBytes` | pkg/ipc/wayland/client/event.go:105-108 | reading four bytes gives back the word that was written |
| `WireCodec.ByteWeights` | pkg/ipc/wayland/client/request.go:20-23 | byte i of a word has the weight 256^i |
| `WireCodec.BytesOfWord` | pkg/ipc/wayland/client/event.go:105-108 | four bytes are the bytes of the word they are read as |
| `WireCodec.FixedThroughWord` | pkg/ipc/wayland/client/event.go:116-120 | a fixed value survives the trip through its word |
| `WireCodec.TextOfSlot` | pkg/ipc/wayland/client/event.go:110-114 | a string slot reads as the text before the first NUL, whatever the padding |
| `WireCodec.BeforeNulIff` | pkg/ipc/wayland/client/event.go:110-114 | which is the whole text exactly when it has no NUL |
| `WireCodec.HeaderRoundTripIff` | pkg/ipc/wayland/client/event.go:40-45 | a header unpacks to the packed size and opcode exactly when both are below 2^16 |
| `WireCodec.HeaderHalves` | pkg/ipc/wayland/client/client.go:315-315 | the upper half of a header word is the size, the lower half the opcode |
| `WireCodec.UnpackHalves` | pkg/ipc/wayland/client/event.go:40-43 | the size is read from the upper two bytes of a header and the opcode from the lower two |
| `WireCodec.BindLayout` | pkg/ipc/wayland/client/client.go:307-327 | a bind request starts with its sender and its own length and ends with the new id |
| `WireCodec.BindFields` | pkg/ipc/wayland/client/client.go:307-327 | every field of a bind request at its place |
| `WireCodec.BindRoundTrip` | pkg/ipc/wayland/client/client.go:375-391 | Registry.Dispatch recovers name, version and interface from the arguments Registry.Bind wrote exactly when the interface has no NUL and its length word does not wrap around |
| `WireCodec.PutUint32` | pkg/ipc/wayland/client/request.go:20-23 | writes four bytes and nothing else |
| `WireCodec.PutString` | pkg/ipc/wayland/client/request.go:35-39 | writes length, text and terminator and nothing else |
| `WireCodec.Bind` | pkg/ipc/wayland/client/client.go:307-327 | the running cursor ends exactly at the four-aligned end of the buffer, which holds the specified bytes |
| `ObjectTable.IdsDistinctIff` | pkg/ipc/wayland/client/context.go:21-30 | the ids Register gave out are pairwise distinct exactly up to 2^32 registrations |
| `ObjectTable.LookFindsLiveOwner` | pkg/ipc/wayland/client/context.go:91-117 | a message's look-up only finds the undestroyed proxy registered under its sender id |
| `ObjectTable.DeliversIff` | pkg/ipc/wayland/client/context.go:91-117 | in every run a message to an id finds a proxy exactly when one was registered under the id and since then the id was neither given away nor deleted nor unregistered and the proxy did not become a zombie |
| `ObjectTable.HandledAfterDestroyIff` | pkg/ipc/wayland/client/context.go:91-117 | a handler runs for a destroyed proxy exactly when the destruction came between its look-up and the handler |
| `ObjectTable.HandlesAgainIff` | pkg/ipc/wayland/client/common.go:49-55 | a destroyed proxy can still handle a message exactly when some goroutine had looked it up before |
| `ObjectTable.DestroyedNeverHandles` | pkg/ipc/wayland/client/common.go:49-55 | otherwise it handles nothing more in any continuation, before or after delete_id |
| `ObjectTable.DestroyedProxyHandles` | pkg/ipc/wayland/client/context.go:91-117 | counterexample: a proxy destroyed between look-up and handler handles the message |
| `ObjectTable.Context.Register` | pkg/ipc/wayland/client/context.go:21-30 | the new id is shared with no proxy numbered before, up to 2^32 registrations, and finds the proxy |
| `ObjectTable.Context.MarkZombie` | pkg/ipc/wayland/client/common.go:53-55 | afterwards no look-up finds the proxy |
| `ObjectTable.Context.Unregister` | pkg/ipc/wayland/client/context.go:38-40 | afterwards no look-up finds the proxy |
| `ObjectTable.Context.DeleteID` | pkg/ipc/wayland/client/client.go:225-236 | messages to that id are no longer delivered, all others as before |
| `ObjectTable.Context.LookUp` | pkg/ipc/wayland/client/context.go:97-110 | finds a proxy exactly when a live one has the id |
| `ObjectTable.Context.Dispatch` | pkg/ipc/wayland/client/context.go:91-117 | uninterrupted, only an undestroyed proxy with that id handles the message |
| `ShellTokens.TokensOfPrinted` | pkg/ipc/niri/generator.go:678-710 | tokenizing undoes every printing of words as adjacent bare and quoted segments between blanks, white space inside bare segments included |
| `ShellTokens.TokenizeShell` | pkg/ipc/niri/generator.go:678-710 | the scanning loop computes the tokens |
| `KdlText.QuoteRoundTrip` | pkg/ipc/niri/generator.go:118-127 | un-escaping a quoted string by the Full Grammar section of the KDL 1.0.0 specification gives the string back, for every string |
| `KdlText.ArgumentsRoundTrip` | pkg/ipc/niri/generator.go:628-637 | a written argument list reads back as exactly the words |
| `NiriBinds.SpawnLineCarriesWords` | pkg/ipc/niri/generator.go:618-637 | an emitted spawn line carries exactly the tokenized words |
| `NiriBinds.BindsConserved` | pkg/ipc/niri/generator.go:583-676 | every enabled bind with a key is emitted once or listed as skipped once, never both or neither, and no other bind appears |
| `NiriBinds.ModifierAloneIsSkipped` | pkg/ipc/modifier_self.go:16-51 | every bind of modifier-alone shape is skipped by the generator for that very reason |
| `NiriBinds.SelfGroupIff` | pkg/ipc/niri/generator.go:134-164 | the two independently written modifier-alone tests agree exactly on binds that spawn, have one modifier and do not spell it MOD or CONTROL |
| `NiriBinds.WrittenIff` | pkg/ipc/niri/generator.go:590-615 | for every bind, whether it is written, told from its fields |
| `NiriBinds.WrittenNode` | pkg/ipc/niri/generator.go:616-626 | for every written bind: each modifier by niri's name for it, then the key, whether it repeats, and the table's action |
| `NiriBinds.SkippedIff` | pkg/ipc/niri/generator.go:590-603 | why a bind is not written, told from its fields |
| `NiriBinds.SkippedAndUnhandled` | pkg/ipc/modifier_self.go:16-51 | counterexamples: binds that the generator skips as modifier-alone and the monitor does not take |
| `NiriBinds.Generator.AddBind` | pkg/ipc/niri/generator.go:589-646 | one bind is written, listed or ignored as specified |
| `NiriBinds.Generator.SpawnLine` | pkg/ipc/niri/generator.go:628-637 | the loop over the words writes the argument list |
| `NiriBinds.Generator.GenerateKeybinds` | pkg/ipc/niri/generator.go:583-676 | in whatever order the sections are ranged over, exactly the emitting binds are written and exactly the refused ones listed, system before dynamic before custom binds and those in list order |
| `FullscreenParity.StatusParity` | pkg/ipc/niri/client.go:472-511 | over every run a window's fullscreen status has flipped exactly as often, up to parity, as transitions were reported for it or overwritten by a dump |
| `FullscreenParity.MatchesIff` | pkg/ipc/niri/client.go:504-511 | a size matches when it is the whole size of some output |
| `FullscreenParity.LayoutsInOrder` | pkg/ipc/niri/client.go:1277-1295 | the entries of a message that count are those that carry a size, in their order |
| `FullscreenParity.ReportsTellStatusIff` | pkg/ipc/niri/client.go:472-511 | the reports alone tell the status exactly when dumps flipped it an even number of times |
| `FullscreenParity.MessageTruthfulIff` | pkg/ipc/niri/client.go:1277-1295 | the single event of a message is right about every known window exactly when no entry crosses an output size, or the window of the last crossing entry is the only one that ends on the other side |
| `FullscreenParity.NamedIsLastCrosser` | pkg/ipc/niri/client.go:1277-1295 | the window the event names is the one of the last entry that crosses |
| `FullscreenParity.SingleCrossingIsTruthful` | pkg/ipc/niri/client.go:1277-1295 | it is right about a window that crosses at most once and then alone |
| `FullscreenParity.SwapHidesOneWindow` | pkg/ipc/niri/client.go:1277-1295 | counterexample: one message swaps two windows and the event names only the second |
| `FullscreenParity.Niri.DetectFullscreenTransition` | pkg/ipc/niri/client.go:492-502 | stores the size and reports a crossing of any output size by a known window |
| `FullscreenParity.Niri.SizeMatchesAnyOutput` | pkg/ipc/niri/client.go:504-511 | the search loop over the outputs |
| `FullscreenParity.Niri.RememberWindowSizes` | pkg/ipc/niri/client.go:472-480 | stores the sizes a dump carries |
| `FullscreenParity.ForgottenIsNotReported` | pkg/ipc/niri/client.go:482-502 | after a window closed its next layout, whatever came between for other windows, is never reported |
| `FullscreenParity.Niri.HandleLayoutsChanged` | pkg/ipc/niri/client.go:1277-1295 | every change of a message is applied; the event names the last window reported |

## Left out

- Sockets, processes, devices and timers: dialing, reading and writing sockets, running commands, evdev devices, file watching and peer credentials are outside the model; their outcomes appear as parameters or arbitrary choices.
- Parsing: TOML and JSON texts are taken as parsed values, a glob pattern as the list of its matches, and a JSON copy as the function that drops the dynamic binds; a payload that JSON cannot encode (NaN, invalid UTF-8), which the copy passes through or alters, is not modelled.
- Scanned numbers: Go's `Sscanf` on string values is a parameter of the setting coercions, and a floating-point value outside the 64-bit integer range has no modelled conversion.
- Dispatcher tables: how a dispatcher name maps to a niri action (pkg/ipc/niri/generator.go:214-401) is a parameter; the laws hold for every table.
- Comments in the generated niri file, and its appearance, rule and start-up sections, are not modelled, nor are the Hyprland, Lua and mango text generators.
- Unicode case folding is modelled on the characters that can fold to an ASCII letter, which decides every comparison made here.
- ShellTokens.TokensOfPrinted: the printed line neither begins nor ends with white space of a word's own, which trimming would take away.
- NiriBinds.Generator.GenerateKeybinds: the text around the binds and the comments are not modelled; a bind is its combo, its repeat flag and the line inside its block.
- FixedPoint.FromFloatIsNearest: magnitudes above 2^43 - 1 leave the binade the trick relies on; there only the round trip's failure is proved.
- WireCodec.PutUint32: host byte order is taken as little-endian; on a big-endian host the source writes its native order.
- IdleInhibitors: whether the request for the surface could be sent is ignored, as pkg/server/idle.go:949-955 ignores it (the bindings return a surface either way); the ledger counts the objects of requests that were sent; a proxy that the bindings register before a request that then fails stays in the client's table until the connection ends.
- IdleInhibitors.IdleManager.Reconnect: one step, without its race with the dispatch loop, its backoff and the descriptor of the abandoned connection.
- IdleMonitors: an idle monitor is identified by its object, so the 32-bit wrap of its public id is not modelled, and neither is the order in which callbacks run after the lock is released.
- MonitorManager: its methods run one operation without interruption, and a reconnect that fails half-way leaves the monitors as they were; interleaved operations are covered by the state machine alone.
- EventFanout: the JSON text of a message is not modelled, a number stands for it; a state dump may fail to be made at any time before it is sent.
- EventServer.Server.Subscribe: called when no broadcast holds the read lock and the connection is not sending a dump; the dump and the waiting for the lock are part of the state machine only.
- EventServer.Server.WriteLoop: nothing is offered to the queue while it runs; a writer beside other goroutines is covered by the state machine.
- WindowCache.StateCache.HandleEvent: workspaces, monitors, urgency, the overview flag and the notifications that follow are not part of the cached state modelled here, and neither is the aliasing of the slice that `GetWindows` hands out.
- WindowCache.StateCache.InitCache: refreshing workspaces and monitors is not modelled.
- WindowCache.RunsStaySound: well-formed events are those the Hyprland and niri clients build; Mango's are covered by the exact condition for focus events.
- FullscreenParity: the output sizes are fixed during a run; the time-limited caches that supply them are left out.
- ConfigSync: a path stands for a file however it is spelled; Hyprland and MangoWC, where the monitor stays empty, are left out, as is a write that fails after truncating the file.
- ConfigRaces: writing a file and reloading the compositor are one action, so a reload that sees another request's file is not modelled.
- ConfigServer: its methods run one request without interruption; interleaved requests are covered by the state machine of `ConfigRaces`.
- ObjectTable: display errors, per-interface request and event bodies and file descriptors in messages are left out.
- Layout cycling (pkg/server/server.go:199-241), which indexes position -1 when no layout is current and wrapping is off, brightness, dark mode and the media and application inhibitor checks are not modelled.
