# Gateway control plane: a verified model

A Dafny model of the model gateway's control plane and of five self-contained protocols
next to it, with proofs of what they promise.

* **Configuration** (`YamlTree`, `GatewayConfig`, `ConfigWriter`, `ConfigHolding`, `ConfigSafety`,
  `ConfigCoupling`, `ConfigValidity`, `EditAcceptance`, `EditAdmission`, `EntryIdentity`). `gateway.yaml` is an ordered
  tree. Seven mutators edit one block of it, replace the file, reload it, and put the old bytes back
  when the reload is refused;
  the live configuration is a second copy. Proved: over every run the two copies stay one
  configuration, an error moves neither, an edit touches only its block, which requests are turned
  away before anything is written and with which status, four of the edits
  cannot be refused at all and two others exactly for one reason each, and when the entry edited
  is the one looked up afterwards.
* **Aliases and routing** (`AliasGraph`, `ModelRouting`, `ChatDispatch`, `ModelListing`). The load-time
  check of alias chains, the walker that trusts it, the candidate list of a request, the fallback
  walk, and the ids and tiers the listing publishes.
* **Live adapters** (`AdapterTables`, `LiveGateway`, `GatewayLifetime`). Adapters are heap objects in a
  live dictionary or a retired list, from startup to shutdown; a pinned router keeps its own copy of
  both dictionaries.
* **Governed tool calls** (`ToolEgress`, `ToolRuns`, `ToolRouting`, `GovernedCalls`). What one call may do,
  gate by gate; any number of calls in flight, their steps interleaved with changes of the
  configuration and the adapters, over shared logs; the router's routes as the code runs them; and
  the same on the running gateway, where a checked call meets an adapter built from the entry
  whose gates it passed.
* **Discovery cache** (`ModelDiscovery`). Cached rows are shared objects whose tier is written in place.
* **Streaming upload** (`StreamUpload`), **script broker** (`LogFrames`, `ScriptBroker`),
  **first-run admin** (`AdminBootstrap`), **response-time report** (`ResponseReport`).

Code that changes state is a class or a method with a loop, proved against functions on values;
the properties over runs are lemmas about those functions. Libraries and remote parties (YAML,
schema validation of single entries, digests, the object store, the container engine, adapters,
clocks) are parameters. Assumed of them, and stated as a precondition where used: reading back a
written tree gives that tree, a string without `$` holds no placeholder, a parsed entry has the name and
type its fields say, the entries of the gateway's own tool-provider table hold no placeholder and no key,
have the type they are listed under and are valid, on or off (`GatewayConfig.Lawful`); distinct
configuration entries have distinct digests (`LiveGateway.Injective`); the cache's clock does not go back.

## What the code does differently from what is written about it

Each of these is a lemma with the exact condition, and the model follows the code.

1. **The two copies can separate.** Expanding a placeholder parses its value as YAML
   (`gateway/app/config_loader.py:65-85`), and `load_config` calls that outside its error handling, so
   a value that is not YAML raises an error that the reload does not translate. The file has been
   replaced by then, and the rollback does not run. From a coupled state this happens
   exactly when the edit's own text has that effect (`CrashExactly`, `CrashSeparates`).
2. **Startup can lose an adapter.** Names of tool providers are checked for uniqueness, names of
   inference providers are not; the later of two equal names overwrites the earlier adapter, which
   is then never closed. Startup conserves exactly when the names are distinct (`StartupConserves`); over
   every run from startup to shutdown an adapter made at startup is closed once, or never if a
   later one took its name (`FromStartToShutdown`).
3. **Servers from `mcp.yaml` disappear on the first reload,** because the reload does not merge that
   file (`FirstReloadDropsMerged`); the copies are coupled after startup exactly when the file adds
   nothing (`MutableConfigHolder.constructor`).
4. **An upload can be left open:** exactly when the chunk source itself raises the size error and
   neither the creation nor a full part before it has failed; the handler takes the error for its
   own, already aborted (`EndedOnce`).
5. **A fallback that names an alias keeps its own provider.** The walker's description says that of
   the providers along a chain only the last means anything (`gateway/app/router.py:439-442`); a
   fallback takes the model at the chain's end and drops that provider. The candidate is the chain's
   target exactly when the entry names the same provider (`BackupIsChainTargetExactly`; an input
   where it is not: `BackupLeavesChainTarget`).
6. **The tier badge of an alias** is that of its first hop. It is the tier of the router's first
   candidate exactly when the lookup gives one tier for the first hop and for the end of the chain
   (`BadgeAgreesExactly`; it does for one level, `OneLevelBadgeAgrees`; an input of two levels where
   it does not: `TwoLevelBadgeDiffers`).
7. **The walker accepts a chain one hop longer** than the load-time check (`WalkerIsOneHopLaxer`); on
   configurations that passed the check it makes no difference (`ValidatedWalkSucceeds`).
8. **Two providers of one source and name share cached rows,** and both are listed with the tier of
   the second (`SharedRowsShowTheLaterTier`); a slash in a provider's name makes the listing compute
   the tier for a wrong model name (`ListedRowResolves`).
9. **A first-run password can be lost:** a worker that crashes between commit and return leaves a live
   admin whose password nobody has (`PasswordLostExactly`); and if the configured address already
   belongs to a row that is no live admin, no run ever creates one (`TakenAddressNeverAdmin`).
10. **A key can be written to one entry and the adapter rebuilt from another.** The writer matches
    the text of the file, lookups see it with its placeholders filled in. They mean one entry exactly
    when the name is no placeholder for something else and no earlier entry reads like it
    (`SameEntryExactly`, `KeyReachesItsProvider`; with `${P:-x}` before `x`, the key for `x` misses:
    `KeyMissesItsProvider`). The same goes for tool providers by type (`ToolWrittenIsLookedUp`,
    `ToolRemovedIsLookedUp`).
11. **A tool call's ceiling is compared with the configured tier,** not with that of the adapter it goes
    to. After an edit by hand and a reload the adapter may still be the one built from the old entry. A
    permitted call is then under every ceiling exactly when the adapter's own entry has at most the
    configured tier (`AdapterWithinEveryCeiling`; an input where it is not:
    `LaggingAdapterExceedsCeiling`). Calls that name a revision are pinned and not affected
    (`CheckedCallThenRun`, `ServeAll`).
12. **Audit rows stand in the order in which calls end** (`RowsInOrderOfEnding`), which need not be the
    order of the hand-overs (`OvertakenRow`), and a call that ends in an unclassified error after its
    hand-over has none (`RowsOfEachCall`, `EveryCallAccounted`).

## Model

| member | source | states |
|---|---|---|
| YamlTree.ExpandAfterPut | gateway/app/config_loader.py:109-121 | expansion goes through a replaced value and leaves every other key's expansion as it was |
| YamlTree.ExpandAfterWithout | gateway/app/config_loader.py:109-121 | dropping keys before or after expansion is the same |
| AliasGraph.CheckNoCycles | gateway/app/config.py:665-704 | accepts exactly the alias tables in which every alias reaches a native model within the depth limit, and otherwise reports a chain that really loops or is too long |
| AliasGraph.WalkAliasChain | gateway/app/router.py:424-458 | the walker's loop finds the primary target at the end of the chain, or raises |
| AliasGraph.WalkExact | gateway/app/router.py:424-458 | the walk ends within a bound exactly when the name is an alias whose chain reaches a native model within it, and then with that model |
| AliasGraph.ValidatedWalkSucceeds | gateway/app/config.py:665-704 | on every table the check accepts, the walker never raises and returns the one native model of the chain, although the loops count differently |
| AliasGraph.WalkerIsOneHopLaxer | gateway/app/router.py:424-458 | a chain of exactly one hop more than the limit passes the walker and fails the check |
| AliasGraph.RemoveKeepsChainsEnding | gateway/app/config.py:665-704 | deleting an alias only shortens chains, so the check still passes |
| GatewayConfig.DuplicateToolNames | gateway/app/config.py:608-631 | finds a repeated tool-provider name exactly when there is one |
| GatewayConfig.FirstUnknownTarget | gateway/app/config.py:633-663 | reports an alias target exactly when one names a provider that is not configured |
| GatewayConfig.RunValidators | gateway/app/config.py:608-704 | the three cross-section checks together accept exactly the configurations that are unique, known and ending |
| GatewayConfig.ProviderByNameFinds | gateway/app/config.py:716-733 | the lookup finds an entry of that name exactly when there is one |
| GatewayConfig.ProviderByNameIsFirst | gateway/app/config.py:716-733 | of several entries with one name the lookup gives the first |
| GatewayConfig.ToolByNameFinds | gateway/app/config.py:728-733 | likewise for tool providers: the first of that name, if there is one |
| GatewayConfig.KeysTakenOver | gateway/app/config.py:144-152 | an entry's two key fields are taken over as they stand, and an entry with both is refused |
| GatewayConfig.NullKeyIsNone | gateway/app/config.py:144-152 | a key field that is null counts as absent, and one that is no text is refused |
| GatewayConfig.TargetParses | gateway/app/config.py:307-313 | a target is exactly a provider and a model, both given as text and not empty, and no other key |
| GatewayConfig.AliasParses | gateway/app/config.py:316-328 | an alias block that is accepted has a primary target, at most a fallback list besides, and gives these targets in order |
| ConfigHolding.MutableConfigHolder.constructor | gateway/app/main.py:258 | the copies agree after startup exactly when the merged file adds no server |
| ConfigHolding.MutableConfigHolder.Replace | gateway/app/config_holder.py:92-104 | swaps the snapshot and hands back the old one |
| ConfigHolding.MutableConfigHolder.ReloadFromDisk | gateway/app/config_holder.py:106-140 | the snapshot moves to the validated load of the file, or not at all |
| ConfigHolding.MutableConfigHolder.OnSighup | gateway/app/config_holder.py:161-176 | a signal is one reload step; a failing one changes nothing |
| ConfigHolding.MutableConfigHolder.Commit | gateway/app/config_writer.py:108-151 | replace, reload, and restore the old bytes when the reload is refused |
| ConfigHolding.MutableConfigHolder.CheckPayload | gateway/app/config_writer.py:157-217 | accepts exactly the payloads whose providers are known and whose fields are not blank |
| ConfigHolding.MutableConfigHolder.UpsertAlias | gateway/app/config_writer.py:243-320 | file, snapshot and error after the call are those of the step function |
| ConfigHolding.MutableConfigHolder.DeleteAlias | gateway/app/config_writer.py:323-359 | likewise for deleting an alias |
| ConfigHolding.MutableConfigHolder.UpdateTierPolicy | gateway/app/config_writer.py:362-413 | likewise for the tier policy, returning the reloaded policy exactly on success |
| ConfigHolding.MutableConfigHolder.UpsertProviderKey | gateway/app/config_writer.py:451-500 | likewise for setting a provider key |
| ConfigHolding.MutableConfigHolder.DeleteProviderKey | gateway/app/config_writer.py:503-538 | likewise for deleting a provider key |
| ConfigHolding.MutableConfigHolder.UpsertToolProvider | gateway/app/config_writer.py:591-645 | likewise for a tool provider |
| ConfigHolding.MutableConfigHolder.RemoveToolProvider | gateway/app/config_writer.py:648-684 | likewise for removing a tool provider |
| ConfigWriter.EntryIndexFinds | gateway/app/config_writer.py:419-448 | the entry search finds the first entry with that name exactly when there is one |
| ConfigSafety.EditIsLocal | gateway/app/config_writer.py:243-684 | every edit leaves all other sections, keys, entries and their order alone and makes inside its block exactly the requested change |
| ConfigCoupling.StepKeepsCoupling | gateway/app/config_writer.py:243-684 | from agreeing copies, success moves both to the edited file, and every handled error leaves both exactly as they were |
| ConfigCoupling.RunStepByStep | gateway/app/config_writer.py:243-684 | a run of mutations and reloads is its steps one after the other |
| ConfigCoupling.RunKeepsCoupling | gateway/app/config_holder.py:106-140 | over every run of mutations and reloads with failing renames anywhere, the snapshot is the validated load of the file |
| ConfigCoupling.CrashExactly | gateway/app/config_loader.py:65-85 | the copies separate exactly when an edit whose own text makes expansion raise gets as far as replacing the file |
| ConfigCoupling.CrashSeparates | gateway/app/config_writer.py:243-320 | one such alias: the caller sees an error, the file has changed, the snapshot has not |
| ConfigCoupling.CommitKeepsCoupling | gateway/app/config_writer.py:108-151 | which copy moves for each way a commit can end, including a rollback that fails |
| ConfigCoupling.FirstReloadDropsMerged | gateway/app/config_holder.py:106-140 | after a startup that merged servers the first reload agrees with the file again and has none of them |
| ConfigCoupling.EditEndsLikeItsText | gateway/app/config_loader.py:109-121 | on a file that expands, the edited file expands, is refused or crashes exactly as the new text alone does |
| ConfigValidity.LoadedKeysExclusive | gateway/app/config.py:144-230 | no entry of a configuration that loads has two sources for its key |
| ConfigValidity.AbsentSectionIsEmpty | gateway/app/config.py:594-596 | a section that is not in the file counts as an empty one; one of another shape, null included, is refused |
| ConfigValidity.DeleteAliasLoads | gateway/app/config_writer.py:323-359 | deleting an alias from a valid file gives a valid file: the same configuration without that alias |
| ConfigValidity.UpsertProviderKeyLoads | gateway/app/config_writer.py:451-500 | setting a key on a valid file loads exactly when the token reads back as a string or nothing, and then only that provider's key source has changed |
| ConfigValidity.DeleteProviderKeyLoads | gateway/app/config_writer.py:503-538 | deleting a key from a valid file gives a valid file that differs in that key only |
| ConfigValidity.RemoveToolLoads | gateway/app/config_writer.py:648-684 | removing a tool provider from a valid file gives a valid file without that entry |
| ConfigValidity.RollbackUnreachable | gateway/app/config_writer.py:323-359 | for those edits the reload is never refused, so the rollback never runs |
| EditAcceptance.LookupAfterPut | gateway/app/config_writer.py:303-307 | in the new alias table the name means the new alias and every other name what it meant |
| EditAcceptance.UpsertAliasLoads | gateway/app/config_writer.py:243-320 | an alias that passes its pre-check loads exactly when every chain of the table with it still ends, and then gives that table |
| EditAcceptance.UpsertNewToolLoads | gateway/app/config_writer.py:591-645 | a tool provider of a new kind loads exactly when the name the gateway gives it is not taken, and then stands at the end with its key |
| EditAcceptance.AliasWriteAcceptedExactly | gateway/app/config_writer.py:108-151 | so the write succeeds in both copies or is rolled back, and the chains alone decide |
| EditAcceptance.NewToolAcceptedExactly | gateway/app/config_writer.py:591-645 | likewise for the new tool provider, by its name alone |
| EditAdmission.AliasInBoth | gateway/app/config_writer.py:290 | from agreeing copies file and snapshot have the same aliases |
| EditAdmission.AliasPayloadChecked | gateway/app/config_writer.py:157-217 | a payload is turned away with 422 exactly unless it and each fallback entry name a configured provider and a model that is not blank |
| EditAdmission.AliasWriteAdmitted | gateway/app/config_writer.py:276-301 | after that check creating an alias of the live configuration answers 409, replacing one it does not have answers 404, a malformed section 500, and nothing else is turned away; both copies stay |
| EditAdmission.AliasDeletionAdmitted | gateway/app/config_writer.py:323-345 | a deletion is turned away with 404 exactly unless the section is written out and the live configuration has the alias |
| EditAdmission.PolicyUpdateAdmitted | gateway/app/config_writer.py:362-413 | a policy is turned away only by its reload, with 422 and after a rollback, exactly when the edited file is refused |
| EditAdmission.KeyWriteAdmitted | gateway/app/config_writer.py:451-488 | an empty key answers 422, a section that is no list 500, a name no entry is written with 404, and nothing else is turned away |
| EditAdmission.KeyDeletionAdmitted | gateway/app/config_writer.py:503-529 | likewise for a deletion, where the first entry of that name without an encrypted key answers 409 |
| EditAdmission.ToolWriteAdmitted | gateway/app/config_writer.py:591-625 | a type without defaults answers 404, a section that is no list 500, and nothing else is turned away |
| EditAdmission.ToolRemovalAdmitted | gateway/app/config_writer.py:648-673 | a type no entry is written with answers 404, and the first entry of the type survives with 409 exactly when a key name is written in it: anything but what counts as false |
| EditAdmission.EnvironmentToolSurvives | gateway/app/config_writer.py:657-673 | so an entry that takes its key from the environment survives |
| EditAdmission.UnreadableFile | gateway/app/config_writer.py:84-105 | a missing file or one that is no mapping turns every mutation away with 500, text that is no YAML ends it in an exception, and nothing has changed |
| EditAdmission.EmptyFileIsMapping | gateway/app/config_writer.py:84-105 | on an empty file every mutation ends as on an empty mapping |
| EntryIdentity.SameEntryExactly | gateway/app/config_writer.py:419-448 | the writer's search and a lookup mean one entry exactly when the value is no placeholder for something else and no earlier entry reads like it |
| EntryIdentity.ProviderLookup | gateway/app/config.py:716-733 | a lookup by name gives the first entry of the file that reads so with its placeholders filled in |
| EntryIdentity.KeyReachesItsProvider | gateway/app/provider_keys.py:319-356 | after a key was set the provider looked up is the entry with the new key exactly when writer and lookup mean one entry, and otherwise as before |
| EntryIdentity.KeyLeavesItsProvider | gateway/app/provider_keys.py:365-386 | likewise after a key was deleted |
| EntryIdentity.KeyMissesItsProvider | gateway/app/config_writer.py:451-500 | an input where the key goes to the second entry and the lookup gives the first |
| EntryIdentity.ToolWrittenIsLookedUp | gateway/app/tool_provider_keys.py:91-130 | after a tool provider was written the entry looked up by type is the one written exactly when no earlier entry reads like it |
| EntryIdentity.ToolRemovedIsLookedUp | gateway/app/tool_provider_keys.py:133-147 | the tool provider whose adapter a removal retires is the one removed exactly when writer and lookup mean one entry; any other stays configured |
| ModelRouting.ResolveAliasChain | gateway/app/router.py:265-421 | the resolving loop builds the list of the recursive definition |
| ModelRouting.ResolutionShape | gateway/app/router.py:265-421 | on a validated configuration resolution fails exactly for requests that name nothing; otherwise the list is not empty, the first and only the first entry is primary, no pair repeats, and every tier is the four-layer lookup |
| ModelRouting.AliasCandidates | gateway/app/router.py:265-421 | an alias resolves to the model at the end of its chain, followed by an order-preserving subsequence of its own fallbacks that covers all of them |
| ModelRouting.BackupIsChainTargetExactly | gateway/app/router.py:424-467 | a fallback naming an alias becomes a candidate at its own provider with the chain's model, and that is the chain's target exactly when the entry names the chain's last provider |
| ModelRouting.BackupLeavesChainTarget | gateway/app/router.py:380-396 | a configuration that passes the load-time checks where it is not |
| ModelRouting.UnknownBackupSkipped | gateway/app/router.py:376-380 | a fallback whose provider is not configured is passed over |
| ModelRouting.ListerFinds | gateway/app/router.py:401-417 | the search finds a provider that lists the model, exactly when one does |
| ModelRouting.BareNameGoesToFirstLister | gateway/app/router.py:401-417 | a bare name that is no alias has one candidate: the first provider that lists it, that model, primary |
| ModelRouting.TierPrecedence | gateway/app/router.py:229-259 | an override for the pair decides; without one an override for the provider; without either a default for the kind; without any the provider's own tier |
| ModelRouting.OtherTiersDoNothing | gateway/app/router.py:229-259 | overrides and defaults for anything else do not change the tier |
| ChatDispatch.Dispatcher.ChatCompletion | gateway/app/router.py:684-783 | adapters are looked up and called in order up to the stopping candidate and not beyond, while the dictionary may change between candidates; the result and the one recorded outcome are those of the walk |
| ChatDispatch.OutcomeMeaning | gateway/app/router.py:684-783 | no adapter is reported exactly when no candidate has one; otherwise there is one last attempt, all before it were passed over, and answer, provider error and any other exception are exactly what that attempt came to, with the fallbacks tried; one outcome is recorded per answer or provider error |
| ChatDispatch.StopsAtUnique | gateway/app/router.py:519-546 | the walk stops at the one candidate before which all have no adapter or failed in an eligible way, and which did not |
| ChatDispatch.ErrorsLeadOn | gateway/app/router.py:519-546 | after a network failure, a 429 or a server error the next candidate with an adapter is called; after any other status, rejected credentials, an empty answer or an unsupported operation none is, and the caller gets that error |
| ChatDispatch.CalledIsInvoked | gateway/app/router.py:684-719 | a candidate the walk comes to is called, right after the callable ones before it |
| ChatDispatch.OutcomeRecorded | gateway/app/router.py:734-775 | the recorded outcome names the last attempt's provider and tier and says success, network or provider failure as the attempt ended; any other exception records nothing |
| ModelListing.ToModelsPayload | gateway/app/config.py:735-775 | lists the aliases in order with the tier of their first hop |
| ModelListing.BadgeAgreesExactly | gateway/app/config.py:735-775 | an alias's badge is the tier of the router's first candidate exactly when the lookup gives one tier for the first hop and the end of its chain |
| ModelListing.OneLevelBadgeAgrees | gateway/app/config.py:735-775 | for an alias of a native model the badge is the tier of the router's first candidate |
| ModelListing.TwoLevelBadgeDiffers | gateway/app/model_discovery.py:613-650 | for two levels it need not be: tier 1 shown, tier 5 used |
| ModelListing.NativeIdRoundTrip | gateway/app/router.py:319-345 | asking for a published id gives back that provider, model and tier exactly when the provider's name has no slash and is the first of its name and the model is not empty |
| AdapterTables.SwapConserves | gateway/app/provider_keys.py:246-272 | one swap keeps every adapter ever installed in exactly one place, once |
| AdapterTables.SwapSame | gateway/app/provider_keys.py:246-272 | swapping in the adapter that is live already retires nothing |
| AdapterTables.RunConserves | gateway/app/provider_keys.py:246-386 | so does every sequence of installs and removals |
| AdapterTables.RunKeepsRetired | gateway/app/tool_provider_keys.py:78-147 | retired adapters stay retired in order, and adapters under untouched names stay live |
| AdapterTables.StartupConserves | gateway/app/main.py:286-329 | startup keeps hold of every adapter it built exactly when their names are distinct |
| LiveGateway.ToolStartupConserves | gateway/app/main.py:381-400 | for tool providers of a validated configuration it always does |
| LiveGateway.BuildAdapter | gateway/app/main.py:136-197 | an adapter is built for an enabled entry only, from that entry, and carries that entry's revision |
| LiveGateway.BuildAll | gateway/app/main.py:286-329 | startup builds each buildable entry in order; a refused address ends it for inference providers and skips the entry for tools |
| LiveGateway.Registry.SwapIn | gateway/app/tool_provider_keys.py:78-88 | pops, retires and installs as one table change; closes nothing |
| LiveGateway.Registry.CloseAll | gateway/app/main.py:455-493 | shutdown closes each adapter ever installed exactly once |
| LiveGateway.Gateway.ApplyProviderKey | gateway/app/provider_keys.py:275-362 | an adapter is installed exactly when the reloaded entry is enabled and builds, from that entry, which carries the new key exactly when writer and lookup mean one entry; a refused address answers 409 and leaves the registry alone after the key was saved |
| LiveGateway.Gateway.RevokeProviderKey | gateway/app/provider_keys.py:365-386 | a successful revoke retires the adapter and leaves the name without one; a failed one changes nothing; which entry lost its key |
| LiveGateway.Gateway.ApplyToolProvider | gateway/app/tool_provider_keys.py:91-130 | likewise for tools: installed, and reported as configured, exactly when the entry looked up is enabled and builds; any build failure leaves the provider without an adapter |
| LiveGateway.Gateway.RemoveToolProvider | gateway/app/tool_provider_keys.py:133-147 | retires the adapter of the entry that a lookup gave before the removal, which is the removed entry exactly when writer and lookup mean one entry |
| LiveGateway.Gateway.Pin | gateway/app/router.py:642-677 | succeeds exactly when the expected revision is current, the entry is enabled and the live adapter carries the entry's revision; then it holds copies of configuration and dictionaries |
| LiveGateway.Gateway.HandleAll | gateway/app/provider_keys.py:275-386 | any schedule of applies, revokes, alias and policy edits, edits of the file by hand and reloads moves file, snapshot and both registries event by event as each event should (which adapter is installed, retired or left where it is), conserves both registries and closes nothing |
| LiveGateway.Gateway.RunThenShutdown | gateway/app/main.py:455-493 | after any schedule, shutdown has closed every adapter that was ever live exactly once |
| LiveGateway.Gateway.PinThenRun | gateway/app/router.py:642-677 | under the same condition as `Pin`, and only then, a pinned router dispatches after any schedule under every name to the adapter that was live when it was pinned, none of them closed, and the named one was built from the entry of the pinned configuration |
| LiveGateway.Gateway.PinDirect | gateway/app/api/inference.py:590-610 | a request that names its revision is accepted exactly when it does not stream, names the current revision, is no alias, and the first entry of the name before its first slash is enabled and has a live adapter of its revision; it then has a single candidate, at that adapter |
| LiveGateway.Gateway.DirectThenRun | gateway/app/api/inference.py:590-610 | the same equivalence, and the candidate and its adapter stay so under any schedule |
| GatewayLifetime.StartGateway | gateway/app/main.py:286-400 | startup fails exactly when egress policy refuses an inference provider; otherwise it holds what it built, each from its entry, under the last entry of each name |
| GatewayLifetime.FilledTable | gateway/app/main.py:286-329 | an adapter made at startup is held exactly when no later one has its name |
| GatewayLifetime.FromStartToShutdown | gateway/app/main.py:286-493 | startup fails exactly when an enabled inference provider is refused, and otherwise makes one adapter for each enabled entry that builds, in order, and no others; through any schedule to shutdown each is closed once, unless a later one took its name at startup, and then never; each one installed later is closed once |
| ToolEgress.RefusalTellsContacts | gateway/app/router.py:868-885 | a refused row's reason is the egress guard's exactly when the call had reached the adapter; then the addresses before the refused one were contacted and that one was not, and with any other reason nothing was |
| ToolEgress.AdapterWithinEveryCeiling | gateway/app/router.py:803-868 | permitted calls keep the adapter's own tier under every ceiling exactly when the entry it was built from has at most the configured tier |
| ToolEgress.LaggingAdapterExceedsCeiling | gateway/app/router.py:803-868 | an input where they do not: reloaded to tier 1, adapter built at tier 5, ceiling 1 |
| ToolEgress.AlignedGatesHold | gateway/app/router.py:833-868 | when the adapter was built from the configured entry, ceiling and anonymization hold of the adapter's own entry |
| ToolRuns.RunSound | gateway/app/router.py:785-1078 | under every schedule each call's rows, hand-over and contacts are those of its stage under the one policy it read |
| ToolRuns.RowsOfEachCall | gateway/app/router.py:785-1078 | an ended call has exactly one row, of its kind, and none exactly when it was handed over, no address was refused and it ended in an unclassified error; a call in flight has none |
| ToolRuns.EveryRowTold | gateway/app/router.py:785-1078 | at every moment each row has its call's provider, tool, request and tier; an accepted one says anonymized exactly if the call required it, and then what was handed over is the anonymizer's output, and has the bytes of the answer, none for discovery and the form's for a token; a refused one gives the first gate that failed |
| ToolRuns.ContactsTold | gateway/app/router.py:868-878 | an ended call has contacted its addresses in order up to the first refused one, and none if a gate stopped it |
| ToolRuns.EveryCallAccounted | gateway/app/router.py:785-1078 | at every moment accepted rows are as many as returned calls, refused rows as refused ones, and rows, lost calls and calls in flight make all calls; the lost ones are among those handed over |
| ToolRuns.EveryHandOverGoverned | gateway/app/router.py:833-878 | whatever was handed over belongs to one call, once, whose gates all held under the policy it read: under its ceiling, to the adapter that was live, and transformed when anonymization is required |
| ToolRuns.EveryContactGuarded | gateway/app/providers/tool/egress.py:37-55 | each contact is the next address of a call that was handed over, and the guard let that address and all before it through |
| ToolRuns.ReadWasInForce | gateway/app/router.py:803-805 | the policy a call follows is the one it was pinned to, or the live one at the step that checked its gates |
| ToolRuns.RowsInOrderOfEnding | gateway/app/router.py:888-899 | the row of a call that has ended stays before the row of one that has not |
| ToolRuns.OvertakenRow | gateway/app/router.py:868-899 | of any two permitted calls answered at once the first handed over may get the second row |
| ToolRuns.EndsWithinItsTurns | gateway/app/router.py:785-1078 | a call ends within as many turns of its own as it has addresses and three more, whatever happens between them |
| ToolRouting.ToolRouter.RouteToolCall | gateway/app/router.py:785-908 | the code of one call, with any steps of others and any change of policy wherever it yields (after each contact and before its row), is the run of the machine that weaves these together, in which it ends as the policy in force at its first step says |
| ToolRouting.ToolRouter.ResolveOAuthProvider | gateway/app/router.py:910-935 | accepts exactly the configured OAuth servers, and audits a refusal at tier 0 |
| ToolRouting.ToolRouter.RouteOAuthDiscover | gateway/app/router.py:967-1016 | likewise for discovery |
| ToolRouting.ToolRouter.RouteOAuthToken | gateway/app/router.py:1018-1078 | likewise for the token exchange, counting the form's bytes |
| ToolRouting.ToolRouter.Reach | gateway/app/providers/tool/eurlex.py:209-255 | the guard is asked about each address before it is contacted, the first refusal ends the course, and the others run on after each contact |
| GovernedCalls.LiveAdapterWithinEveryCeiling | gateway/app/router.py:803-868 | the same condition on the live dictionary of adapters |
| GovernedCalls.CallTool | gateway/app/api/tools.py:109-130 | a request is accepted exactly when it names no revision and needs no anonymization, or names the current one and its adapter was built from its current, enabled entry; then it is pinned |
| GovernedCalls.CheckedCallThenRun | gateway/app/router.py:642-677 | under any later schedule a checked call goes to the adapter that was live, not closed, built from the very entry whose tier and anonymization its gates test, so they hold of that adapter |
| GovernedCalls.Administer | gateway/app/tool_provider_keys.py:91-147 | an administrative call moves the gateway as its event should, and is one change of the policy for the calls in flight: to the one over the new configuration and adapters |
| GovernedCalls.Ask | gateway/app/api/tools.py:109-140 | a refused request leaves no trace; an accepted one arrives, pinned exactly when it named a revision |
| GovernedCalls.ServeAll | gateway/app/router.py:642-908 | requests, steps and administrative calls in any order: each request is let in exactly when the gateway of that moment admits it; what it all adds up to is a run of the machine; and in it every call that must be anonymized, and every other checked one, was handed to an adapter for which its gates hold |
| ModelDiscovery.DiscoveryCache.Get | gateway/app/model_discovery.py:190-205 | a hit is exactly an entry no older than its time to live; an expired one is removed |
| ModelDiscovery.DiscoveryCache.Put | gateway/app/model_discovery.py:207-218 | stores one answer under its key with the time of storing |
| ModelDiscovery.Discover | gateway/app/model_discovery.py:279-298 | the rows are one stored answer of this provider, within its time to live when the cache was asked, or stored after a miss |
| ModelDiscovery.RunTasks | gateway/app/model_discovery.py:700-701 | the discoveries run concurrently, their cache reads and stores interleaved in any order with each other and with other listings on the cache: each asks the cache once, in its first turn, those left over in the order of the providers; the others' answers are stored; and each finished one holds one answer of its provider that was recent at its own read |
| ModelDiscovery.Gather | gateway/app/model_discovery.py:640-712 | the results are put in the order of the providers: a provider asked is listed exactly when its own read was a hit or its fetch answered, after a miss with the models fetched, and the others are left out |
| ModelDiscovery.AnsweredIsListed | gateway/app/model_discovery.py:681-725 | so every enabled provider of the four discoverable kinds whose fetch answers is listed, and none of another kind |
| ModelDiscovery.AgesBounded | gateway/app/model_discovery.py:62-75 | a listed row is at most a minute old for a local server and five minutes for a catalogue, at its own read |
| ModelDiscovery.SharedKeys | gateway/app/model_discovery.py:173-178 | two providers share cached rows exactly when they have one name and one kind, the two OpenAI kinds counting as one |
| ModelDiscovery.CatalogueMeans | gateway/app/model_discovery.py:650-680 | a configured row is a model of an enabled Bedrock provider with a protocol and a key, and each such model has one |
| ModelDiscovery.CatalogueInOrder | gateway/app/model_discovery.py:650-680 | these rows stand in the order of the providers |
| ModelDiscovery.CatalogueOfOne | gateway/app/model_discovery.py:665-680 | and those of one provider in the order of its own list |
| ModelDiscovery.AnnotateAll | gateway/app/model_discovery.py:712-725 | a row shows the tier, under the configuration passed in, of the last provider that listed it |
| ModelDiscovery.MergedInOrder | gateway/app/model_discovery.py:700-725 | the rows of each provider stand together, after those of the providers before it, and none is left out |
| ModelDiscovery.DistinctMeansOnce | gateway/app/model_discovery.py:586-725 | with one provider per source and name no row is listed twice |
| ModelDiscovery.ListAll | gateway/app/model_discovery.py:586-725 | the listing is the aliases, the configured Bedrock models and the discovered rows in order, those of every provider that answered or was cached, each discovered row recent at its discovery's own cache read, whatever other listings do meanwhile, and, with distinct keys, at its own provider's current tier and resolving as in the next row |
| ModelDiscovery.DiscoveredRowsResolve | gateway/app/model_discovery.py:703-725 | with distinct keys every discovered row names an enabled provider and a model, and asking for its id gives that provider and model alone at the tier shown, unless the name has a slash or is not the first of its kind, the model is empty or the id is an alias |
| ModelDiscovery.ListedRowResolves | gateway/app/model_discovery.py:715-722 | the tier is computed for the listed model exactly when the provider's name has no slash, and then asking for the row gives that provider, model and tier |
| ModelDiscovery.SharedRowsShowTheLaterTier | gateway/app/model_discovery.py:205 | two providers of one key share rows, and the first one's tier is right exactly when it equals the second's |
| StreamUpload.StreamUpload | api/app/storage.py:155-304 | the calls made, in order, and the result for every stream and every failing store call |
| StreamUpload.ConsumeAll | api/app/storage.py:221-264 | the chunk loop: what has been uploaded is the full parts of what has been read, and the stream is left at its first bad event |
| StreamUpload.FlushFull | api/app/storage.py:249-263 | the inner loop uploads all full parts of the buffer and keeps the rest |
| StreamUpload.BodiesShape | api/app/storage.py:204-304 | the parts join to the body, all but the last are full, and their number is the size over the part size rounded up, or one for the empty body |
| StreamUpload.BodiesUnique | api/app/storage.py:204-304 | no other cutting of the body has that shape |
| StreamUpload.StoredIsWhole | api/app/storage.py:265-304 | a stored object is the whole stream, its parts numbered from 1, with size and digest of the whole |
| StreamUpload.NothingPastTheCap | api/app/storage.py:225-245 | the size error comes at the first prefix over the cap, and only whole parts from before that chunk have been uploaded |
| StreamUpload.EndedOnce | api/app/storage.py:281-298 | a created upload is completed or aborted, once and not both, exactly unless the source raised the size error and neither the creation nor a full part before it failed |
| StreamUpload.StreamDecides | api/app/storage.py:155-304 | the result is an internal error exactly when a call the upload needs fails or the source raises an ordinary error, and otherwise the stream's; a failing abort changes nothing |
| StreamUpload.StopUnique | api/app/storage.py:221-245 | every stream has one event at which it stops |
| StreamUpload.ContentInOrder | api/app/storage.py:221-248 | what is counted, hashed and cut is the chunks' bytes, one chunk after the other |
| LogFrames.Demultiplex | script_runner/broker.py:182-193 | the loop terminates on every byte string and returns the joined payloads of its frames, or refuses |
| LogFrames.AcceptsExactlyMuxed | script_runner/broker.py:182-193 | a string is accepted exactly when it is a concatenation of well-formed frames, and there is only one such decomposition |
| LogFrames.MuxRoundTrip | script_runner/broker.py:182-193 | demultiplexing undoes multiplexing for payloads under 2^32 bytes |
| LogFrames.HeaderDecides | script_runner/broker.py:182-193 | the size of a frame is in the last four bytes of its header, highest first, and the payload follows the header |
| LogFrames.CutFrameRefused | script_runner/broker.py:186-191 | a stream cut inside a frame is refused |
| ScriptBroker.AdvanceKeepsJob | script_runner/broker.py:113-203 | one step of one job keeps its call order and the sum of held and free slots |
| ScriptBroker.RunSound | script_runner/broker.py:113-203 | under every interleaving, with the engine failing anywhere, held and free slots make two |
| ScriptBroker.SlotsAndContainers | script_runner/broker.py:113-203 | whatever a job asks of the engine concerns the container it named; each finished job released what it acquired; one that held a slot created from the approved image, attempted one deletion, last, and raised unless it succeeded |
| ScriptBroker.BusyExactly | script_runner/broker.py:113-203 | at most two requests hold a slot at any moment, and an approved one that asks is told the runner is busy exactly when two do |
| ScriptBroker.OutcomesMean | script_runner/broker.py:113-203 | what each finished request was told, in every run: a result means no creation warning, exit status 0 and readable logs, whose payload it is; each error says which check or call failed first; a refused request says why and held no slot |
| ScriptBroker.EndsWithinItsTurns | script_runner/broker.py:113-203 | a request finishes within seven turns of its own, whatever the engine answers and the others do |
| ScriptBroker.Broker.Serve | script_runner/broker.py:113-203 | the code of one request, with any steps of the others during each of its calls, is the run of the machine that weaves these together, in which it finishes with the outcome returned; with no slot free it is turned away and asks nothing of the engine |
| ScriptBroker.Broker.Execute | script_runner/broker.py:139-195 | the `try` block makes the calls that are due, on its own container, and ends in the deletion step |
| AdminBootstrap.AtMostOnePassword | api/app/admin_bootstrap.py:61-140 | for any number of workers, interleavings and crashes at most one returns a password, the committed row has its hash, and none does if a live admin was there |
| AdminBootstrap.CreatedExactly | api/app/admin_bootstrap.py:83-136 | an admin is created only at a free address with no other live admin, and then, once a worker has ended, as a live admin with some worker's password |
| AdminBootstrap.EndedStays | api/app/admin_bootstrap.py:138-140 | what a worker has returned stays returned, whatever happens later |
| AdminBootstrap.AdminAfterRun | api/app/admin_bootstrap.py:83-136 | once a worker has ended without a crash a live admin exists, exactly unless the address was taken by another kind of row and there was none |
| AdminBootstrap.TakenAddressNeverAdmin | api/app/admin_bootstrap.py:83-136 | at every moment of every run a row that had the address stays as it is, so a live admin exists only if one did at the start |
| AdminBootstrap.PasswordLostExactly | api/app/admin_bootstrap.py:138-140 | a created admin's password is returned by someone exactly if the committing worker did not crash before returning |
| AdminBootstrap.Deployment.EnsureFirstRunAdmin | api/app/admin_bootstrap.py:61-140 | the code of one worker, with any steps of the others between its statements and a crash anywhere, is the run of the machine that weaves these together, in which that worker ends with the result returned, crashed, or still waits for another's insert after all its patience |
| ResponseReport.ResponseIsEarliest | scripts/pr_response_time.py:299-311 | a response is found exactly when an event qualifies, and it is an earliest one |
| ResponseReport.Classify | scripts/pr_response_time.py:318-361 | each bucket is the pull requests of its kind in order of creation with the right hours; together they are the fetched ones, each as often as fetched, and the total is their number |
| ResponseReport.BucketsPartition | scripts/pr_response_time.py:217-225 | every pull request is in exactly one bucket |
| ResponseReport.BucketsMean | scripts/pr_response_time.py:318-361 | what each bucket holds, said of the pull request: answered by its earliest response with the hours up to it, waiting ones still open with the hours up to now, unanswered ones closed |
| ResponseReport.LongestFirstAlready | scripts/pr_response_time.py:360 | the final sort of the waiting list changes nothing |
| ResponseReport.WithinAWeek | scripts/pr_response_time.py:240-242 | the published count is the number of answered ones with at most 168 hours |
| ResponseReport.MedianAgreesWithCount | scripts/pr_response_time.py:228-242 | a median within the target means at least half were answered within it, more than half means a median within it, and for odd numbers the two are one |
| ResponseReport.ExactHalf | scripts/pr_response_time.py:364-367 | with exactly half within the target the median is within it exactly if the two middle waits are on average |

## Left out

* YAML anchors and aliases (one node shared by two places), non-string keys, floats, and comments,
  which an edit loses although the writer's description says they are kept.
* Field-level schema checks of single entries: parameters of the loader, except the two key fields
  of a provider, the alias block and the checks across sections. The contents of the gateway's
  table of tool-provider defaults are a parameter too.
* The temporary file of the forward write; the write is one atomic replacement. (The code removes
  the temporary file only when the rename fails.)
- RunKeepsCoupling: excludes a rollback write that itself fails and an edit whose own text makes expansion raise; `CommitKeepsCoupling` and `CrashExactly` say what happens then.
* Edits by other processes in the middle of a mutation, and alias writers that race in one process:
  mutations are serialised; an operator's edit of the file comes between them.
- UpsertAliasLoads: a payload with a placeholder is left out, because what it expands to comes from the environment; `EditEndsLikeItsText` says whether such a payload expands at all.
- UpsertNewToolLoads: likewise for a token with a placeholder.
* The encryption of keys, masked key endings and other secret-safe status fields.
* Fields of a listed row other than id, owner and tier; a cached row keeps the provider type of the
  configuration it was fetched under until it expires.
- Injective: the digest is taken of a JSON form with sorted keys, so entries that differ in the order of extra keys only are one entry here.
* Streaming completions, cost estimates, latency figures, response headers and metrics other than the
  outcome of a walk.
* The rate limiter, the anonymizer, the tests inside the egress guard and the adapters' own logic: each
  is its outcome.
- EveryContactGuarded: the requests that an MCP session makes after its server's address was let through count as one contact, because what an adapter sends over an open session is its own logic.
* Log writers swallow their own failures; the audit log here is what they were given to write.
* An upload whose creation succeeded but whose answer was lost, errors while opening or closing the
  store client. Cancellation of tasks, everywhere.
* A broker job that fails between taking its slot and entering the `try` block (generating the
  container's name), and the periodic removal of stale containers.
* Commit errors of the first-run transaction are crashes of the worker; every worker is given the same address.
* Casefolding of logins is a parameter (applied twice, as in the code); rounding of hours to floats.
* Parsing of fetched pull requests, and the provisional median that counts waiting ones.
