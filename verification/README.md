# Gateway control plane, verified

This project models the control plane of the gateway and proves what it promises: a transactional routing store, a
reconciler that keeps the running Caddy configuration, the settings files and the store in step, the compiler from
routes to Caddy entries, the certificate policy read back from that configuration, the ring log with its line writer, the
backward audit reader, and DNS reconciliation with conditional writes.

Code that updates fields appears as classes and methods with loops (`LogRing.Store`, `LineWriter.Writer`,
`RoutingStore.Store`, `Reconciler.Control`, `AzureDns.Dns`, the methods of `AuditTail`, `Migration`, `CaddyRoute`,
`CaddyRender`, `Certificates`, `CertificatePolicy` and `AzureManager`), each tied to a specification about which the lemmas
speak. Everything that interleaves is one state machine (`Protocol`), and the sequential code is shown to refine it.

## How it is laid out

| files | subject |
|---|---|
| `Text`, `Routing`, `RoutingFacts` | ASCII text functions; listeners, pools, rules, their normal forms, validity and compilation |
| `NormalForms`, `HostNames` | what is stored and compiled of a listener, pool or rule, field by field; host names character by character |
| `StoreSpec`, `RoutingStore`, `ReloadFacts`, `Migration` | the store on values, the store as a class, which saved files are accepted again, splitting legacy routes |
| `Protocol`, `ProtocolSchedule`, `ProtocolFiles`, `ProtocolRuntime` | the apply/commit state machine and its four invariants |
| `ProtocolSafety`, `ProtocolHistory` | what the invariants mean over whole runs |
| `ProtocolRequests`, `ProtocolAnswers`, `ProtocolOutcome`, `ProtocolFailure` | what each request asks for and gets, what determines a run, when a request commits, what runs afterwards |
| `Reconciler` | `sync`, `finish` and the commit callbacks over fields, refining the state machine |
| `CaddyMatch`, `CaddyRoute`, `CaddyHeaders`, `CaddyOrder`, `CaddyRender`, `CaddyListen`, `CaddyServe` | matcher semantics, one route, the headers it sets, the stable sort, all servers, where they listen, what is served |
| `StoredRoutes` | from the store to the renderer: what is accepted can be served |
| `Certificates`, `CertificatePolicy`, `CertificateCoverage` | names and archiving; parsing a configuration; what parsing makes of a rendered one |
| `LogRing`, `LineWriter`, `AuditTail` | ring log, line writer, backward block reader |
| `AzureDns`, `AzureManager` | the DNS service with other writers, and the gateway's side |

## What is proved, hardest first

* **Drafts never run.** In every interleaving of background and manual synchronizations, settings commits, imports and store
  edits, whenever no synchronization holds the lock the running document renders the served configuration over the *applied*
  routes followed by a list that some discovery really returned (`DraftsNeverRun`). This needs that the run is not off
  track: after a load of the desired routes without a candidate that takes effect unacknowledged, or a rollback without
  effect after a load that had one, and until the next commit, rollback by rendering or unacknowledged background load. This
  is exact: after either losing step the property holds if and only if the renderer gives the same document for the previous
  state (`LosingTrackIsReal`), and with any renderer that tells desired from applied routes, from every sound store with
  pending routes, an apply whose acknowledgement is lost breaks it (`DraftsCanRun`). A lost acknowledgement of a background
  load does no harm.
* **All or nothing.** With a runtime reader, a non-empty running document, a rollback that takes effect and compensating
  saves that succeed, a failed synchronization leaves runtime, configuration, applied snapshot and files as they were when
  it took the lock; a committed one leaves one configuration running, served and on file (`AllOrNothing`).
* **Requests get what they ask for.** In every interleaving, a settings request, rotation, certificate request or import
  that has committed is served and on file as asked, and everything it did not name is as it was when it arrived
  (`RequestsAreFulfilled`). A request that runs without interruption commits exactly if its configuration renders, the load
  is acknowledged, the runtime was read where that is needed and the saves it needs succeed (`UninterruptedOutcome`); the
  document that runs afterwards is told from what the request met and from the answers, also after a lost acknowledgement or
  a failing rollback (`RuntimeOfUninterrupted`).
* **Apply confirms what it loaded.** Edits made meanwhile stay pending; the guard against stale revisions never fires;
  without pending changes desired and applied resources agree up to runtime errors.
* **Scheduling.** Superseded generations are cancelled, Azure work never overlaps and never starts late, and results are
  published in increasing order.
* **Store.** Every operation keeps all uniqueness, reference and compilation invariants or changes nothing, in memory or on
  disk, and its answer is stated exactly; what an operation stores is told field by field, and what pruning drops by
  membership; loading an older file applies what it loads, and nothing is pending; loading undoes saving exactly for rules
  that a second normalization leaves alone; reloading while an import is staged returns to the state before it; a saved file
  is accepted again exactly if its rules stay apart and acceptable under that normalization.
* **Compiler.** Rendering succeeds exactly when the listeners are compatible and every enabled route renders
  (`RendersExactly` in the terms of the configuration); the entries decide every request as the routes' policies say, and
  the most specific route that matches is asked first. Prefixes that rendering changes once more are included: the meaning
  is stated for what is rendered, and `ExactlyDenied` and `SortsByPrefixIsExact` say when that is what the policy means.
  Every route is served at its own place and nothing else is, and every rejection has a reason in the policy. What the store
  accepts is usable: the renderer refuses a stored route only for want of internal ranges or for a negative configured limit
  (`StoredRoutesRender`), and the meaning theorems apply to it (`StoredRoutesAreStarless`).
* **Certificates.** Which hosts the parsed policy covers and which endpoints it lists, as if-and-only-ifs; pruning loses
  nothing; and archiving leaves no gap: every served host that an archivable certificate covers is covered by a managed
  subject which the certificate's status lists, carried from single names to the TLS routes of a rendered configuration.
* **Logs and DNS.** Exact specifications for ring, writer and reader; every DNS write concerns a record owned at that moment
  or one that was absent, brings it to its wanted form or deletes an unwanted one, the counts reported are those of the
  records and hosts concerned, and without interference a run reaches a fixed point.

## Where the code does something other than one might expect

* Normalizing a path prefix is not idempotent: "/a /" becomes "/a ", which becomes "/a". Reloading a saved file, migrating a
  route and rendering a denied prefix each normalize once more, so `LoadUndoesSave`, `MigrationKeepsPlace` and
  `IntersectionIsExact` hold exactly for prefixes that a second normalization leaves alone.
* Rules for "/a" and "/a /" on one listener are both accepted, as their normalized prefixes differ. Both compile to "/a", so
  their routes compete for the same requests (`RoutesCompete` says when), and the saved file is refused when it is loaded,
  because there the prefixes are normalized once more (`FileIsReadable`, with `AcceptedAndUnreadable` for the input).
* The sort of rendered routes looks at the prefix without its final slashes, the matcher at the trimmed prefix. A prefix
  from which two or more characters of white space are trimmed can be tried before a strictly more specific one
  (`SortsByPrefixIsExact`); `SortMisjudges` gives the input, a rule for "/a   / /".
* The patterns of denied paths take the place of the route's own patterns, so a denied prefix can also reject requests
  outside the route. It does exactly if its rendered common part with the route is wider than the route (`StraysExactly`),
  that is, if rendering changes the compiled prefix of the route once more and the denied prefix lies at or above it
  (`EscapesFromUnstable`). A rule for "/a / / /" under a denied "/" is the input (`StrayedPrefix`).
* Of two configured headers whose names differ only in white space around them, the one visited last counts, and the order
  is not fixed: the rendered document is determined if and only if such headers agree (`OrderIsIrrelevant`).
* An internal route does not reject a foreign source: the request falls through to the next, less specific route
  (`MostSpecificDecides` says when the first matching route stays silent).
* With the default certificate issuer the subjects are not handed to the certificate loader, while hosts they cover are
  still skipped: such a host is covered only by another TLS route's host (`CoverageSurvives`); `SkippedAndUncovered` gives
  the input.
* Compiling an accepted rule can fail: its security lists are normalized a second time, and a prefix such as "// /" is empty
  by then (`CompiledRouteValidity`; `SpoiledByCompiling` gives the rules).
* An imported rule set is checked against later rules as given and against earlier ones in normal form (`GoodRules` in
  `StoreSpec`), so whether it is accepted can depend on their order; `OrderOfRulesMatters` gives two such rules.
* Splitting a legacy route turns an explicit upstream port 0 into the shared port (`MigrationKeepsUpstreams`;
  `ZeroPortBecomesShared` gives the input).
* A pool has no two equal targets, but a target without a port and one that names the port of the rule are one upstream
  (`UpstreamsCoincide`).
* A legacy route loses its name: what it is split into is named after its id (`MigrationNames`).
* Rules trim the listener and pool ids they refer to, listeners and pools keep theirs: a listener whose id has surrounding
  spaces cannot be referred to. The contracts about migrated routes say so.

## Model

| member | source | states |
|---|---|---|
| ProtocolSafety.AlwaysSafe | backend/internal/reconcile/reconciler.go:143-333 | every state reachable by any interleaving of steps keeps the lock, generation, file and runtime invariants |
| ProtocolSafety.DraftsNeverRun | backend/internal/reconcile/reconciler.go:143-252 | on every run that is not off track, while no synchronization holds the lock, what runs renders the served configuration over the applied routes and routes some discovery found |
| ProtocolSafety.LosingTrackIsReal | backend/internal/reconcile/reconciler.go:192-252 | after a step that loses track the runtime is accounted for if and only if the renderer gives the same document for the previous configuration over the applied routes and a known discovery |
| ProtocolSafety.TrackKept | backend/internal/reconcile/reconciler.go:192-252 | a run without a losing step is never off track |
| ProtocolHistory.AllOrNothing | backend/internal/reconcile/reconciler.go:163-252 | with a reader, a non-empty runtime, an effective rollback and successful compensating saves: a failed synchronization leaves runtime, configuration, applied snapshot and files as when it took the lock; a committed one makes the running, served and persisted configuration agree over the snapshot it loaded; only edits move the desired revision |
| ProtocolHistory.RollbackRestores | backend/internal/reconcile/reconciler.go:188-213 | with a reader and a non-empty runtime the rollback restores it exactly when it takes effect or nothing had changed |
| ProtocolRequests.RequestsAreFulfilled | backend/internal/api/settings.go:79-160 | in every interleaving: once a settings request, rotation, certificate request or import has committed, what it asked for is served and on file with all it did not name as it was when it arrived; until then the configuration served is the one it met |
| ProtocolOutcome.UninterruptedOutcome | backend/internal/reconcile/reconciler.go:143-274 | a request that nothing interrupts commits if and only if its configuration renders, the load is acknowledged, the runtime was read where needed and the saves it needs succeed, and what it then leaves, or leaves alone, reports and publishes |
| ProtocolFailure.RuntimeOfUninterrupted | backend/internal/reconcile/reconciler.go:163-252 | what runs when such a request is over: what it loaded; or, if a rollback was due and took effect, the document read before or a rendering of what was served, applied and discovered before; or what ran before; and which discovery is remembered |
| ProtocolRequests.StagedImport | backend/internal/api/configuration_bundle.go:88-146 | a staged import keeps the imported settings with the secrets known before, remembers what it would replace, and changes nothing served, running or on file |
| ProtocolRequests.SystemSettingsWait | backend/internal/api/settings.go:79-160 | system settings change the settings file alone, keeping its security, ranges and tokens |
| ProtocolHistory.LostAcknowledgementRunsDrafts | backend/internal/reconcile/reconciler.go:233-239 | a synchronization of the desired routes (plain, or apply without a draft) whose load takes effect unacknowledged leaves them running, and the runtime is unaccounted for exactly if the renderer separates them from the applied routes with every known discovery |
| ProtocolHistory.DraftsCanRun | backend/internal/reconcile/reconciler.go:143-252 | for every renderer that gives the desired routes another document than the applied ones there is such a run, from every sound store and whatever the configuration |
| ProtocolHistory.OnlyEditsChangeDesired | backend/internal/reconcile/reconciler.go:182-249 | over any run the desired revision counts the edits, and without edits the desired resources stay equal up to runtime errors |
| ProtocolHistory.NothingPendingMeansApplied | backend/internal/routes/store.go:68-72 | in every reachable state without pending changes the desired resources are the applied ones up to runtime errors |
| ProtocolHistory.ConfirmsWhatItLoaded | backend/internal/reconcile/reconciler.go:182-249 | whatever is edited during the load, a committed apply confirms the desired state it started from, and changes are pending afterwards exactly if there was such an edit |
| ProtocolRuntime.NeverStale | backend/internal/routes/store.go:80-94 | under the protocol the stale-revision guard never refuses a confirmation; only a failing write does |
| ProtocolRuntime.RuntimeKept | backend/internal/reconcile/reconciler.go:143-252 | every step keeps the account of what runs, who captured what, and which snapshot is being loaded |
| ProtocolRuntime.CommitMeaning | backend/internal/reconcile/reconciler.go:241-249 | a failing commit changes neither configuration nor store; a successful one confirms the loaded snapshot and serves the tried configuration |
| ProtocolHistory.ImportAllOrNothing | backend/internal/api/configuration_bundle.go:215-240 | applying an import writes settings, certificate policy and applied routes together or, if the compensating saves succeed, none of them |
| ProtocolHistory.PendingImportChangesNothing | backend/internal/api/configuration_bundle.go:88-146 | while an import waits, also after further imports, the effective settings and certificate policy are the recorded previous ones |
| ProtocolFiles.FilesKept | backend/internal/api/configuration_bundle.go:200-240 | every step keeps the files in agreement with the served configuration and with the draft's recorded previous values |
| ProtocolSchedule.LocksKept | backend/internal/reconcile/reconciler.go:143-274 | every step keeps each lock with exactly the process that is in a phase needing it |
| ProtocolSchedule.GenerationsKept | backend/internal/reconcile/reconciler.go:151-160 | every step keeps older generations cancelled and both histories strictly increasing |
| ProtocolHistory.ScheduleIsOrderly | backend/internal/reconcile/reconciler.go:262-272 | over all runs: generations below the current one are cancelled, Azure reconciliations and locked sections never overlap, starts and published results come in strictly increasing generation order |
| ProtocolHistory.SupersededHasNoEffect | backend/internal/reconcile/reconciler.go:323-333 | a superseded synchronization starts no Azure work and publishes neither a result nor route health |
| Reconciler.Control.Sync | backend/internal/reconcile/reconciler.go:143-274 | one request run over the fields is a run of the protocol in which every step gets the outside's answers and the fields are those of its final state; it commits exactly if its answers allow that, and then what it asked for is served, on file and running over the routes it confirmed, otherwise nothing served, confirmed or waiting changes; what runs then is told from the answers; its result is published under a new generation |
| ProtocolAnswers.AnswersDetermineTheRun | backend/internal/reconcile/reconciler.go:143-274 | the answers determine the whole run, so the contract above fixes the resulting fields |
| Reconciler.Control.PersistConfigurationImport | backend/internal/api/configuration_bundle.go:215-240 | what each of the saves and undoing saves leaves in the files, draft, store and served configuration |
| Reconciler.Control.CommitSettings | backend/internal/api/settings.go:213-231 | committing live settings leaves the fields at the protocol's committed state, with the protocol's answer |
| Reconciler.Control.Rollback | backend/internal/reconcile/reconciler.go:188-213 | rolling back leaves the fields at the protocol's restored state, about which `RollbackRestores` speaks |
| Reconciler.Control.Take | backend/internal/reconcile/reconciler.go:151-160 | taking the lock and a generation leaves the fields at the protocol's acquired state and captures what its process remembers |
| Reconciler.Control.Finish | backend/internal/reconcile/reconciler.go:323-333 | result and health are published only for the current generation |
| RoutingStore.Store.Commit | backend/internal/routes/resources.go:706-720 | rebuilds and saves, or restores the snapshot taken before |
| RoutingStore.Store.RebuildRoutes | backend/internal/routes/resources.go:650-704 | the routes become the compilation of the rules in order, each saying what its rule, listener and pool say, or stay when one rule does not compile |
| RoutingStore.Store.AddListener | backend/internal/routes/resources.go:113-125 | the exact answer for every request; on success one listener more, with the stated form of every field, and everything consistent; on failure nothing changes in memory or on disk |
| RoutingStore.Store.ReplaceListener | backend/internal/routes/resources.go:127-159 | the exact answer; on success the listener is replaced in place and all routes follow, on failure nothing changes |
| RoutingStore.Store.DeleteListener | backend/internal/routes/resources.go:161-174 | refused while referred to or unknown; otherwise removed, with everything consistent |
| RoutingStore.Store.AddPool | backend/internal/routes/resources.go:176-188 | as for listeners, with case-insensitively unique names |
| RoutingStore.Store.ReplacePool | backend/internal/routes/resources.go:190-222 | as for listeners |
| RoutingStore.Store.DeletePool | backend/internal/routes/resources.go:224-237 | as for listeners |
| RoutingStore.Store.AddRule | backend/internal/routes/resources.go:239-251 | as for listeners, with unique places and existing references |
| RoutingStore.Store.ReplaceRule | backend/internal/routes/resources.go:253-281 | the exact answer; the rule keeps its place and its last error |
| RoutingStore.Store.DeleteRule | backend/internal/routes/resources.go:283-291 | removes one rule, keeping the order of the others |
| RoutingStore.Store.ReplaceResources | backend/internal/routes/resources.go:66-85 | the exact answer; all resources are replaced by their normal forms, entry by entry and without runtime errors, when they pass every check and compile, otherwise nothing changes |
| RoutingStore.Store.StageResources | backend/internal/routes/resources.go:87-111 | the same in memory only: the file keeps describing the state before |
| RoutingStore.Store.NormalizeResources | backend/internal/routes/resources.go:560-616 | accepts exactly the sets that pass the checks in the order the code makes them, and then leaves every entry in its place in normal form, field by field |
| RoutingStore.Store.MarkApplied | backend/internal/routes/store.go:80-94 | confirms a snapshot between the applied and the present revision in memory and on disk and ends staging, or changes nothing |
| RoutingStore.Store.PersistStaged | backend/internal/routes/store.go:260-271 | writes a staged state and ends staging; the file then describes what is in memory |
| RoutingStore.Store.SetRuntimeStatus | backend/internal/routes/store.go:199-231 | the last report on a route or rule decides its error, which is empty for a healthy one; those without a report and everything else stay |
| RoutingStore.Store.Load | backend/internal/routes/store.go:118-191 | the exact answer for every file, also where older resources are decoded or legacy rows migrated one by one; the resources are those of the file in normal form; an accepted older file comes up at revision 1 with everything applied, nothing staged and the file rewritten, one of the present version with the revisions and the applied resources it holds; a refused file changes nothing |
| RoutingStore.Store.MigrateRoute | backend/internal/routes/resources.go:367-483 | the exact answer: the first reason against it, or the listener, new or reused, the pool and the rule that are added at the end |
| RoutingStore.Store.AddRoute | backend/internal/routes/resources.go:293-318 | the exact answer; a compatibility route is added as a whole or nothing changes |
| RoutingStore.Store.ReplaceRoute | backend/internal/routes/resources.go:320-351 | the exact answer; delete, prune, migrate, rebuild and save succeed together or nothing changes |
| RoutingStore.Store.DeleteRoute | backend/internal/routes/resources.go:353-365 | the exact answer; removes one rule in place and, of the pools and listeners, only those it names that were made for a compatibility route and that no remaining rule refers to; all others stay in order |
| RoutingStore.Store.RemoveRule | backend/internal/routes/resources.go:744-757 | pruning in place drops a pool or listener if and only if the removed rule names it, its source is "compatibility" and no remaining rule refers to it |
| StoreSpec.CommittedIsEdit | backend/internal/routes/resources.go:706-720 | every committed change of well-formed resources keeps the whole invariant and advances the revision by one |
| StoreSpec.PruningKeeps | backend/internal/routes/resources.go:744-757 | pruning removes only unreferenced resources and keeps all references |
| StoreSpec.PruningMeaning | backend/internal/routes/resources.go:744-757 | a pool or listener goes if and only if the removed rule names it, its source is "compatibility" and no remaining rule refers to it; the others keep order and contents |
| StoreSpec.StatusMeaning | backend/internal/routes/store.go:199-231 | the last report on an id decides the error of its route and rule, and nothing else changes |
| StoreSpec.AcceptedIsWellFormed | backend/internal/routes/resources.go:560-648 | a resource set that passes the checks and compiles is well formed in normal form |
| StoreSpec.LoadUndoesSave | backend/internal/routes/store.go:118-191 | decoding a saved file yields desired and applied resources and both revisions, up to errors, if and only if a second normalization leaves all saved rules alone |
| StoreSpec.ReloadReturnsToFile | backend/internal/routes/store.go:118-191 | a store that is loaded again is sound, unstaged, would write the same file and has the state its file describes: the present one, or the one before a staged import |
| StoreSpec.ReloadDropsImport | backend/internal/routes/resources.go:87-111 | staging an import and loading the file again leaves resources, revision and applied snapshot as before, up to errors |
| StoreSpec.OrderOfRulesMatters | backend/internal/routes/resources.go:560-616 | two rules that are accepted in one order and refused in the other |
| ReloadFacts.RoutesCompete | backend/internal/routes/resources.go:650-704 | two routes of a store ask for the same host, listener and path if and only if their rules share a listener and a second normalization makes their prefixes equal; never if both prefixes are stable |
| ReloadFacts.FileIsReadable | backend/internal/routes/store.go:118-191 | a saved file is accepted again if and only if every rule still has a name, its listener and pool and acceptable security lists, and no two rules meet, under one more normalization |
| ReloadFacts.AcceptedAndUnreadable | backend/internal/routes/resources.go:560-616 | rules for "/a" and "/a /" on one listener are well formed together, their routes compete, and a file that holds both is refused |
| StoreSpec.ApplyingKeepsInvariant | backend/internal/routes/store.go:80-94 | confirming a snapshot of the store keeps the invariant, including that a revision fixes the resources |
| StoreSpec.StatusKeepsInvariant | backend/internal/routes/store.go:199-231 | health reports keep the invariant and the saved file's meaning |
| RoutingFacts.CompiledRouteValidity | backend/internal/routes/resources.go:650-704 | an accepted rule compiles exactly when its security lists survive a second normalization |
| RoutingFacts.SpoiledByCompiling | backend/internal/routes/resources.go:650-704 | any acceptable rule that then denies "// /" is still accepted and does not compile |
| NormalForms.RuleCompiles | backend/internal/routes/resources.go:650-704 | a compiled route takes every field from its rule, listener or pool, and every target becomes one upstream in order |
| NormalForms.SecurityIsTaken | backend/internal/routes/resources.go:855-880 | of each security list the trimmed values that are not blank are kept, each once, methods in upper case and prefixes normalized |
| NormalForms.RuleIsTaken | backend/internal/routes/resources.go:560-616 | what is stored of a rule, field by field, with the default where a text is blank |
| HostNames.HostExactly | backend/internal/routes/store.go:363-389 | a host name is valid if and only if, besides a left-most wildcard, it has at most 253 characters, all letters, digits, inner hyphens and single inner dots, with a dot among any 64 in a row and at least one in all |
| Text.NormalizedPrefixStable | backend/internal/routes/resources.go:876-878 | a normalized prefix is unchanged by normalization exactly when it does not end in white space |
| Text.UnstablePrefix | backend/internal/routes/resources.go:876-878 | "/a /" needs two normalizations |
| Text.TrimSpaceMeaning | backend/internal/routes/resources.go:855-880 | trimming keeps the part of a text between its first and last character that is not white space |
| Migration.SplitUpstreams | backend/internal/routes/resources.go:404-462 | accepts exactly upstream lists with one scheme, and yields shared port, shared health path and targets |
| Migration.MigrationKeepsPlace | backend/internal/routes/resources.go:367-483 | the compiled route has the host, exposure, listener, port, protocol, flags, headers, id and last error of the legacy one, its security lists twice normalized, and its prefix exactly if that was stable |
| Migration.MigrationKeepsUpstreams | backend/internal/routes/resources.go:650-704 | upstreams keep order, names, scheme, host and trimmed health path, and their ports exactly if none was 0 |
| Migration.MigrationNames | backend/internal/routes/resources.go:367-483 | the name of a legacy route is lost: rule and compiled route are named after its id, the pool after it with "backends", and the rule refers to the trimmed ids of its parts |
| Migration.ZeroPortBecomesShared | backend/internal/routes/resources.go:404-462 | an upstream with an explicit port 0 is dialled on the shared port |
| Migration.PartsAreMarked | backend/internal/routes/resources.go:367-483 | what splitting a legacy route adds is marked "compatibility", so that deleting the route can prune it |
| Migration.DeleteUndoesAdd | backend/internal/routes/resources.go:353-365 | deleting a legacy route undoes adding it: rules and pools are as before, and the listeners too unless one was reused |
| CaddyRender.Render | backend/internal/caddy/config.go:37-193 | rendering succeeds exactly when the management host is guarded, every enabled route renders, no listeners of different protocols overlap and something listens; then every server holds the entries of its routes in order, redirects last |
| CaddyRender.AddRoute | backend/internal/caddy/config.go:104-168 | one more route succeeds exactly when the routes so far and this one render together; then every server holds the entries, skipped certificates and redirects of all of them in order |
| CaddyRender.EnsureServer | backend/internal/caddy/config.go:75-94 | a server is opened unless one of another protocol overlaps |
| CaddyRender.AddedHolds | backend/internal/caddy/config.go:104-168 | a server list that holds some routes takes one more exactly when all render together, whatever their order |
| CaddyListen.RoutesAreServed | backend/internal/caddy/config.go:104-168 | every enabled route has a server of its protocol at its place which carries all its entries |
| CaddyListen.EntriesAreOfRoutes | backend/internal/caddy/config.go:104-182 | every entry of a server is one of a route served there or the redirect of an HTTPS route to the port it is served on |
| CaddyListen.RedirectsAreServed | backend/internal/caddy/config.go:145-182 | the default HTTP server, if there is one, redirects to every enabled HTTPS route, at the port it is served on |
| CaddyListen.ServersAreWanted | backend/internal/caddy/config.go:75-168 | a server runs exactly at the default listeners and where an enabled route is placed |
| CaddyListen.RendersExactly | backend/internal/caddy/config.go:37-193 | a configuration renders if and only if the management host is guarded by a token, every enabled route can be placed and rendered, nothing of different protocols meets and something listens |
| CaddyListen.SkippedExactly | backend/internal/caddy/config.go:129-137 | a certificate is skipped on a server exactly if the host is served there over HTTPS, is no wildcard and a wildcard subject covers it |
| CaddyListen.ServersStayApart | backend/internal/caddy/config.go:75-94 | servers of different protocols share neither an address nor a port with a host that takes all |
| CaddyListen.ManagementIsServed | backend/internal/caddy/config.go:37-60 | the management host is served over HTTPS from the gateway's own address, and only when the API asks for a token |
| CaddyServe.ServeMeaning | backend/internal/caddy/config.go:60-182 | on every server a request gets the first decision of the sorted routes, and on the default HTTP server otherwise the first matching redirect |
| CaddyServe.MostSpecificDecides | backend/internal/caddy/config.go:60-144 | the first matching route is the most specific, its decision is the answer unless denied paths of an earlier route stray into the request, and it stays silent only if internal and the source is outside its ranges |
| CaddyOrder.StableSortSorts | backend/internal/caddy/config.go:60-72 | the sorted list is ordered, a permutation, and keeps the input order of equal keys |
| CaddyOrder.StableSortIsUnique | backend/internal/caddy/config.go:60-72 | there is only one such list, whatever the sorting algorithm |
| CaddyOrder.FirstIsMostSpecific | backend/internal/caddy/config.go:60-72 | in a sorted list the first route whose host and path match has an exact host if any has, and, when at most one character of white space is trimmed from its prefix, is at least as specific as every other that matches |
| CaddyOrder.SortsByPrefixIsExact | backend/internal/caddy/config.go:60-72 | a prefix sorts after all strictly more specific ones if and only if at most one character of white space is trimmed from it |
| CaddyOrder.SortMisjudges | backend/internal/caddy/config.go:60-72 | the route compiled from a rule for "/a   / /" is sorted before the one for "/a/b" whatever their input order, although both match |
| CaddyRoute.RenderRoute | backend/internal/caddy/config.go:223-285 | a route renders exactly if its pool, upstreams, body limit and internal ranges allow it, and a refusal has its reason; every entry rejects or forwards to all upstreams in order, with TLS exactly if their scheme is https, with the body limit of the rule or else of the policy |
| CaddyRoute.RouteMeaning | backend/internal/caddy/config.go:223-285 | first match over a route's entries equals the decision its policy describes, for every request |
| CaddyRoute.ProxiedRequestsPass | backend/internal/caddy/config.go:223-328 | a proxied request has passed every list: sources, methods, paths, internal ranges, and a credential that is removed before it is forwarded |
| CaddyRoute.RejectedForAReason | backend/internal/caddy/config.go:287-328 | a rejection has the status of its cause: 403 a listed source or a denied path, 405 a denied method, 401 no credential that opens the route, 503 that there is none |
| StoredRoutes.StoredRoutesAreUsable | backend/internal/routes/resources.go:650-704 | every route of a well-formed store has a host name, a listener port from 1 to 65535, a path without stars, upstreams with scheme, host and port, and security lists that can be taken as they are |
| StoredRoutes.UpstreamsCoincide | backend/internal/routes/resources.go:650-704 | two targets of a pool become one upstream of a rule if and only if their addresses agree up to case and one names the port that the other takes from the rule |
| StoredRoutes.StoredRoutesRender | backend/internal/caddy/config.go:223-247 | the renderer refuses such a route if and only if it is internal without configured ranges, or the configured body limit applies to it and is negative |
| StoredRoutes.StoredRoutesAreStarless | backend/internal/caddy/config.go:287-328 | such a route meets what `RouteMeaning` asks for if and only if the configured denied prefixes have no stars |
| CaddyRoute.RenderSecurityEntries | backend/internal/caddy/config.go:287-328 | the rejections in order, or the refusal of a negative body limit |
| CaddyRoute.SecurityEntriesMeaning | backend/internal/caddy/config.go:287-328 | the rejections reject exactly what the policy says, in its order, of the requests addressed to the route, and of the others exactly those that stray into its denied paths |
| CaddyRoute.StraysExactly | backend/internal/caddy/config.go:287-384 | some request strays if and only if security applies and a denied prefix of either list has a rendered common part wider than the route |
| CaddyRoute.EscapesFromUnstable | backend/internal/caddy/config.go:356-408 | a rooted denied prefix does so exactly when rendering changes the route's prefix once more and it lies at or above that |
| CaddyRoute.StrayedPrefix | backend/internal/routes/resources.go:650-704 | a rule for "/a / / /" is accepted, and the route compiled from it rejects "/a/b" for a denied "/" although that lies outside it |
| CaddyRoute.RouteMatchMeaning | backend/internal/caddy/config.go:330-342 | a route's matcher accepts exactly the requests for its host, path and listener |
| CaddyRoute.RestrictPaths | backend/internal/caddy/config.go:356-366 | the patterns of every non-empty intersection, without repeats; `RestrictedMeaning` says what they accept |
| CaddyRoute.RestrictedMeaning | backend/internal/caddy/config.go:356-366 | the patterns accept exactly the paths under a rendered common part of the route's prefix and a denied one |
| CaddyRoute.ExactlyDenied | backend/internal/caddy/config.go:356-384 | these are the paths under both prefixes whenever rendering leaves the common part alone |
| CaddyMatch.IntersectMeaning | backend/internal/caddy/config.go:368-384 | the common prefix lies under both and nothing else does |
| CaddyMatch.IntersectionIsExact | backend/internal/caddy/config.go:368-408 | the rendered intersection accepts exactly the paths under both prefixes if and only if a further normalization leaves it alone |
| CaddyMatch.MatchersAcceptPrefix | backend/internal/caddy/config.go:402-408 | the rendered patterns accept exactly the paths under a prefix, by whole segments |
| CaddyRoute.AppendEachUnique | backend/internal/caddy/config.go:386-400 | the first list followed by the values it lacks, each once and in order; `AppendedMembers` says which values those are |
| CaddyRoute.AppendedMembers | backend/internal/caddy/config.go:386-400 | its members are those of both lists |
| CaddyRoute.DialUpstreams | backend/internal/caddy/config.go:232-247 | every upstream is dialled in order, with TLS exactly if its scheme in lower case is https; a failure names an upstream that cannot be dialled or two of different schemes |
| CaddyRoute.ProtectedHeaderPolicies | backend/internal/caddy/config.go:521-542 | the credentials in order, each token under each allowed header and then the additional header; `PoliciesMeaning` says which requests they open |
| CaddyRoute.PoliciesMeaning | backend/internal/caddy/config.go:521-542 | a header opens a protected route exactly if it carries a token the configuration allows there, or is the additional header |
| CaddyRoute.CredentialsAreRemoved | backend/internal/caddy/config.go:502-514 | every policy header is among the names removed before forwarding |
| CaddyRoute.UniqueHeaderNames | backend/internal/caddy/config.go:502-514 | names of policies, pairwise different up to case, one for every policy header, in order of first use |
| CaddyRoute.CollectTokens | backend/internal/caddy/config.go:544-555 | the non-blank tokens, the single one first |
| CaddyHeaders.SetHeaders | backend/internal/caddy/config.go:410-452 | for every order of visiting, the headers that are set: usable names trimmed, the host in one spelling, over a default |
| CaddyHeaders.SetMeaning | backend/internal/caddy/config.go:410-452 | which names are set, and that each has the value of a header of that name or the default |
| CaddyHeaders.RemovedStaysRemoved | backend/internal/caddy/config.go:410-452 | no route header brings back a credential header that is removed |
| CaddyHeaders.OrderIsIrrelevant | backend/internal/caddy/config.go:410-452 | the order of visiting does not matter if and only if headers of one trimmed name agree |
| Certificates.CoversIsPresents | backend/internal/certificate/policy.go:159-170 | a subject covers a host as section 6.3 of RFC 9525 describes: equal, or a wildcard for exactly one left-most label |
| Certificates.WildcardCertificateCoversHost | backend/internal/caddy/config.go:204-221 | true exactly when a wildcard subject leaves one non-empty label of a host that is no wildcard itself |
| Certificates.SkippingAgreesWithCovers | backend/internal/caddy/config.go:204-221 | the renderer's test agrees with the policy's notion of coverage |
| Certificates.PruneSubjects | backend/internal/certificate/policy.go:140-153 | keeps, in order and in normal form, the names that no differently named subject covers and the explicit ones |
| Certificates.PruningKeepsCoverage | backend/internal/certificate/policy.go:140-153 | pruning loses no coverage and keeps, besides explicit subjects, none that another kept one covers |
| Certificates.Classify | backend/internal/certificate/policy.go:172-195 | usage, sorted covering subjects without repeats and the archive decision of every certificate |
| Certificates.ArchiveDecision | backend/internal/certificate/policy.go:172-195 | a certificate may be archived exactly if that was verified, nothing warns, it has subjects and none of them covers a managed one; it is in use or covered exactly as covering says |
| Certificates.ArchivingKeepsCoverage | backend/internal/certificate/policy.go:172-195 | every served name that an archivable certificate covers is covered by a managed subject that its status lists, also when pruning dropped the name itself |
| Certificates.ReplacedWhereCovered | backend/internal/certificate/policy.go:172-195 | a host covered by a certificate not in use and by a managed subject is covered by a subject listed as replacing it |
| CertificateCoverage.ArchivingKeepsRoutes | backend/internal/certificate/policy.go:172-195 | no TLS route of a rendered configuration whose host the policy covers, itself or through another route, loses its coverage to archiving |
| CertificatePolicy.ParsePolicy | backend/internal/certificate/policy.go:23-157 | which decoded configurations are accepted, which subjects they manage, sorted and without repeats, and which endpoints they list |
| CertificatePolicy.AcceptedExactly | backend/internal/certificate/policy.go:23-102 | which configurations are accepted: storage as expected, no dynamic policy, static loaders only, and every name and server acceptable |
| CertificatePolicy.HostsExactly | backend/internal/certificate/policy.go:63-102 | a host is taken from the servers exactly if one that manages certificates names it and skips it in neither list |
| CertificatePolicy.ManagedExactly | backend/internal/certificate/policy.go:138-157 | a subject is managed exactly if it is loaded or named in normal form, and loaded itself or covered by no other |
| CertificatePolicy.EndpointsExactly | backend/internal/certificate/policy.go:104-136 | an endpoint is listed exactly if a server with TLS is probed there and names its host |
| CertificatePolicy.EndpointIsProbed | backend/internal/certificate/policy.go:104-136 | a listener is probed at its port, on 127.0.0.1 or ::1 when it takes all hosts, else on its own host, which must be a loopback address |
| CertificateCoverage.EndpointsAreTlsRoutes | backend/internal/certificate/policy.go:104-136 | the endpoints of a rendered configuration are exactly the loopback addresses and hosts of its TLS routes |
| CertificateCoverage.ManagedCoverage | backend/internal/caddy/config.go:129-137 | after rendering and parsing, a host is covered exactly by a subject handed to the loader or by a TLS route whose certificate is not skipped |
| CertificateCoverage.CoverageSurvives | backend/internal/caddy/config.go:557-582 | every TLS route host stays covered if and only if the issuer takes the subjects or an unskipped TLS route covers it |
| CertificateCoverage.SkippedAndUncovered | backend/internal/caddy/config.go:129-137 | a route for "a.b" under a subject "*.b" is skipped and, with the default issuer, covered by nothing |
| LogRing.Store.Add | backend/internal/logs/store.go:53-83 | the ring holds the longest suffix of all accepted entries that fits both limits, laid out from its start, with the stored bytes their sum and all other slots empty; the entry is taken trimmed, its level in lower case or "info", its time or now |
| LogRing.Store.ReadLast | backend/internal/logs/store.go:85-100 | the newest entries in reverse, as many as asked for within the limits |
| LogRing.LongestSuffix | backend/internal/logs/store.go:53-83 | what is retained is a suffix within both limits, and any longer suffix has too many entries or too many bytes |
| LogRing.RetainedIncrementally | backend/internal/logs/store.go:53-83 | keeping the retained part and adding one entry equals starting from the whole history |
| LineWriter.Writer.Write | backend/internal/logs/store.go:115-143 | after any sequence of writes the lines handed on are those of the concatenated stream, cut at 64 KiB, and the pending state is a function of its unterminated tail |
| AuditTail.ReadLastFrom | backend/internal/audit/audit.go:86-139 | the backward block scan equals the walk over all lines, for every file, limit and block size, unless a block cannot be read; its events are those of the last lines, newest first, none of them over 1 MiB, as many as asked for or all |
| AuditTail.ReadLast | backend/internal/audit/audit.go:63-84 | the limit is clamped, a missing file or disabled log is empty, and a file that cannot be opened is an error |
| AuditTail.WalkExaminesSuffix | backend/internal/audit/audit.go:86-139 | the walk examines a suffix of the lines, fails exactly at the first overlong one there, and returns its parsed events newest first |
| AzureManager.ReconcileDns | backend/internal/azure/manager.go:132-201 | whatever others do, every write puts a wanted record in its wanted form or deletes an unwanted one, and concerns a record owned at that moment or an absent one; a successful run counts the wanted records, the hosts without a zone and, left alone, the owned unwanted records that were listed; left alone it leaves exactly the wanted records, touches no others, fails only over a record it may not write, and writes nothing at its target |
| AzureManager.RunTwice | backend/internal/azure/manager.go:132-258 | a second run after a successful one writes and deletes nothing |
| AzureManager.Upsert | backend/internal/azure/manager.go:160-191 | one record is created, updated or left, never against its owner or without a version to name |
| AzureManager.UpsertAll | backend/internal/azure/manager.go:150-191 | every host's record once, each in its zone |
| AzureManager.CleanupZone | backend/internal/azure/manager.go:224-258 | exactly the owned, unwanted records that the listing names are removed |
| AzureManager.KeyOf | backend/internal/azure/manager.go:150-156 | a host has exactly one record, in the zone chosen for it, and none exactly if it lies in no zone |
| AzureDns.SelectZone | backend/internal/azure/manager.go:287-298 | the first of the zones with the longest name that the host lies in |
| AzureDns.ChosenIsLongest | backend/internal/azure/manager.go:260-298 | no other zone of the host has a name as long, for names that a second normalization leaves alone |
| AzureDns.RecordsAreDistinct | backend/internal/azure/manager.go:481-495 | distinct hosts never share a record of a zone |
| AzureDns.ConfiguredZones | backend/internal/azure/manager.go:260-285 | the zones with a name and a resource group, completed and normalized, the first of each name |
| AzureDns.ConfiguredAreOk | backend/internal/azure/manager.go:260-285 | configured zones have distinct, non-empty names |
| AzureDns.ConfiguredNames | backend/internal/azure/manager.go:260-285 | a name is configured exactly if a listed zone has it, or it is that of the single zone, and there is a resource group for it |
| AzureDns.ConfiguredFrom | backend/internal/azure/manager.go:260-285 | a configured zone has the group of the first usable candidate of its name, or else the common one |
| AzureDns.Dns.Put | backend/internal/azure/manager.go:181-187 | a conditional write happens only against the version it names or an absent record, even when others write between the calls |
| AzureDns.Dns.Delete | backend/internal/azure/manager.go:251-253 | a conditional delete removes only the version it names |

## Left out

- HTTP handlers, JSON, ZIP and YAML encoding, environment loading and the user interface; only their effects on the state appear.
- Clocks, generated ids and the network library's parsers are parameters: `now`, fresh ids, `Net`, `Ranges`, `Library`, `Checks`. Clashing ids take the existing error paths.
- Text is ASCII; Unicode case folding and white space outside ASCII are not part of this model.
- Revisions, generations and ETags are unbounded numbers; the counters of the original are 64 bits wide.
- URLs and host:port texts are structured or left to the library; an endpoint is compared by its parts where the original compares rendered text.
- A result is published by its generation; the figures and error texts in it are not modelled, nor is the choice of public routes whose hosts get DNS records.
- A file write succeeds or changes nothing, and there is no crash between two files.
- The state machine lets edits land at any moment, also where the API's mutation lock would delay them: it has more runs than the program.
- Normalization of settings and certificate sections when they are imported or saved; the protocol treats sections as values and checks only which of them move.
- Reconciler.Control.Sync: runs one request without interruption; interleavings are covered by the state machine that it refines.
- CaddyMatch.MatchersAcceptPrefix: Caddy's path cleaning, case folding and stars inside a path are not part of the matcher model; prefixes have no star, as validation demands.
- CaddyRoute.RenderRoute: log fields and response bodies are left out, and the headers a route sets are modelled apart (`CaddyHeaders`), because the order that fixes them is not part of a route.
- CertificateCoverage.CoverageSurvives: assumes names that a second normalization leaves alone, as valid DNS names are.
- AuditTail.ReadLastFrom: says that a failed read ends in an error, not how far the scan had come.
- AzureManager.ReconcileDns: the warnings about managed records without an owner, which are kept, are not counted; a page of a listing shows a record once; record names are compared as texts, and listings give names without slashes.
- Network security group rules, permission checks, health probes, Docker discovery, the Caddy process and certificate archive moves: they carry no conditional-write or transactional promise.
