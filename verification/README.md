# A verified model of the argocd-mcp write path

argocd-mcp lets an agent drive Argo CD through the Kubernetes API: it reads an Application, decides, and sends
one JSON merge patch (RFC 7396, section 2). The patches carry no resourceVersion, and the application controller
and other clients write the same objects. This project models that write path and what surrounds it, and proves
what its tools promise for every object, every request and every run.

`dafny verify dfyconfig.toml` checks everything. The modules, from the ground up:

| file | content |
|---|---|
| JsonValues.dfy | JSON trees and the merge: frames, idempotence, when two patches commute, when a merge is a replacement |
| Sorting.dfy | stable sorting as a function, why any stable sort gives the same result, and the loop that computes it |
| Applications.dfy | the projection of an Application object; lookup in its sorted history |
| Operations.dfy | the sync patch built key by key, a decoder for it, and the checks made before it |
| Patches.dfy | what the three patches do to an object and to its projection, alone and interleaved |
| WriteGuard.dfy | the admission policy: an evaluator for its CEL rules, what they mean, what they admit |
| Instances.dfy, Calls.dfy | a write call as two halves, the read that decides and the patch that lands later |
| Protocol.dfy, Runs.dfy | runs of any number of calls interleaved with each other and with the writes of others |
| Polling.dfy | what the loops of app_wait and app_refresh come to on an arbitrary sequence of observations |
| Waiting.dfy | what those loops see of the store while others write, and when the refresh wait is too early |
| Servers.dfy | the counters, the API servers, the four handlers and app_wait as classes, each handler tied to the model of a call |
| Probe.dfy | the dry-run probe of the write guard and the gauge it feeds |
| Configs.dfy, Registries.dfy | from a configuration to credentials and a registry of instances |
| Listing.dfy | apps_list: gathering, sorting, counting |
| Witnesses.dfy | one concrete input for each property that does not hold |

How the pieces meet: each handler in Servers.dfy is proved to do what `Calls.RunCall` says. `Runs.CallsAreRun` gives
the events of any sequence of handler calls, with writes of others between them and between the halves of each, and
shows that its effect is the run of these events; `Runs.TurnsAlone`, `Runs.TurnsSequential` and `Runs.TurnsGuarded`
carry over what the theorems about runs assume. What the tools promise is also stated in the literal paths and strings
of the objects and of the request, apart from the functions the model computes with: where a call goes
(`Calls.AuthoriseExact`), what it asks for (`Calls.SyncAsks`, `Calls.RollbackAsks`), how it ends (`Calls.BusyOutcome`,
`Calls.RollbackOutcome`), what the waits report (`Waiting.AppWaitExact`, `Waiting.RefreshWaitExact`), what a probe learns
(`Probe.CheckWriteGuard`), and what a configuration becomes (`Registries.BuildValidated`). The list of patches sent, the version counts, the finished calls and
the log of findings are ghost state or parameters of the model; they are not in the program.

## What turned out not to hold

Each point has a lemma that says exactly when the code does what is wanted, and a concrete input for which it does not.
The objects of these inputs have the names and members that the CRD requires (test/e2e/testdata/crds/applications.yaml
lines 2002-2004, 2409 and 2743-2745), and no input depends on how times are parsed.

- The guard against a second operation holds between calls that do not overlap. Two calls, each a sync or a rollback,
  that both read before either has patched are both accepted: always without the write guard, and with it on a
  schema-valid object when neither names a source (`Runs.RaceAcceptsBoth`, `Witnesses.RaceHappens`). With no outside
  writer this is the only way: the later one read before the earlier one
  landed (`Protocol.LaterRequestReadEarlier`). Sequential calls are safe: somebody else must have cleared the first
  operation before a second is accepted (`Runs.SomebodyCleared`, `Runs.SequentialAcceptsOnce`).
- A request that lands on an operation queued in between is merged into it. The stored operation is the requested
  one exactly when the request covers the queued one member by member (`Patches.QueuedOperationReplacedIff`). Read
  back field by field, revision and initiator are those of the request, flags add up, and lists, retry limit and
  reason stay where the request gives none (`Patches.QueuedOperationOverlaid`); this is what two calls that race
  leave (`Runs.RaceMixes`). So a `prune` that was already queued survives a request without it
  (`Patches.QueuedPruneSurvives`, `Witnesses.OperationsMix`).
- app_wait looks at the phase of the last operation before it looks for a queued one (internal/mcpserver/tools_read.go
  line 269), and queueing an operation leaves that phase in place. Right after an accepted sync on an application
  whose last operation has failed, its first read therefore reports that failure while the new operation is only
  queued, and it does so exactly then (`Waiting.OldFailureReportedIff`, `Witnesses.OldFailureReported`). Success is
  not reported too early: on an application with an operation queued it is what somebody else wrote
  (`Waiting.SuccessIsWritten`).
- With the write guard in force, a rollback is denied unless its history entry names no source
  (`Calls.UndisturbedRollbackAdmittedIff`, `Witnesses.RollbackIsDenied`). deploy/rbac/README.md line 9 grants the sync
  tier for app_rollback, and docs/rbac.md line 26 ships the write guard with that tier, while
  test/e2e/e2e_write_test.go lines 76-90 expect a rollback to carry the source of its entry.
- The refusal of a sync names app_terminate_operation as the remedy (internal/argocd/operation.go line 154,
  docs/architecture.md lines 120-122), also when the operation is only queued. app_terminate_operation refuses then
  too (`Calls.TerminateExcludesRequests`, `Witnesses.NothingToTerminate`).
- The wait of app_refresh can report a refresh as completed that the controller has not answered, its annotation
  having been in place ever since the patch, through every write. The baseline is the reconcile time read before the
  patch, so this happens exactly when some read the wait gets to, the annotation in place all along, shows a later
  time, whether that was written between the baseline and the patch or by a reconcile already under way that lands
  after it; or when the annotations of the object cannot be read (`Waiting.RefreshTooEarlyIff`, `Waiting.RefreshCallTooEarlyIff`,
  `Witnesses.InFlightReconcileCompletes`). `Polling.RefreshDoneBeforeControllerIff` is the case of a read made
  before anybody else has written.
- That wait tests one second ahead and sleeps two. With exact sleeps its last read starts after the deadline exactly
  when less than two seconds were left as it decided to go on (`Polling.RefreshReadsLateIff`); if its reads take no
  time and decide nothing, exactly when the timeout is an odd number of seconds (`Polling.RefreshBoundIsTight`,
  `Witnesses.LateRead`). It is never more than a second late (`Polling.RefreshReadsAlmostInTime`).
- The gauge is published per instance, but a probe speaks for one application. Roles are bound per namespace and can
  name the objects they cover (docs/rbac.md lines 173-186), so a refusal on the application probed says nothing about
  another that may be patched: "active" holds for the whole instance exactly when the grants expose no other
  application (`Probe.ActiveHoldsIff`, `Witnesses.ActiveButExposed`), as they do when they make no difference between
  applications (`Probe.UniformGrantsSuffice`).
- The probe reports a guarded application as unprotected exactly when it is in the probe's own project and overrides
  no source (`Probe.ConclusionExact`, `Witnesses.GuardedButMissing`).
- The `ok` counter is below the number of patches the API server accepted by exactly the number of answers that
  were lost on the way back (`Protocol.LedgerBalances`, `Witnesses.AnswerIsLost`).

## Model

| member | source | states |
|---|---|---|
| JsonValues.MergeMember | internal/argocd/client.go:22-25 | one level of RFC 7396 section 2: a patch object decides each member it names and leaves every other as it was |
| JsonValues.MergeFrame | internal/argocd/client.go:22-25 | a path the patch does not touch has the same value, or the same absence, afterwards |
| JsonValues.MergeWrites | internal/argocd/client.go:22-25 | a leaf of the patch is at its path afterwards, and a null removes what was there |
| JsonValues.MergeIdempotent | internal/argocd/client.go:22-25 | sending a patch twice is sending it once, on every target |
| JsonValues.MergeCommutesIff | internal/argocd/client.go:22-25 | two patches commute on a target if and only if they agree, or both descend, wherever both name a member; the target plays no part |
| JsonValues.MergeIntoNothing | internal/argocd/client.go:22-25 | merged where there is no object, a patch leaves itself with its null members dropped at every depth |
| JsonValues.DropNullsFixpoint | internal/argocd/client.go:22-25 | dropping nulls leaves none, and changes a tree if and only if it has one |
| JsonValues.MergeReplacesIff | internal/argocd/client.go:22-25 | a merge amounts to a replacement if and only if the patch covers every member of the target |
| Sorting.StableSortUnique | internal/argocd/types.go:265-267 | sortedness and the order within each class determine the result, whatever algorithm sorted |
| Sorting.StableSortExact | internal/argocd/types.go:265-267 | a sequence is a stable sort of another if and only if it is the one the function gives |
| Sorting.SortStable | internal/argocd/types.go:265-267 | the in-place insertion loop leaves the stable sort of what the array held |
| Sorting.StringLessOrder | internal/mcpserver/format.go:50-55 | comparing strings is a strict weak order in which only equal strings tie |
| Sorting.StringLessIff | internal/mcpserver/format.go:50-55 | a string is less exactly when it is a proper prefix of the other or smaller at their first difference |
| Applications.AppFromUnstructured | internal/argocd/types.go:171-284 | the field-by-field construction, with its loops and its in-place sort, computes the projection |
| Applications.ProjectionReadsSpec | internal/argocd/types.go:171-185 | names, project and destination are the values at their own paths, absent or of another shape reading as empty |
| Applications.ProjectionReadsPolicy | internal/argocd/types.go:187-202 | the sources are the single one, then the map-shaped ones listed, in order; automated sync and its two flags are read at their paths |
| Applications.ProjectionReadsMaps | internal/argocd/types.go:172-179 | labels and the refresh annotation are read at their paths |
| Applications.ProjectionReadsStatus | internal/argocd/types.go:204-210 | so are sync, health, the reconcile time and the queued operation |
| Applications.ProjectionReadsOperation | internal/argocd/types.go:212-221 | and every field of the operation state, which is there exactly when the object has one |
| Applications.ProjectionReadsLists | internal/argocd/types.go:223-281 | resources, conditions and history are what is read from the map-shaped elements at their paths |
| Applications.CollectExact | internal/argocd/types.go:223-281 | each map-shaped element lands right behind what was read before it, and nothing else is read |
| Applications.SourceReads | internal/argocd/types.go:286-294 | every field of a source is the string at its own key |
| Applications.EntryReads | internal/argocd/types.go:245-263 | every field of a history entry is the value at its own key, source and sources included |
| Applications.ResourceReads | internal/argocd/types.go:225-240 | every field of a resource is the value at its own path |
| Applications.AccessorsExact | internal/argocd/types.go:299-324 | what a value of each shape reads as: a wrong shape as nothing, a float cut off towards zero, a list or map with one wrong element as absent |
| Applications.FirstSourceReads | internal/argocd/types.go:187-196 | the first source, whose target revision a sync defaults to, is the single one or else the first map-shaped one listed |
| Applications.LookupIgnoresSorting | internal/argocd/types.go:245-268 | finding an id in the sorted history finds the entry that the unsorted one has first |
| Applications.HistoryOrdered | internal/argocd/types.go:245-268 | the projected history is a permutation of the map-shaped entries, ascending by id, with every lookup unchanged |
| Applications.LookupReadsRawList | internal/argocd/types.go:245-268 | lookup in the projection gives the first map-shaped entry of status.history with that id, and nothing if there is none |
| Applications.TailKeepsNewest | internal/mcpserver/format.go:215-219 | the history table drops only entries whose id is at most that of every entry shown, and shows as many as the limit allows |
| Operations.SyncPatch | internal/argocd/operation.go:43-121 | succeeds if and only if the request is acceptable, builds its operation, and otherwise reports the first violation in the order of the checks |
| Operations.FirstFailingCheck | internal/argocd/operation.go:44-59 | with the checks numbered in the order of the source, a request is refused if and only if one fails, and the error is the first that does |
| Operations.SyncMembers | internal/argocd/operation.go:61-100 | every member of sync is present exactly when the request sets it, with the value written under it |
| Operations.SyncPaths | internal/argocd/operation.go:61-100 | path by path: revision, prune, dryRun, syncOptions, resources, source and sources of the operation built are those of the request, and absent where it has none |
| Operations.StrategyPaths | internal/argocd/operation.go:84-94 | the apply or the hook strategy is there if and only if asked for, and force only under apply |
| Operations.RestPaths | internal/argocd/operation.go:102-120 | initiator, reason and retry limit are at their paths, each present as the request has it |
| Operations.ResourcePaths | internal/argocd/operation.go:70-83 | a selected resource is written with its kind and name, and its group and namespace when it has them |
| Operations.SyncRoundTrip | internal/argocd/operation.go:43-121 | a decoder recovers every accepted request: resource order kept, a retry limit at or below 0 becoming 0, an empty initiator becoming argocd-mcp |
| Operations.SyncPatchInjective | internal/argocd/operation.go:43-121 | two accepted requests build the same patch if and only if they normalise to the same request |
| Operations.FixedParts | internal/argocd/operation.go:102-120 | the patch writes operation alone; the backoff and the name of the reason are fixed |
| Operations.FindHistoryEntry | internal/argocd/operation.go:162-177 | succeeds if and only if the id exists, gives the first entry with it, and otherwise lists the ids there are |
| Operations.DefaultRevision | internal/argocd/operation.go:181-186 | is the target revision of the first source when that is set and HEAD otherwise, hence never empty, so app_sync cannot fail on a revision |
| Patches.PatchFrame | internal/argocd/operation.go:43-140 | each patch leaves every path outside operation, metadata or status respectively as it was |
| Patches.PatchPaths | internal/argocd/operation.go:123-140 | the refresh patch writes "hard" or "normal" to the annotation argocd.argoproj.io/refresh and nothing else, the terminate patch "Terminating" to status.operationState.phase and nothing else |
| Patches.KindsCommute | internal/argocd/operation.go:43-140 | patches of different kinds commute on every object |
| Patches.RefreshOverwrites | internal/argocd/operation.go:125-133 | of two refreshes only the later one counts |
| Patches.InterleavingSettles | internal/argocd/operation.go:43-140 | any interleaving of patches amounts to its operations in order, then its last refresh, then one terminate if there was any |
| Patches.SameSummarySameObject | internal/argocd/operation.go:43-140 | two sequences that agree on those three things leave the same object |
| Patches.OperationProjects | internal/argocd/types.go:204 | after a sync or rollback patch the projection differs only in a pending operation |
| Patches.RefreshProjects | internal/argocd/types.go:177-179 | after a refresh patch it differs only in the requested refresh, visible exactly when no other annotation makes the map unreadable |
| Patches.TerminateProjects | internal/argocd/types.go:212-221 | after a terminate patch it differs only in the phase, which is Terminating |
| Patches.OperationDrops | internal/argocd/operation.go:61-120 | of a built operation only nulls inside a source override are lost in a merge |
| Patches.ControllerReadsRequest | internal/argocd/operation.go:43-121 | merged into an idle application the operation is stored without its nulls and decodes to the normalised request |
| Patches.QueuedOperationReplacedIff | internal/argocd/operation.go:142-158 | merged over a queued operation it is stored as built if and only if it covers what is queued |
| Patches.QueuedOperationOverlaid | internal/argocd/operation.go:43-121 | over any queued operation, what is stored decodes to: revision and initiator of the request; prune, dry run and force of either; lists, retry limit and reason of the request unless it gives none; apply if either strategy is; a source merged into the queued one |
| Patches.QueuedPruneSurvives | internal/argocd/operation.go:61-64 | in particular a queued prune survives every accepted request that leaves it off |
| WriteGuard.SpecRuleExact | internal/argocd/guard.go:39 | the spec rule errors if and only if a spec is missing, and otherwise says whether the specs are equal |
| WriteGuard.BareSourceRuleExact | internal/argocd/guard.go:41-46 | without its nested has() the source rule would error on every object with no sync in an operation |
| WriteGuard.SourceRuleExact | internal/argocd/guard.go:41-46 | as written it errors only on an operation or a sync that is not an object, and otherwise says whether a source is overridden |
| WriteGuard.HistoryRuleExact | internal/argocd/guard.go:48-51 | the history rule errors if and only if a status is not an object, and otherwise compares the histories, absent counting as empty |
| WriteGuard.GuardTotal | internal/argocd/guard.go:37-76 | on schema-valid objects no rule errors, and the policy is the conjunction of the three plain predicates |
| WriteGuard.AdmittedIsHarmless | internal/argocd/guard.go:37-76 | on any two values whatever, an admitted update changes neither spec nor history and overrides no source |
| WriteGuard.CelEqualIff | internal/argocd/guard.go:37-51 | two values are equal to CEL if and only if they are the same once every number is read as a real |
| WriteGuard.AdmitsExact | internal/argocd/guard.go:37-76 | an update is admitted if and only if the values at spec and at status.history are the same up to the shape of numbers and operation.sync has neither a source nor sources |
| WriteGuard.AdmittedChangesNothing | internal/argocd/guard.go:39-51 | on values without floats an admitted update leaves spec and history exactly as they were |
| WriteGuard.ToolPatchKeepsSpecAndHistory | internal/argocd/guard.go:39-51 | no patch of a tool changes the spec or the history, on any object |
| WriteGuard.AdmittedIff | internal/argocd/guard.go:39-51 | a tool patch is admitted if and only if it leaves no source override behind |
| WriteGuard.RefreshTerminateAdmittedIff | internal/argocd/guard.go:39-51 | a refresh or terminate is admitted if and only if the live operation overrides no source |
| WriteGuard.RequestAdmittedIff | internal/argocd/operation.go:95-100 | a sync or rollback is admitted if and only if neither the live operation nor the request names a source |
| WriteGuard.ProbeAdmittedIff | internal/argocd/guard.go:78-88 | the guard admits the probe if and only if the application is in the probe's project and overrides no source |
| Calls.SyncSendsIff | internal/mcpserver/tools_write.go:67-103 | a sync is sent if and only if the application is idle, the strategy valid, force only with apply and every resource complete; never failing on the revision |
| Calls.RollbackSendsIff | internal/mcpserver/tools_write.go:198-235 | a rollback is sent if and only if the application is idle, automated sync is off or forced, the id exists and its entry has a revision |
| Calls.SyncAsks | internal/mcpserver/tools_write.go:77-97 | what app_sync sends is read back as what its caller asked for: revision or the first source's or HEAD, prune, dryRun, options, resources, strategy, force, retry limit, initiator and reason, and no source |
| Calls.RollbackAsks | internal/mcpserver/tools_write.go:205-230 | what app_rollback sends is read back as the revision, source and sources of the first map-shaped history entry with the id, with the flags, initiator and reason of the call |
| Calls.DecimalReads | internal/mcpserver/tools_write.go:226 | the id written into the reason reads back as the id |
| Calls.BusyOutcome | internal/argocd/operation.go:145-158 | a sync or rollback is refused as a conflict if and only if the phase in the object is Running or Terminating or an operation is queued, a running one being named first |
| Calls.RollbackOutcome | internal/mcpserver/tools_write.go:198-235 | on an idle object, in this order: no such entry, automated sync without force, no revision in the entry, else sent |
| Calls.OtherOutcomes | internal/mcpserver/tools_write.go:129-260 | a terminate is sent if and only if the phase in the object is Running or Terminating, a refresh always and as hard as asked |
| Calls.AuthoriseExact | internal/mcpserver/tools_write.go:35-52 | a call gets to the application of its name in the namespace it gives, or else the instance's; unknown instance, read-only server, read-only instance and missing name are refused in this order |
| Calls.ReadStops | internal/mcpserver/tools_write.go:35-52 | a call that is not let through or whose read fails ends with that reason and counts no operation |
| Calls.LabelExact | internal/metrics/metrics.go:91-97 | the label has the instance or a dash, the tool, and ok, conflict or error by what the caller was told |
| Calls.TerminateExcludesRequests | internal/mcpserver/tools_write.go:241-260 | a terminate is sent if and only if an operation is running or terminating; no state lets it and a sync or rollback through, and a queued-only operation lets neither |
| Calls.SentIsWellShaped | internal/mcpserver/tools_write.go:67-260 | what is sent has the shape the guard relies on, a request coming from an idle application and a terminate from a running one |
| Calls.UndisturbedSyncAdmitted | internal/mcpserver/tools_write.go:67-105 | with the guard in force and no write in between every sync is admitted |
| Calls.UndisturbedRollbackAdmittedIff | internal/mcpserver/tools_write.go:198-235 | a rollback is admitted if and only if its history entry has neither a source nor sources |
| Calls.ReadOnlyRefusalIff | internal/mcpserver/params.go:52-62 | writes are refused if and only if the instance is known and it or the server is read-only, the global reason first |
| Protocol.BeginEffect | internal/mcpserver/tools_write.go:35-52 | the reading half changes no object; it records one refusal under the instance, kind and reply of the call, none, or waits with a decision made on the very object the call names |
| Protocol.DeliverEffect | internal/mcpserver/tools_write.go:101-105 | the sending half logs one patch and one outcome, and replaces at most the one object, whatever it holds by then |
| Protocol.StepKeepsInv | internal/mcpserver/tools_write.go:35-260 | every event, a read, a patch or a write by others, keeps the invariant that ties pending calls, the log and the counters to the store |
| Protocol.RunSent | internal/mcpserver/tools_write.go:35-260 | every patch of every run was decided by an allowed call from an object it read, unchanged since if no write came between |
| Protocol.ReadOnlySafety | internal/mcpserver/params.go:41-62 | in every run no patch is sent when the server or the instance is read-only, and each goes to the instance its call resolves to, the namespace it gives or else that instance's, and its name |
| Protocol.CountsAreFinished | internal/metrics/metrics.go:91-97 | in every run the operation counters are the labels of the finished calls past prepareWrite, one each: its instance, its kind, and what it told its caller |
| Protocol.LedgerBalances | internal/metrics/metrics.go:91-97 | moreover all other such calls are in flight, and ok plus answers lost is what the API server accepted, per instance |
| Protocol.ReadBlocks | internal/mcpserver/params.go:41-62 | a call is refused as read-only if and only if it may not write, and then, and only then, one label of its own instance and reason is counted |
| Protocol.BlockedBalances | internal/metrics/metrics.go:86-89 | in every run the writes-blocked counters are the labels of the calls refused as read-only, one each: the instance the call resolves to and the reason that comes first; every one of those calls may not write |
| Protocol.UndisturbedRequestExact | internal/mcpserver/tools_write.go:67-105 | in every run an accepted request with no write since its read found the application idle, is stored as built without nulls, leaves every other path alone, and repeats without effect |
| Protocol.RunKeepsQueued | internal/argocd/operation.go:145-158 | with no outside writer an accepted operation stays queued whatever this server does next |
| Protocol.LaterRequestReadEarlier | internal/mcpserver/tools_write.go:67-105 | with no outside writer, of two accepted requests on one application the later was decided on a read before the earlier landed |
| Protocol.AtMostOneUndisturbed | internal/mcpserver/tools_write.go:67-105 | hence at most one accepted request per application met the object it was decided on |
| Runs.SomebodyCleared | internal/argocd/operation.go:145-158 | for handlers called one after the other, whoever else writes: between two accepted requests on one application somebody else has left it without an operation |
| Runs.SequentialAcceptsOnce | internal/argocd/operation.go:145-158 | for handlers called one after the other with no outside writer at most one sync or rollback is accepted per application, whatever comes between |
| Runs.AtMostOnePatch | internal/mcpserver/tools_write.go:35-260 | a call sends at most one patch, to the object it names, and it is the one it decided on |
| Runs.QueuedRefuses | internal/argocd/operation.go:153-156 | while an operation is queued, by anyone, each sync or rollback that passes prepareWrite is refused, recorded as a conflict, and sends nothing |
| Runs.UndisturbedSyncStored | internal/mcpserver/tools_write.go:67-105 | in every run the operation stored by an accepted sync with no write since its read is read back as what its caller asked for |
| Runs.UndisturbedRollbackStored | internal/mcpserver/tools_write.go:198-235 | and that of a rollback is the one built from the history entry, but for nulls |
| Runs.ConfiguredReadOnlySafety | internal/instances/instance.go:42-67 | from the configuration to the patches: in every run of a server built from validated instances no patch goes to one configured read-only, and each goes to a configured instance, in the namespace given or configured |
| Runs.CallIsRun | internal/mcpserver/tools_write.go:35-260 | what one handler does, writes of others included, is a stretch of a run |
| Runs.CallsAreRun | internal/mcpserver/tools_write.go:35-260 | what any sequence of handler calls does, writes of others included, is the run of the events that TurnEvents lists |
| Runs.TurnsAlone | internal/mcpserver/tools_write.go:35-260 | those events hold no write of others when nobody else writes |
| Runs.TurnsSequential | internal/mcpserver/tools_write.go:35-260 | in those events a call reads only when none is in flight |
| Runs.RaceAcceptsBoth | internal/mcpserver/tools_write.go:67-235 | two syncs or rollbacks, in any mix, that both read first are both accepted and both merged: without the guard always, under it on a schema-valid object when neither names a source |
| Runs.RaceMixes | internal/argocd/operation.go:43-121 | what they leave decodes to the later request laid over the earlier one, field by field |
| Runs.RunIsPatches | internal/argocd/operation.go:43-140 | with no outside writer every object is its start value with the patches accepted for it applied in order |
| Runs.RunsAgree | internal/argocd/operation.go:43-140 | runs whose accepted patches agree on operations in order, last refresh and whether one was a terminate leave the same object |
| Runs.RunKeepsSpecAndHistory | internal/argocd/guard.go:39-51 | no run of this server alone creates, deletes or redefines an application or rewrites its history |
| Runs.OverridesComeFromOthers | internal/argocd/guard.go:37-51 | in every run in which the patches meet the guard, whoever else writes whatever: an application that carries an operation with a source of its own had it at the start, or some outside write to that application put one there |
| Runs.GuardedRunsNeverRedirect | internal/argocd/guard.go:37-51 | hence if others override no source, no application ever carries one |
| Runs.GuardedHandlersNeverRedirect | internal/argocd/guard.go:37-51 | the same for any sequence of handler calls |
| Runs.PatchIsLocal | internal/mcpserver/tools_write.go:101-105 | in any reachable state a patch changes at most the one object its call names |
| Runs.ReadIsLocal | internal/mcpserver/tools_write.go:35-52 | the reading half of a call changes no object |
| Servers.Metrics.RecordOperation | internal/metrics/metrics.go:92-97 | counts under the instance, or a dash for an empty one, and touches nothing else |
| Servers.Metrics.RecordWriteBlocked | internal/metrics/metrics.go:87-89 | counts one blocked write and touches nothing else |
| Servers.Metrics.SetWriteGuardActive | internal/metrics/metrics.go:109-115 | sets the sample of one instance |
| Servers.Metrics.ClearWriteGuard | internal/metrics/metrics.go:119-121 | removes the sample of one instance |
| Servers.Clusters.PatchApp | internal/argocd/client.go:22-29 | merges into what is stored by then unless refused or lost, and reports as the API server answers |
| Servers.Server.AssertWritable | internal/mcpserver/params.go:52-62 | refuses a read-only server first, then a read-only instance, counting each refusal |
| Servers.Server.PrepareWrite | internal/mcpserver/tools_write.go:35-52 | stops as the model's first half does, or loads the object of that name in the namespace given or else the instance's, having changed nothing |
| Servers.Server.AppSync | internal/mcpserver/tools_write.go:67-120 | does what the model of the call says to the objects, counters and log, under every interference and answer |
| Servers.Server.AppRollback | internal/mcpserver/tools_write.go:198-239 | likewise |
| Servers.Server.AppTerminateOperation | internal/mcpserver/tools_write.go:241-260 | likewise |
| Servers.Server.AppRefresh | internal/mcpserver/tools_write.go:129-178 | likewise; waits exactly when the patch was accepted and the caller did not decline, reading the object patched from the store as others change it, against the reconcile time read before the patch |
| Servers.Server.WaitForRefresh | internal/mcpserver/tools_write.go:154-177 | the loop meets its specification on what it reads from the store, with at most floor((timeout+1)/2)+1 reads, and writes nothing |
| Servers.Server.AppWait | internal/mcpserver/tools_read.go:252-294 | the loop meets its specification on what it reads from the store, with at most floor(timeout/poll)+1 reads when sleeps last at least poll, and writes nothing |
| Polling.WaitSpecUnique | internal/mcpserver/tools_read.go:252-294 | the specification determines the result and the number of reads |
| Polling.WaitIsFirstDecisive | internal/mcpserver/tools_read.go:262-294 | without read errors and cancellation the wait ends with the verdict of the first decisive observation the clock allows, and else with a timeout before any |
| Polling.WaitReadsInTime | internal/mcpserver/tools_read.go:278-286 | with exact sleeps no read starts after the deadline |
| Polling.WaitBoundIsTight | internal/mcpserver/tools_read.go:253-286 | the bound on the reads is reached |
| Polling.RefreshCompletesOnlyWhenDone | internal/mcpserver/tools_write.go:162-188 | reports completed if and only if its last read saw the annotation gone or a later reconcile, and no earlier read did |
| Polling.RefreshReadsAlmostInTime | internal/mcpserver/tools_write.go:166-176 | with exact sleeps no read starts later than one second past the deadline |
| Polling.RefreshReadsLateIff | internal/mcpserver/tools_write.go:166-176 | a read starts after the deadline if and only if the last one does, and that if and only if less than two seconds were left at the check before it |
| Polling.RefreshBoundIsTight | internal/mcpserver/tools_write.go:154-176 | the bound on the reads is reached, the last of them being late if and only if the timeout is odd |
| Polling.NoSuccessBeforeController | internal/mcpserver/tools_read.go:297-305 | after an operation was merged, and after any further patches of this server, app_wait sees no success: it takes a write by somebody else |
| Polling.RefreshDoneBeforeControllerIff | internal/mcpserver/tools_write.go:134-188 | a read made before anybody else has written after the patch takes the refresh for done if and only if the object patched was reconciled after the baseline or its annotations cannot be read |
| Waiting.RefreshWaitExact | internal/mcpserver/tools_write.go:154-177 | in terms of the objects read: it goes on while the annotation is readable and set and no later reconcile shows, and reports unreadable, completed, not yet or cancelled exactly by the last object and the clock |
| Waiting.RefreshTooEarlyIff | internal/mcpserver/tools_write.go:154-188 | the wait reports completed with the request in place through every write since the patch if and only if some read it gets to, the request in place until then, shows a reconcile after the baseline, written before or after the patch, or unreadable annotations |
| Waiting.RefreshCallTooEarlyIff | internal/mcpserver/tools_write.go:129-188 | the same for a whole call, from the read that sets the baseline on |
| Waiting.RefreshLanded | internal/mcpserver/tools_write.go:134-140 | an accepted refresh leaves the object it met with the annotation merged in |
| Waiting.AppWaitExact | internal/mcpserver/tools_read.go:252-305 | in terms of the objects read under the application named: it looks again while the phase is not Failed or Error and the object is not Synced, Healthy if asked, without operation and with no phase Running or Terminating; what it tells follows from the last object, failure before success before timeout |
| Waiting.SteadyEndsWait | internal/mcpserver/tools_read.go:262-277 | the first read to find such a steady object whose phase is neither Failed nor Error ends the wait with success |
| Waiting.PatchedIsNotSteady | internal/mcpserver/tools_read.go:297-305 | neither a merged operation nor a terminate leaves a steady object, whatever this server patches next |
| Waiting.SuccessIsWritten | internal/mcpserver/tools_read.go:262-305 | on an application not steady at the start, as after those, app_wait succeeds only if the latest write to it by somebody else left it steady |
| Waiting.OldFailureReportedIff | internal/mcpserver/tools_read.go:262-272 | with no write by others before its first read, app_wait after an accepted operation ends at that read with a failure if and only if the operation before it had failed |
| Polling.Clamp | internal/mcpserver/tools_read.go:307-318 | a positive value in range stays, one below becomes the minimum, one above the maximum, and a value that is not positive the default |
| Probe.CheckWriteGuard | internal/instances/instance.go:134-159 | nothing but the writes of others reaches the store; missing if and only if the rewrite of the first application listed was accepted, active if and only if refused by a policy or for want of permission, unknown if and only if there was no list, no application or any other error |
| Probe.ConclusionExact | internal/instances/instance.go:148-158 | on a schema-valid application an answered probe says missing if and only if patching that one is granted and no guard is in force or it is in the probe's project |
| Probe.ProtectedIff | internal/argocd/guard.go:37-51 | no patch accepted on an application redirects its syncs in one of the three ways if and only if patching it is not granted or the guard is in force |
| Probe.ConclusionIsSound | internal/instances/instance.go:125-133 | an answered probe speaks for every patch on the application it probed: active is always true of it, missing is true of it outside the probe's project |
| Probe.ActiveHoldsIff | internal/instances/instance.go:134-158 | an active finding holds for every application of the instance if and only if the grants expose no other one |
| Probe.UniformGrantsSuffice | internal/instances/instance.go:134-158 | where grants make no difference between applications, active means exactly that all are protected |
| Probe.GaugeShowsLatest | main.go:197-216 | over every run of probes the gauge is 1, 0 or absent exactly as the latest probe of that instance was active, missing or unknown |
| Probe.GaugeKeepsOthers | main.go:197-216 | an instance never probed keeps no sample |
| Probe.ProbeRound | main.go:198-216 | one round probes every instance in name order and publishes each finding |
| Probe.ProbeWriteGuards | main.go:197-227 | after all rounds the gauge is what the findings make it; the log of patches sent is untouched |
| Probe.RoundTells | main.go:197-216 | after a round each configured instance shows the finding of its own probe, on the store as it was by then |
| Probe.RoundShows | main.go:197-216 | after a round an instance has no sample if its list failed or was empty or its dry run ended in an error that is no refusal, and otherwise 1 if and only if it was refused |
| Probe.RoundProtects | main.go:197-216 | where that probe was conclusive, and not on an application of the probe's project, what is shown says whether the application probed is protected |
| Configs.Namespaces | internal/config/config.go:163-177 | the loop computes the mentioned namespaces, each where it occurs first |
| Configs.NamespacesExact | internal/config/config.go:161-177 | primary first, duplicate-free, nothing missing or added, in order of first mention |
| Configs.Config.ApplyDefaults | internal/config/config.go:241-266 | fills addresses, log level, namespaces, the default of a single instance and the claim names where they are empty, and changes nothing else |
| Configs.Config.Validate | internal/config/config.go:271-333 | accepts if and only if the configuration is valid, and otherwise returns the first violation |
| Configs.FirstInstanceProblem | internal/config/config.go:281-323 | with the checks on an instance numbered in the order of the source, it is accepted if and only if none fails, and the problem reported is the first that does |
| Configs.DnsLabelIff | internal/config/config.go:179 | a name is a label if and only if the automaton of the regular expression accepts it |
| Configs.ModeExact | internal/config/config.go:138-158 | a mode is selected if and only if its key is set and those of the other two are not |
| Configs.ValidateAuth | internal/config/config.go:335-378 | accepts an auth section if and only if it is valid, and otherwise returns its first violation |
| Configs.CheckTokens | internal/config/config.go:342-359 | accepts tokens if and only if each has a name of its own and exactly one form, and otherwise reports the first that has not |
| Configs.FirstTokenProblem | internal/config/config.go:345-358 | likewise for the three checks on each token |
| Configs.AuthAccepted | internal/config/config.go:335-378 | an auth section is valid if and only if it is off, or some method is on and each that is on passes all its checks |
| Configs.OidcProblemIff | internal/config/config.go:360-376 | the exact condition of each problem of the OIDC section |
| Configs.NoProblemIff | internal/config/config.go:281-323 | the checks one by one find nothing if and only if every instance is valid and names are unique |
| Registries.RestConfigFor | internal/instances/credentials.go:20-74 | the nested choices come to the one branch that Mode names, file before inline |
| Registries.ValidatedCredentials | internal/instances/credentials.go:20-74 | a validated instance gets the branch of its mode, with the file, context, host, token and CA configured, a user agent and the rate limits; an explicit one exactly one token form and one of CA file, CA data or no verification, the last if and only if no CA was given |
| Registries.CredentialsFailIff | internal/instances/credentials.go:20-74 | on a validated instance they fail only for a missing pod account, a kubeconfig that does not load or CA data that is no base64, each exactly when its mode needs it |
| Registries.ClientsBuildIff | internal/instances/instance.go:42-55 | the clients of an instance can be built if and only if its credentials can and the clients take them |
| Registries.BuildRegistry | internal/instances/registry.go:23-40 | fails on the first instance whose clients cannot be built, then on a missing default, and otherwise holds every instance as configured |
| Registries.MapIsFilled | internal/instances/registry.go:28-35 | the map has exactly the configured names, each with the last instance of that name |
| Registries.BuildValidated | internal/instances/registry.go:23-40 | on a validated configuration the default check cannot fail, and once all clients build the registry is valid and holds each instance with its name, read-only flag, namespace (argocd if none) and namespaces as configured |
| Registries.ResolveOnValid | internal/instances/registry.go:55-73 | the empty name is the default, any other is found if and only if it is configured |
| Registries.Registry.Get | internal/instances/registry.go:55-66 | finds what the resolution says, and on a miss reports the names |
| Registries.Registry.Names | internal/instances/registry.go:82-93 | the names in configuration order |
| Registries.Registry.Default | internal/instances/registry.go:69-73 | is what the empty name resolves to |
| Registries.Registry.All | internal/instances/registry.go:96-106 | gives the instances of the sorted names |
| Registries.AllExact | internal/instances/registry.go:96-106 | every instance once, strictly ascending by name, none missing |
| Listing.AppsList | internal/mcpserver/tools_read.go:78-100 | succeeds if and only if every namespace can be listed, reports the first failure, and otherwise tables what was gathered |
| Listing.AppsTable | internal/mcpserver/format.go:49-65 | sorts in place by namespace and name, and counts every status label with its number of rows |
| Listing.Histogram | internal/mcpserver/format.go:80-94 | every key once, ascending, with its count |
| Listing.HistogramsCount | internal/mcpserver/format.go:57-94 | each row of the two histograms counts the applications with that sync or health status, those without one under a dash |
| Listing.HistogramUnique | internal/mcpserver/format.go:79-94 | the rows determine the histogram, whatever order the map gave its keys in |
| Listing.HistogramTotals | internal/mcpserver/format.go:57-62 | the counts add up to the number of rows |
| Listing.SearchedWhere | internal/mcpserver/tools_read.go:118-129 | the explicit namespace, else those of the instance, else its own |
| Listing.ListedOnce | internal/mcpserver/tools_read.go:118-129 | the namespaces of a configured instance, or the explicit one, are searched once each |
| Listing.ListingConserves | internal/mcpserver/tools_read.go:78-100 | every matching application of the store is shown exactly once and nothing else, by namespace and then by name as strings precede one another, and both histograms account for every row |
| Witnesses.RaceHappens | internal/mcpserver/tools_write.go:67-105 | a run in which two concrete syncs are both accepted under the guard |
| Witnesses.AnswerIsLost | internal/mcpserver/tools_write.go:136-140 | a run with one accepted patch and no ok |
| Witnesses.OperationsMix | internal/argocd/operation.go:61-64 | that race, the first sync with prune and the second without: what it leaves prunes |
| Witnesses.RollbackIsDenied | internal/mcpserver/tools_write.go:219-235 | a rollback that is sent and denied by the guard |
| Witnesses.NothingToTerminate | internal/argocd/operation.go:153-156 | an application that refuses both a sync and a terminate |
| Witnesses.InFlightReconcileCompletes | internal/mcpserver/tools_write.go:157-165 | for every two times, one read as later: a reconcile that lands after the patch makes the first read report a completed refresh, the request having been in place all along |
| Witnesses.LateRead | internal/mcpserver/tools_write.go:166-176 | with a timeout of one second the last read starts a second after the deadline |
| Witnesses.OldFailureReported | internal/mcpserver/tools_read.go:262-272 | a sync accepted on an application whose last operation failed, reported as failed by the first read |
| Witnesses.GuardedButMissing | internal/instances/instance.go:149-150 | a guarded application in the probe's project that is reported as unprotected |
| Witnesses.ActiveButExposed | internal/instances/instance.go:135-154 | an instance whose gauge is 1 while another of its applications can be redirected |

## Left out

- The HTTP server, the MCP transport, TLS, logging, signal handling, tool registration and the metrics of tool calls.
- Authentication at run time: comparing tokens, JWT checks, scope splitting and scope sets; the key set URL, required scopes and required groups of the configuration, which validation does not read. The caller's name is a parameter of a call.
- Whether an identifier is an absolute https URI with a host is a parameter of Validate; the URL library is not part of this model.
- Admission plugins other than the write guard: any refusal by another policy, and any 403 whatever its reason, also reads as an active guard.
- Text: rendering of tables, details and error messages, truncation, result classification, short revisions. Error texts of the API server are an enumeration.
- AppProject and ApplicationSet tools, resource tables, the reachability probe and the Argo CD version: field copies.
- The controller and the API server's own algorithms. The controller is an arbitrary writer; the merge is RFC 7396 section 2; list types of the schema, defaulting and pruning, and deviations of the API server's patch library are not modelled.
- CEL equality is structural with numbers compared by value; lists that a schema declares as sets or maps are compared in order.
- Times are parsed by a function that is a parameter, and compared as integers; a float is converted to an integer without the range limits of a 64-bit one.
- Labels and annotations are read as maps of strings in which a null reads as the empty string and any other value makes the whole map unreadable; apimachinery is not part of this model.
- Instances are separate clusters: a key holds the instance it belongs to.
- YAML and environment variables of the configuration; in-cluster and kubeconfig loading, base64 and client construction are parameters.
- The filters of apps_list and the label selector are given predicates, and a list is the API server's faithful answer at one moment; the store does not change between the lists of two namespaces.
- Sorting.SortStable: models the insertion sort that `sort.SliceStable` runs on short slices; the block merge it uses on long ones is not modelled, its result being the same by Sorting.StableSortUnique.
- Locks of the registry and the metrics: their methods are single steps here.
