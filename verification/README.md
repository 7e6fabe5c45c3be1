# babylon-runner: a verified model

babylon-runner takes one run at a time from Anarchy, dispatches it to a handler, patches the
subject, launches and polls Tower jobs, books and releases sandbox placements, and returns
directives: finish, continue, delete. This project models its four hard parts and proves what
they keep.

* **JSON trees.** `Json.dfy` and `DeepMerge.dfy` hold the pure values and the laws of the merge.
  `MapHeap.dfy` has the same maps as objects on the heap, sharing included; `SharedMaps.dfy` is
  what merges do to maps that job variables and dynamic variables have in common;
  `JobExtraVars.dfy` assembles the extra variables of a job in place over maps that alias the
  payload; `Vault.dfy` moves vault strings into a table. `SandboxVars.dfy`, `SandboxLabels.dfy` and
  `SandboxRequest.dfy` are the loops over placements and requests.
* **The lifecycle of a subject.** `Subjects.dfy` is the stored subject and its patches.
  `Handlers.dfy` says what a run does as functions on the run's state; the ends of all jobs are
  one table there. `RunContext.dfy` has the handlers as they are written, methods that patch and
  set directives in sequence, each proved to do what the functions say. `Lifecycle.dfy`,
  `Launches.dfy` and `Lives.dfy` prove what every run keeps and what holds over whole lives;
  `Convergence.dfy` and `Delays.dfy` prove that a start converges and how long retries wait,
  `Confluence.dfy` that outcomes of a provision job commute; `Traps.dfy` and `StateLabel.dfy` say
  where the natural statement is false and exactly when.
* **The token cache.** `TokenCache.dfy`: double-checked locking with any number of callers, one
  lock operation or memory access at a time.
* **Reconciliation and retries.** `SyncChildren.dfy`; `Retry.dfy`, one specification for the
  loops that are written separately.

Assumptions on the operator, which is not in the repository: one run per subject at a time, on
a fresh snapshot; a failed run is dispatched again; a patch is applied as a whole, with maps
merged; nobody else writes current_state or towerJobs or sets a status check running. Whether
the variables of a continue directive are merged or replaced is a parameter where it matters.
Anarchy, Tower and the sandbox API are adversaries: a run is given any answers, a patch may be
rejected, or applied with its answer lost, and a launch may happen although it is reported as
failed. Patches that touch no modelled field are left out; since the answers are arbitrary,
that drops no behaviour of the others.

The code and its documentation disagree in a few places; the model follows the code.

* `buildJobExtraVars` documents an order of combination over the payload's values, but a dynamic
  map under `__meta__` is merged into the governor's own settings before they are read
  (`JobExtraVars.DynamicMetaLeaks`), and after a sandbox look-up the governor's values override
  those of nested maps that the dynamic variables share with job_vars
  (`JobExtraVars.PlacementLosesToGovernor`). When the documented result still comes out is
  `JobExtraVars.DocumentedIff`.
* `runProvision` has no case for a placement that is not found, and goes on to Tower
  (`Traps.MissingIff`).
* `attemptPostResult` calls a request that cannot be built permanent, but `postResult` retries
  it (`Retry.PostResult`).

## Model

| member | source | states |
|---|---|---|
| `MapHeap.DeepMergeMap` | internal/types/helpers.go:78-88 | for two map trees in the heap that have maps in common at most at the same places: dst ends with the right-biased deep merge of the two old values, src keeps its value, dst is made of its own maps and maps of src, and only maps of dst at which both hold a map are written |
| `MapHeap.LaidValue` | internal/types/helpers.go:78-88 | laying one heap tree over another with sharing, read as a value, is the pure merge |
| `MapHeap.LaidTree` | internal/types/helpers.go:78-88 | the merged structure is again a tree |
| `MapHeap.GetNestedMap` | internal/types/helpers.go:12-22 | the nested map at a path, found by following references, nil when a step is missing or no map |
| `DeepMerge.MergeIdempotent` | internal/types/helpers.go:78-88 | merging the same map a second time changes nothing |
| `DeepMerge.MergeAbsorbs` | internal/types/helpers.go:78-88 | merging a merge result into the map it started from gives that result |
| `DeepMerge.FoldByKey` | internal/types/helpers.go:78-88 | a list of layers can be folded one key at a time |
| `DeepMerge.ReplayIsHarmless` | internal/types/helpers.go:78-88 | for every start and every list of layers, folding the list twice equals folding it once, also when maps and scalars alternate under a key |
| `DeepMerge.AssociativeIff` | internal/types/helpers.go:78-88 | three layers may be regrouped if and only if, wherever a map, a non-map and a map meet under one key, the third covers the first |
| `DeepMerge.NotAssociative` | internal/types/helpers.go:78-88 | a map, a scalar and a map under one key break associativity |
| `DeepMerge.CoveredIffAbsorbed` | internal/types/helpers.go:78-88 | an earlier layer leaves no trace exactly when the later one covers its keys at every level |
| `DeepMerge.SaysIff` | internal/types/helpers.go:78-88 | a merge changes nothing exactly when the map merged in says, key by key and level by level, what is there already |
| `DeepMerge.SettledIff` | internal/types/helpers.go:78-88 | laying a map back over what was merged into it, with a third layer on top, makes no difference exactly where the two agree or the third layer covers them |
| `DeepMerge.MergePatchIff` | internal/types/helpers.go:78-88 | the merge is JSON Merge Patch (section 2 of RFC 7396) exactly on sources without nulls, because a null is stored |
| `JobExtraVars.BuildJobExtraVars` | internal/handler/tower_launch.go:241-297 | for payload maps that are trees, job_vars and dynamic variables sharing maps at the same places: the result is subject, governor, dynamic, minus `__meta__`, then action extra_vars, callback, output_dir and scm_ref overrides, of the values on entry, except that the dynamic variables and `__meta__` are as the merges leave them, which `SharedMaps.After` and `MetaRead` say; the top maps of the payload keep their entries and what is written is listed in the frame |
| `JobExtraVars.OnlyNestedWritten` | internal/handler/tower_launch.go:241-297 | every map written while assembling is a nested map of the payload, never one of its top maps, whatever job_vars and dynamic variables share |
| `JobExtraVars.MergeLayers` | internal/handler/tower_launch.go:245-256 | the three in-place merges, with the governor's own map and the shared maps as they leave them |
| `JobExtraVars.AliasValue` | internal/handler/tower_launch.go:245-256 | what the governor's map holds afterwards, because parts of it were stored by reference and then merged into |
| `JobExtraVars.ResolveActionExtraVars` | internal/handler/tower_launch.go:174-182 | the action's extra_vars map itself, not a copy, or a new map naming the action |
| `JobExtraVars.ApplyOverrides` | internal/handler/tower_launch.go:272-297 | callback, output_dir and scm_ref variables laid over the merged ones |
| `JobExtraVars.DynamicMetaLeaks` | internal/handler/tower_launch.go:233-240 | with a dynamic `__meta__` map the documented order is not what is computed: the dynamic map changes the governor's settings before they are read |
| `JobExtraVars.MetaStaysIff` | internal/handler/tower_launch.go:245-262 | the merges leave a map of the governor's as it was exactly when the dynamic values come to it only where job_vars has no map and say there what it says |
| `JobExtraVars.MetaReadIff` | internal/handler/tower_launch.go:245-262 | the governor's settings are read as they were on entry exactly then, under `__meta__` |
| `JobExtraVars.SettingsDecide` | internal/handler/tower_launch.go:272-297 | two assemblies agree for every callback, scm_ref and deployer type exactly when they agree up to the overrides and read the same three variable names |
| `JobExtraVars.DocumentedIff` | internal/handler/tower_launch.go:233-297 | the documented assembly of the entry values is what is computed, for every callback and reference, exactly when the three names read are those on entry and the layers agree up to the overrides; with the action's variables read as on entry, that is when no shared map is disputed between the placement and the governor, but for what the action's variables cover |
| `JobExtraVars.SharedMapFollowsGovernor` | internal/handler/sandbox.go:553-574 | a map n that job_vars and the dynamic variables share, under a governor map g, ends as n with g over it, where the documented order gives n over both |
| `JobExtraVars.PlacementLosesToGovernor` | internal/handler/sandbox.go:126-132 | x.a = 1 of a placement's additional variables against x.a = 2 of the governor: the result has 2 |
| `SharedMaps.LookupAligns` | internal/handler/sandbox.go:126-132 | the look-up of a placement hands on job_vars and dynamic variables that are trees and share maps only at the same places, as the assembly asks |
| `SharedMaps.AfterMatches` | internal/handler/tower_launch.go:245-256 | the governor's merge into job_vars leaves in the heap the dynamic variables that `After` computes |
| `SharedMaps.UndisputedIff` | internal/handler/tower_launch.go:245-256 | with a layer a on top, what the shared maps make of the three layers is what their entry values give exactly when wherever one map is in job_vars and the dynamic variables and the governor has a map too, the two agree or a covers them |
| `SharedMaps.UndisputedButIff` | internal/handler/tower_launch.go:245-268 | the same without some of the keys, as without `__meta__` |
| `JobExtraVars.MetaComesBackIff` | internal/handler/tower_launch.go:263-272 | `__meta__` is in the result exactly when the action's extra_vars or one of the configured variable names put it there |
| `Vault.LookupExprs` | internal/clients/tower.go:59-97 | lookup expressions are exactly the strings with a name in them, and no vault strings |
| `Vault.VaultTable.GenerateUniqueVaultVarName` | internal/clients/tower.go:59-71 | the first drawn name not in the table |
| `Vault.VaultTable.UnvaultRecurse` | internal/clients/tower.go:73-97 | the copy comes back from the table, holds no vault string, and each new name stands for one vault string at one place, whatever order a map is ranged over |
| `Vault.VaultTable.UnvaultMap` | internal/clients/tower.go:75-80 | the same for the entries of a map |
| `Vault.VaultTable.UnvaultItems` | internal/clients/tower.go:81-86 | the same for the items of a list |
| `Vault.InsertUnvaultString` | internal/clients/tower.go:48-55 | round trip: restoring the lookups and dropping the generated keys gives the original back if and only if no generated name is used in it; names and vault strings are in bijection; no vault string is left outside the generated keys |
| `Vault.OriginsDiffer` | internal/clients/tower.go:48-97 | names stand for distinct places, one name per vault string |
| `Vault.RestoredIff` | internal/clients/tower.go:48-55 | dropping a generated key loses a variable exactly when its key was generated |
| `TokenCache.TokenCache.Get` | internal/httputil/token_cache.go:39-59 | one caller: the cached token while usable, else what refresh answers, stored with its expiry |
| `TokenCache.TokenCache.Close` | internal/httputil/token_cache.go:63-73 | the token is forgotten, and with cleanup its id is handed to the server |
| `TokenCache.OneRefreshAtATime` | internal/httputil/token_cache.go:39-73 | over all interleavings of any number of Get and Close callers at most one refresh is in progress, under the write lock and with no reader |
| `TokenCache.RefreshOnlyWhenNeeded` | internal/httputil/token_cache.go:39-73 | between two successive successful refreshes there was a Close, or the first token was empty or had expired when the second looked |
| `TokenCache.ServedTokenInForce` | internal/httputil/token_cache.go:39-48 | a token returned without a refresh is that of the last refresh, not closed since and unexpired when checked |
| `TokenCache.ReturnedFromLog` | internal/httputil/token_cache.go:39-59 | over all interleavings every token a caller returns is one that a refresh brought or the cache served, so the two lemmas above speak of what callers get |
| `TokenCache.DeletesItsOwnToken` | internal/clients/tower.go:158-173 | cleanup deletes the id that came with the cached token |
| `TokenCache.TokenIdBelongs` | internal/clients/tower.go:158-173 | outside a refresh the stored tokenID belongs to the cached token |
| `TokenCache.AloneRefines` | internal/httputil/token_cache.go:39-59 | a caller whom nobody disturbs does in the interleaved machine what Get does alone: the same answer, the same cache, and no lock kept |
| `SyncChildren.Server.PostChild` | internal/clients/tower.go:502-526 | one POST, which may take effect although it is reported as failed |
| `SyncChildren.Server.SyncChildren` | internal/clients/tower.go:532-570 | success ends with exactly the desired set after as many POSTs as the symmetric difference has ids; it fails exactly at the first bad answer; at any point nothing in both sets is gone and nothing outside their union is there; no id is posted twice; a failed listing posts nothing |
| `SyncChildren.Server.DisassociateExtras` | internal/clients/tower.go:549-557 | the first loop, in any order of the map |
| `SyncChildren.Server.AssociateMissing` | internal/clients/tower.go:559-567 | the second loop, in any order of the map |
| `SyncChildren.Server.SyncTwice` | internal/clients/tower.go:528-570 | a second call after a successful one posts nothing |
| `SyncChildren.JoinPosts` | internal/clients/tower.go:549-567 | no id is both disassociated and associated |
| `Retry.Determined` | internal/httputil/retry.go:13-53 | the common specification of all retry loops leaves nothing open: attempts, ending and waiting are determined |
| `Retry.FirstDecisiveWins` | internal/httputil/retry.go:13-30 | without cancellation the first decisive answer within the budget is the last attempt, after exactly the delays in front of it |
| `Retry.NoneDecides` | internal/httputil/retry.go:13-30 | and with none, the whole budget is used |
| `Retry.RetryWithContext` | internal/httputil/retry.go:13-30 | follows the specification; the last error, or the context's, is returned |
| `Retry.PollWithContext` | internal/httputil/retry.go:35-53 | follows the specification, also for a budget of zero or less |
| `Retry.DoPlacementAction` | internal/clients/sandbox.go:289-335 | follows the specification with 404, an undecodable response, 200 and 202 decisive; success is exactly a 200 or 202, and the status is that of the last response |
| `Retry.Login` | internal/clients/sandbox.go:97-137 | follows the specification; a 200 without access_token is final, other statuses are retried |
| `Retry.PostResult` | internal/runner/runner.go:256-291 | follows the specification with 2xx and 4xx decisive; without a base delay it neither waits nor looks at the context |
| `Retry.BackoffGrows` | internal/runner/runner.go:260-268 | the waits between POSTs never shrink and never exceed a minute |
| `SandboxVars.GetCredList` | internal/handler/sandbox.go:797-809 | the credentials that are maps, in order |
| `SandboxVars.ExtractAwsSandboxVars` | internal/handler/sandbox.go:812-844 | base fields and, with credentials, the first IAM key |
| `SandboxVars.ExtractOcpSandboxVars` | internal/handler/sandbox.go:847-883 | base fields, the last credential of each kind, and the additional variables over both |
| `SandboxVars.ExtractIbmSandboxVars` | internal/handler/sandbox.go:886-910 | the first credential's key when any credential has one, and the additional variables |
| `SandboxVars.ExtractSandboxVars` | internal/handler/sandbox.go:967-997 | the fold of all resources, main ones merged and named ones stored |
| `SandboxVars.SubjectVarsHideSecrets` | internal/handler/sandbox.go:963-997 | placements that differ only in credentials, sa_client_id and sa_secret give the subject equal variables, over any mix of kinds, annotations and additional variables |
| `SandboxVars.MergeHides` | internal/handler/sandbox.go:986-987 | hiding credentials commutes with merging, at every depth |
| `SandboxVars.TowerVarsExtendSubjectVars` | internal/handler/sandbox.go:963-997 | with credentials there are at least the same keys, and outside the credential names and the copy of the placement the same values at every depth |
| `SandboxLabels.DecimalRoundTrip` | internal/handler/sandbox.go:1033-1035 | the number in a generated label can be read back |
| `SandboxLabels.NumberedInjective` | internal/handler/sandbox.go:1033-1035 | a kind that does not end in a digit and its number can be told apart |
| `SandboxLabels.SanitizeKind` | internal/handler/sandbox.go:1046-1055 | keeps exactly the ASCII letters and digits |
| `SandboxLabels.ExtractSandboxLabels` | internal/handler/sandbox.go:1001-1043 | no, one, or several resources, the last by the labelling fold |
| `SandboxLabels.LabelsLoseNothing` | internal/handler/sandbox.go:1019-1042 | for two or more resources and no sanitized kind ending in a digit: every map resource owns one label holding its name, there are no others, and there are 1 + n |
| `SandboxLabels.LabelsLostIff` | internal/handler/sandbox.go:1019-1042 | every name is kept under a label of its own, and there are 1 + n labels, if and only if the labels given, which the list of sanitized kinds alone decides, are pairwise different |
| `SandboxLabels.KindsDecide` | internal/handler/sandbox.go:1019-1042 | which label each resource is given depends on the sanitized kinds and not on names, and the labels are those and sandbox |
| `SandboxLabels.LabelCount` | internal/handler/sandbox.go:1019-1042 | 1 + n labels less one for every clash |
| `SandboxLabels.NumberedKindIsOverwritten` | internal/handler/sandbox.go:1033-1035 | kinds such as A2, A, A: the first name is lost |
| `SandboxLabels.KindsA2AndA` | internal/handler/sandbox.go:1046-1055 | the kinds A2 and A are such a pair |
| `SandboxRequest.Trackers.ValidateSandboxVar` | internal/handler/sandbox.go:689-707 | the error of one entry's variable and the two trackers afterwards |
| `SandboxRequest.Trackers.ValidateSandbox` | internal/handler/sandbox.go:661-683 | the first fault of one entry behind those in front of it |
| `SandboxRequest.ValidateSandboxesRequest` | internal/handler/sandbox.go:643-764 | OK if and only if the list is not empty, every entry is well typed with a kind, truthy variables differ as printed and a kind has at most one entry without one; otherwise the fault of the first entry that does not fit |
| `SandboxRequest.NoFaultIff` | internal/handler/sandbox.go:661-749 | the sequential checks on one entry agree with the pairwise condition |
| `SandboxRequest.InjectVarAnnotations` | internal/handler/sandbox.go:769-780 | every map entry is replaced by its annotated copy, others are kept |
| `SandboxRequest.VarComesBack` | internal/handler/sandbox.go:579-613 | the variable asked for is the one that extraction reads from the annotations |
| `SandboxRequest.StringVarsStayDistinct` | internal/handler/sandbox.go:579-613 | in an admitted request non-empty string variables stay distinct in what is sent |
| `SandboxRequest.VarsCollideIff` | internal/handler/sandbox.go:579-613 | two entries end up with one variable exactly when they name the same one and at most one of them as its own `var` |
| `SandboxRequest.SentAsStrings` | internal/handler/sandbox.go:608-631 | annotations and cloud fields of an admitted entry are sent as maps of strings |
| `Subjects.ApplyIdempotent` | internal/clients/anarchy.go:50-76 | a patch sent again by a retry changes nothing |
| `RunContexts.PollOnce` | internal/runner/runner.go:104-186 | dispatch on a fresh snapshot; an error or panic makes the run failed and without directives; finish and continue exclude each other; a delete is a successful finish |
| `RunContexts.RunContext.Dispatch` | internal/runner/runner.go:294-312 | every trigger, an unknown one included, is handled as the functions say: the record invariant is kept, directives go together and are absent on an error, and only a delete event may delete without an accepted release |
| `RunContexts.RunContext.SandboxGet` | internal/handler/sandbox.go:81-143 | moves only job_vars, label, timestamps, placements and counters, unless the request is invalid, when a provision is finished as failed |
| `RunContexts.RunContext.SandboxBook` | internal/handler/sandbox.go:168-305 | invalid exactly when the request is; otherwise, with a uuid, a booking moves only job_vars, label, placements and counters |
| `RunContexts.RunContext.UpdateSubjectSandboxVars` | internal/handler/sandbox.go:553-574 | without a uuid among the variables nothing but job_vars moves that matters to the lifecycle: no state, job record, launch or directive |
| `RunContexts.RunContext.SandboxCleanup` | internal/handler/sandbox.go:329-355 | success means that with the sandbox API in use and a token the release of the own uuid was accepted and nothing is held under it; the record invariant is kept either way |
| `RunContexts.RunContext.SandboxStart` | internal/handler/sandbox.go:360-414 | sets the label, not current_state, once the action is accepted |
| `RunContexts.RunContext.SandboxStop` | internal/handler/sandbox.go:419-473 | the same for stop |
| `RunContexts.RunContext.LaunchTowerJob` | internal/handler/tower_launch.go:466-559 | at most one launch, of its own action; without an error the job is recorded with id and host; state and record arrive together, so the record invariant is kept |
| `RunContexts.RunContext.CheckDeployerJob` | internal/handler/check_deployer.go:13-84 | fallbacks, poll backoff, or the end of the job |
| `RunContexts.RunContext.HandleDeployerJobSuccess` | internal/handler/check_deployer.go:162-183 | every action's completion follows one table of patch and directive |
| `RunContexts.RunContext.HandleDeployerJobFailure` | internal/handler/check_deployer.go:133-159 | every action's failure follows the same table |
| `RunContexts.RunContext.HandleDestroyFailure` | internal/handler/check_deployer.go:189-235 | the failure row for destroy: always retried |
| `RunContexts.RunContext.HandleStartFailure` | internal/handler/check_deployer.go:239-303 | the failure row for start: retry, redirect to stop, or finish |
| `RunContexts.RunContext.HandleStopFailure` | internal/handler/check_deployer.go:327-396 | the failure row for stop, behind a best-effort sandbox stop unless canceled |
| `RunContexts.RunContext.HandleStatusFailure` | internal/handler/check_deployer.go:401-438 | the failure row for status: canceled finishes as failed |
| `RunContexts.RunContext.HandleUpdateFailure` | internal/handler/check_deployer.go:442-490 | the failure row for update: the retry count is not increased |
| `RunContexts.RunContext.HandleStatusComplete` | internal/handler/check_deployer.go:494-534 | the completion row for status |
| `RunContexts.RunContext.HandleUpdateComplete` | internal/handler/check_deployer.go:537-574 | the completion row for update |
| `RunContexts.RunContext.HandleProvision` | internal/handler/provision.go:18-35 | whatever the state: keeps the job-record invariant and the early-state rules, touches only its own placement where placements name no uuid, sets directives that go together, none on an error, and no delete without an accepted release |
| `RunContexts.RunContext.RunProvision` | internal/handler/provision.go:105-168 | from an early state: keeps the job-record invariant and the early-state rules, touches only its own placement where placements name no uuid, sets directives that go together, none on an error, and no delete without an accepted release |
| `RunContexts.RunContext.TransitionToQueued` | internal/handler/provision.go:39-65 | ends queued with a continue directive, or with an error and no directive |
| `RunContexts.RunContext.CompleteProvisionNoDeployer` | internal/handler/provision.go:69-102 | ends started and finished as successful, with the job records as they were |
| `RunContexts.RunContext.HandleProvisionComplete` | internal/handler/provision.go:171-220 | the completion row for provision |
| `RunContexts.RunContext.HandleProvisionError` | internal/handler/provision.go:223-259 | the error row for provision, jobStatus left alone |
| `RunContexts.RunContext.HandleProvisionFailed` | internal/handler/provision.go:262-308 | the failed row for provision, with the forensics flag on the snapshot's job_vars |
| `RunContexts.RunContext.HandleProvisionCanceled` | internal/handler/provision.go:311-349 | the canceled row for provision |
| `RunContexts.RunContext.CheckProvisionQueue` | internal/handler/provision.go:392-451 | from an early state, dequeued and provisioned in one run: keeps the job-record invariant and the early-state rules, touches only its own placement where placements name no uuid, sets directives that go together, none on an error, and no delete without an accepted release |
| `RunContexts.RunContext.HandleDestroy` | internal/handler/destroy.go:13-62 | start timestamp, catch-all, launch or poll |
| `RunContexts.RunContext.HandleDestroyCatchAll` | internal/handler/destroy.go:66-79 | deletes only behind an accepted release, and the subject stays as it is |
| `RunContexts.RunContext.RunDestroy` | internal/handler/destroy.go:82-108 | at most one destroy job is launched and the subject is not deleted; the record invariant is kept, although the failure of the look-up is ignored |
| `RunContexts.RunContext.HandleDestroyComplete` | internal/handler/destroy.go:111-161 | cleanup before the record, then delete and finish |
| `RunContexts.RunContext.HandleStart` | internal/handler/start.go:12-22 | at most one start job is launched and the subject is not deleted; keeps the job-record invariant, and directives go together and are absent on an error |
| `RunContexts.RunContext.RunStart` | internal/handler/start.go:59-122 | timestamp, sandbox start, then a launch or a completion without a job |
| `RunContexts.RunContext.HandleStartComplete` | internal/handler/start.go:125-162 | the completion row for start |
| `RunContexts.RunContext.HandleStop` | internal/handler/stop.go:12-22 | at most one stop job is launched and the subject is not deleted; keeps the job-record invariant, and directives go together and are absent on an error |
| `RunContexts.RunContext.RunStop` | internal/handler/stop.go:25-106 | at most one stop job is launched and the subject is not deleted; keeps the job-record invariant, sets directives that go together, none on an error |
| `RunContexts.RunContext.HandleStopComplete` | internal/handler/stop.go:109-162 | the completion row for stop: two patches around a best-effort sandbox stop |
| `RunContexts.RunContext.HandleStatus` | internal/handler/status.go:12-46 | at most one status job is launched and the subject is not deleted; keeps the job-record invariant, and directives go together and are absent on an error |
| `RunContexts.RunContext.RunStatus` | internal/handler/status.go:49-107 | current_state is never touched; without an error the check is running with its job recorded and a continue, or, where the status job is disabled, is successful and finished |
| `RunContexts.RunContext.HandleUpdate` | internal/handler/update.go:11-42 | at most one update job is launched and the subject is not deleted; keeps the job-record invariant, and directives go together and are absent on an error |
| `RunContexts.RunContext.HandleEventCreate` | internal/handler/event_create.go:62-93 | without an error an empty subject gets to provision-pending; the record invariant is kept, also where the patch was lost, and no directive is set on an error |
| `RunContexts.RunContext.ScheduleUpdateAction` | internal/handler/event_update.go:44-69 | launches nothing and leaves the directives alone; for any action but provision the record invariant and the early-state rules are kept |
| `RunContexts.RunContext.HandleEventUpdate` | internal/handler/event_update.go:118-153 | at most one action and a status check |
| `RunContexts.RunContext.HandleEventDelete` | internal/handler/event_delete.go:15-70 | directives go together and the record invariant is kept; a delete of its own releases the placement exactly when it cleans up |
| `RunContexts.RunContext.HandleEventDeleteWithoutDestroy` | internal/handler/event_delete.go:98-127 | without an error the subject is destroy-complete, wanted destroyed, and deleted with a successful finish |
| `Lifecycle.HandledSound` | internal/runner/runner.go:137-175 | every handler on every trigger in every world keeps the job-record invariant, stays out of the early states, launches a provision job only from an early one, touches only its own uuid's placement, and sets directives that go together; only a delete event may delete without a release |
| `Lifecycle.GetOrBookQuiet` | internal/handler/sandbox.go:81-305 | looking up or booking a placement moves only job_vars, label, placements and counters, and leaves a directive only for an invalid request |
| `Lifecycle.JobEndSound` | internal/handler/check_deployer.go:133-574 | the same for the end of any job of any action, by poll or callback |
| `Lifecycle.LaunchedKeeps` | internal/handler/tower_launch.go:520-558 | a launch enters the running state together with its job record |
| `Lifecycle.DeleteEventFrees` | internal/handler/event_delete.go:98-127 | a delete event's own deletion releases the placement exactly when it cleans up |
| `Lifecycle.CreatePatchKeeps` | internal/handler/event_create.go:27-93 | the create event's first job_vars keep the uuid there is, and may give one only to a subject without |
| `Launches.LaunchesOfRun` | internal/handler/tower_launch.go:511-558 | a run launches at most one job, of its own action, and events and callbacks none; a provision job leaves the subject in an early state exactly when neither the post-launch nor the error patch took |
| `Lives.RunningJobsAreRecorded` | internal/handler/check_deployer.go:13-39 | in every reachable state a running action or status check has a numeric deployerJob and a towerHost, so the three fallbacks are unreachable |
| `Lives.ProvisionJobsBounded` | internal/handler/provision.go:105-168 | over every life the provision jobs launched are at most one plus the runs that launched one without a trace |
| `Lives.EarlyIsNeverReentered` | internal/handler/provision.go:18-35 | empty, provision-pending and provision-queued are never re-entered once left, and no further provision job is launched |
| `Lives.DeleteMeansReleased` | internal/handler/destroy.go:66-161 | a run that sets the delete directive, with the sandbox API in use and a token, has had its release accepted in that run, unless, and only unless, it is a delete event without a destroy job and with catch_all off or no uuid |
| `Lives.DeletedHeld` | internal/handler/destroy.go:66-161 | behind a run that deletes, what is held is what was held before, less the placement under the subject's uuid, or all of it in the one exception |
| `Lives.DeletedHoldsNothingIff` | internal/handler/event_delete.go:98-127 | whether a deleted subject leaves a placement, in any life: nothing is held exactly when nothing was held under another uuid than its own at the deletion |
| `Lives.DeletedHoldsNothing` | internal/handler/event_delete.go:98-127 | so no deleted subject holds a placement, in every life in which its uuid stays what it is |
| `Lives.DirectivesOfRun` | internal/runner/run_context.go:173-198 | finish and continue exclude each other, delete is a successful finish, a failed run carries no directive |
| `Convergence.UpdateEventSchedulesStart` | internal/handler/event_update.go:15-69 | a stopped subject wanted started gets into start-pending and its action is requested |
| `Convergence.AttemptPays` | internal/handler/start.go:12-122 | the termination measure: every run of start that does not complete pays with a failed job, a poll, a fault, or by moving from launching to polling |
| `Convergence.AttemptOutcome` | internal/handler/check_deployer.go:239-303 | a run of start without a fault completes with the subject started, or continues |
| `Convergence.StartConverges` | internal/handler/start.go:12-162 | with F failed jobs, P inconclusive polls and E handler or post faults the action completes at the latest with run 3 + 2F + P + 2E, and then the subject is started |
| `Convergence.RetryDelay` | internal/handler/check_deployer.go:87-101 | without faults the n-th failure waits for the n-th interval when continue variables are merged, and always for the first when they are replaced |
| `Delays.WaitsGrowIff` | internal/handler/check_deployer.go:87-109 | for any schedule and any reading of durations, a larger count never waits less exactly when the waits of the schedule are sorted, those that are no duration counting as none |
| `Delays.RetriesNeverHasten` | internal/handler/check_deployer.go:87-101 | in a life without faults and with such a schedule no retry waits less than an earlier one, with merged or replaced variables |
| `Delays.DefaultScheduleShrinks` | internal/runner/config.go:16-18 | the default schedule is not such a one: 1d is no Go duration, so the tenth retry does not wait |
| `Confluence.ProvisionOutcomesConfluent` | internal/handler/callback.go:57-81 | delivering one outcome of a provision job any positive number of times, by callbacks and polls in any order and with patches lost or rejected, leaves the whole modelled subject as one delivery does and launches nothing |
| `Confluence.DeliveredOnce` | internal/handler/provision.go:171-349 | each outcome's patch, made from the snapshot's own job_vars, changes nothing the second time |
| `Confluence.DequeueThenGet` | internal/handler/provision.go:353-451 | the dequeue patch and the sandbox patch of one run merge the same variables twice and end as if it were once |
| `Confluence.CreateTwice` | internal/handler/event_create.go:27-56 | the first job_vars made a second time change nothing, whatever uuid is drawn then |
| `Traps.CompletedByRerunIff` | internal/handler/event_update.go:44-69 | an update event whose patch or request fails, or whose answer is lost, errors; its re-run requests the action exactly when the patch was rejected or the action is an update |
| `Traps.StrandedIff` | internal/handler/event_update.go:15-69 | and the subject is stranded in X-pending, X requested by neither run, exactly when a start or stop was patched with its answer lost, or patched and then refused |
| `Traps.LateCallback` | internal/handler/callback.go:57-81 | destroy is not absorbing: a recorded callback takes a subject out of its destroy states exactly when it is not one of destroy or status |
| `Traps.PlacementOutlivesSubject` | internal/handler/sandbox.go:553-574 | a life from birth, with nobody else taking part, that ends deleted with a placement held: the placement's variables name another uuid, and the release goes there |
| `Traps.MissingIff` | internal/handler/sandbox.go:284-289 | provisioning goes on without a placement exactly when both GETs say not found around an accepted booking in no settled state |
| `Traps.MissingStillLaunches` | internal/handler/provision.go:123-158 | and then the Tower job is launched |
| `StateLabel.LabelKeptIff` | internal/handler/sandbox.go:360-473 | a run that starts with the label equal to current_state ends so, whatever the world answers, exactly when it is not a delete event that moves the state, a start or stop that acts on the placement, or a stop callback of a subject that is not stopping and whose placement can be stopped |
| `StateLabel.KeptUnlessMayPart` | internal/handler/provision.go:18-451 | every other run keeps it, for every answer |
| `StateLabel.MayPartParts` | internal/handler/event_delete.go:51-127 | for each of those there are answers under which the two part |
| `StateLabel.StartLeavesLabelAhead` | internal/handler/sandbox.go:385-401 | an accepted sandbox start without a controller: the label says starting, the state is still start-pending |

## Left out

- JobExtraVars.BuildJobExtraVars: the payload's maps are trees, and job_vars and dynamic variables share maps only at the same places. Decoded maps are apart, and a look-up keeps this (SharedMaps.LookupAligns); that two extractions of one placement share maps only at the same places is taken from reading the extractors. A nil map is an empty one.
- MapHeap.DeepMergeMap: lists are plain data, since merging stops at them.
- SandboxVars.ExtractSandboxVars: works on values, so it does not show that merging main resources, in the first of two extractions too, writes into nested additional_vars maps of the placement itself.
- SandboxRequest.InjectVarAnnotations: works on values; the shallow copy shares the cloud maps, which the source normalizes in place in the request too.
- Vault.InsertUnvaultString: random names are a finite list of draws, and the result is none when they run out; the source draws for ever.
- Retry.PostResult: the source fixes the number of retries at ten; durations are unbounded integers.
- SyncChildren.Server.SyncChildren: a listing is one complete page.
- Lives.DeletedHoldsNothing: needs a uuid that stays, since neither placements nor others are kept from changing it (Traps.PlacementOutlivesSubject; without that hypothesis Lives.DeletedHeld is exact); an accepted release, 202 included, counts as gone.
- Convergence.StartConverges: callbacks may complete a start earlier; only runs of the action are counted.
- Traps.PlacementOutlivesSubject: one family of lives, as a witness.
- Delays.WaitsGrowIff: time.ParseDuration and the wait until an absolute timestamp are parameters.
- IntervalAt, SubjectUpdate, ScheduleAction, ContinueWithRetry, ContinueWithTowerPoll, BuildDequeuedPatch and BuildInitialJobVars have no rows: they only compute, and the lemmas above state what comes of them (Subjects.ApplyIdempotent, Convergence.RetryDelay, Delays.WaitsGrowIff, Confluence.DequeueThenGet, Confluence.CreateTwice, Traps.StrandedIff).
- What a job or placement brings as data (provision_data, messages, status_data), sandboxAPIJobs and every timestamp beyond set or not set.
- Labels other than the state label; a sandbox kind named "state" would write that one.
- cancelTowerJob and cancelAllIncompleteTowerJobs: they change nothing that is modelled.
- HTTP, TLS, JSON encoding, metrics, logging, the secret informer, Kubernetes and Helm: configuration and foreign calls.
- LaunchJob's sequence of Tower requests, TowerClientPool.Get, controller selection and the scheduler: a launch is one step that brings a job id or an error.
- internal/template: resolving Jinja2 in the sandbox resources is taken as done.
- DeepCopyMap, DeepCopySlice and SetNested: easy members beside the merge.
- Pagination of listings and RFC 3339 formatting.
