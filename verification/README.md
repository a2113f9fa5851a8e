# OpenKit control-plane model

A Dafny model of the parts of OpenKit where several writers, crashes or failing host commands meet, with the
properties that must hold over whole runs. `dafny verify dfyconfig.toml` checks the project.

| Component | Modules | Main results |
|---|---|---|
| Artifact Review authority | `ReviewStore`, `ReviewAuthority`, `ReviewProperties`, `ReviewReplay`, `ReviewCaller` | the writer never stores a row its own reader refuses; one acceptance per Material base, owning the base's only child; rows only grow; decisions and receipts commit together or in two phases; a request never takes effect twice, and a retained receipt answers exactly the attempts it can; callers compete for one Review |
| NanoHost replacement | `Payloads`, `HostMachine`, `Maintenance`, `HostProcedure` | at most one execution while the guard is installed, over every interleaving with reboots and competing sessions; a completed replacement executed the target, once, under the guard |
| Payload custody | `Custody` | a crash at any point still finds every old payload, by its live or its custody name; the names change only while nothing can be executed |
| App update | `UpdateLifecycle`, `UpdateFormat`, `UpdateContainers`, `UpdateWeb`, `UpdateApply` | one Data Root writer at every moment; receipt lifecycle; restoration; the live Web tree is not rewritten; every written receipt loads and projects |
| Administrator cleanup read | `CleanupEncoding`, `CleanupRead` | the byte count is the exact encoded length; the response always fits; complete sources are fully listed |
| Artifact import | `ArtifactImport` | conservation of byte reservations; every receipt's Artifact exists at all times |
| Failure-domain walk | `DomainWalk` | accepts exactly the calm trees of at most 256 directories and 16 levels, and maps every directory |
| Error publication | `ErrorPublication` | the published text depends only on what the error graph reaches |
| Conversation navigation | `Navigation`, `NavigationCursor` | strict total order; pages concatenate to the unpaged list; changes before the cursor do not show |

Code that changes state step by step is a class or a method with loops; the Review commands, which the source
runs inside one database savepoint each, are functions from a store to a new store or a refusal. Digests and
derived entity ids are datatype constructors, so they are injective. I/O outcomes, clocks, failing commands and
concurrent writers are parameters or nondeterministic choices, so a contract holds for all of them.

## Where the code falls short of the obvious property

Each comes with the exact condition under which the property does hold.

- A receipt over a follow-up decision could be recorded before its Turn exists, by one command shape that the
  operations caller never sends: `ReviewProperties.TwoPhaseExactly`, `ReviewProperties.TurnMayBeSkipped`.
- A submission or a judgement that reaches the authority again with a new clock is refused although its receipt is
  retained, because its time is part of the facts compared: `ReviewReplay.LaterAttemptExactly`,
  `ReviewReplay.LaterJudgementIsRefused`. The caller looks for the receipt first, so this takes two attempts in flight.
- A readable store of exactly 100 cleanup records is reported incomplete when the last source holds none of them:
  `CleanupRead.Read`, `CleanupRead.HundredMayBeIncomplete`.
- A terminal App-update receipt can be replaced when `status` misses a running job:
  `UpdateLifecycle.OverwriteExactly`, `UpdateLifecycle.MissedJobIsOverwritten`.
- A restoration can start an older retained App in place of the previous one when the inspection of the retained
  name fails while that name is taken: `UpdateApply.Updater.Apply`, `UpdateApply.StaleRetainedIsStarted`.
- Staging removes the live Web tree when the staging name leads to it: `UpdateWeb.WebRoot.Stage`,
  `UpdateWeb.StagingNameMayBeLive`.

## Model

| member | source | states |
|---|---|---|
| ReviewAuthority.FindJudgement | apps/nanocore/src/artifact-reviews.ts:461-533 | a judgement is found exactly when its request id occurs |
| ReviewProperties.SaveRevisionAppends | apps/nanocore/src/workspace-materials.ts:1245-1331 | the compare-and-set writer appends to the revision chain and changes no other Material or Review |
| ReviewProperties.ExtendChain | apps/nanocore/src/workspace-materials.ts:1245-1331 | a revision on top of the current one keeps the chain linear and earlier revisions unchanged |
| ReviewProperties.StoredStaysOk | apps/nanocore/src/artifact-reviews.ts:948-974 | a stored Review stays readable whatever later writers append |
| ReviewProperties.WriteRow | apps/nanocore/src/artifact-reviews.ts:654-682 | writing one sound row keeps every other row readable, chains linear and acceptances unique |
| ReviewProperties.CreateKeeps | apps/nanocore/src/artifact-reviews.ts:170-221 | creating the owner of an Artifact version keeps the store coherent and only adds to it |
| ReviewProperties.AppendKeeps | apps/nanocore/src/artifact-reviews.ts:296-335 | a judgement is appended at the end, with request ids unique per Review, and decides nothing |
| ReviewProperties.SelectKeeps | apps/nanocore/src/artifact-reviews.ts:461-533 | recording or replaying a candidate choice keeps the store coherent and only adds to it |
| ReviewProperties.AcceptanceWrites | apps/nanocore/src/artifact-reviews.ts:622-651 | an acceptance appends the child revision and writes only its own row's decision columns |
| ReviewProperties.DecideKeeps | apps/nanocore/src/artifact-reviews.ts:366-436 | a successful decision leaves a store its own reader accepts in full |
| ReviewProperties.CommitKeeps | apps/nanocore/src/artifact-reviews.ts:1278-1471 | every committed command of the five modes keeps the store coherent and only adds to it |
| ReviewProperties.RunStaysCoherent | apps/nanocore/src/artifact-review-v1.ts:73-148 | from an empty store, every row at every point of every run satisfies the version 1 tuple rules and the stored-authority check |
| ReviewProperties.RunOnlyGrows | apps/nanocore/src/artifact-reviews.ts:932-945 | immutable facts, the first decision and every earlier judgement survive any run |
| ReviewProperties.AcceptanceOwnsTheChild | apps/nanocore/src/artifact-reviews.ts:779-814 | an accepted proposal owns the base's only child, which carries the Artifact's digest |
| ReviewProperties.AcceptedOncePerBase | apps/nanocore/src/artifact-reviews.ts:622-682 | at most one Review is ever accepted per Material and base revision, at whatever points of a run |
| ReviewProperties.LocalDecisionCarriesReceipt | apps/nanocore/src/artifact-reviews.ts:1425-1469 | an accepted, rejected or deferred decision commits together with its receipt |
| ReviewProperties.ReceiptImpliesTurn | apps/nanocore/src/artifact-reviews.ts:1425-1469 | over every caller run a refinement or redo receipt exists only when its deterministic Turn exists |
| ReviewProperties.TwoPhaseExactly | apps/nanocore/src/artifact-reviews.ts:1425-1469 | a command keeps that rule if and only if it is not a fresh follow-up decision that carries a receipt before its Turn exists |
| ReviewProperties.TurnMayBeSkipped | apps/nanocore/src/artifact-reviews.ts:1425-1469 | a coherent store and a redo carrying its receipt, which commits and leaves the receipt without a Turn |
| ReviewProperties.ClaimRedrives | apps/nanocore/src/artifact-reviews.ts:366-436 | driving a receiptless claim again changes nothing and names the same Turn |
| ReviewReplay.RetainedReceiptHasNoEffect | apps/nanocore/src/artifact-reviews.ts:1278-1471 | a retained receipt admits no effect, and a different input hash is refused |
| ReviewReplay.EvidenceLater | apps/nanocore/src/artifact-reviews.ts:1278-1471 | what a committed command left behind survives any later store |
| ReviewReplay.CommitLeaves | apps/nanocore/src/artifact-reviews.ts:1278-1471 | a commit leaves the evidence and the receipt that answer its repeat |
| ReviewReplay.ReplayIsExact | apps/nanocore/src/artifact-reviews.ts:1278-1471 | for all five modes, the identical command sent again after any later run succeeds, changes nothing and answers with the original identity |
| ReviewReplay.LaterAttemptExactly | apps/nanocore/src/artifact-reviews.ts:1278-1471 | another attempt at the request with its own clock, while the receipt is retained and unexpired by it: a selection or decision is answered as before; a submission or judgement if and only if it repeats the original time, and is otherwise refused with a known error |
| ReviewReplay.LaterJudgementIsRefused | apps/nanocore/src/artifact-reviews.ts:1399-1406 | a judgement attempted again one tick after its commit, refused although its receipt is retained |
| ReviewReplay.EffectAtMostOnce | apps/nanocore/src/artifact-reviews.ts:1278-1471 | a committed request has no second effect on Reviews, Materials, Turns or references, whatever the clock of a later attempt and also without its receipt |
| ReviewCaller.Caller.Execute | apps/nanocore/src/artifact-reviews.ts:1474-1494 | a command is the savepoint function's result, or leaves the store as it was |
| ReviewCaller.Caller.StartTurn | apps/nanocore/src/storage/control-store-products.ts:273-280 | the Turn record is created exactly when none exists under the reserved id |
| ReviewCaller.ClaimAgainReads | apps/nanocore/src/artifact-reviews.ts:366-436 | claiming a decided Review writes nothing and is refused to every other request |
| ReviewCaller.Caller.Admit | apps/nanocore/src/artifact-operations.ts:612-708 | before its first effect the flow writes nothing; an existing Turn and a Review decided by another request are refused |
| ReviewCaller.Caller.Drive | apps/nanocore/src/artifact-operations.ts:601-821 | with competing callers between any two steps: no follow-up Turn is started twice; an answer means this request decided the Review and its receipt and Turn exist; an existing Turn without its receipt, or a Review decided by another request, refuses and writes nothing |
| ReviewCaller.ApplyKeepsTurns | apps/nanocore/src/artifact-reviews.ts:1278-1471 | no Review command creates or removes a Turn |
| HostMachine.RunKeepsSingle | scripts/host-worker-update/nanohost-maintenance.py:298-354 | over every run of labels, the durable exclusive attempt marker precedes the single permit, which each guarded execution consumes |
| HostMachine.WindowIsInhibited | scripts/host-worker-update/nanohost-systemd.py:200-218 | while the guard stays installed and loaded, every execution is a guarded one |
| HostMachine.AtMostOneExecution | scripts/host-worker-update/nanohost-maintenance.py:298-354 | while the guard stays installed the service executes at most once per replacement id, over every run |
| HostMachine.OneExecutionHappens | scripts/host-worker-update/nanohost-maintenance.py:263-354 | the bound is attained: a run from any untouched host stops the service, publishes the permit and executes once what the live names show |
| Maintenance.OutsideDrifts | scripts/host-worker-update/nanohost-maintenance.py:255-261 | what outside parties can change between two operator actions, and what they cannot; they may also write the live payload names |
| Maintenance.StepStays | scripts/host-worker-update/nanohost-systemd.py:200-218 | while the guard is in force whatever runs was executed under it, and every execution is counted as guarded |
| Maintenance.StepRests | scripts/host-worker-update/nanohost-systemd.py:186-218 | a stopped domain without a permit stays so and executes nothing, also over a reboot when the guard is durable |
| Maintenance.ExecutedThePayload | scripts/host-worker-update/nanohost-maintenance.py:305-345 | a process that began after a stop, between two sights of one payload identity, executed that payload |
| Maintenance.Operator.Inhibit | scripts/host-worker-update/nanohost-maintenance.py:280-290 | a completed inhibition is durable and loaded |
| Maintenance.Operator.Begin | scripts/host-worker-update/nanohost-maintenance.py:263-296 | success means free custody, durable loaded inhibition, a stopped domain and no permit or execution so far; a retained attempt marker always refuses |
| Maintenance.Operator.MarkAttempt | scripts/host-worker-update/nanohost-maintenance.py:298-318 | success means a durable attempt marker of this session over a payload that showed the target while the domain was stopped; a retained marker refuses |
| Maintenance.Operator.PublishPermit | scripts/host-worker-update/nanohost-maintenance.py:319-329 | the permit is published only over the durable marker, after a sight of the sealed domain with the payload seen before |
| Maintenance.Operator.ObserveStarted | scripts/host-worker-update/nanohost-maintenance.py:343-351 | the observed process executed the payload seen before the attempt, whoever writes the names meanwhile |
| Maintenance.Operator.StartOnce | scripts/host-worker-update/nanohost-maintenance.py:298-354 | the returned process executed the target, and under a guard in force it is the one execution; with a retained marker there is no permit, and a sealed domain executes nothing |
| Maintenance.Operator.LiftGuard | scripts/host-worker-update/nanohost-maintenance.py:373-380 | the guard is durably gone, and a process older than this step is the same one |
| Maintenance.Operator.Finalize | scripts/host-worker-update/nanohost-maintenance.py:356-391 | the guard is lifted only after the expected process was seen under it over the target; success means guard and permit absent, stock configuration loaded, marker kept, the expected process still running, and the same payload identities, still the target, found after the guard was gone |
| HostProcedure.LinkOne | apps/nanohost/deploy/install.sh:901-912 | an occupied live name is never replaced; a link over a vacated name appears on the disk too, with the old file still in custody |
| HostProcedure.RunInstaller | apps/nanohost/deploy/install.sh:829-918 | a conflicting live name refuses without effect; success shows the target under every name unless others write them |
| HostProcedure.InstallTarget | scripts/host-worker-update/host-procedure.py:253-272 | success means every live name shows the target in a sealed domain |
| HostProcedure.PutInPlace | scripts/host-worker-update/host-procedure.py:244-272 | success means the target is in place, nothing was executed since the stop, and every replaced payload is in durable custody |
| HostProcedure.StartAndFinish | scripts/host-worker-update/host-procedure.py:273-300 | success means stock supervision around the one guarded execution, which is of the target, with unchanged target identities before and after the guard was lifted |
| HostProcedure.Replace | scripts/host-worker-update/host-procedure.py:244-300 | a completed begin, vacate, install, start and finalize: exactly one execution since the stop, guarded and of the target, is the process that runs; the target's identities were unchanged over the restoration; replaced payloads are in custody and were recoverable at every moment of vacate and install |
| Custody.SafeSurvivesCrash | scripts/host-worker-update/nanohost-replacement.py:144-217 | in a safe state a crash that keeps any subset of unsynchronised entries still finds every old payload; a payload that does not differ is untouched |
| Custody.LinkLinks | scripts/host-worker-update/nanohost-replacement.py:195-197 | the exclusive hard link gives the file its second name and stays safe |
| Custody.SyncRecoveryRetains | scripts/host-worker-update/nanohost-replacement.py:198-203 | a flushed file in a synchronised recovery directory is retained |
| Custody.UnlinkKeeps | scripts/host-worker-update/nanohost-replacement.py:213-215 | removing the live name of a retained file stays safe |
| Custody.PlaceKeeps | apps/nanohost/deploy/install.sh:901-912 | linking a target over the vacant name of a retained payload stays safe |
| Custody.Differing | scripts/host-worker-update/nanohost-replacement.py:155-155 | exactly the payloads whose hashes differ, each once |
| Custody.Root.Measure | scripts/host-worker-update/nanohost-replacement.py:159-170 | success means every live payload measured as expected and no recovery name occupied |
| Custody.Root.MakeRecovery | scripts/host-worker-update/nanohost-replacement.py:173-184 | every parent of a differing payload has a synchronised recovery directory, live names untouched |
| Custody.Root.AttemptSealed | scripts/host-worker-update/nanohost-replacement.py:124-130 | an effect on a payload's own names happens only while nothing runs or can be executed |
| Custody.Root.PlaceTarget | apps/nanohost/deploy/install.sh:901-912 | the link appears on the disk and on the host together, and custody is untouched |
| Custody.Root.Retain | scripts/host-worker-update/nanohost-replacement.py:189-203 | under a fresh fence the old file becomes durably retained |
| Custody.Root.RemoveLive | scripts/host-worker-update/nanohost-replacement.py:204-215 | under a fresh fence a retained payload's live name is removed for good |
| Custody.Root.Recheck | scripts/host-worker-update/nanohost-replacement.py:124-141 | a fresh fence and unchanged remaining payloads |
| Custody.Root.Vacate | scripts/host-worker-update/nanohost-replacement.py:144-217 | every state since the start is safe; success vacates and retains exactly the differing payloads and leaves the domain sealed; occupied custody refuses without effect |
| UpdateContainers.LaunchStaysAlone | scripts/docker/app-update-helper.py:709-712 | a launch issued while nobody writes leaves at most one writer, whatever its exit |
| UpdateContainers.StopAndRenameShrink | scripts/docker/app-update-helper.py:697-706 | stopping and renaming never add a writer, and a completed stop removes its own |
| UpdateContainers.Docker.Exec | scripts/docker/app-update-helper.py:1688-1691 | every command outcome keeps the writers exclusive, and launches happen only while nobody writes |
| UpdateContainers.Docker.ActiveUsers | scripts/docker/app-update-helper.py:1271-1304 | the containers that write now are among the users found |
| UpdateWeb.WebRoot.Stage | scripts/docker/app-update-helper.py:1149-1193 | the live tree is left alone if and only if the staging name does not lead to it; the plan carries both digests |
| UpdateWeb.StagingNameMayBeLive | scripts/docker/app-update-helper.py:1159-1163 | a Web root whose live directory is the staging name loses the served tree when staging clears that name |
| UpdateWeb.WebRoot.Publish | scripts/docker/app-update-helper.py:1195-1216 | success serves the staged tree under the candidate, and the tree served before is not rewritten |
| UpdateWeb.WebRoot.Restore | scripts/docker/app-update-helper.py:1239-1252 | success serves a tree with the expected digest |
| UpdateApply.Updater.Aside | scripts/docker/app-update-helper.py:1226-1237 | the App keeps its name and a free retained name stays free |
| UpdateApply.Updater.StopCandidate | scripts/docker/app-update-helper.py:1253-1266 | success means nobody writes and the retained App is where it was |
| UpdateApply.Updater.Restore | scripts/docker/app-update-helper.py:1239-1269 | success means the retained App runs under the App's name and the recorded Web digest is served |
| UpdateApply.Updater.AwaitBoot | scripts/docker/app-update-helper.py:1568-1592 | an observed boot is new, well formed and of the container under the App's name |
| UpdateApply.Updater.Verify | scripts/docker/app-update-helper.py:1567-1653 | success means every required check holds and the candidate image and Web tree are live |
| UpdateApply.Updater.Admit | scripts/docker/app-update-helper.py:636-678 | success means every observation before staging answered yes |
| UpdateApply.Updater.Interrupt | scripts/docker/app-update-helper.py:687-702 | the App is stopped only when idle and alone; afterwards it is under its own or the retained name |
| UpdateApply.Updater.Launch | scripts/docker/app-update-helper.py:703-714 | success means the App is retained, the staged tree is served and the candidate was started |
| UpdateApply.Updater.Attempt | scripts/docker/app-update-helper.py:636-732 | what a succeeded, a raised and an untouched run leave in the receipt, the containers and the Web root |
| UpdateApply.Updater.FailOrRestore | scripts/docker/app-update-helper.py:738-767 | the recorded end tells whether the previous App was put back, and three error codes are raised again |
| UpdateApply.Updater.Apply | scripts/docker/app-update-helper.py:622-767 | at every moment one writer at most; terminal receipts left alone; success and failure with restoration described exactly, the previous App back if and only if the retained name was free |
| UpdateApply.StaleRetainedIsStarted | scripts/docker/app-update-helper.py:1226-1269 | a possible sequence of command outcomes after which the restoration has started an older App |
| UpdateLifecycle.RunStaysSound | scripts/docker/app-update-helper.py:579-620 | over every interleaving, the stored receipt is evidenced, never returns to prepared and launches at most once; succeeded implies every required predicate |
| UpdateLifecycle.StepKeepsSound | scripts/docker/app-update-helper.py:622-736 | each start, status and job write keeps that |
| UpdateLifecycle.TerminalAbsorbs | scripts/docker/app-update-helper.py:1693-1714 | while a running job is seen live, no run replaces a terminal receipt |
| UpdateLifecycle.OverwriteExactly | scripts/docker/app-update-helper.py:1693-1714 | a terminal receipt can be replaced if and only if the job still has a version to write |
| UpdateLifecycle.MissedJobIsOverwritten | scripts/docker/app-update-helper.py:1693-1714 | a run in which a status call that misses the job leads to a replaced terminal receipt |
| UpdateFormat.RequireSource | scripts/docker/app-update-helper.py:499-512 | an accepted release identity has exactly the three known fields, as submitted and each in its format |
| UpdateFormat.SourceIdempotent | scripts/docker/app-update-helper.py:499-512 | an accepted release identity is accepted again unchanged, also strictly |
| UpdateFormat.ParseWorkPreflight | scripts/docker/app-update-helper.py:1892-1913 | an accepted preflight is idle exactly when all its counts are zero |
| UpdateFormat.PreflightIdempotent | scripts/docker/app-update-helper.py:1892-1913 | an accepted preflight is accepted again unchanged |
| UpdateFormat.SummaryProjectionIdempotent | scripts/docker/app-update-helper.py:1916-1945 | projecting a projected approval summary changes nothing |
| UpdateFormat.LoadIsStable | scripts/docker/app-update-helper.py:1808-1853 | for every JSON value, a loaded receipt written back loads as itself |
| UpdateFormat.Prepare | scripts/docker/app-update-helper.py:547-577 | a prepared receipt binds the validated command and an idle preflight |
| UpdateFormat.WrittenLoads | scripts/docker/app-update-helper.py:1808-1853 | an evidenced, bound receipt is accepted unchanged by the next load |
| UpdateFormat.WrittenProjects | scripts/docker/app-update-helper.py:1948-1981 | an evidenced, bound receipt projects to a public status |
| UpdateFormat.EveryVersionLoads | scripts/docker/app-update-helper.py:547-767 | in every run, every version of the receipt loads as written and projects |
| CleanupEncoding.ItemBytesExact | apps/nanocore/src/administrator-cleanup-operations.ts:57-98 | the running byte count is the length of the encoded item list |
| CleanupEncoding.JsonBytesExact | apps/nanocore/src/administrator-cleanup-operations.ts:282-284 | the budget arithmetic counts exactly the bytes of the compact response |
| CleanupEncoding.CoverageFitsMaximum | apps/nanocore/src/administrator-cleanup-operations.ts:261-270 | no well-formed coverage row is longer than the one reserved for its source |
| CleanupEncoding.MetadataFits | apps/nanocore/src/runtime/administrator-cleanup-view.ts:232-238 | every combination of coverage flags fits the reserved metadata |
| CleanupRead.AddReason | apps/nanocore/src/administrator-cleanup-operations.ts:273-279 | the source becomes incomplete with the reason once, keeping earlier reasons |
| CleanupRead.VisitDeletions | apps/nanocore/src/workspace-deletion-request.ts:173-215 | the items are the first records in order, and the stop is explained by the record that follows them |
| CleanupRead.VisitRows | apps/nanocore/src/runtime/administrator-cleanup-view.ts:137-151 | the same for rows: within the item and byte budgets, with the exact bytes taken |
| CleanupRead.ReadDeletions | apps/nanocore/src/administrator-cleanup-operations.ts:69-104 | within both limits; a source that is not incomplete lists every record; a limit is named as reason; a readable source with room is complete |
| CleanupRead.ReadRegistry | apps/nanocore/src/administrator-cleanup-operations.ts:106-182 | the same for registry rows, after the deletions |
| CleanupRead.ReadSource | apps/nanocore/src/runtime/administrator-cleanup-view.ts:127-163 | the same for one runtime source under item, byte and visit budgets |
| CleanupRead.ReadSources | apps/nanocore/src/runtime/administrator-cleanup-view.ts:113-168 | every runtime source is accounted for; without an item budget all are reported unvisited |
| CleanupRead.Trim | apps/nanocore/src/runtime/administrator-cleanup-view.ts:176-185 | keeps a prefix that fits or none, marks every source that lost an item, and keeps what already fits |
| CleanupRead.ReadRuntime | apps/nanocore/src/runtime/administrator-cleanup-view.ts:91-190 | the fragment fits its budgets, and a budget that carries all coverage rows is never refused |
| CleanupRead.RuntimeBudgetSuffices | apps/nanocore/src/administrator-cleanup-operations.ts:186-198 | the space left for the runtime fragment always carries its coverage |
| CleanupRead.AssembledFits | apps/nanocore/src/administrator-cleanup-operations.ts:213-227 | the joined response fits, so the final truncation drops nothing |
| CleanupRead.Read | apps/nanocore/src/administrator-cleanup-operations.ts:37-228 | an answer fits 100 items and 262144 bytes, has the seven sources in order, lists every record of each source that is not incomplete; only lost authority refuses; a readable store with room for the coverage is reported completely if and only if it has fewer than 100 records, or exactly 100 with some in the last source |
| CleanupRead.CompleteCounts | apps/nanocore/src/administrator-cleanup-operations.ts:209-227 | a complete response has exactly one item per record |
| CleanupRead.HundredMayBeIncomplete | apps/nanocore/src/runtime/administrator-cleanup-view.ts:117-126 | one hundred small deletion requests and nothing else fit every limit, and the condition for a complete response fails |
| ArtifactImport.Importer.Replay | apps/nanocore/src/artifact-file-commands.ts:204-238 | an accepted receipt answers only for the same actor and the same original |
| ArtifactImport.Importer.Execute | apps/nanocore/src/artifact-file-commands.ts:85-156 | one reservation at most, and an existing Artifact refuses before it without effect |
| ArtifactImport.Importer.RunIdempotent | apps/nanocore/src/runtime/idempotent-command.ts:194-440 | a receipt that is found is replayed without effect, a different input conflicts, another actor of the same user is refused; an expired receipt is not found, and its own Artifact then refuses |
| ArtifactImport.Importer.Rollback | apps/nanocore/src/artifact-file-commands.ts:160-186 | an Artifact is taken back only without a receipt and on a constraint failure |
| ArtifactImport.Importer.Import | apps/nanocore/src/artifact-file-commands.ts:36-201 | reservations are released once or retained as unproved; every receipt's Artifact exists in every state; a receipt that is found is never replaced and answers only its own import; an Artifact whose receipt is missing or expired refuses without effect |
| DomainWalk.CheckEvents | scripts/host-worker-update/nanohost-systemd.py:260-268 | accepts exactly well-formed, duplicate-free events of an unpopulated domain |
| DomainWalk.CalmMeans | scripts/host-worker-update/nanohost-systemd.py:247-286 | acceptance means every directory below, at any depth, is calm and within 16 levels |
| DomainWalk.RefusedMeans | scripts/host-worker-update/nanohost-systemd.py:247-286 | refusal of a tree means some directory below is not calm or lies too deep |
| DomainWalk.SizeCounts | scripts/host-worker-update/nanohost-systemd.py:247-286 | in a calm tree the walk's count is the number of directories at or below the root |
| DomainWalk.AcceptableMeans | scripts/host-worker-update/nanohost-systemd.py:247-286 | the recursive checks hold if and only if every directory is calm, at most 16 levels down, and there are at most 256 |
| DomainWalk.Walk.Visit | scripts/host-worker-update/nanohost-systemd.py:253-281 | terminates on any tree; on an unchanging one accepts exactly the calm subtrees within the count, observing each directory once |
| DomainWalk.Walk.Domain | scripts/host-worker-update/nanohost-systemd.py:247-286 | accepts an unchanging tree if and only if it has at most 256 directories, all calm and within 16 levels, and then maps exactly these; an absent domain gives none |
| ErrorPublication.ClosedSetHolds | apps/nanocore/src/api-errors.ts:47-78 | a set closed under causes and aggregates contains everything reached |
| ErrorPublication.PublishedErrorMessage | apps/nanocore/src/api-errors.ts:47-78 | terminates on cyclic graphs; preparation, then retained read, then decoder text, by reachability alone, else the authored message |
| Navigation.CompareTotal | apps/nanocore/src/app-dashboard.ts:741-750 | the comparator is antisymmetric and zero only for the same place |
| Navigation.CompareTransitive | apps/nanocore/src/app-dashboard.ts:741-750 | the comparator is transitive |
| Navigation.LessTotal | packages/protocol/src/common/string-order.ts:1-4 | code-unit order is total and strict |
| Navigation.SortSorts | apps/nanocore/src/app-dashboard.ts:871-873 | sorting rearranges rows with distinct Threads into the strict order |
| Navigation.NextContinues | apps/nanocore/src/app-dashboard.ts:871-890 | a continuation resumes right after the last row of its page |
| Navigation.PagesConcatenate | apps/nanocore/src/app-dashboard.ts:871-890 | with any positive limit, pages end and concatenate to the unpaged list |
| Navigation.ChangesBeforeDoNotShow | apps/nanocore/src/app-dashboard.ts:871-890 | a page depends only on the rows after its position |
| Navigation.AnchorMayGo | apps/nanocore/src/app-dashboard.ts:871-890 | removing the anchor row neither skips nor repeats another row |
| NavigationCursor.Base64RoundTrip | apps/nanocore/src/app-dashboard.ts:753-776 | base64url decoding undoes encoding for every byte string |
| NavigationCursor.CursorRoundTrip | apps/nanocore/src/app-dashboard.ts:753-776 | a cursor leads back to its position if and only if the schema admits it and the Workspace is its own |
| NavigationCursor.FollowingReadsAll | apps/nanocore/src/app-dashboard.ts:779-898 | sending each next cursor back reads exactly the unpaged list |
| NavigationCursor.FollowingEnds | apps/nanocore/src/app-dashboard.ts:779-898 | following cursors comes to an end |

## Left out

- Review savepoints: the row updates are modelled on values, so statement-level rollback inside SQLite is taken as given.
- Review file preparation (`prepareControlReviewCommand`) and Product journal entries of a submission.
- ReviewAuthority.SaveRevision: does not queue the Thread bindings that follow a saved revision.
- ReviewCaller.Caller.Admit: the agent, idle-Thread and trace checks are one eligibility flag, and queued scheduler admissions under the Turn id are not modelled.
- ReviewCaller.Caller.Drive: the prompt and the worker checkpoint of the follow-up, and their proof before the receipt, are not modelled.
- Review proposal columns are all present or all absent in the model; a partial tuple is not representable.
- ReviewCaller.Caller.StartTurn: admission and scheduling of the worker Turn are not modelled, only the rule by which its record is created.
- Maintenance.Operator.Begin: the inspection of unit search roots, queued jobs and triggering units, and the hash syntax checks are not modelled.
- Maintenance.Operator.StartOnce: refusing is always admitted by the contract; that a start without interference succeeds is not stated.
- HostProcedure.RunInstaller: the installer's temporary files, its lock and the durability of its links are not modelled.
- HostProcedure.Replace: the preflight and the native inspections, which only observe, and the retained-input comparison are not modelled.
- The systemd supervisor is the label machine of `HostMachine`; unit search paths, activation units and bus answers are part of its enabled steps.
- Custody.Root.Vacate: other processes do not touch the payload or recovery names on its disk meanwhile; the identity checks for that are kept but cannot fail. Writes by others are part of the host that the start and finalize checks observe; the host's names and the disk's are tied to each other until the first such write.
- Custody link counts and time stamps of a payload are not part of its modelled identity.
- UpdateApply.Updater.Apply: restart policies, a command that takes effect only after its timeout, and other parties that start a Data Root writer are not modelled.
- UpdateApply.Updater.Admit: deployment bindings, release attribution, capacity, smoke and migration checks are single answers given as parameters; how they are measured is not modelled.
- UpdateApply.Updater.Verify: the NanoHost, token-list and helper observations are free booleans; their parsing is not modelled.
- UpdateWeb.WebRoot.Stage: `current` leads to a direct child of the root, through at most one link; the container used for extraction is not modelled.
- UpdateFormat regular expressions, secret redaction and text rendering are parameters; the fixed review texts are taken to contain no secret. The 64 KiB limit and the JSON text itself are not modelled, and object keys are an enumeration with one case for all other names.
- UpdateLifecycle.RunStaysSound: start and status are atomic, and the busy check against other receipts is a flag.
- The App-update configuration reader, standard-input reader and boot-readiness parser are not modelled.
- Cleanup item projections (`projectDeletion`, `projectKnownFields`) are opaque encoded texts.
- ArtifactImport.Importer.Import: payload staging, the stream and the storage admission are single outcomes, and one clock reading stands for the whole attempt.
- ArtifactImport.Importer.RunIdempotent: concurrent duplicates that share one in-flight promise are not modelled.
- The version-commit commands beside the import are not modelled.
- DomainWalk.Walk.Visit: a tree that changes during the walk may be refused at any directory; what it then observed is the facts as read.
- Navigation row building (unread counts, goals, activity kinds) and Thread visibility.
- NavigationCursor.CursorRoundTrip: JSON text is a parameter whose parsing undoes its printing.
- Everything else in the repository: model gateway, scheduler, knowledge index, vault, Web client and protocol schemas.
