# A verified model of the governed-agent platform

The platform runs agents across three processes that may crash at any moment: an agent runtime
(hosts executing a model/tool loop), a control plane (the Action Gateway, which decides, approves and
dispatches what agents want to do) and an execution runtime (which performs granted operations in
workspaces). Its promise is that nothing governed happens twice, nothing happens unapproved and
nothing is claimed that is not known, whatever crashes. This project models the three processes, the
exact data transformations under them, and proves those promises over every history.

How it is built:

- **One run.** `Kernel` is the native kernel as a coroutine: what it awaits, and what it does with the
  answer. `NativeKernel` is the same kernel as the loops it is written as, proved to do what the
  coroutine does on every script of answers. `Checkpoints` relates a suspended kernel to the checkpoint
  under it. `RunProtocol` puts any number of hosts on one run, with crashes at every await and saves
  that are late, repeated or lost. `RuntimeHost` is the host's retry loop around a save, proved to be a
  history of the protocol. `CrashTransparency` compares cut runs with the uncut one. `GovernedCalls`
  says what a kernel may run on any script of answers. `RuntimeEvents` is event delivery.
- **The gateway.** `ActionGateway` says what each transaction does to the tables, `GatewayAnswers` what it
  has to answer, described from the outside; `GatewayService` is
  the service whose methods do it row by row. `GatewayHistory`, `GatewayTheorems` and
  `GatewayPermissions` quantify over every history, including stopped control planes and what really
  happened at the connector; `ControlPlane` is the service over time, each call of which is one act of a
  history. `Policy`, `RunLifecycle` and `ChangeSet` are what it decides with.
- **The execution runtime.** `ExecutionRuntime` is its small-step machine, `ExecutionHistory` the
  theorems, `ExecutionService` the service and its recovery loops.
- **Together.** `EndToEnd` interleaves the three.
- **Canonical JSON.** `CanonicalJson` is the text under every digest (sections 4, 5 and 7 of RFC 8259,
  key order as in section 3.2.3 of RFC 8785), with a parser that reads it back; `CanonicalText` says
  which of the texts for a value it is.
- **Smaller parts.** `Artifacts`, `Metrics`, `Readiness`, `CatalogRegistry`, `CatalogReload` and `Versions`.

A history is a sequence of acts, and the state after it is a fold; a lemma about every such sequence is
a statement about every interleaving. Identifiers, clocks, policy and manifest state, connector and
model answers, and the moments of crashes are inputs of the acts, so nothing is assumed about them
beyond what is written down. The assumptions are: SHA-256 has no collisions; drawn identifiers are
fresh; each database transaction is atomic; a connector that reports success did the write, and one
that fails with anything but an unknown outcome did not.

## Where the code and its documentation part

- `packages/readiness/src/assess.ts` says that live proofs do not count towards the code's proofs. One
  that *passed* can: it closes a limitation that is blocking, or one of any severity whose capability
  has green as its minimum, and so lets the code's proofs pass (`PassedLiveProofsDoCount`). These are
  all the ways (`AsIfNoneHadRun`, an if and only if), and a failed and a missing live proof make no
  difference (`FailedOrNotRunIsTheSame`).
- `compareVersions` in the catalog service is documented as the numeric order of semantic versions, a
  pre-release before its release. For some versions the catalog schema admits
  (`packages/contracts/src/catalog-schemas.ts:12`) it is not: tags compare as text, so `1.0.0-rc.10` comes
  before `1.0.0-rc.2` (`NumbersCompareAsText`); only the part of a tag before its second dash is compared,
  so `1.0.0-a-b` and `1.0.0-a-c` tie (`TruncatedTagsTie`); and `1.0.0` and `1.0.0--a` each compare as later
  than the other (`DashedTagsClash`, `BothLaterIffClash`). `SemanticExactlyInOrder` says for exactly which
  versions it is semantic versioning's order, `CompareIsAnOrder` that but for clashes it is an order up to
  ties.
- Which version is the latest depends on the order the rows are read in, which the query leaves open,
  exactly where such ties or clashes are topmost (`LatestIsOne`, `TiesDependOnTheOrder`).
- The execution runtime checks that a workspace's directory exists once, before it redeems a lease. If
  the directory vanishes after the check the provider still runs (`VanishedUnderneath`);
  `MissingExactlyIfItVanished` shows this is the only way.
- A checkpoint whose acknowledgement is lost is not recognized by the retry: the retry conflicts with
  the host's own save and the host gives the run up (`LostReplyStopsTheHost`; `GivenUpThoughDurable`
  says exactly when). The state is durable, so a lost lease of this kind costs the life and not the run.

- After a crash in an authenticated checkout the recorded response says the workspace is READY, but its
  row stays IN_USE until the next operation in it ends: recovery resets the rows of the other claims only
  (`Recover`). Nothing depends on the row.

## Model

| member | source | states |
|---|---|---|
| NativeKernel.Live | apps/agent-runtime/src/kernel/native-kernel.ts:109-448 | on every script of answers, one life of the imperative kernel ends in the state and outcome the coroutine ends in, or is cut exactly where the coroutine is still waiting; it terminates; continued with a rejected approval, or one for something else, it fails so with the checkpoint as it was |
| NativeKernel.Runtime.TraceIsDrive | apps/agent-runtime/src/kernel/native-kernel.ts:153-239 | what the imperative kernel has awaited and been answered so far is a run of the coroutine |
| NativeKernel.RejectedEndsAtOnce | apps/agent-runtime/src/kernel/native-kernel.ts:132-139 | on no script does a life continued with a rejected or mismatched approval wait for a decision, a tool, the model or a save |
| NativeKernel.ApprovedGoesOn | apps/agent-runtime/src/kernel/native-kernel.ts:140-144 | any other life goes on, and a call whose approval was given runs its tool next, under its recorded request, without being asked about again |
| NativeKernel.ApprovalFoundAgain | apps/agent-runtime/src/kernel/native-kernel.ts:362-371 | a call whose pause was never saved, asked about again and told of the approval given, saves it and runs |
| GovernedCalls.GovernedToolsAreCleared | apps/agent-runtime/src/kernel/native-kernel.ts:342-373 | on every script, a governed tool runs only under a request that was allowed, whose approval this life was given, or whose approval the checkpoint records |
| GovernedCalls.UngovernedToolsAreFree | apps/agent-runtime/src/kernel/native-kernel.ts:342-346 | and without a request only after it was found to need none |
| GovernedCalls.UnapprovedCallsPause | apps/agent-runtime/src/kernel/native-kernel.ts:362-369 | a call that needs an approval nobody gave pauses the run, with the approval in its state |
| GovernedCalls.AbortsAndErrorsEnd | apps/agent-runtime/src/kernel/native-kernel.ts:151-240 | an abort, and an error in a save, a decision or an event that must not fail, end the run with their code and the state as it was |
| NativeKernel.NativeKernel.RunTools | apps/agent-runtime/src/kernel/native-kernel.ts:242-261 | the tool loop answers each remaining call, saves after each, and leaves turns and messages alone |
| NativeKernel.NativeKernel.RunTool | apps/agent-runtime/src/kernel/native-kernel.ts:263-301 | a call is answered or pauses the run; one whose step ended elsewhere is answered as unknown at once |
| NativeKernel.NativeKernel.DecideAndRun | apps/agent-runtime/src/kernel/native-kernel.ts:342-373 | a governed call is decided under its recorded request, and a known approval is not asked for again |
| Checkpoints.StepTracks | apps/agent-runtime/src/kernel/native-kernel.ts:153-448 | whatever a kernel is answered, what it saves next is one legal step on from the checkpoint it last saved or loaded |
| Checkpoints.FollowsKeepsWellFormed | apps/agent-runtime/src/kernel/native-kernel.ts:226-258 | a legal save keeps messages alternating, two per turn, and results in order under their own tool-use ids |
| Checkpoints.FollowsMovesOn | apps/agent-runtime/src/kernel/native-kernel.ts:332-341 | a save never goes back to an earlier position and never changes the request of a recorded call |
| RunProtocol.OneRequestPerPosition | apps/agent-runtime/src/kernel/native-kernel.ts:332-356 | with any number of hosts, interleavings, crashes and lost or late messages, at most one request id is ever sent per tool-call position |
| RunProtocol.AskedIsRecorded | apps/agent-runtime/src/kernel/native-kernel.ts:338-341 | nothing is asked before the call is durably recorded under that very request |
| RunProtocol.EverySaveIsWellFormed | apps/agent-runtime/src/kernel/native-kernel.ts:153-261 | every checkpoint ever saved, by any life, is well formed, within the turn limit |
| RunProtocol.SavedVersionsStand | apps/agent-runtime/src/checkpoints.ts:66-73 | a version is saved once, by one life, and never changes |
| RunProtocol.RecordedCallsAgree | apps/agent-runtime/src/kernel/native-kernel.ts:332-341 | along the checkpoint history positions only move on and a recorded call keeps its request |
| CrashTransparency.CutRunsEndAsUncut | apps/agent-runtime/src/kernel/native-kernel.ts:275-285 | with deterministic answers, a run cut anywhere and continued any number of times ends with the uncut run's transcript and outcome |
| CrashTransparency.StepFuture | apps/agent-runtime/src/kernel/native-kernel.ts:153-448 | no honest answer changes how the run will end |
| CrashTransparency.UnknownExactlyInTheWindow | apps/agent-runtime/src/kernel/native-kernel.ts:275-285 | in every history, a recorded call that is taken over is answered TOOL_OUTCOME_UNKNOWN without asking or running anything exactly if its step ended at the control plane; else the host goes on with that very call |
| CrashTransparency.AnsweredCallsNeverRunAgain | apps/agent-runtime/src/kernel/native-kernel.ts:255-258 | no life standing on a save or a later one works on an earlier call |
| RuntimeHost.RunFrame.Checkpoint | apps/agent-runtime/src/runtime-host.ts:436-489 | the retry loop leaves the world, the version counter and the abort signal as the attempts say; a body holding a credential is refused exactly when it does |
| RuntimeHost.HostsFollowTheProtocol | apps/agent-runtime/src/runtime-host.ts:466-488 | whatever happens to a host's attempts, the run stays a history of the protocol |
| RuntimeHost.EndingsAreTrue | apps/agent-runtime/src/runtime-host.ts:466-488 | a kept checkpoint is durable under exactly the next version by this life; a lease is lost only if that version is taken; any other ending leaves the version as it was |
| RuntimeHost.FirstAnswerDecides | apps/agent-runtime/src/runtime-host.ts:466-488 | the checkpoint is kept or the lease lost exactly if the first attempt that hears anything is answered; otherwise the state could not be saved |
| RuntimeHost.UnkeptLivesFail | apps/agent-runtime/src/runtime-host.ts:475-486 | a life whose checkpoint is not kept fails with the code for it and the state it wanted saved |
| RuntimeHost.GivenUpThoughDurable | apps/agent-runtime/src/runtime-host.ts:466-488 | a host gives the run up although the state it was saving is durable as its own exactly if a request of its arrived, at once or late, as the next version and the answer did not reach it |
| RuntimeHost.ControlPlane.SaveCheckpoint | apps/agent-runtime/src/checkpoints.ts:200-206 | exactly the next version is accepted, anything else changes nothing |
| RuntimeEvents.RunEvents.Emit | apps/agent-runtime/src/runtime-host.ts:67-94 | the redelivery loop: a delivered event is in the history once under the next number however often it was sent; an undelivered one leaves the host's counter as it was |
| RuntimeEvents.LandedIsThere | apps/agent-runtime/src/runtime-host.ts:84-93 | whether or not the host heard of it, the event is in the history exactly if a delivery arrived when its number was the next, and then under that number |
| RuntimeEvents.RedeliveryIsRecognized | apps/agent-runtime/src/runtime-host.ts:84-93 | once it is there, the first answered redelivery says so |
| CanonicalJson.CanonicalReadsBack | packages/contracts/src/manifest.ts:7-19 | parsing canonical text gives the value back with its keys sorted |
| CanonicalJson.PrintAlikeIffSame | packages/contracts/src/manifest.ts:7-19 | two values print alike exactly when they are equal up to object key order |
| CanonicalJson.EqualDigestsAreSame | packages/contracts/src/manifest.ts:7-19 | equal digests are equal payloads, and the other way round |
| CanonicalJson.PrintReadsBack | packages/contracts/src/manifest.ts:7-19 | any printed value is read back, whatever text follows it that does not begin with a digit, which a number would take for its own |
| CanonicalJson.StringReadsBack | packages/contracts/src/manifest.ts:16-18 | every sequence of UTF-16 units survives quoting, lone surrogates included |
| CanonicalJson.AscendingIsUnique | packages/contracts/src/manifest.ts:11-14 | a set of members has one arrangement in key order |
| CanonicalText.CanonicalIsShortest | packages/contracts/src/manifest.ts:7-19 | among the texts without lone surrogates that parse to the value with its keys in order, the canonical text is the shortest, and with lower-case escapes the only one of its length |
| CanonicalText.QuotedIsShortest | packages/contracts/src/manifest.ts:16-18 | the same of a quoted string |
| CanonicalText.KeyOrder | packages/contracts/src/manifest.ts:11-14 | keys are in the order of their first different UTF-16 unit |
| ChangeSet.FilesAreTheDirectory | apps/control-plane-api/src/actions/action-gateway.ts:1103-1126 | the change set's files are exactly what the directory holds after replaying the recorded writes into nothing |
| ChangeSet.FilesAscend | apps/control-plane-api/src/actions/action-gateway.ts:1124-1126 | its paths strictly increase |
| ChangeSet.SameFilesSameChangeSet | apps/control-plane-api/src/actions/action-gateway.ts:1103-1133 | histories that leave the same files resolve alike, limits and digest included |
| ChangeSet.EqualDigestsEqualFiles | apps/control-plane-api/src/actions/action-gateway.ts:1132-1132 | equal change-set digests are equal files |
| ChangeSet.Collect | apps/control-plane-api/src/actions/action-gateway.ts:1113-1132 | the loops that fill and measure the map compute the resolved change set |
| ChangeSet.ResolvesWithinLimits | apps/control-plane-api/src/actions/action-gateway.ts:1103-1133 | a change set resolves exactly if it has files, at most a hundred, and at most a mebibyte of content in UTF-8 |
| Policy.StrictestDemand | packages/policy-engine/src/index.ts:126-158 | the decision is one of what platform, manifest, organization and scope demand, and at least as strict as each |
| Policy.TighteningTightens | packages/policy-engine/src/index.ts:126-158 | tightening any input never loosens the decision |
| Policy.NotDenied | packages/policy-engine/src/index.ts:126-158 | what is not denied is in scope and as strict as every policy, and has a time limit exactly if it needs approval |
| Policy.PlatformDeniesTheRest | packages/policy-engine/src/index.ts:20-95 | what the platform does not name is denied |
| Policy.ReasonsNameWhoDecided | packages/policy-engine/src/index.ts:126-158 | the reason is that of the organization or the manifest only if it is stricter than all before it |
| ActionGateway.AssessmentIsStrict | apps/control-plane-api/src/actions/action-gateway.ts:940-1090 | an assessment that is not a denial is for the given payload, in scope, and as strict as every policy |
| GatewayAnswers.AssessmentIsExact | apps/control-plane-api/src/actions/action-gateway.ts:940-1090 | an assessment names the first check that fails; if none does it is the strictest demand, with the policy's time limit, for exactly what was asked |
| GatewayAnswers.RequestsAreAnswered | apps/control-plane-api/src/runtime/runtime-transport-service.ts:635-665 | what every request is told: accepted or not and why, decided as assessed unless fenced, with its row, its approval and its pause |
| GatewayAnswers.PreparationIsExact | apps/control-plane-api/src/actions/action-gateway.ts:333-486 | an execution is dispatched exactly if nothing stands against it, in the order the first objection is named, else refused, reported or closed as interrupted |
| GatewayAnswers.IssueIsExact | apps/control-plane-api/src/actions/action-gateway.ts:745-888 | a grant is issued exactly if nothing stands against it, for the recorded payload, and for ten minutes or as long as its approval lasts |
| GatewayAnswers.CompletionIsExact | apps/control-plane-api/src/actions/action-gateway.ts:580-711 | an open dispatch gets the outcome its connector's reply asks for, and only an unknown write a reconciliation; a closed one stays as it was |
| GatewayAnswers.DecisionIsExact | apps/control-plane-api/src/database.ts:1967-2040 | what every decision on an approval is told, and that it queues the waiting run again or cancels it |
| GatewayAnswers.SweepIsExact | apps/control-plane-api/src/actions/action-gateway.ts:896-938 | exactly the overdue approvals expire, exactly the runs waiting for them are cancelled, and nothing else differs |
| GatewayAnswers.EventIsExact | packages/contracts/src/run-lifecycle.ts:64-92 | which runtime events are accepted, and that they move their run and nothing else |
| GatewayService.Gateway.ExpireDue | apps/control-plane-api/src/actions/action-gateway.ts:896-938 | expiring due approvals one at a time, in any order, expires exactly those due and cancels exactly the runs they paused |
| ControlPlane.ControlPlane.RequestAction | apps/control-plane-api/src/runtime/runtime-transport-service.ts:635-665 | after any history a request is one more act of it; a new one is decided as assessed, or denied if a reconciliation fences it, with payload, approval and pause accordingly; a repeated one is answered from the record; a refused one changes nothing |
| ControlPlane.ControlPlane.PrepareExecution | apps/control-plane-api/src/actions/action-gateway.ts:313-486 | after the sweep a request is dispatched exactly if nothing stands against it, once, for the recorded payload, and for no write under an open reconciliation; any other answer says why, and an error changes nothing |
| GatewayService.Gateway.PrepareExecution | apps/control-plane-api/src/actions/action-gateway.ts:313-486 | a request is dispatched, refused for good, reported or closed as interrupted, and an error leaves the tables as they were |
| GatewayService.Gateway.ReconcileInterrupted | apps/control-plane-api/src/actions/action-gateway.ts:542-577 | every dispatch of the batch is closed once and counted |
| ControlPlane.ControlPlane.CompleteExecution | apps/control-plane-api/src/actions/action-gateway.ts:651-711 | a call that returned is a success, an error keeps its code, a write that was not answered for is unknown and put to reconciliation; a dispatch closed before stays closed; successes happened and definite failures did not |
| ControlPlane.ControlPlane.DecideApproval | apps/control-plane-api/src/database.ts:1967-2040 | succeeds exactly for a pending approval of the organization, before it expires, decided by someone other than who asked; the waiting run is queued or cancelled; overdue approvals expire whatever becomes of it |
| ControlPlane.ControlPlane.IssueGrant | apps/control-plane-api/src/actions/action-gateway.ts:717-888 | after the sweep a grant is issued exactly if nothing stands against it, once per request, and lasts no longer than its approval |
| GatewayService.Gateway.IssueGrant | apps/control-plane-api/src/actions/action-gateway.ts:717-888 | one grant per request, re-authorized when issued; a refusal leaves no trace |
| GatewayService.Gateway.DecideApproval | apps/control-plane-api/src/database.ts:1967-2040 | nobody decides their own request, nothing is decided twice or after expiry, and expiry stands even if the decision fails |
| GatewayService.Gateway.BlockedBy | apps/control-plane-api/src/actions/action-reconciliation.ts:76-93 | the search finds a blocking reconciliation exactly if there is one |
| GatewayService.Gateway.Resolve | apps/control-plane-api/src/actions/action-reconciliation.ts:159-207 | succeeds exactly for an open reconciliation of the organization, resolves it and leaves every other row alone |
| GatewayTheorems.RecordedOutcomesAreTrue | apps/control-plane-api/src/actions/action-gateway.ts:580-711 | a write recorded as succeeded happened; one recorded with a definite failure did not and never will, late answers and stopped control planes included |
| GatewayTheorems.OutcomesAreAnswers | apps/control-plane-api/src/actions/action-gateway.ts:580-711 | whatever the history, a recorded outcome is the one its connector's reply asks for, unless the dispatch was closed as interrupted |
| GatewayTheorems.UnknownWritesDidNotReturn | apps/control-plane-api/src/actions/action-gateway.ts:602-613 | a write is put to reconciliation as unknown only if its connector did not return and did not say why |
| GatewayTheorems.OnlyStaleOnesAreInterrupted | apps/control-plane-api/src/actions/action-gateway.ts:542-577 | a dispatch is closed as interrupted only when it is older than a dispatch may be, at most a hundred at a time |
| GatewayTheorems.BlockedExactlyWhileOpen | apps/control-plane-api/src/actions/action-reconciliation.ts:76-93 | a recorded write is blocked exactly by an open reconciliation of its action, in its thread or with the same payload |
| GatewayTheorems.ReconciliationsAreExact | apps/control-plane-api/src/actions/action-gateway.ts:493-536 | a reconciliation row exists for exactly the writes whose recorded outcome is unknown or interrupted, with their own payload digest |
| GatewayTheorems.HistoryLasts | apps/control-plane-api/src/actions/action-gateway.ts:659-678 | decisions, recorded outcomes, replies and resolutions never change; an execution leaves DISPATCHING once; a reconciliation opens once and is resolved once |
| GatewayTheorems.FenceHolds | apps/control-plane-api/src/actions/action-gateway.ts:432-444 | while a reconciliation is open, no write of its action is dispatched in its thread, nor with the same payload up to key order anywhere in its organization |
| GatewayTheorems.FencedRequestsAreDenied | apps/control-plane-api/src/actions/action-gateway.ts:153-173 | a new request for such a write is denied and its payload not kept |
| GatewayTheorems.OneCallPerRequest | apps/control-plane-api/src/actions/action-gateway.ts:333-363 | a request causes at most one connector call, ever, with the payload and change set it was decided for |
| GatewayHistory.EveryHistoryKeeps | apps/control-plane-api/src/actions/action-gateway.ts:313-711 | rows, dispatches in flight, replies, what really happened and reconciliations agree after every history |
| GatewayPermissions.DispatchesAreAuthorized | apps/control-plane-api/src/actions/action-gateway.ts:396-456 | at every dispatch payload and change set are the recorded ones, today's policy agrees, and if approval was needed then or now someone else granted one that has not expired |
| GatewayPermissions.GrantsAreAuthorized | apps/control-plane-api/src/actions/action-gateway.ts:765-850 | every new grant is as well authorized, for the recorded payload, and ends within its approval and ten minutes |
| GatewayPermissions.OneGrantPerRequest | apps/control-plane-api/src/actions/action-gateway.ts:745-755 | one grant per request, each under its own id |
| GatewayPermissions.GrantsStand | apps/control-plane-api/src/actions/action-gateway.ts:745-755 | an issued grant never changes |
| GatewayPermissions.PendingApprovalsHoldTheirRun | apps/control-plane-api/src/execution/execution-service.ts:336-372 | while an approval is pending its run is waiting or ended, never at work |
| GatewayPermissions.RunsMoveLegally | packages/contracts/src/run-lifecycle.ts:12-20 | whoever acts, a run makes at most one legal move, and only an approval by someone else re-queues a waiting one |
| ExecutionHistory.OneProviderRunPerGrant | apps/execution-runtime/src/execution-service.ts:104-114 | over every crash, restart and replay the provider runs at most once per grant |
| ExecutionHistory.OneOperationPerScope | apps/execution-runtime/src/execution-service.ts:105-111 | at most one operation is in progress per scope, and a scope is busy exactly while one is |
| ExecutionHistory.RedeemedLeasesArePending | apps/execution-runtime/src/execution-service.ts:296-307 | a redeemed lease is on record until its release was attempted |
| ExecutionHistory.RecoveryLeavesNothingOpen | apps/execution-runtime/src/execution-service.ts:175-231 | no history serves before no claim is open and no lease pending; that recovery gets there is `Recover` |
| ExecutionHistory.DoneIsForGood | apps/execution-runtime/src/state-store.ts:104-130 | a recorded response never changes and is what everyone was ever answered |
| ExecutionHistory.ResponsesWereConcluded | apps/execution-runtime/src/execution-service.ts:115-122 | a recorded response that is no loss, refusal or interruption is what the provider of that grant concluded with, for its request and workspace |
| ExecutionHistory.WorkspacesAreForEver | apps/execution-runtime/src/state-store.ts:132-161 | a scope's workspace is its workspace for ever and nobody else's |
| ExecutionHistory.LostWorkspacesStayLost | apps/execution-runtime/src/execution-service.ts:258-272 | once a registered workspace's directory is gone no step recreates it and no provider runs in it, whatever the state column says |
| ExecutionHistory.LostIsReported | apps/execution-runtime/src/execution-service.ts:258-268 | from then on every operation that comes to the workspace is told it is lost |
| ExecutionHistory.MissingExactlyIfItVanished | apps/execution-runtime/src/execution-service.ts:258-325 | a provider run finds its directory missing exactly if it vanished between that operation's own check and the run |
| ExecutionHistory.VanishedUnderneath | apps/execution-runtime/src/execution-service.ts:319-325 | and that does happen: a history in which it does, under any grant without a lease |
| ExecutionService.Service.Execute | apps/execution-runtime/src/execution-service.ts:79-168 | uninterrupted, an operation is a history of the machine; a busy scope or a used grant changes nothing; a first use is told of the loss of its workspace, of a refused credential, or exactly what the provider concluded with, and leaves its workspace ready or lost |
| ExecutionService.Recover | apps/execution-runtime/src/execution-service.ts:175-231 | recovery is a history of the machine that ends in serving; bound and credentialed claims become failures, untouched ones are forgotten, finished ones stay, every pending lease was released, exactly the workspaces of closed claims are ready again, and the count is right |
| ExecutionService.StateStore.ClaimGrant | apps/execution-runtime/src/state-store.ts:104-122 | a claim is never given twice |
| ExecutionService.PlayedIsAHistory | apps/execution-runtime/src/execution-service.ts:79-168 | what the service does after a history is a history |
| EndToEnd.OneConnectorCallPerPosition | apps/control-plane-api/src/actions/action-gateway.ts:333-363 | across hosts, gateway and crashes, each tool-call position causes at most one connector call |
| EndToEnd.OneProviderRunPerPosition | apps/execution-runtime/src/execution-service.ts:104-114 | and at most one provider execution |
| EndToEnd.EveryCallHasAPosition | apps/agent-runtime/src/runtime-host.ts:558-576 | every connector call made for the run belongs to a position |
| EndToEnd.EveryProviderRunIsGranted | apps/execution-runtime/src/execution-service.ts:93-98 | every provider run is under a grant the gateway signed for a recorded request |
| Artifacts.RowsMoveForward | apps/control-plane-api/src/artifacts/artifact-service.ts:360-437 | rows keep what they declared and move only forward through PENDING, STORED, REGISTERED, DELETED |
| Artifacts.QuotasHold | apps/control-plane-api/src/artifacts/artifact-service.ts:391-401 | a run keeps at most 200 live artifacts and 512 MiB |
| Artifacts.ReservationIsExact | apps/control-plane-api/src/artifacts/artifact-service.ts:360-437 | a new upload is admitted exactly if fewer than 200 live artifacts and 512 MiB leave room, and recorded as declared; a known one if it is the same |
| Artifacts.UploadIsExact | apps/control-plane-api/src/artifacts/artifact-service.ts:511-558 | an upload told it succeeded is stored, with the very bytes; wrong sizes and digests are refused and leave nothing |
| Artifacts.CompletionIsExact | apps/control-plane-api/src/artifacts/artifact-service.ts:245-307 | a direct upload is accepted exactly if the store holds what was declared; wrong bytes are taken away |
| Artifacts.DueAsDeclared | apps/control-plane-api/src/artifacts/artifact-service.ts:730-747 | in every history a registered artifact becomes due exactly when its declared days are over, an unregistered one after a day, one under legal hold never |
| Artifacts.BytesAreDeclared | apps/control-plane-api/src/artifacts/artifact-service.ts:245-307 | bytes kept for a stored or registered row have the declared size and hash; a deleted row has none |
| Artifacts.RetrievalNeverChanges | apps/control-plane-api/src/artifacts/artifact-service.ts:664-695 | whenever in a history an artifact is retrieved, it is the same bytes, and for its own organization only |
| Artifacts.RetrievalIsExact | apps/control-plane-api/src/artifacts/artifact-service.ts:664-695 | a registered artifact with its declared bytes is given out, and what is said otherwise |
| Artifacts.ArtifactService.EnforceRetention | apps/control-plane-api/src/artifacts/artifact-service.ts:730-747 | a pass takes the oldest due rows, up to 200; each is deleted and its bytes gone as far as the store lets it, every other row and its bytes are untouched, and the number returned is that of the removals |
| Artifacts.PassAt | apps/control-plane-api/src/artifacts/artifact-service.ts:749-778 | the same of a pass over any ids: what becomes of each row and its bytes |
| Artifacts.PassKeeps | apps/control-plane-api/src/artifacts/artifact-service.ts:730-778 | and leaves every row true to its bytes, wherever it stops |
| Metrics.Point.Observe | packages/telemetry/src/metrics.ts:335-344 | each bucket is the number of observations at or below its bound, and never decreases |
| Metrics.Family.Observe | packages/telemetry/src/metrics.ts:294-321 | an observation goes to its own series and no other, and is dropped exactly when it is negative or there is no room |
| Metrics.SeriesAreLabels | packages/telemetry/src/metrics.ts:297-302 | two sets of labels share a series exactly when they are cleaned to the same labels |
| Metrics.KeysAreInjective | packages/telemetry/src/metrics.ts:302-302 | equal series keys are equal labels |
| Metrics.BucketCountsPartition | packages/telemetry/src/telemetry.ts:309-320 | each exported count is the number of observations between two consecutive bounds, or above the last |
| Metrics.BucketCountsAddUp | packages/telemetry/src/telemetry.ts:309-320 | the exported counts add up to the count |
| Metrics.Export | packages/telemetry/src/telemetry.ts:309-321 | what is sent for a point partitions what the point was told |
| Metrics.Family.ExportAt | packages/telemetry/src/telemetry.ts:309-321 | a family's bounds increase, so this holds for each of its series |
| Readiness.WorseNeverRaises | packages/readiness/src/assess.ts:221-376 | worse test outcomes never raise a status, nor make the code's proofs pass, nor a pilot ready |
| Readiness.OrderNeverMatters | packages/readiness/src/assess.ts:221-376 | neither does reordering them change anything |
| Readiness.StatusMeans | packages/readiness/src/assess.ts:278-358 | a capability is red exactly if something named is not proven, a blocking limitation applies, or an operational or live proof failed; green exactly if nothing was skipped, every live proof ran and no accepted limitation applies either |
| Readiness.MinimumMeans | packages/readiness/src/assess.ts:335-350 | when the code alone meets a capability's minimum |
| Readiness.MuddledNeverPasses | packages/readiness/src/assess.ts:221-252 | two things under one id, or a name for nothing, and the code's proofs do not pass |
| Readiness.FailedOrNotRunIsTheSame | packages/readiness/src/assess.ts:254-258 | whether a live proof failed or did not run never changes whether the code's proofs pass |
| Readiness.AsIfNoneHadRun | packages/readiness/src/assess.ts:254-258 | live proofs never make them fail, and make them pass exactly if one that passed closed a limitation that is blocking, or whose capability has to be green |
| Readiness.PassedLiveProofsDoCount | packages/readiness/src/assess.ts:296-306 | and either way it does happen |
| Readiness.LiveProofsAreCurrent | packages/readiness/src/assess.ts:173-219 | a live proof is what the newest record of this commit, at most a week old, says, and did not run if there is none |
| Readiness.AssessCapability | packages/readiness/src/assess.ts:278-358 | the collected reasons give the specified status, and the code's minimum is judged apart from live proofs |
| CatalogRegistry.ResolveCatalog | apps/control-plane-api/src/catalog/catalog-registry.ts:45-103 | a catalog resolves exactly if nothing is defined twice and every blueprint pins definitions that are there and consistent; each bundle, as stored, has no problems |
| CatalogRegistry.StoredBundleProblems | apps/control-plane-api/src/catalog/catalog-registry.ts:134-176 | a stored bundle has no problems exactly if it is what it is stored as, holds exactly what it pins, in order, and is consistent |
| CatalogRegistry.CheckBundle | apps/control-plane-api/src/catalog/catalog-registry.ts:179-222 | the check finds nothing exactly if every required tool, capability, step skill and step action is declared and every condition is meant |
| CatalogReload.NoNotificationIsLost | apps/control-plane-api/src/catalog/catalog-service.ts:193-217 | when no load runs and the last did not fail, every verifiable version registered before the latest call is in memory |
| CatalogReload.LoadedRowsStand | apps/control-plane-api/src/catalog/catalog-service.ts:312-317 | a loaded version never changes and never goes |
| CatalogReload.CatalogService.Reload | apps/control-plane-api/src/catalog/catalog-service.ts:193-217 | after a call a load is running that will read, or read again, everything registered by then; a second call starts no second load |
| CatalogReload.CatalogService.OnRead | apps/control-plane-api/src/catalog/catalog-service.ts:202-216 | a load that ends has everything wanted in memory, is not stale, and lost nothing that was loaded |
| Versions.BothLaterIffClash | apps/control-plane-api/src/catalog/catalog-service.ts:33-48 | two versions each compare as later than the other exactly if their numbers agree, one has no tag and the other's tag begins with a dash |
| Versions.CompareIsAnOrder | apps/control-plane-api/src/catalog/catalog-service.ts:33-48 | equal exactly when numbers and the first part of the tag agree; antisymmetric and transitive but for such pairs |
| Versions.PreReleasesComeFirst | apps/control-plane-api/src/catalog/catalog-service.ts:32-48 | a pre-release sorts before its release exactly if its tag does not begin with a dash |
| Versions.TruncatedTagsTie | apps/control-plane-api/src/catalog/catalog-service.ts:34-37 | tags that differ only after a second dash tie |
| Versions.SemanticExactlyInOrder | apps/control-plane-api/src/catalog/catalog-service.ts:32-48 | the order of two versions is semantic versioning's precedence exactly if their numbers differ, or a tag stands against none and has no leading dash, or two tags have no dash before the identifiers where they first differ, those differ before any dash too, and the one earlier as text is neither a word before a number nor the longer of two numbers; a tag that begins with a dash is in order only against a number |
| Versions.NumbersCompareAsText | apps/control-plane-api/src/catalog/catalog-service.ts:32-48 | an input without dashes for which it is not: 1.0.0-rc.10 comes before 1.0.0-rc.2 |
| Versions.Latest | apps/control-plane-api/src/catalog/catalog-service.ts:222-228 | the one-pass choice gives each blueprint one of its versions: none compares as later but one that clashes with it, of those the one listed last is given, and of those that tie the first listed since |
| Versions.ChosenIsOne | apps/control-plane-api/src/catalog/catalog-service.ts:222-228 | these conditions hold for exactly one row |
| Versions.LatestIsOne | apps/control-plane-api/src/catalog/catalog-service.ts:220-228 | the latest versions are the same in every order of the rows exactly if no blueprint has two different versions, none later than either, that tie or clash |
| Versions.TiesDependOnTheOrder | apps/control-plane-api/src/catalog/catalog-service.ts:220-228 | such versions without a clash: of 1.0.0-a-b and 1.0.0-a-c the first listed is the latest |

## Left out

- Prompts, tool descriptions, event payloads, token usage, latencies and telemetry: they do not steer the protocol; the explanatory sentence after a result's code is not part of the model.
- `FileCheckpointStore`, and the in-memory store's `delete`, which resets the version chain: the durable store's semantics are modelled, where deleting does nothing.
- The lease-session, digest and binding checks of a checkpoint save, and `parseCheckpoint`: leaving them out lets more saves through, and the theorems hold without them.
- `RuntimeHost.retried`, polling, heartbeats, cancellation and spending limits: a repeated request is covered by histories that ask and execute a request any number of times.
- Run events of the hosts other than step starts and ends: `RuntimeEvents` covers their delivery.
- Step statuses at the control plane: the gateway model checks that the run is running, not its step, which allows more histories.
- The content of credentials, connections and configurations, URL and schema validation: whether each check passes is an input of the assessment.
- Approvals made outside the gateway, which may have no expiry, and the legacy runs they pause.
- Audit rows, summaries shown to approvers and their redaction.
- SQL, row-level security and isolation levels: a transaction is one function of the tables.
- Numbers other than integers in JSON: NaN, infinities, negative zero and fractions are outside the model; the parser reads no insignificant white space, which canonical text never has.
- Two identical writes in flight at once before either outcome is known: the fence is about open reconciliations.
- GatewayService.Gateway.ReconcileInterrupted: takes the batch its query found as given, at most a hundred in the histories, because which of more stale rows come first does not matter to what is kept.
- ExecutionService.Service.Execute: is one operation without interruption or interleaving; those are the machine's histories.
- ExecutionHistory.RecoveryLeavesNothingOpen: says that serving starts only then, not that recovery ends, since each release may hang.
- ExecutionService.Recover: does not remove the partial checkouts; a removal that takes the whole workspace directory is one of the vanishings every history allows, at any moment.
- Evidence upload after an operation, output truncation and the provider's own work, except that while it runs it may make its vanished workspace directory anew; that directory is then empty of earlier work, which the model does not track.
- CatalogRegistry.ResolveCatalog: is about a catalog without evaluation suites, which are not modelled and can also keep one from resolving; duplicate versions are looked for after the blueprints are resolved, not between, which only orders the problems differently.
- The counter of dropped series and gauges: a metric's own families are modelled, not the registry's report about itself.
- Readiness.AssessCapability: assumes limitation ids are unique, because an assessment where they are not fails as a whole before statuses matter; the wording of reasons is abbreviated.
- Versions.SemanticExactlyInOrder: is about tags semantic versioning admits; the schema also admits empty identifiers and leading zeros, for which there is no semantic order to agree with.
- Versions.CompareIsAnOrder: takes the three numbers as exact, where the source reads them as doubles, which differ beyond 2^53; a version the schema refuses is not modelled.
- Artifact permissions and their tokens, tenant key prefixes, and writes to the store after a row has left PENDING.
