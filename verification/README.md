# ChangeOps: the governed change saga, verified

A Dafny model of the path an enterprise change takes from its event to its completed or compensated end: the workflow
coordinator's engine, the change state machine, the tool gateway with its approvals and reservations, the configuration
sandboxes, admission, and the small algorithms these rely on. An approved plan should take effect once, or be undone
completely; the theorems here say how far the code keeps that promise, for all inputs and all interleavings.

`dafny verify dfyconfig.toml` checks everything.

## How the model is laid out

| modules | content |
|---|---|
| `Plans`, `Dag`, `Drafts` | remediation plans, the step-graph validator, chains and depth, the fleet's plan draft |
| `ChangeState`, `Transitions` | the change repository and the read-then-commit transition service, with every interleaving of callers |
| `Workflows`, `Sandbox`, `Snapshots`, `Executor`, `Retry` | workflow records and their store, configuration stores and their snapshots, tool adapters, retry policy |
| `Engine`, `Effects` | one run of the engine on its own, imperative: capture, waves, verification, compensation; what the sandboxes' tables say of it |
| `Saga` and `Saga*` | any number of engine runs interleaved at repository calls, with crashes and user cancel and retry; `SagaInvariant` states what holds, `SagaProof`, `SagaSteps`, `SagaResume` and `SagaClose` prove it, `SagaTheorems`, `SagaCallbacks`, `SagaProgress`, `SagaDiscipline`, `SagaCounterexample` and `SagaStaleUsers` draw the conclusions |
| `Policy`, `Governance`, `Gateway` | policy evaluation, the approval and reservation ledger, the gateway's workers together with the sandboxes |
| `ExecutedMeansApproved`, `ExactlyOnce`, `Reservations` | the gateway's two safety theorems, and what it answers by what has happened |
| `Firestore`, `Adapters` | the two-document writes of the gateway's Firestore adapter, and its agreement with the in-memory one |
| `AdmissionStore`, `Admission`, `AdmissionInvariant`, `AdmissionEffects` | transactions, the admission service, its reachable states, what each accepted operation stores |
| `Paths`, `CanonicalJson`, `JsonReader`, `Inbox`, `RateLimit` | path enumeration, canonical printing and an RFC 8259 reader for it, the publish lease, the sliding window |
| `Common` | options, results, time |

Classes stand for the source's objects; each method is proved against a function of the old state, and the theorems are
about those functions. Concurrent behaviour is a machine whose steps are single repository or remote calls. SHA-256 and
identifiers derived from it are injective constructors; uuids and tokens are fresh arguments; the clock is an argument.

## What the code does not keep

* **A COMPLETED workflow need not have succeeded.** `resume_approval` tests only for FAILED tasks (`engine.py:283`). A
  second delivery of the approval that read the change while it was EXECUTING, and loads the record after the first run's
  rollback stored ROLLBACK_FAILED tasks but before it closed the record, finds nothing pending and nothing FAILED, may take
  the table edge from NEEDS_ATTENTION to VERIFYING, and completes. `SagaCounterexample.CompletedWithoutSuccess` builds that
  run for every one-step plan of a supported tool; `SagaTheorems.CompletedIsSound` gives the exact condition: every task
  has SUCCEEDED if and only if the completing run loaded no rolled-back or rollback-failed task.
* **An `expected_version` above the version read defeats the state machine.** `transition` validates the edge on the
  record it read and commits on the expected version, and cancel and retry take that number from the request
  (`control_api/models.py:44-45`), so a caller that guesses a future version overwrites whatever is stored by then.
  `Transitions.StaleExpectationBreaks` shows it for every lead of one version or more; in the saga such a cancel loses the
  change's plan hash (`SagaStaleUsers.StaleCancelLosesThePlanHash`) or cancels a completed change
  (`SagaStaleUsers.StaleCancelOverwritesCompletion`), exactly when `SagaStaleUsers.CommitLosesExactly` says. The theorems of
  `SagaTheorems` hold for users who expect anything; with expected versions at most the version read,
  `Transitions.TransitionsAreLinearizable` and the theorems of `SagaDiscipline` hold for every interleaving.
* **A permanent tool error is not treated as one.** The gateway answers a sandbox's refusal or an out-of-scope result with 502
  (`errors.py:102-106`) and the coordinator takes every 5xx for transient (`clients.py:58-61`), so a conflict that no retry can
  help is asked for until the attempts run out (`Engine.ConflictsUseUpAttempts`).
* **Cycles hide affected systems.** Only paths that end at a system without managed edges count. A system that can only go
  round a cycle is on none of them, however it is reached (`Paths.CycleHidesReachable`); when no cycle can be reached from the
  source the report is exact (`Paths.AffectedIsReachable`).
* **The inconsistent-index error is reachable.** Reusing an approval id under another change raises the error at
  `firestore_repository.py:118` (`Firestore.InconsistencyIsReachable`), and that is exactly when it is raised
  (`Firestore.RequestPairs`).

## Model

| member | source | states |
|---|---|---|
| Engine.WorkflowEngine.RunApproved | services/workflow-coordinator/src/changeops_workflow_coordinator/engine.py:280-292 | A run of an approved record, alone: it ends COMPLETED exactly when every task's verification passed in this run; then the change is COMPLETED, from a progressing start every task is SUCCEEDED and, if earlier successes are recorded, its step's patch is recorded in its system under the step's key with the task's output hash up to the replay flag, and each system's configuration is the fold of the patches its table gained, for steps carried out on it, so a system with a step not yet recorded ends with the new field of one of its steps, the only one's if there is one; it ends NEEDS_ATTENTION rather than FAILED exactly when some task could not be restored; if it ends FAILED every system named by a task has its configuration at capture time; DAG_PROGRESS_BLOCKED cannot occur; from a held, approved record the only errors left are those of the snapshot calls |
| Engine.WorkflowEngine.Rollback | services/workflow-coordinator/src/changeops_workflow_coordinator/engine.py:560-654 | Compensation ends FAILED or NEEDS_ATTENTION with the change alike; NEEDS_ATTENTION exactly when a task is ROLLBACK_FAILED; FAILED only with every task ROLLED_BACK and every system back at the snapshot of its first task; always FAILED when the calls succeed and the snapshots are on file; never stuck on a held record |
| Engine.WorkflowEngine.RestoreAll | services/workflow-coordinator/src/changeops_workflow_coordinator/engine.py:575-640 | The reverse-order loop over several tasks per system: each system ends as its lowest-ordered task's snapshot, restored last |
| Engine.WorkflowEngine.Restore | services/workflow-coordinator/src/changeops_workflow_coordinator/engine.py:576-630 | One restore: no error means the system holds the configuration of the task's hash; other systems and all snapshots are untouched |
| Engine.SortedDownSorts | services/workflow-coordinator/src/changeops_workflow_coordinator/engine.py:572-575 | The rollback order is a permutation of the tasks, highest plan order first |
| Engine.LowestComesLast | services/workflow-coordinator/src/changeops_workflow_coordinator/engine.py:572-575 | Among tasks of one system the lowest-ordered is restored last |
| Engine.RollEnds | services/workflow-coordinator/src/changeops_workflow_coordinator/engine.py:575-640 | When every task in that order has been dealt with, the result is Compensated: failed exactly when some task is ROLLBACK_FAILED, otherwise every first task's system is restored |
| Engine.CompensationRestores | services/workflow-coordinator/src/changeops_workflow_coordinator/engine.py:560-654 | Snapshots that record the baseline, plus a compensation without failure, give back the baseline of every named system |
| Engine.WorkflowEngine.CaptureSnapshots | services/workflow-coordinator/src/changeops_workflow_coordinator/engine.py:338-382 | Capture changes no configuration; either every task then has a snapshot on file of the configuration in place, or nothing is stored and the error is a snapshot call's |
| Engine.CaptureRecordsBaseline | services/workflow-coordinator/src/changeops_workflow_coordinator/engine.py:338-382 | After capture every task's hash is the digest of its system's baseline, also when an earlier run had captured some of them |
| Engine.WorkflowEngine.ExecuteDag | services/workflow-coordinator/src/changeops_workflow_coordinator/engine.py:384-423 | Never blocked from a record whose finished tasks are closed under dependencies, succeeds whenever the store takes its writes, each step starts at most once and only after its dependencies succeeded; it ends with the successes closed under dependencies and everything succeeded or something failed; from all pending and without failure each step ran in the round of its depth and the rounds are as many as the longest chain has steps |
| Engine.DagOutcome | services/workflow-coordinator/src/changeops_workflow_coordinator/engine.py:384-423 | From a dependency-closed start the succeeded set stays dependency-closed, and everything has succeeded or something has failed |
| Engine.NeverBlocked | services/workflow-coordinator/src/changeops_workflow_coordinator/engine.py:394-403 | While something is pending and nothing has failed, something is ready |
| Engine.ScheduleIsOptimal | services/workflow-coordinator/src/changeops_workflow_coordinator/engine.py:388-420 | All pending and no failure: round k runs exactly the steps whose longest dependency chain has length k, and the number of rounds is the plan's longest chain |
| Engine.WaveIsOnSchedule | services/workflow-coordinator/src/changeops_workflow_coordinator/engine.py:388-420 | One more round without failure completes exactly the next depth |
| Engine.WorkflowEngine.RunWave | services/workflow-coordinator/src/changeops_workflow_coordinator/engine.py:404-422 | One turn of the loop: fewer tasks are pending, new failures are this wave's, and the stored error code is that of a task that failed in it or is cleared |
| Engine.WorkflowEngine.ExecuteWave | services/workflow-coordinator/src/changeops_workflow_coordinator/engine.py:404-408 | For some order of the ready tasks, each once, sandboxes, results and calls are exactly those of running the tasks in that order; each starts once and finishes |
| Engine.WorkflowEngine.ExecuteTask | services/workflow-coordinator/src/changeops_workflow_coordinator/engine.py:425-504 | The retry loop as a function of the network's replies: final task, attempt count and sandbox effect; raises exactly when the approval id is missing |
| Engine.AttemptedTakes | services/workflow-coordinator/src/changeops_workflow_coordinator/engine.py:434-504 | A task that succeeds has its patch recorded in its system and holds that result's digest, whichever attempt took effect |
| Effects.AppliedGrows | enterprise-sandbox/src/changeops_sandbox/store.py:97-131 | One call changes the tenant's configuration by at most one patch, recorded under the call's key, and drops or replaces no result |
| Effects.EffectedOn | enterprise-sandbox/src/changeops_sandbox/store.py:97-131 | Recorded patches add up: a configuration is the fold of the patches its table has gained, over any number of calls |
| Effects.FoldedHoldsLast | enterprise-sandbox/src/changeops_sandbox/store.py:114-117 | After any recorded patches the last one's new field is in place, the schema version has grown by their number where there is one, and nothing else has changed |
| Effects.RecordedStepsHold | enterprise-sandbox/src/changeops_sandbox/store.py:97-131 | Once every step on a system is recorded there, the system has the field of one of those steps, or nothing was left to record and it is as it was |
| Engine.AttemptedFacts | services/workflow-coordinator/src/changeops_workflow_coordinator/engine.py:434-504 | At least one attempt, at most the configured maximum, and stored snapshots are never touched |
| Engine.RetriesPatchOnce | services/workflow-coordinator/src/changeops_workflow_coordinator/engine.py:434-504 | However many replies are lost and attempts repeated, the task patches its own system at most once and no other system |
| Engine.RefusalsAreAskedAgain | services/workflow-coordinator/src/changeops_workflow_coordinator/clients.py:44-61 | Of the answers that arrive only a refusal of the arguments is final: whatever a sandbox refuses comes back as a 5xx and is asked again |
| Engine.ConflictsUseUpAttempts | services/workflow-coordinator/src/changeops_workflow_coordinator/engine.py:434-504 | A conflict on another old field is asked for until the attempts run out, and fails as PERMANENT |
| Engine.WorkflowEngine.Verify | services/workflow-coordinator/src/changeops_workflow_coordinator/engine.py:506-519 | No error exactly when the verification of every task's step passed; otherwise the error is that of the first task in order that did not |
| Engine.CheckedPasses | services/workflow-coordinator/src/changeops_workflow_coordinator/engine.py:521-558 | A verification asks again only while the answer is lost for a transient reason and attempts last; it passes exactly when the first answer it gets does |
| Engine.WorkflowEngine.UpdateRecord | services/workflow-coordinator/src/changeops_workflow_coordinator/engine.py:727-738 | Succeeds exactly when the new version validates and the stored version is the caller's; then that version plus one is stored |
| Engine.WorkflowEngine.MakeTerminal | services/workflow-coordinator/src/changeops_workflow_coordinator/engine.py:712-725 | Closes the record with plan, tasks and approval unchanged; succeeds on every held record |
| Dag.SomethingIsReady | services/workflow-coordinator/src/changeops_workflow_coordinator/engine.py:394-403 | In a validated plan with all non-pending steps done, a pending step implies a ready step |
| Dag.ChainsAreBounded | packages/contracts-python/src/changeops_contracts/models.py:217-234 | No dependency chain is longer than the depth of its last step |
| Dag.DeepestChain | packages/contracts-python/src/changeops_contracts/models.py:217-234 | Every step ends a dependency chain as long as its depth |
| Dag.WaveIsDepth | services/workflow-coordinator/src/changeops_workflow_coordinator/engine.py:394-403 | After all steps of depth at most k the ready steps are exactly those of depth k + 1 |
| Plans.ValidatorIsExact | packages/contracts-python/src/changeops_contracts/models.py:217-234 | The validator accepts exactly the graphs with distinct names, orders numbered 1..n and only earlier dependencies |
| Drafts.DraftsAreAccepted | services/agent-fleet/src/changeops_agent_fleet/fleet.py:432-466 | Whatever the agents propose, even repeated or under one agent name, the drafted plan passes the step-graph validator |
| Drafts.DraftsCarryTheProposals | services/agent-fleet/src/changeops_agent_fleet/fleet.py:432-466 | Each step carries its proposal's agent, tool, resource, arguments and risk in order, depends on nothing and requires approval |
| Drafts.DraftsRunInOneWave | services/agent-fleet/src/changeops_agent_fleet/fleet.py:432-466 | A drafted plan's steps are all ready at once and its longest chain is one step |
| Drafts.KeysIdentify | services/agent-fleet/src/changeops_agent_fleet/fleet.py:440-454 | Idempotency keys of drafted steps coincide exactly when change, agent and field do, for names without a colon |
| Drafts.TwinsShareAKey | services/agent-fleet/src/changeops_agent_fleet/fleet.py:440-454 | Two proposals become steps of different names, with one idempotency key exactly when they are of one agent |
| Workflows.InMemoryWorkflowRepository.CreateOrGet | services/workflow-coordinator/src/changeops_workflow_coordinator/repository.py:39-48 | The first record under a key wins; a different event under it is a conflict |
| Workflows.InMemoryWorkflowRepository.Update | services/workflow-coordinator/src/changeops_workflow_coordinator/repository.py:59-70 | Stores exactly when the stored version is the expected one and the record carries the next |
| Sandbox.ConfigurationStore.Apply | enterprise-sandbox/src/changeops_sandbox/store.py:97-131 | Replays a recorded key unchanged, else injected failure, conflict on another old field, or exactly one patch with its result recorded |
| Sandbox.AnswersMeanPatched | enterprise-sandbox/src/changeops_sandbox/store.py:108-131 | A first answer means the field was the expected one and is the new one now, one schema version on where there is one, system and rest unchanged, with the digest of that configuration; any other answer, and other tenants, change no configuration |
| Sandbox.RefusalsAreExact | enterprise-sandbox/src/changeops_sandbox/store.py:97-113 | A recorded key is never refused; otherwise an injected failure comes first, and a conflict exactly when another field is in place |
| Sandbox.AnswersAreRemembered | enterprise-sandbox/src/changeops_sandbox/store.py:97-131 | A key once answered is answered the same again, as a replay and without effect, whatever it then asks for |
| Sandbox.ConfigurationStore.Restore | enterprise-sandbox/src/changeops_sandbox/store.py:133-147 | Puts the stored configuration back; another tenant's or an unknown snapshot is refused without effect |
| Snapshots.RestoreBringsBack | enterprise-sandbox/src/changeops_sandbox/store.py:70-147 | Whatever patches, failures, snapshots and restores come after a snapshot, restoring it brings the tenant's configuration back with its hash and changes no other tenant and no recorded result |
| Snapshots.OthersSnapshotsAreRefused | enterprise-sandbox/src/changeops_sandbox/store.py:133-147 | A tenant cannot restore what was taken for another; a refusal changes nothing |
| Sandbox.ConfigurationStore.Reset | enterprise-sandbox/src/changeops_sandbox/store.py:178-192 | The tenant's configuration, snapshots, results and failure counter go; other tenants' stay |
| Sandbox.ResetForgets | enterprise-sandbox/src/changeops_sandbox/store.py:178-192 | After a reset the tenant holds the seed, its old keys patch anew and its old snapshots are gone; other tenants notice nothing |
| SagaTheorems.SnapshotsPrecedeExecution | services/workflow-coordinator/src/changeops_workflow_coordinator/engine.py:280-282 | For any interleaving of runs: no execution is issued before a record with a snapshot for every task has been stored |
| SagaTheorems.StoredSnapshotsAreEarly | services/workflow-coordinator/src/changeops_workflow_coordinator/engine.py:338-382 | Every snapshot named by a stored record was taken before the workflow's first execution |
| SagaTheorems.LaterVersionsPersist | services/workflow-coordinator/src/changeops_workflow_coordinator/repository.py:59-70 | Of two stored versions the later has a higher version, the same plan, hash and approval once set, the same snapshot ids and hashes, keeps completed_at, and the earlier was not closed |
| SagaTheorems.ApprovalPrecedesExecution | services/workflow-coordinator/src/changeops_workflow_coordinator/engine.py:236-282 | Each entry into EXECUTING comes after an APPROVED that comes after an AWAITING_APPROVAL, for engine runs mixed with cancels and retries that expect any version |
| SagaCallbacks.RunsKeepToTheirStart | services/workflow-coordinator/src/changeops_workflow_coordinator/engine.py:236-292 | Whatever any run adds to the log is allowed by what it was started with: an event run enters nothing past AWAITING_APPROVAL, PLAN_READY only with hash and version of a stored plan, and executes nothing; a callback run acts only when the callback quotes approval, hash and version of a stored record, and a refused one enters only REJECTED and stores only FAILED with APPROVAL_REJECTED, one asking for changes enters only REJECTED and ANALYZING and stores only that; a cancel enters only CANCELLED, a retry only SCREENING or a status the change had before |
| SagaCallbacks.ExecutionsWereGranted | services/workflow-coordinator/src/changeops_workflow_coordinator/engine.py:252-282 | Every execution issued is that of a run started with a granted callback that quotes a stored record |
| SagaCallbacks.ApprovalsWereGranted | services/workflow-coordinator/src/changeops_workflow_coordinator/engine.py:275-276 | Whenever APPROVED is entered, then or before it was entered by such a run |
| SagaProgress.DependenciesComeFirst | services/workflow-coordinator/src/changeops_workflow_coordinator/engine.py:388-420 | Whatever interleaves, a step is executed only when a stored record has its own task pending and the tasks of all steps it depends on succeeded, and those steps were executed before |
| SagaProgress.SuccessWasExecuted | services/workflow-coordinator/src/changeops_workflow_coordinator/engine.py:409-421 | No task is stored as SUCCEEDED before its step has been executed |
| SagaProgress.SnapshotsAreTheirOwn | services/workflow-coordinator/src/changeops_workflow_coordinator/engine.py:338-382 | The snapshot a stored task names was taken for that very task, and the stored hash is what was taken |
| SagaProgress.EndingsAreTrue | services/workflow-coordinator/src/changeops_workflow_coordinator/engine.py:636-653 | A workflow is stored FAILED only on a refusal or with every task rolled back, and NEEDS_ATTENTION only when every task went through compensation and some could not be restored |
| SagaTheorems.PlanHashIsTheWorkflows | services/workflow-coordinator/src/changeops_workflow_coordinator/engine.py:85-234 | Whatever versions users expect, a plan hash the change ever had is that of every stored record with a plan |
| SagaDiscipline.PlanHashIsForEver | services/workflow-coordinator/src/changeops_workflow_coordinator/engine.py:85-234 | When every user's expected version is at most the version its request reads, the change's plan hash, once set, is never changed or lost and is that of every stored record with a plan |
| SagaDiscipline.FinalIsForEver | services/control-api/src/control_api/routes.py:112-175 | Under the same discipline COMPLETED, FAILED, PARTIAL and CANCELLED are never left, engine runs, cancel and retry mixed |
| SagaDiscipline.CompletedChangeIsForEver | services/workflow-coordinator/src/changeops_workflow_coordinator/engine.py:290-292 | Under the same discipline the change of a COMPLETED record is and stays COMPLETED |
| SagaStaleUsers.CommitLosesExactly | services/control-api/src/control_api/routes.py:112-175 | A user's commit leaves a final change or loses a plan hash exactly when the expected version is stored, the copy read is older, and the stored change is final or has a plan hash the copy lacks |
| SagaStaleUsers.StaleCancelLosesThePlanHash | services/control-api/src/control_api/routes.py:134-150 | For every one-step plan of a supported tool, a cancel that read the change being analysed and expects one version more stores it without its plan hash |
| SagaStaleUsers.StaleCancelOverwritesCompletion | services/control-api/src/control_api/routes.py:134-150 | For every such plan, a cancel that read the change in need of attention and expects two versions more cancels a COMPLETED change under a COMPLETED record |
| SagaTheorems.ClosedIsForEver | services/workflow-coordinator/src/changeops_workflow_coordinator/engine.py:246-251 | After a COMPLETED, FAILED or NEEDS_ATTENTION record is stored no further version ever is |
| SagaTheorems.CompletedIsSound | services/workflow-coordinator/src/changeops_workflow_coordinator/engine.py:283-292 | Whatever users expect, a COMPLETED record comes after its change entered COMPLETED and after a passed verification of every task that followed the storing of those tasks; every task is SUCCEEDED if and only if the stored task list the completing run had loaded held no rolled-back or rollback-failed task |
| SagaCounterexample.CompletedWithoutSuccess | services/workflow-coordinator/src/changeops_workflow_coordinator/engine.py:236-292 | For every one-step plan of a supported tool some reachable run ends COMPLETED, change and record, with its task ROLLBACK_FAILED |
| SagaClose.ReachableInv | services/workflow-coordinator/src/changeops_workflow_coordinator/engine.py:85-292 | Every interleaving of event runs, approval runs, rollbacks, crashes, and user cancels and retries with any expected version keeps the saga's invariant |
| Transitions.TransitionsAreLinearizable | packages/changeops-core/src/changeops_core/state_machine.py:169-278 | Every interleaving of disciplined calls keeps the invariant: the log of commits replays on the stored records, each a table edge with version + 1 and updated_at not earlier, and successful audits number current minus initial version |
| Transitions.ReplayCountsVersions | packages/changeops-core/src/changeops_core/state_machine.py:23-117 | A replayable log counts versions, never moves updated_at back, and leaves COMPLETED, FAILED, PARTIAL and CANCELLED alone |
| Transitions.RefusalKeepsEverything | packages/changeops-core/src/changeops_core/state_machine.py:190-225 | A rejected call leaves every change record as it was |
| Transitions.StaleExpectationBreaks | packages/changeops-core/src/changeops_core/state_machine.py:169-278 | For every lead of one or more versions, an expected_version that far above the version read can commit a change that is no legal transition |
| Transitions.OwnVersionIsAtomic | packages/changeops-core/src/changeops_core/state_machine.py:169-278 | Among callers that expect anything, one that expects no more than it read writes what it asked for over exactly the stored record, or changes no record |
| Transitions.TransitionsDoAsRequested | packages/changeops-core/src/changeops_core/state_machine.py:169-278 | A call succeeds exactly when the record is at the expected version, the clock has not gone back, the edge is in the table and the event is new; then the record has what was asked for and nothing else changed, audited as a success; a refused edge or version is audited as a rejection and changes no record; any other error changes nothing |
| Transitions.StateTransitionService.Transition | packages/changeops-core/src/changeops_core/state_machine.py:169-278 | An uninterrupted call equals its specification: the new repository and the result or error |
| Transitions.AppendCounts | packages/persistence/src/changeops_persistence/memory.py:155-159 | Appending an event counts exactly when it is a success and only for its own record |
| ChangeState.InMemoryChangeStateRepository.CommitTransition | packages/persistence/src/changeops_persistence/memory.py:62-87 | Record and audit are stored together or not at all |
| ChangeState.InMemoryChangeStateRepository.AddWithAudit | packages/persistence/src/changeops_persistence/memory.py:41-50 | A new change and its first audit event are stored together or not at all |
| ChangeState.AdditionsAreExact | packages/persistence/src/changeops_persistence/memory.py:41-50 | A change is added exactly when it and its first event are new and belong together; then both are there and nothing else changed |
| ChangeState.EdgesAreExact | packages/changeops-core/src/changeops_core/state_machine.py:23-117 | Edge by edge the table is what the sources of each status say |
| ChangeState.FinalAreExact | packages/changeops-core/src/changeops_core/state_machine.py:23-117 | Exactly COMPLETED, FAILED, PARTIAL and CANCELLED have no way out; no status leads to itself and every other can be failed or cancelled |
| ExactlyOnce.AtMostOneEffect | enterprise-sandbox/src/changeops_sandbox/store.py:97-131 | Over every interleaving of gateway workers, lost replies, crashes, lease expiry, late deliveries and restores, each (tenant, key) mutates at most once, over all three systems together |
| ExactlyOnce.OutputIsTheRecordedResult | services/tool-gateway/src/changeops_tool_gateway/repository.py:319-347 | A SUCCEEDED execution's output is the sandbox's recorded result up to the replay flag |
| ExactlyOnce.ResultsPersist | services/tool-gateway/src/changeops_tool_gateway/repository.py:241-375 | SUCCEEDED executions and recorded results never change, and a key's input hash never changes |
| ExactlyOnce.OneInputPerKey | services/tool-gateway/src/changeops_tool_gateway/repository.py:263-300 | Every grant of a key is for the record's one input hash, and attempt_count is the number of grants |
| ExactlyOnce.OneStepPerKey | services/tool-gateway/src/changeops_tool_gateway/repository.py:262-270 | Of two intents that share a key only one is ever granted, so of two plan steps with one key at most one |
| ExactlyOnce.UnfinishedGrantsAreSpaced | services/tool-gateway/src/changeops_tool_gateway/repository.py:274-288 | Two grants of a key with no end between them are at least two minutes apart |
| Reservations.ReservationsAreAnswered | services/tool-gateway/src/changeops_tool_gateway/repository.py:241-317 | Told by the history of the key: a covered reservation is a conflict exactly when the key was granted for another input, in progress exactly within two minutes of an unended grant, replayed with the stored output exactly after a success, and otherwise granted as the next attempt |
| Reservations.EndsAreAnswered | services/tool-gateway/src/changeops_tool_gateway/repository.py:319-375 | An end is accepted exactly when the last thing that happened to the key is a grant, for that change, and is stored as it came |
| ExactlyOnce.OnlyMutationsChange | enterprise-sandbox/src/changeops_sandbox/store.py:97-131 | Restores apart, a configuration changes only in a step that logs a mutation of that system and tenant |
| ExactlyOnce.ReachableInv | services/tool-gateway/src/changeops_tool_gateway/app.py:586-817 | Every reachable state of gateway and sandboxes satisfies the invariant behind these claims |
| ExecutedMeansApproved.ExecutedMeansApproved | services/tool-gateway/src/changeops_tool_gateway/app.py:586-757 | Every execution of a mutating tool is for an intent equal to a step of a stored plan with its hash, covered when it was reserved by a stored APPROVED, unexpired record in scope, decided by someone other than its requester and the agent |
| ExecutedMeansApproved.PlansAndDecisionsPersist | services/tool-gateway/src/changeops_tool_gateway/repository.py:145-260 | Stored plans and decided approvals never change |
| ExecutedMeansApproved.DecisionsWereCast | services/tool-gateway/src/changeops_tool_gateway/repository.py:192-239 | Whatever decision is stored was cast on that request with that target, by that person, in that role, at that time, by a user |
| ExecutedMeansApproved.CoverWasCast | services/tool-gateway/src/changeops_tool_gateway/app.py:483-519 | An approval that covers an execution was cast as APPROVED by an approver or administrator other than the agent; a request whose ballots never were covers none |
| ExecutedMeansApproved.RequestsWereAsked | services/tool-gateway/src/changeops_tool_gateway/app.py:402-447 | Every stored request was asked for by a service or agent of the tenant, for at most an hour, on a validated plan the change was waiting with, for a nonempty scope of that plan's steps |
| ExecutedMeansApproved.ReservationAuthorises | services/tool-gateway/src/changeops_tool_gateway/repository.py:241-262 | The check repeated under the repository's lock is what authorises the call |
| ExecutedMeansApproved.PolicyEstablishes | services/tool-gateway/src/changeops_tool_gateway/app.py:640-700 | What policy allows is a stored plan's step with a standing approval wherever one is needed |
| Policy.PolicyEngine.Evaluate | packages/policy-engine/src/changeops_policy_engine/engine.py:37-143 | ALLOW exactly when no check fails; effect, risk and approval flags as the separate definition of the verdict says |
| Policy.AllowedStepIsUnique | packages/policy-engine/src/changeops_policy_engine/engine.py:73-93 | In a validated plan an allowed intent is word for word the one step of its name |
| Policy.AllowedAgrees | packages/policy-engine/src/changeops_policy_engine/engine.py:48-103 | An allowed intent comes from the unexpired agent that owns the tool, in its own tenant, for an executing change with this very plan, action and resource scope |
| Policy.CriticalIsBlocked | packages/policy-engine/src/changeops_policy_engine/engine.py:95-109 | A critical tool or step is blocked, whoever asks and whoever approved |
| Policy.ForbiddenEnvironments | packages/policy-engine/src/changeops_policy_engine/engine.py:103-106 | Outside its environments a tool is never allowed and a mutating one is blocked |
| Policy.AllowedHasApproval | packages/policy-engine/src/changeops_policy_engine/engine.py:110-121 | Where tool or step asks for approval, an allowed intent has an unexpired one of this very plan and environment, by an approver or administrator other than the agent |
| Policy.ApprovalDecides | packages/policy-engine/src/changeops_policy_engine/engine.py:110-121 | Without an approval the same intent waits for one exactly where tool or step asks for it, and is allowed otherwise |
| Governance.InMemoryGovernanceRepository.CreateApprovalRequest | services/tool-gateway/src/changeops_tool_gateway/repository.py:145-164 | Idempotent on the same request, conflict on another, never replaces a plan |
| Governance.RequestsAreKept | services/tool-gateway/src/changeops_tool_gateway/repository.py:145-164 | A request is accepted exactly when its hash is the plan's, the plan identifier holds no other plan and the approval identifier is free or holds the same request; what is new is stored as it came and nothing else changes |
| Governance.InMemoryGovernanceRepository.DecideApproval | services/tool-gateway/src/changeops_tool_gateway/repository.py:192-239 | One decision per request; the exact retry is answered, anything else is a conflict; expired, own and agent decisions are refused |
| Governance.BallotsAreKept | services/tool-gateway/src/changeops_tool_gateway/repository.py:203-239 | A ballot is accepted exactly when the request is open to it, and then the request holds that ballot's own target and data, one version on, and nothing else changes |
| Governance.InMemoryGovernanceRepository.ReserveExecution | services/tool-gateway/src/changeops_tool_gateway/repository.py:241-317 | Grant, replay, in-progress or conflict by stored status, input hash and lease; the index stays closed |
| Governance.InMemoryGovernanceRepository.CompleteExecution | services/tool-gateway/src/changeops_tool_gateway/repository.py:319-347 | Ends a reserved execution whoever reserved it; any other status is refused |
| Firestore.DocumentsAgree | services/tool-gateway/src/changeops_tool_gateway/firestore_repository.py:104-415 | After any history each approval equals its index entry and each execution its idempotency entry |
| Firestore.DivergenceIsUnreachable | services/tool-gateway/src/changeops_tool_gateway/firestore_repository.py:116-123 | After any history the diverged-index and missing-record errors cannot occur |
| Firestore.RequestPairs | services/tool-gateway/src/changeops_tool_gateway/firestore_repository.py:104-136 | Requests keep the pairing; the inconsistent-index error occurs exactly when the approval id is indexed under another change and the plan does not differ first |
| Firestore.InconsistencyIsReachable | services/tool-gateway/src/changeops_tool_gateway/firestore_repository.py:116-118 | One approval, and a request for its identifier under another change, is a history that raises the inconsistent-index error |
| Firestore.DecisionPairs | services/tool-gateway/src/changeops_tool_gateway/firestore_repository.py:175-230 | Decisions write both documents alike and never find them diverged or missing |
| Firestore.DecisionsWereCast | services/tool-gateway/src/changeops_tool_gateway/firestore_repository.py:175-230 | With requests made pending, each stored decision was cast on that approval with that very target |
| Firestore.ReservationPairs | services/tool-gateway/src/changeops_tool_gateway/firestore_repository.py:254-329 | Reservations keep the pairing because the input digest names the change |
| Firestore.FinishPairs | services/tool-gateway/src/changeops_tool_gateway/firestore_repository.py:384-415 | Finishing writes both documents alike |
| Adapters.AnswersAgree | services/tool-gateway/src/changeops_tool_gateway/firestore_repository.py:90-415 | After any calls the durable adapter answers the next one as the in-memory one does, up to the names of two refusals, when the server's clock is the caller's and approvals are of the intent's own change, as policy requires |
| Adapters.AdaptersAgree | services/tool-gateway/src/changeops_tool_gateway/firestore_repository.py:90-415 | Fed the same calls the two adapters hold the same plans, approvals, executions and keys |
| AdmissionInvariant.MembershipBijection | services/control-api/src/control_api/admission/service.py:161-215 | In every reachable state a membership exists if and only if the user's index lists it, and if and only if exactly one invitation for that organization was redeemed by the user; indexes have no duplicates; no invitation is both redeemed and revoked and its version is 2 exactly when it is one of them |
| AdmissionInvariant.AccessIsExact | services/control-api/src/control_api/admission/service.py:85-115 | The access view holds exactly the active memberships in active organizations of an active user, each once, found by walking only the user's index |
| AdmissionInvariant.StatusIsExact | services/control-api/src/control_api/admission/service.py:99-112 | Suspended, second factor required and active each exactly when they should be; the administrator flag needs an active administrator with a second factor; the owner flag is the bootstrapped user's alone |
| AdmissionEffects.MembershipIsAsRequested | services/control-api/src/control_api/admission/service.py:321-366 | An accepted update stores the requested role and active flag, one version on, and changes no other user, organization, membership or invitation |
| AdmissionEffects.UpdatesDecideAccess | services/control-api/src/control_api/admission/service.py:321-366 | After it the organization is among the member's workspaces, in the requested role, exactly when the membership was made active |
| AdmissionEffects.UserStatusIsAsRequested | services/control-api/src/control_api/admission/service.py:217-248 | An accepted status change stores the requested flag on that user and changes nothing else |
| AdmissionEffects.SuspensionEndsAccess | services/control-api/src/control_api/admission/service.py:217-248 | A suspended user has no workspace |
| AdmissionEffects.OrganizationStatusIsAsRequested | services/control-api/src/control_api/admission/service.py:217-248 | An accepted status change stores the requested flag on that organization and changes nothing else |
| AdmissionEffects.ClosureEndsAccess | services/control-api/src/control_api/admission/service.py:217-248 | Nobody has a workspace of a suspended organization |
| AdmissionEffects.AdministratorIsAsRequested | services/control-api/src/control_api/admission/service.py:368-402 | An accepted appointment stores the requested flag on that user, never the owner, and changes nothing else |
| AdmissionEffects.OrganizationIsCreated | services/control-api/src/control_api/admission/service.py:124-136 | An accepted creation stores a new active organization of that name and changes nothing else |
| AdmissionEffects.InvitationIsAsRequested | services/control-api/src/control_api/admission/service.py:138-159 | An accepted invitation is stored with the requested address, organization and role, for one day, unredeemed, and changes nothing else |
| AdmissionEffects.RevocationIsStored | services/control-api/src/control_api/admission/service.py:280-308 | An accepted revocation marks that open invitation and changes nothing else |
| AdmissionEffects.RedemptionsAreExact | services/control-api/src/control_api/admission/service.py:161-215 | A redemption is accepted exactly for an open, unexpired invitation to that address, by someone who still is an active administrator, into an active organization the user is not in, unless suspended or in fifty already |
| AdmissionEffects.RedemptionIsStored | services/control-api/src/control_api/admission/service.py:161-215 | An accepted redemption makes the membership in the invitation's organization and role, lists it and uses the invitation up, and changes nothing else |
| AdmissionEffects.RedemptionGivesAccess | services/control-api/src/control_api/admission/service.py:161-215 | It opens that workspace, in that role, to the one who redeemed |
| AdmissionEffects.OnlyAdministratorsMay | services/control-api/src/control_api/admission/service.py:50-56 | Only an active administrator with a second factor changes anything but by redeeming, and only the owner appoints others |
| AdmissionInvariant.ExactlyOneOwner | services/control-api/src/control_api/admission/service.py:72-83 | Once bootstrapped there is exactly one owner, always active and platform administrator |
| AdmissionInvariant.StepKeeps | services/control-api/src/control_api/admission/service.py:124-402 | Every operation, refused or not, keeps the invariant |
| AdmissionInvariant.RedeemPairs | services/control-api/src/control_api/admission/service.py:161-215 | Redeeming adds membership, index entry and redeemed invitation together and disturbs no other triple |
| Admission.AdmissionService.Redeem | services/control-api/src/control_api/admission/service.py:161-215 | Commits the specified documents or none |
| Admission.AdmissionService.UpdateMembership | services/control-api/src/control_api/admission/service.py:321-366 | Commits the specified documents or none |
| Admission.AdmissionService.SetAdministrator | services/control-api/src/control_api/admission/service.py:368-402 | Commits the specified documents or none |
| Admission.AdmissionService.RevokeInvitation | services/control-api/src/control_api/admission/service.py:280-308 | Commits the specified documents or none |
| AdmissionStore.TransactCopied | services/control-api/src/control_api/admission/store.py:27-50 | For any operation, whatever it reads and writes next, the copy-and-swap transaction answers and commits what the operation does to documents of its own, or commits nothing |
| AdmissionStore.TransactOverlaid | services/control-api/src/control_api/admission/store.py:67-106 | The buffered overlay answers and commits exactly the same |
| AdmissionStore.FirestoreTransaction.Flush | services/control-api/src/control_api/admission/store.py:88-90 | The writes committed give exactly what the operation saw |
| Paths.DependencyPaths | services/agent-fleet/src/changeops_agent_fleet/fleet.py:418-429 | Terminates on every finite graph; returns exactly the simple paths of two or more nodes from the source to a node without managed edges, in nondecreasing length, each once when no edge repeats |
| Paths.PathsAreExact | services/agent-fleet/src/changeops_agent_fleet/fleet.py:418-429 | The breadth-first list of all simple paths, filtered, is exactly the complete paths |
| Paths.BuildGraph | services/agent-fleet/src/changeops_agent_fleet/fleet.py:271-275 | The adjacency lists are the targets of the edges marked managed, in catalogue order |
| Paths.Affected | services/agent-fleet/src/changeops_agent_fleet/fleet.py:281-283 | The nodes on some path, or the source alone when there is none, without repetition |
| Paths.AffectedIsReachable | services/agent-fleet/src/changeops_agent_fleet/fleet.py:280-283 | When no cycle can be reached from the source, the affected systems are exactly those reachable from it |
| Paths.CycleHidesReachable | services/agent-fleet/src/changeops_agent_fleet/fleet.py:280-283 | On every graph a system from which no system without managed edges can be reached is on no returned path |
| Paths.NothingIsReported | services/agent-fleet/src/changeops_agent_fleet/fleet.py:280-283 | From a source that can reach no system without managed edges no path is returned |
| CanonicalJson.CanonicalFormIsUnambiguous | packages/contracts-typescript/src/index.ts:370-393 | Two values print alike if and only if they are equal up to object member order |
| JsonReader.CanonicalTextIsTheValue | packages/contracts-typescript/src/index.ts:370-389 | A reader written from RFC 8259 reads the canonical text as a value equal to the one printed, with the names of every object in ascending order of their UTF-16 units |
| JsonReader.LessIsBefore | packages/contracts-typescript/src/index.ts:384-386 | Of two names the one printed first is a proper prefix, or smaller at the first unit where they differ |
| CanonicalJson.Readable | packages/contracts-typescript/src/index.ts:370-389 | Texts of values that begin a common text end at the same place and are of equal values |
| CanonicalJson.SamePrintAlike | packages/contracts-typescript/src/index.ts:384-388 | Member order does not show in the text |
| CanonicalJson.EscapeFollowsRfc8259 | packages/contracts-typescript/src/index.ts:371-373 | Each unit is escaped as section 7 of RFC 8259 allows and the escape can be undone |
| CanonicalJson.QuotedReadable | packages/contracts-typescript/src/index.ts:371-373 | Quoted strings are unambiguous also as prefixes |
| Inbox.EndsAreFenced | services/event-gateway/src/changeops_event_gateway/repository.py:157-183 | Only the latest reservation's version can finish, and once |
| Inbox.LeasesAreSpaced | services/event-gateway/src/changeops_event_gateway/repository.py:95-117 | Two reservations of a key with no finish between them are at least 30 seconds apart |
| Inbox.VersionCounts | services/event-gateway/src/changeops_event_gateway/repository.py:95-183 | version = 1 + publish_attempts + finishes |
| Inbox.PublishedIsFinal | services/event-gateway/src/changeops_event_gateway/repository.py:67-183 | PUBLISHED records never change and a key keeps its input hash |
| Inbox.RecordsTell | services/event-gateway/src/changeops_event_gateway/repository.py:95-183 | A record's status, version, message and error are those of the last lease or end of its key |
| Inbox.LeaseIsRefusedExactly | services/event-gateway/src/changeops_event_gateway/repository.py:95-105 | A lease is refused exactly when the event was published or was leased within thirty seconds and not ended |
| Inbox.EndIsAcceptedExactly | services/event-gateway/src/changeops_event_gateway/repository.py:157-183 | An end is accepted exactly from the version of the latest lease, once |
| Inbox.FirstDeliveryIsKept | services/event-gateway/src/changeops_event_gateway/repository.py:67-93 | There is a record exactly when the event came, and it is of the first delivery under its key |
| Inbox.DeliveriesAreAnswered | services/event-gateway/src/changeops_event_gateway/repository.py:67-93 | A later delivery of the same event is answered with that record, of another event under its key refused |
| Inbox.InMemoryEventInboxRepository.Accept | services/event-gateway/src/changeops_event_gateway/repository.py:67-93 | A new key is stored, the same input is a duplicate, another input a conflict |
| Inbox.InMemoryEventInboxRepository.ReservePublish | services/event-gateway/src/changeops_event_gateway/repository.py:95-117 | Grants unless published or leased within 30 seconds |
| RateLimit.AcceptsIffBelowLimit | services/event-gateway/src/changeops_event_gateway/rate_limit.py:16-24 | With nondecreasing clocks a call is accepted exactly when fewer than limit events were accepted in the last 60 seconds |
| RateLimit.WindowsAreBounded | services/event-gateway/src/changeops_event_gateway/rate_limit.py:16-24 | No half-open 60-second window holds more than limit accepted events |
| RateLimit.QueueIsRecent | services/event-gateway/src/changeops_event_gateway/rate_limit.py:16-24 | The queue is exactly the accepted times of the last minute |
| RateLimit.TenantEventRateLimiter.Acquire | services/event-gateway/src/changeops_event_gateway/rate_limit.py:16-24 | Pops what is a minute old, accepts below the limit, refuses otherwise; other tenants are untouched |
| Retry.RetryPolicy.Attempts | services/workflow-coordinator/src/changeops_workflow_coordinator/retry.py:26-37 | With n maximum attempts: between 1 and n calls, and at most 1.2 * min((n-1)*cap, base*(2^(n-1)-1)) of sleep for any jitter |
| Retry.DelaysDouble | services/workflow-coordinator/src/changeops_workflow_coordinator/retry.py:29-37 | For one jitter the first delay is the base and each next one twice the one before, both up to the cap |
| Retry.TotalIsGeometric | services/workflow-coordinator/src/changeops_workflow_coordinator/retry.py:29-37 | The unjittered delays sum to at most the geometric series |
| Retry.TotalIsCapped | services/workflow-coordinator/src/changeops_workflow_coordinator/retry.py:29-37 | The unjittered delays sum to at most the cap times their number |

## Left out

* HTTP routing, middleware, request ids, error-to-status mapping and clients; a remote call is delivered, lost after its effect, or never arrives.
* HMAC, JWT and Firebase identities, token caches and log redaction; identities and roles are arguments.
* The language-model agents, evidence collection, prompt screening and memory; the fleet's answer is an arbitrary result.
* Pub/Sub publishing and subscribing, Firestore's client and server timestamps beyond one atomic transaction over the documents read.
* Pydantic's re-validation of documents read back from Firestore.
* Audit events of the engine, the gateway and admission beyond their being written; the transition service's audit trail is modelled, its listing order is not.
* Plan arguments are strings, and a plan's summary, preconditions, verification and rollback texts, evidence references and creation time are one opaque text.
* Times are whole seconds on one axis; the delays of the retry policy are real numbers and binary rounding is left out.
* ASCII letters only in case conversion, and resource patterns of the form prefix, tenant, suffix and a final star.
* The status path strings of `set_status` are keys of a type of their own, one for users and one for organizations.
* `dry_run`, injected verification failures, `CatalogStore`, quotas, dashboards, listing and pagination.
* The administrator's reset of a sandbox takes part in `Sandbox` but not in the gateway machine, where it would clear the idempotency table.
* The JSON reader takes texts without insignificant white space, as the canonical printer writes them, and integers only.
* Canonical JSON for non-integer numbers and integers beyond 2^53 - 1, and its agreement with the Python printer.
* `complete_execution` and `fail_execution` are not fenced by attempt, and the model keeps that: no claim is made that only the last lease holder finishes.
- Engine.WorkflowEngine.RunApproved: runs one workflow with no other writer and no call still in flight, and takes a wave's tasks one after another in any order, because restoration is a claim about a single runner; interleaved runs are in `Saga`.
- Engine.WorkflowEngine.ExecuteWave: the retries of one wave's tasks do not interleave with each other; interleaved runs are in `Saga`.
- Engine.WorkflowEngine.ExecuteTask: a refusal by the gateway, such as a key already used for another step, is a reply that never reached the sandbox, with any code; when the gateway refuses is in `Governance` and `ExactlyOnce.OneStepPerKey`.
- Engine.WorkflowEngine.Verify: verification calls read no sandbox; the network decides whether they pass.
- SagaTheorems.CompletedIsSound: "every task SUCCEEDED" is not claimed of every COMPLETED record, because the code does not ensure it (see above); that its change stays COMPLETED is claimed under the discipline of `SagaDiscipline` only.
- Drafts.KeysIdentify: assumes change and agent names without a colon, which the generated identifiers and the fixed agent names satisfy.
