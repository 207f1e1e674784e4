# Verification of SUDA FORGE's engines

A Dafny model of the parts of SUDA FORGE that decide, schedule, persist and allocate, with proofs
of what they promise over all inputs, interleavings, crashes and histories. `dafny verify
dfyconfig.toml` checks everything.

## What is modelled

**Orchestration.** `DepthFirst` is the three-colour search that three validators share; `TaskGraph`
is the task graph with validation, ready list and failure propagation; `Retry` is one task's
attempts. `Batch` models the goroutines of one batch as a step relation: the launch loop and each
task goroutine move by atomic steps (mark, spawn, acquire a permit, call, store the outcome, give
the permit back, unlock) and every access to the task map is one step, although the source has no
lock there. `Schedule`, `FinalStates` and `Layers` are about sequences of batches, called rounds.
`Scheduling` holds the class whose `Run` method does it all on real fields; its postconditions tie
it to the machine and to the rounds. `Planning` is the validation and renaming of a plan.

**Checkpointed execution.** `LoopCoordinator` has a machine of callers, goroutines, failing saves
and crashes, and the class whose `Run` is proved to be a history of that machine; `LoopRaces` is
about callers that race in it. `Provisioning` works off dependent steps and saves after each; a
process may die at any moment of any call, and what survives is characterised.

**Data structures.** `ArtifactCache` against a plain map of key lives; `Knowledge` and `Impact`
against reachability; `Routing` against "the best eligible model"; `Verification` and `Repair`, the
check engine and its bounded repair loop, and `EngineRuns`, which realises every account of the
engine by a run; `RateLimiter` over request histories; `Resources` and `Ports`, the two allocators,
over operation histories.

`Ordering`, `Dag` and `VertexList` hold what these share: string order and sorting, paths and
cycles, named vertices.

## Assumptions

- What lies outside is an oracle whose answers are arbitrary: the task executor, the stage
  executor, the command runtime, adapters, analyzers and repair executors, persistence, the hash, the
  cost estimate, the context. An oracle's answer may depend on the number of the call.
- `Scheduling.Scheduler.Run` is shown to end if the executor stops answering PENDING or READY from
  some call on. Without any such condition it need not end (`Schedule.PendingForever`);
  `Schedule.RoundsBound` bounds a run by its reopening answers and these by its rounds.
- Consistency of checkpoints needs that `Start` and `Resume` do not race an active run of the same
  loop, and that a loop is started with distinct stages of which it holds a prefix, possibly empty,
  as completed. Keeping every completed stage needs, moreover, that a stored loop is not started
  anew from less than its checkpoint. `LoopRaces` drops this and says exactly when racing calls
  lose a stage. The exclusion of two active runs needs none of this.
- A context that is done stays done.
- Integers are unbounded; scores and costs are real numbers. A cost of exactly -1, where the
  source's cheapest policy divides by zero and scores infinity, gets no bonus in the model.
- Strings are compared by code point, which is the order of their UTF-8 bytes.

## Where the code says less than its names

The model follows the code: failure propagation reaches direct dependents only, so a run can
return without error and still be RUNNING; SUCCEEDED allows cancelled tasks and any other status an
executor reports, such as waiting; a parent task id is not renamed; a provisioning step that failed
is not tried again by resuming, and the run can be reported ready without it; the verification
engine ignores a failed dependency that sorts later; a dependency key without a task is not reported
missing. Each of these has its exact condition or an example among the rows below.

## Model

| member | source | states |
|---|---|---|
| DepthFirst.VisitAll | internal/orchestration/graph.go:27-57 | the coloured depth-first search, in whatever order it visits: it finishes exactly on the closed, acyclic graphs; a reported cycle is a real one, a reported missing dependency is missing |
| DepthFirst.Search.Visit | internal/orchestration/graph.go:29-46 | one visit: either everything the node depends on is black, listed dependencies first, or it names a node on a cycle or a missing dependency |
| Dag.TopologicalIsAcyclic | internal/orchestration/graph.go:29-46 | a listing with dependencies first rules cycles out |
| Dag.AcyclicIsTopological | internal/orchestration/graph.go:29-46 | conversely an acyclic closed graph has such a listing |
| TaskGraph.ValidateGraph | internal/orchestration/graph.go:5-58 | no error exactly for the graphs whose tasks are stored under their ids, have present, duplicate-free dependencies and parents in their workflow, and have no dependency cycle; the cycle error exactly when only the last of these fails; any other error is the problem of some task |
| TaskGraph.ValidMeaning | internal/orchestration/graph.go:5-58 | valid means, field by field: every task under its own id, distinct present dependencies, a parent that is empty or a task of the same workflow, and no list of ids that leads along dependencies back to where it began |
| TaskGraph.TaskProblemMeaning | internal/orchestration/graph.go:6-26 | no problem is found with a task exactly when it is well formed, and each error names its cause in terms of ids, dependencies and workflows |
| TaskGraph.SortedSameCycles | internal/orchestration/graph.go:37-38 | walking sorted copies of the dependency lists finds the same cycles |
| TaskGraph.ReadyTasks | internal/orchestration/graph.go:59-83 | the PENDING and READY tasks all of whose dependencies have succeeded, in ascending id order |
| TaskGraph.PropagateFailures | internal/orchestration/graph.go:84-102 | passes in any order end with one and the same graph: blocked are exactly the PENDING and READY tasks with a directly failed, timed-out or cancelled dependency, nothing else changes |
| TaskGraph.PropagatedTwice | internal/orchestration/graph.go:84-102 | propagation is idempotent |
| Retry.ContainsText | internal/orchestration/scheduler.go:172-179 | finds a text exactly when it occurs |
| Retry.IsRetryable | internal/orchestration/scheduler.go:160-171 | a deadline error, or a message with one of the non-empty retryable texts in it |
| Retry.ExecuteWithRetry | internal/orchestration/scheduler.go:135-159 | the attempts form a settled list, are logged in order with what the executor answered each of them, and the last answer is returned |
| Retry.SettledMeaning | internal/orchestration/scheduler.go:141-157 | between one and max(1, MaxAttempts) attempts, each after the first following a retryable error, ended by success, a final error or the limit |
| Retry.SettledOnce | internal/orchestration/scheduler.go:141-157 | a stream of answers settles a task at one point only |
| Retry.GoesOnByLast | internal/orchestration/scheduler.go:154-156 | whether another attempt follows depends on the last answer and the count alone |
| Batch.StepInv | internal/orchestration/scheduler.go:75-110 | every atomic step of the launch loop or of a task goroutine keeps the batch invariant (permits counted, locks owned by unfinished goroutines, task map determined by phases) |
| Batch.ReachableInv | internal/orchestration/scheduler.go:75-110 | so every interleaving does |
| Batch.Safety | internal/orchestration/scheduler.go:75-110 | at every point of every interleaving at most MaxParallel tasks execute, all dependencies of a started task are succeeded, and no task that was decided before the batch has changed |
| Batch.BatchOutcome | internal/orchestration/scheduler.go:76-110 | when the batch is over exactly the ready tasks with a free lock have run, the task map is their outcomes over the old map, and all locks and permits are returned |
| Batch.Confluence | internal/orchestration/scheduler.go:91-107 | completion order does not matter: the same outcomes leave the same task map and locks |
| Batch.NeverStuck | internal/orchestration/scheduler.go:84-110 | short of completion some action is enabled: the launch loop's as long as it has tasks, otherwise that of a goroutine that the semaphore lets move |
| Batch.StepCounts | internal/orchestration/scheduler.go:84-110 | every step uses up work that is left |
| Batch.InterleavingBound | internal/orchestration/scheduler.go:84-110 | so an interleaving has a bounded length, whatever the schedule and the executor |
| Schedule.DecidedStays | internal/orchestration/scheduler.go:47-133 | over a whole run a task that is not open any more, a succeeded one in particular, keeps its record |
| Schedule.RunsAfterDependencies | internal/orchestration/scheduler.go:52-109 | a task enters a round only after all its dependencies have succeeded, and they stay succeeded |
| Schedule.EntersOnce | internal/orchestration/scheduler.go:47-133 | unless its own outcome reopens it a task enters at most one round, with 1 to max(1, MaxAttempts) attempts |
| Schedule.LoneRoundValid | internal/orchestration/scheduler.go:76-109 | the conditions on a round can be met: one pending task with any settled list of attempts, and what it leaves |
| Schedule.RoundShrinks | internal/orchestration/scheduler.go:52-109 | a round takes each of its tasks off the open ones, except those its outcomes reopen |
| Schedule.RoundsBound | internal/orchestration/scheduler.go:47-133 | the number of rounds is at most the number of open tasks plus the number of reopening outcomes, and there are at most as many of these as rounds times tasks: runs are unbounded exactly if reopening outcomes are |
| Schedule.PendingForever | internal/orchestration/scheduler.go:102-107 | with an executor that keeps answering PENDING a run of any length exists: termination does need the exclusion |
| Schedule.RoundLeaves | internal/orchestration/scheduler.go:52-109 | what a round leaves for each last answer: a deadline error times its task out even if it is a cancellation too, a mere cancellation cancels it, any other error fails it, an empty status is success, any other status is taken over; tasks without an answer keep their records unless blocked by a direct dependency |
| FinalStates.Classification | internal/orchestration/scheduler.go:52-74 | when executions only succeeded or failed, at rest a task is blocked exactly when a direct dependency failed, decided exactly when all succeeded, and left over exactly when neither holds and a dependency path leads to a blocked task |
| FinalStates.LeftOverReachesBlocked | internal/orchestration/scheduler.go:54-67 | no unexplained stall: when executions only succeeded or failed, a left-over task reaches a blocked one through left-over tasks, because the graph is acyclic |
| FinalStates.LeftOverReachesHolding | internal/orchestration/scheduler.go:54-67 | whatever executors reported, a left-over task reaches, through left-over tasks, one whose status neither lets dependents run nor blocks them |
| FinalStates.VerdictMeaning | internal/orchestration/scheduler.go:55-73 | for all reported statuses: RUNNING exactly if a task is left running or such a stall exists; with SUCCEEDED, every task succeeded if and only if no execution stored a status other than success or a reopening one. If executions only succeeded or failed: RUNNING exactly for a stall behind a blocked task, and with SUCCEEDED every task succeeded if and only if none was cancelled |
| FinalStates.SucceededMeans | internal/orchestration/scheduler.go:61-72 | the second of these for every run of initially open tasks, finished or not |
| FinalStates.AnswersLast | internal/orchestration/scheduler.go:47-133 | over a whole run every task ends with what its last answer is to be stored as, unless that answer was PENDING or READY |
| FinalStates.GivenUpShows | internal/orchestration/scheduler.go:55-73 | a last answer that is a deadline error, or an error that is no cancellation, leaves a task TIMED_OUT or FAILED at the end and rules out SUCCEEDED |
| FinalStates.StalledRun | internal/orchestration/scheduler.go:52-67 | a stall: in a chain of three tasks whose first fails, the run ends without error, RUNNING, with the third left over |
| FinalStates.SucceededThoughCancelled | internal/orchestration/scheduler.go:61-72 | runs whose only task is cancelled, or reported waiting, end SUCCEEDED |
| Layers.ReadyIsLayer | internal/orchestration/graph.go:59-83 | with the layers below k done, the ready tasks are those whose longest dependency chain has length k |
| Layers.RoundIsLayer | internal/orchestration/scheduler.go:47-133 | when every recorded execution succeeds, round k executes exactly layer k |
| Layers.LayeredRun | internal/orchestration/scheduler.go:47-133 | such a finished run has the verdict SUCCEEDED with every task succeeded, in as many rounds as the longest dependency path has tasks |
| Scheduling.Scheduler.constructor | internal/orchestration/scheduler.go:22-27 | the limit is raised to at least one, no lock is held |
| Scheduling.Scheduler.LockTask | internal/orchestration/scheduler.go:28-36 | takes the lock unless it is held |
| Scheduling.Scheduler.UnlockTask | internal/orchestration/scheduler.go:37 | gives exactly that lock back |
| Scheduling.Scheduler.StepMain | internal/orchestration/scheduler.go:76-83 | each step of the launch loop on the real fields is an enabled step of the batch machine |
| Scheduling.Scheduler.StepWorker | internal/orchestration/scheduler.go:84-108 | each step of a task goroutine on the real fields is an enabled step of the batch machine, and an Execute call hands over what the executor answered |
| Scheduling.Scheduler.RunBatch | internal/orchestration/scheduler.go:75-110 | the goroutines interleaved arbitrarily: the batch ends, with the outcome of its settled attempts and all locks back; the calls logged for each task are exactly its attempts, with the results the executor answered |
| Scheduling.Scheduler.RunReady | internal/orchestration/scheduler.go:75-110 | one batch is one valid round of the schedule, whose results are those the executor answered, task by task and attempt by attempt |
| Scheduling.Scheduler.Run | internal/orchestration/scheduler.go:38-134 | the errors for an invalid graph and a missing executor, and otherwise a sequence of valid rounds that ends at rest with the verdict of the final graph, or cancelled at the head of a pass; the calls logged for each task are, in order, the attempts of the rounds with what the executor answered; every task ends as its last answer says, the status is RUNNING, FAILED or SUCCEEDED by the statuses of the tasks, and a task given up with a deadline or plain error rules SUCCEEDED out; and if the executor always succeeds, the tasks start open and the run is not cancelled, it ends SUCCEEDED with every task succeeded, round k executing layer k, in as many rounds as the longest dependency path has tasks |
| Scheduling.ResultAnswered | internal/orchestration/scheduler.go:90-106 | every result a round records was answered by the executor at some call of the run, for the running copy of that task and that attempt |
| Scheduling.AnswersDecide | internal/orchestration/scheduler.go:90-106 | so an executor that always succeeds makes every recorded execution succeed, and one that only succeeds or errs makes all outcomes plain |
| Scheduling.SuccessfulRun | internal/orchestration/scheduler.go:47-133 | with an executor that always succeeds, the calls and rounds of a finished run mean success in layers |
| Scheduling.Tally | internal/orchestration/scheduler.go:55-73 | the flag loops compute the verdict |
| Scheduling.BatchIsRound | internal/orchestration/scheduler.go:76-110 | what a finished batch leaves is what a round says |
| Scheduling.AttemptsBounded | internal/orchestration/scheduler.go:135-159 | over a whole run a task that is not reopened is given at most max(1, MaxAttempts) attempts, all in the one round it enters |
| Planning.ValidatePlan | internal/orchestration/service.go:26-48 | accepted exactly with a goal, tasks, distinct ids and a valid completed graph; each error exactly in its case; the error for a dependency key without a task, looked for after a task was supplied, is never given |
| Planning.PhantomTask | internal/orchestration/service.go:37-43 | in an accepted plan every dependency key names a task if and only if the empty id is not a key that names none |
| Planning.PhantomAccepted | internal/orchestration/service.go:37-43 | a plan with such a key is accepted |
| Planning.Plan | internal/orchestration/service.go:85-119 | a workflow exactly for an acceptable plan of a present planner, holding a copy of its graph: every task under the workflow id, an underscore and its id, with that id, the workflow's id and its dependencies renamed in the task itself as in the graph; parent, status, retry policy and payload are the original's; nothing else is there |
| Planning.Remap | internal/orchestration/service.go:102-117 | the renaming loop, in any order: every task once, under its new id, with renamed dependencies in both places and all other fields as they were |
| Planning.RenamingInjective | internal/orchestration/service.go:103-106 | two ids are never renamed to the same id |
| Planning.RenamedEdges | internal/orchestration/service.go:107-117 | the copy has exactly the renamed dependencies |
| Planning.RenamedAcyclic | internal/orchestration/service.go:107-117 | for a graph whose dependencies are present: a renamed task lies on a cycle exactly if the original does, so the copy is acyclic exactly if the original is |
| Planning.RenamedValid | internal/orchestration/service.go:107-117 | the copy of a valid graph is valid exactly when every parent id already reads like a renamed task; so always for plans without parent tasks |
| Planning.ParentLinkBreaks | internal/orchestration/service.go:107-117 | a valid plan with one parent link becomes invalid, because ParentTaskID is not renamed |
| Planning.RenamedReadyList | internal/orchestration/service.go:103-106 | the ready list of the copy is the renamed ready list, in the same order |
| Planning.RenamedPropagated | internal/orchestration/service.go:107-117 | propagating failures commutes with renaming |
| LoopCoordinator.ExclusiveStep | internal/productexperience/loop_coordinator.go:105-113 | whatever callers race, no step makes two goroutines run the same loop |
| LoopCoordinator.OneRunPerLoop | internal/productexperience/loop_coordinator.go:105-113 | so at every point of every history at most one run per loop is active |
| LoopCoordinator.CalmStep | internal/productexperience/loop_coordinator.go:53-157 | every step, failed save or crash keeps checkpoint and process consistent, when no call races an active run and loops are started with distinct stages of which a prefix may be completed |
| LoopCoordinator.CheckpointSafety | internal/productexperience/loop_coordinator.go:53-157 | at every point of such a history, restarts of stored loops included, the persisted completed stages are a prefix, and a loop persisted COMPLETED has completed all stages |
| LoopCoordinator.ProgressKept | internal/productexperience/loop_coordinator.go:119-156 | no step takes a completed stage off the disk unless a start is about to save less than its checkpoint |
| LoopCoordinator.CalmLoss | internal/productexperience/loop_coordinator.go:53-76 | while starts and resumptions are calm, a step takes a completed stage off the disk if and only if it is the save of a start or resumption whose execution lacks that stage |
| LoopCoordinator.DoneStays | internal/productexperience/loop_coordinator.go:119-156 | so in histories in which no loop is started from less than its checkpoint, completed stages stay completed |
| LoopCoordinator.NeverExecutedAgain | internal/productexperience/loop_coordinator.go:119-127 | in such histories a stage once persisted as completed is never executed again by any later run |
| LoopRaces.LosesExactly | internal/productexperience/loop_coordinator.go:53-156 | in any state a step takes a completed stage off the disk if and only if it saves an execution of that loop that lacks the stage |
| LoopRaces.FirstLoss | internal/productexperience/loop_coordinator.go:53-156 | starts, resumptions and active runs may race: as long as no start claims the stage ahead of the disk (unless it is the first of a fresh loop), the first loss of a completed stage is the save of a start or resumption; a resumption's snapshot was read before the stage was saved |
| LoopRaces.LostExactly | internal/productexperience/loop_coordinator.go:53-156 | so a completed stage is ever lost if and only if a start or resumption that lacks the stage is saved while the stage is on disk |
| LoopRaces.FreshLoss | internal/productexperience/loop_coordinator.go:53-156 | if only loops are started that are neither stored nor worked on, a completed stage is ever lost if and only if a resumption saves a snapshot that it read before the stage was on disk, after the stage came there |
| LoopRaces.StaleResume | internal/productexperience/loop_coordinator.go:82-89 | a resumption that races a run can overwrite a newer checkpoint: a nine-step history with a fresh start that loses a completed stage |
| LoopRaces.ClaimLost | internal/productexperience/loop_coordinator.go:53-76 | the restriction on starts is needed: after a second start that claims a stage of a loop being worked on, the active run's next save loses that stage |
| LoopCoordinator.Coordinator.Start | internal/productexperience/loop_coordinator.go:53-76 | refuses what cannot be started without saving; otherwise saves the loop as RUNNING, at its first stage if it names none, and spawns only if the save succeeded |
| LoopCoordinator.Coordinator.Resume | internal/productexperience/loop_coordinator.go:78-90 | leaves a completed loop alone and starts any other from its checkpoint |
| LoopCoordinator.Coordinator.RunStage | internal/productexperience/loop_coordinator.go:119-151 | one stage: executed unless its completion is recorded, and the loop goes on only from a saved completed stage |
| LoopCoordinator.Coordinator.RunStages | internal/productexperience/loop_coordinator.go:119-156 | the stage loop executes one unbroken stretch of stages from the first that is not completed |
| LoopCoordinator.Coordinator.Run | internal/productexperience/loop_coordinator.go:105-157 | the goroutine as a whole is a history of the machine; it executes an unbroken stretch from the first stage that the checkpoint does not record as completed. If saves work and the process survives, the answers are on record stage by stage, and the loop is persisted COMPLETED if the last answer completed the last stage, FAILED with the error after an error, BLOCKED after a blocked stage, and FAILED after any other state, at the stage executed last |
| ArtifactCache.KeyInjective | internal/sharedinfra/registry.go:91-93 | an artifact with '|'-free fields shares its key with no other artifact at all |
| ArtifactCache.KeyCollision | internal/sharedinfra/registry.go:91-93 | an artifact with a '|' in any field shares its key with another one |
| ArtifactCache.KeyUnique | internal/sharedinfra/registry.go:91-93 | so a key belongs to more than one artifact if and only if some field has a '|' |
| ArtifactCache.KeyChecksum | internal/sharedinfra/registry.go:91-93 | artifacts that share a key share their checksum, if their checksums have no '|' |
| ArtifactCache.VerifiedChecksum | internal/sharedinfra/registry.go:209-217 | a checksum that verifies against a '|'-free digest has no '|' itself |
| ArtifactCache.RepresentsThroughout | internal/sharedinfra/registry.go:94-181 | over every history the cache without persistence holds what the plain map of key lives says |
| ArtifactCache.LookupDecided | internal/sharedinfra/registry.go:94-122 | then Lookup is MISS if the key was never put, HIT if the last accepted Put still counts, CORRUPT after Invalidate, unless the empty bytes already satisfy the checksum |
| ArtifactCache.HitIsVerified | internal/sharedinfra/registry.go:101-121 | with any persistence HIT is only reported for held bytes that hash to the checksum |
| ArtifactCache.VerifyMeaning | internal/sharedinfra/registry.go:209-217 | a checksum verifies exactly if it is not empty and, after one prefix sha256: if it has one, spells the hexadecimal digest digit by digit in either case |
| ArtifactCache.EntryStatus | internal/sharedinfra/registry.go:94-181 | after an operation the entry of its key is a hit, corrupt or invalid as its outcome says, and a look-up that misses, a refused put and operations of other keys change no entry |
| ArtifactCache.RefusedPutInvisible | internal/sharedinfra/registry.go:123-167 | a refused Put of a new key changes no later answer and neither the statistics then nor those after any later operation, as long as no entry of that key is loaded from persistence |
| ArtifactCache.LoadedEntryExposes | internal/sharedinfra/registry.go:151-162 | loading such an entry exposes the bytes the refused Put left behind: the next Lookup is HIT instead of CORRUPT |
| ArtifactCache.RefCounts | internal/sharedinfra/registry.go:94-167 | without loading, a reference count is the number of accepted Puts plus the number of hits |
| ArtifactCache.Cache.LookupArtifact | internal/sharedinfra/registry.go:94-122 | the method does the specified step and returns its answer and entry: a hit counts one more reference, a corrupt entry is marked so |
| ArtifactCache.Cache.PutArtifact | internal/sharedinfra/registry.go:123-167 | accepted exactly if the checksum verifies and nothing fails to be persisted; then the entry is a hit with one reference, or one more, and the bytes are held; otherwise no entry changes |
| ArtifactCache.Cache.InvalidateArtifact | internal/sharedinfra/registry.go:168-181 | the entry is marked invalid and its bytes are dropped |
| ArtifactCache.Cache.HydrateEntries | internal/sharedinfra/registry.go:182-196 | loaded entries replace those of their keys |
| ArtifactCache.Cache.GetStats | internal/sharedinfra/registry.go:197-208 | the loop counts entries, bytes held under entries, and hits |
| VertexList.Validate | internal/provisioning/graph.go:19-65 | shared by steps and checks: accepts exactly the lists with distinct non-empty names and present, acyclic dependencies, and otherwise names what is wrong |
| VertexList.BottomVertex | internal/provisioning/graph.go:30-64 | any part of such a list has a member that depends on no other member of the part |
| Provisioning.ValidateGraph | internal/provisioning/graph.go:19-65 | accepts exactly the step lists that can be worked off; a reported cycle or missing dependency is real |
| Provisioning.ReadySteps | internal/provisioning/graph.go:66-85 | the pending steps whose listed dependencies have passed, in list order |
| Provisioning.SomethingReady | internal/provisioning/graph.go:66-85 | while a step is pending and none has gone wrong, some step is ready |
| Provisioning.NothingReadyMeans | internal/provisioning/manager.go:80-113 | when no step is ready, every step has passed if and only if the run started from pending and passed steps |
| Provisioning.PassOne | internal/provisioning/manager.go:88-104 | passing a ready step keeps the passed set closed under dependencies and the other ready steps ready |
| Provisioning.FailOne | internal/provisioning/manager.go:92-96 | failing one leaves that single failure and the passed set as it was |
| Provisioning.ExecutedOnce | internal/provisioning/manager.go:80-105 | no step is executed twice, none that had passed before, none before all its dependencies passed |
| Provisioning.FailureLeaves | internal/provisioning/manager.go:93-96 | a failure leaves exactly one failed step and a passed set closed under dependencies |
| Provisioning.ReadyThoughFailed | internal/provisioning/manager.go:176-187 | a failed step is never tried again: for every step list with a failed step, a manager for which nothing goes wrong reports the run ready with that step failed and not executed |
| Provisioning.Manager.Get | internal/provisioning/manager.go:243-259 | the store's record if it can be loaded, the manager's own otherwise |
| Provisioning.Manager.Save | internal/provisioning/manager.go:260-268 | kept in memory in any case and in the store if it takes it, which it may even do while reporting an error |
| Provisioning.Manager.Mark | internal/provisioning/manager.go:233-242 | marks every step of that id in place |
| Provisioning.Manager.RunStep | internal/provisioning/manager.go:88-103 | one ready step: passed and saved, or failed because its command failed or is not known; every snapshot saved is a state of the same work |
| Provisioning.Manager.WorkOff | internal/provisioning/manager.go:80-105 | passes until nothing is ready, or the first failure, failed save or cancellation, each explained by the answer of a command or of the store |
| Provisioning.Manager.Provision | internal/provisioning/manager.go:49-114 | returns ready only when the steps evolved from the loaded record and all passed if and only if that record had only pending and passed steps; each error has its exact cause; if nothing goes wrong it returns ready; every failed step leaves one failed step; each saved snapshot can be continued and keeps what the earlier ones have passed; a created runtime is recorded in the run and in every later snapshot, and every command runs in it; the outcome's status and the step passed last are on record; no runtime is created once a snapshot has one; and no step is executed that any earlier saved snapshot of the run has passed |
| Provisioning.Manager.ProvisionFrom | internal/provisioning/manager.go:63-113 | the work on a record that is neither ready nor cancelled, with the conditions of its errors: missing runtime, failed creation, cancellation exactly in their cases, a failed save or step only after the store or the command said so; READY, FAILED or CANCELLED as the outcome is, with the run's runtime, snapshots and record in memory and store |
| Provisioning.Manager.Crash | internal/provisioning/manager.go:243-259 | the process may die at any moment, also inside a call: with nothing in memory and the store as of any number of its snapshots, the next call still starts ahead of all snapshots saved by then |
| Provisioning.Manager.Lives | internal/provisioning/manager.go:49-114 | any number of calls, each cut off at any moment: no call executes a step that a snapshot saved in an earlier one has passed, every snapshot has passed all that the earlier ones have, and once one has a runtime all later ones have it and no call creates another |
| Provisioning.NeverAgain | internal/provisioning/manager.go:80-105 | executions that start from a record ahead of all saved snapshots run no step that a snapshot has passed |
| Knowledge.MemoryStore.UpsertNode | internal/knowledge/store.go:24-39 | refuses a node without project, id, type or name, and otherwise stores exactly that node |
| Knowledge.MemoryStore.UpsertEdge | internal/knowledge/store.go:40-59 | refuses an incomplete edge or one between unknown nodes, and otherwise stores exactly that edge |
| Knowledge.MemoryStore.ProjectGraph | internal/knowledge/store.go:60-77 | all and only the project's nodes and edges, in id order |
| Impact.ReachableFrom | internal/productexperience/service.go:92-105 | the queue loop terminates, cycles included, with exactly what the root reaches along project edges |
| Impact.Analyze | internal/productexperience/service.go:87-135 | the project's nodes other than the root that the root reaches, in id order, sorted into their columns, files by path and the others by name; risk HIGH, with approval, exactly when a database or table is among them |
| Impact.Classify | internal/productexperience/service.go:111-134 | the switch loop and its two adjustments: columns in list order, MEDIUM above eight listed nodes |
| Impact.ColumnMeaning | internal/productexperience/service.go:111-122 | a column lists the nodes of its type, each once and in order, files by path and the others by name |
| Impact.ImpactGrows | internal/productexperience/service.go:87-135 | adding nodes or edges never removes an affected node and never lowers the risk |
| Routing.Evaluate | internal/routing/router.go:90-175 | a candidate is accepted exactly when its model meets all hard constraints |
| Routing.EvaluateModel | internal/routing/router.go:90-175 | the constraints tried one after the other and the points added up come to the specified candidate |
| Routing.CapabilityMeaning | internal/routing/router.go:187-233 | a model with every needed capability of another scores no less, and more exactly when it has a needed one that the other lacks |
| Routing.CapabilityWeight | internal/routing/router.go:187-233 | a capability counts 2 points if it is tool use and 3 otherwise if the task asks for it, by its flags or its type, and nothing if not |
| Routing.PolicyMeaning | internal/routing/router.go:77-173 | with the policy in force (the request's own, else the project's, the organization's, the global one, else balanced) and equal needed capabilities, when one model scores more than another, as inequalities over reliability, cost, latency class, scores and place |
| Routing.SortMeaning | internal/routing/router.go:60-68 | the stable sort is an ordered permutation that leaves ties as they were |
| Routing.OrderUnique | internal/routing/router.go:60-68 | where equal names mean equal candidates there is one ordered listing |
| Routing.Decide | internal/routing/router.go:40-74 | the method answers what the specification Route says, whose meaning the following rows state |
| Routing.RouteBest | internal/routing/router.go:57-73 | without an override there is an answer exactly when some model is eligible; it is the eligible model that wins against every other by score, provider and model id, followed by the rest in order |
| Routing.MoreReliableWins | internal/routing/router.go:57-73 | of two models that differ in name and reliability only the less reliable is never selected while the other is eligible |
| Routing.LocalFirstWins | internal/routing/router.go:57-173 | when local models are preferred, a remote model is never selected while an otherwise equal local one is eligible, except under the cloud-first policy, where they tie |
| Routing.CapabilityWins | internal/routing/router.go:57-173 | with reliabilities within [0, 1], under the balanced, custom and cheapest policies a model with one needed capability more is selected before the other, unless only the other is local and local models are preferred |
| Routing.SimulatorSelects | cmd/routing-sim/main.go:11-16 | the simulator's request: 9.3 points for the local model, 6.95 for the cloud model, and the local one selected |
| Routing.RouteOverride | internal/routing/router.go:176-186 | with an override there is an answer exactly when the named model is eligible, and then that model alone |
| Routing.RoutePartition | internal/routing/router.go:45-59 | every model appears exactly once among selected, alternatives and rejected if and only if there is no override or an accepted one; under a refused override the accepted candidates are forgotten |
| Routing.RouteUnordered | internal/routing/router.go:45-73 | reordering the models changes neither selection, alternatives, cost nor confidence, and only the order of the rejected, provided no two different models share provider and model id |
| Routing.ApplyOverride | internal/routing/router.go:176-186 | the first accepted candidate of that name alone, the other accepted ones behind the rejected; or nothing accepted and a rejection of the name |
| Routing.DecideWithFallbacks | internal/routing/router.go:20-39 | a first answer stands; otherwise the first fallback with an eligible model answers; what is selected meets every hard constraint of the original request; and without an override no fallback can ever be taken |
| Verification.ValidateChecks | internal/verification/graph.go:9-47 | accepts exactly the check lists with distinct non-empty ids and present, acyclic dependencies; the duplicate error exactly for ids |
| Verification.SortChecks | internal/verification/engine.go:46-47 | a copy of the checks in ascending id order |
| Verification.FindCheck | internal/verification/engine.go:215-222 | the check of that id, or a required one that is not in the list |
| Verification.ProfileOf | internal/verification/engine.go:169-192 | the request's checks or, if it has none, build and tests, with security under the strict policy and a runtime check after the build under all but the strict and fast ones, each required and tried once |
| Verification.DefaultsRun | internal/verification/engine.go:169-192 | the default checks of every policy are workable |
| Verification.DefaultsRespected | internal/verification/engine.go:46-48 | and sort so that the engine respects their dependencies |
| Verification.ChronicleStep | internal/verification/engine.go:48-129 | adding the next result keeps the account of a run: one result per check so far, refused when an earlier dependency did not pass, executed once when not |
| Verification.FailureSpreads | internal/verification/engine.go:56-70 | when every check sorts behind its dependencies, a check that does not pass keeps all its transitive dependents from being executed |
| Verification.RespectedExactly | internal/verification/engine.go:46-70 | in every account of a run, no check is executed with a direct dependency that did not pass, if and only if every check sorts behind its dependencies |
| Verification.LaterFailure | internal/verification/engine.go:56-61 | otherwise an account exists in which a failed dependency that sorts later is ignored |
| EngineRuns.Realise | internal/verification/engine.go:46-129 | every account, complete or cut off, is what some run of the engine does: adapters and a context are constructed and run to exactly its results and executed checks |
| EngineRuns.IgnoresLater | internal/verification/engine.go:56-61 | so an actual run executes and passes a check although its later-sorting dependency fails |
| Verification.SummaryMeaning | internal/verification/engine.go:133-158 | the four counters add up to the number of results, and a required failure is counted exactly when a required check did not pass |
| Verification.Summarize | internal/verification/engine.go:133-158 | the loop computes those counters, the blocked count and the list of failures |
| Verification.Engine.IsBlocked | internal/verification/engine.go:56-61 | some dependency has a result so far that is not a pass |
| Verification.Engine.Execute | internal/verification/engine.go:88-109 | between one and max(1, MaxAttempts) attempts, each after the first following an error and a context not done; the result is that of the last, overridden by a stop seen after an error |
| Verification.Engine.Engage | internal/verification/engine.go:71-109 | an unknown kind is only attempted; a failed discovery or validation gives the normalised error without an attempt; otherwise the result is that of the attempts |
| Verification.Engine.EngagedMeaning | internal/verification/engine.go:71-109 | the result names its check, an unregistered kind never passes, and a stop seen on the way is still seen afterwards |
| Verification.Engine.RunChecks | internal/verification/engine.go:48-129 | the loop keeps the account, the calls and looks of the checks follow one another, every result is a refusal or what the adapters answered, and the loop ends early exactly at a look that sees the context done |
| Verification.Engine.Run | internal/verification/engine.go:21-168 | a run passes if and only if no look saw the context done, every check has its one result and every required check passed; it fails if and only if a required result is not a pass; otherwise it is TIMED_OUT after a deadline and CANCELLED after a cancellation; and every result is a refusal or made of what the adapters answered in that run |
| Verification.Engine.FlawlessPasses | internal/verification/engine.go:48-131 | adapters that raise no error and pass, under a context that is never done, make the run pass with every check executed |
| Repair.RunWithRepairs | internal/verification/repair.go:55-111 | at most max(1, MaxAttempts) + 1 verifications; returned without error the run is the last verification with the repair history; with an executor it stops only passed, after a failed repair, or at the limit |
| Repair.HistoryMeaning | internal/verification/repair.go:73-106 | attempts are numbered from one, all but possibly the last succeeded, each answers a verification that did not pass and targets its failures |
| RateLimiter.FixedWindowLimiter.Allow | internal/httpapi/security.go:29-44 | the answer depends on the key's own entry and no other entry changes |
| RateLimiter.EntryCounts | internal/httpapi/security.go:33-43 | after every nondecreasing history the entry's count is the number admitted since its window opened |
| RateLimiter.WindowBound | internal/httpapi/security.go:33-43 | a window admits at most max(1, limit) requests |
| RateLimiter.SlidingBound | internal/httpapi/security.go:33-43 | any half-open interval of one window length admits at most 2 * max(1, limit) - 1 requests |
| RateLimiter.BoundMet | internal/httpapi/security.go:33-43 | and that bound is met, for every limit |
| RateLimiter.RefusalEarned | internal/httpapi/security.go:38-40 | a refusal means that the open window has admitted its full limit, and after the announced wait a request is admitted, none before |
| RateLimiter.NoWindowNoLimit | internal/httpapi/security.go:34-37 | a window that is not positive admits everything |
| RateLimiter.KeysApart | internal/httpapi/security.go:29-44 | over histories of many keys, a key's entry depends on its own requests alone |
| Resources.MemoryResourceManager.Reserve | internal/orchestration/controls.go:27-44 | granted exactly when it fits in all three dimensions, and then added to what is used |
| Resources.MemoryResourceManager.Release | internal/orchestration/controls.go:36-43 | subtracts the leased request, however often it is called |
| Resources.UsedIsBalance | internal/orchestration/controls.go:27-44 | after every history what is used is the balance of grants and releases |
| Resources.UsedIsOutstanding | internal/orchestration/controls.go:27-44 | with requests that are not negative it never exceeds the capacity, and it is the sum of the outstanding leases if and only if no lease that holds anything was released twice |
| Resources.SecondReleaseOvercommits | internal/orchestration/controls.go:27-44 | after a second release of a lease that holds something, one more granted request makes the outstanding leases exceed the capacity |
| Ports.KeyTextInjective | internal/deployment/infrastructure.go:61 | the text protocol/port determines both parts, whatever the protocol |
| Ports.MemoryPortRegistry.Reserve | internal/deployment/infrastructure.go:58-76 | refused exactly when the port belongs to another id; otherwise filed, with a generated id if it has none |
| Ports.MemoryPortRegistry.Release | internal/deployment/infrastructure.go:77-87 | removes the binding and the index entry of its current port |
| Ports.MemoryPortRegistry.List | internal/deployment/infrastructure.go:88-98 | all and only the project's bindings, each once |
| Ports.NoPortTwice | internal/deployment/infrastructure.go:58-87 | after every history every live binding is the owner indexed under its port, and no two live bindings share one |
| Ports.InverseKept | internal/deployment/infrastructure.go:58-87 | a reservation keeps the index an exact inverse if and only if it is refused or its id is not live under another port; a release always does |
| Ports.SteadyInverse | internal/deployment/infrastructure.go:58-87 | so histories without such a move keep it, and a released port is free again |
| Ports.LeftBehind | internal/deployment/infrastructure.go:73-86 | a port that a moved id left behind stays taken even after the id is released |

## Left out

- Stores behind SQL, JSON and HTTP handlers, events, timestamps and process-wide limiter instances: input and output around the modelled logic.
- Task payload (title, agent, routing request, constraints, priority): carried along unchanged by the modelled code; deadlines appear as the executor's deadline errors.
- Aliasing of Go maps and slices: graphs, loop results and step lists are values here; in the source a copied run shares its step array with the record it was copied from.
- Batch.Safety: treats each access to the task map as atomic; the source's unsynchronised concurrent map writes are a data race that the model does not capture.
- Scheduling.Scheduler.Run: locks taken by another run of the same scheduler stay fixed during a batch in the machine, and the method starts with none held.
- Coordinator.Recover: a loop of resumptions, each of which is modelled.
- LoopCoordinator.Coordinator.Run: one goroutine's own steps; interleavings of several are covered by the machine's histories, not by the method.
- Manager.Resume, RequestCancel, Cleanup and Plan of provisioning: Resume discards its edits and calls Provision; the others set one field and save.
- The commands, runtime creation and step texts of provisioning: whether a command succeeds is an oracle.
- Two maps `visiting` and `visited` in the provisioning validator: folded into one colour per node; the visit order is left open, which covers the sorted, listed and random orders.
- DeterministicPlanner.Plan, Select, SortedTaskIDs: constants and one-line searches.
- Tool registry of sharedinfra (Register, Get, List, Resolve, Load) and version matching: lookups settled by reading.
- MemoryStore.Neighbors and Service.Assemble: filters over the project graph that add only easy members.
- Reasons and explanation texts of the router and of impact findings, except the first impact reason.
- Profile capture, artifacts and repair plans' texts in verification: carried along; the default checks of each policy are modelled.
- RepairLoop events and the default task executor behind repairs.
- Approval gate, stale-task recovery and worktrees in controls.go: finite tables settled by reading.
- strconvItoa, header and origin middleware of httpapi: not part of the limiter.
- Route validation, service discovery and network configuration in infrastructure.go: they rest on foreign calls.
