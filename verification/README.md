# Traccia Runtime, verified

A Dafny model of the state machines at the core of Traccia Runtime, an agent runtime built from small
concurrent components over in-memory stores. Each component is modelled twice where it changes state in
place: as a class with the fields and methods of the source, proved against functions on its state, and
as a state machine whose steps are those functions and whose actors interleave wherever the source can
suspend. The theorems are about every execution of these machines.

`dafny verify dfyconfig.toml` checks the whole project.

| file | component |
|---|---|
| `GraphContracts.dfy` | validation of analytical graphs: the depth-first cycle check |
| `GraphEngine.dfy` | what a graph means, how nodes read their inputs, what a sound checkpoint is |
| `GraphExecution.dfy` | any number of drivers over one graph: tasks, checkpoints, crashes, resumes |
| `GraphCompletion.dfy` | which graphs can be completed at all |
| `GraphScheduler.dfy` | the graph store and the round-based scheduler |
| `RunLifecycle.dfy` | the transition table, the run store, and actors over copies of one run |
| `RunPromises.dfy` | what can be done with a run, and for whom it keeps its promises about consent and repeated calls |
| `DriverSaves.dfy` | the saves of one driver as steps of the life of its run |
| `DriveLoop.dfy` | the drive loop of a run, model retries and budget accounting |
| `ToolReservation.dfy` | idempotency-key reservations and the tool executor |
| `WorkQueue.dfy` | the leased work queue and its workers |
| `QueueProgress.dfy` | which work items can still be finished |
| `CacheStore.dfy` | the LRU, TTL and tag-index cache store against an unbounded map |
| `SingleFlight.dfy` | single-flight loading above the cache |
| `EventBus.dfy` | event history, bounded subscriber queues and subscriptions |
| `SemanticLayer.dfy` | the alias index of the semantic layer |
| `SemanticCompiler.dfy` | compilation of filters to a parameterised WHERE clause |
| `JoinPath.dfy` | the greedy choice of governed joins |
| `Words.dfy` | words and whitespace normalisation |
| `TextChunker.dfy` | overlapping chunks |
| `RateLimiter.dfy` | the sliding-window rate limiter |
| `Wrappers.dfy` | what several components share |

## How to read the model

- An `asyncio` lock that guards a section without an `await` never suspends its holder, so such a section
  is one atomic step. Every `await` of foreign code is a point where other actors may act.
- Exceptions are results: a `Result`, an `Option`, an error value, or `false` for the conflict error.
- Models, tools, handlers, policies and clocks answer freely. Handlers of analytical nodes are functions
  of their node and inputs, as confluence needs.
- Time and money are `int` or `real` without rounding.
- The driver of a run charges its own copy. An error is recorded on the stored run, which may lack the
  last completion: `DriveLoop.Driver.ModelWithRetry` says exactly when. At every loop head it is complete.
- Some classes carry ghost history (what was claimed, requested, granted, published, delivered), so that a
  theorem can speak about a whole run.

## Where the code and its promises differ

- A tool call whose result is written to the cache can go from completed back to failed: a cancellation
  during the cache write reaches the handler that records a failure. The key is then free again.
  `ToolReservation.CancelledCacheWriteLosesCompletion` gives the run and
  `ToolReservation.CompletionIsPermanentIffUncacheable` proves that exactly the cacheable calls are affected.
  They are the idempotent calls without side effects, with caching on.
- A work item with no attempts left is never claimed again, so when its last worker crashes it stays leased
  for ever, neither completed nor failed. `QueueProgress.CanBeFinishedIff` proves that an unfinished item can
  still be finished exactly when it has attempts left or the owner of its lease is at work on it, and
  `QueueProgress.LostItemsAreLostForEver` that otherwise it never changes.
- Deduplication looks an identifier up by truth value, so an item whose identifier is the empty string does
  not deduplicate later ones: `WorkQueue.DeduplicationNeedsAnIdentifier`.
- `del history[:-limit]` deletes nothing for the limit 0 and, for a negative limit, deletes from the front
  until even the newest event may be gone; sequence numbers stay in order exactly for limits that are not
  negative: `EventBus.NextSequenceIsInOrder`.
- The table allows `timed_out` from five statuses only and `failed` from neither `received` nor
  `awaiting_clarification`: `RunLifecycle.OutcomesTheTableAccepts`.
- The decision of a resume is parsed as any approval status and taken as it is, while the error text names
  approved, rejected and modified. Every status but rejected lets the call through, so a pending or expired
  one runs a tool nobody consented to: `RunPromises.AnyStatusButRejectedRunsTheTool` gives the run, and
  `RunPromises.ConsentIsRespectedIff` proves that exactly the callers who never decide with those two
  statuses are safe.
- Only the planners of the runtime leave completed tool calls alone; the driver executes whatever call it is
  given. So calls complete at most once exactly for agents with a built-in planner:
  `RunPromises.CallsCompleteOnceIffBuiltIn`, with the run of another planner in
  `RunPromises.OwnPlannerRepeatsACall`.
- The join choice takes the first join that leads further and looks at its authorization afterwards, so an
  authorized join later in the list is not tried: `JoinPath.AuthorizedDetourIsNotTried`. Where authorized
  joins connect everything, the choice succeeds exactly when it meets no unauthorized join:
  `JoinPath.AuthorizedConnectionSucceedsIff`.
- An attempt at a rate limiter fails on an empty queue exactly when the limit is below 1:
  `RateLimiter.FailsIffNonPositiveLimit`.

## Model

| member | source | states |
|---|---|---|
| GraphContracts.ValidateDag | src/traccia_runtime/analytics/contracts.py:103-132 | each verdict is returned exactly when its condition holds and no earlier one does; in particular a graph is accepted iff it is within the size limit, has unique identifiers, known dependencies and no dependency cycle, and acceptance comes with a topological order |
| GraphContracts.CycleCheck.Visit | src/traccia_runtime/analytics/contracts.py:119-128 | terminates on every closed table; a raised error means there is a cycle; otherwise the stack is restored, the node is visited, and nodes enter `visited` after their dependencies |
| GraphContracts.SearchForCycles | src/traccia_runtime/analytics/contracts.py:115-132 | the search succeeds iff the dependency table is acyclic, and then the order of entry into `visited` is topological |
| GraphContracts.HasUniqueIds | src/traccia_runtime/analytics/contracts.py:107-110 | true iff no identifier occurs twice; the set holds exactly the identifiers |
| GraphContracts.FindUnknownDependency | src/traccia_runtime/analytics/contracts.py:111-114 | none iff every dependency is the identifier of a node; otherwise the first node with unknown dependencies and exactly those |
| GraphContracts.DependencyMap | src/traccia_runtime/analytics/contracts.py:117-117 | the table has exactly the identifiers as keys and, when they are unique, the dependencies of each node |
| GraphContracts.TopologicalOrderIsAcyclic | src/traccia_runtime/analytics/contracts.py:119-131 | a table with a topological order has no cycle of any length |
| GraphContracts.BackEdgeIsCycle | src/traccia_runtime/analytics/contracts.py:120-121 | reaching a node that is on the call stack exhibits a cycle |
| GraphContracts.CompletingKeepsOrder | src/traccia_runtime/analytics/contracts.py:125-128 | marking a node visited after its dependencies keeps the order dependency-first and free of duplicates |
| GraphEngine.ResolveInputs | src/traccia_runtime/analytics/engine.py:274-291 | yields, for every input and no other, the value its reference leads to in the result of its node, or an error iff some reference leads nowhere |
| GraphEngine.Follow | src/traccia_runtime/analytics/engine.py:279-289 | the loop over a path finds a value iff a chain of values leads to it in which each is the member of the one before that the part names: the field of that key, or the item counted from the front or, if negative, from the back |
| GraphEngine.TraverseFollows | src/traccia_runtime/analytics/engine.py:279-289 | the same of the recursive reading of a path that evaluation uses |
| GraphEngine.AcceptedGraphIsAdmitted | src/traccia_runtime/analytics/contracts.py:82-132 | what validation accepts has the ranking that makes recursive evaluation well founded |
| GraphEngine.EvalIgnoresRank | src/traccia_runtime/analytics/engine.py:194-231 | the meaning of a node does not depend on the order validation found |
| GraphEngine.Meaning | src/traccia_runtime/analytics/engine.py:194-231 | the map from nodes to values agrees with recursive bottom-up evaluation on every node |
| GraphEngine.InputsAreEvaluated | src/traccia_runtime/analytics/engine.py:275-291 | once the dependencies of a node are completed with their evaluated results, every reference finds a result and the handler sees the inputs of the evaluation |
| GraphEngine.MeaningSolves | src/traccia_runtime/analytics/engine.py:204-231 | the meaning satisfies the equation of every node |
| GraphEngine.SomeNodeIsReady | src/traccia_runtime/analytics/engine.py:167-177 | while every incomplete node is pending, one of them is ready |
| GraphEngine.StartIsSound | src/traccia_runtime/analytics/engine.py:200-203 | starting a ready node keeps a checkpoint sound |
| GraphEngine.CompleteIsSound | src/traccia_runtime/analytics/engine.py:229-232 | storing the evaluated result of a running node keeps a checkpoint sound |
| GraphEngine.FailIsSound | src/traccia_runtime/analytics/engine.py:234-240 | failing a running node keeps a checkpoint sound |
| GraphEngine.RelabellingIsSound | src/traccia_runtime/analytics/engine.py:93-134 | the relabellings of a timeout and of a resume keep a checkpoint sound |
| GraphEngine.RelabellingKeepsTheRest | src/traccia_runtime/analytics/engine.py:93-134 | a resume turns exactly the running nodes back to pending, a timeout cancels exactly the pending and running ones, and results and other nodes stay |
| GraphExecution.CompletedRunsEvaluateTheGraph | src/traccia_runtime/analytics/engine.py:93-243 | confluence: in every execution, with any interleaving of tasks, drivers, failed saves, crashes and resumes, a stored completed graph holds for every node exactly the value of its recursive evaluation |
| GraphExecution.CompletedRunsAgree | src/traccia_runtime/analytics/engine.py:93-243 | any two completed executions of one graph store the same results, even if validated with different orders |
| GraphExecution.NodesRunAfterTheirDependencies | src/traccia_runtime/analytics/engine.py:167-204 | a node starts, reads its inputs and finishes only with all its dependencies completed, and every reference finds its result |
| GraphExecution.ResumedDriversRest | src/traccia_runtime/analytics/engine.py:99-106 | what a resumed driver schedules has no running and no skipped node |
| GraphExecution.ErrorsStopTheDriver | src/traccia_runtime/analytics/engine.py:154-192 | after the first error of a task, or a save that met a newer checkpoint, a driver begins no round and does not complete the graph |
| GraphCompletion.CanCompleteIff | src/traccia_runtime/analytics/engine.py:136-243 | some execution stores the graph as completed iff every node has a value in the recursive evaluation |
| GraphCompletion.GraphsWithValuesComplete | src/traccia_runtime/analytics/engine.py:106-192 | if every node has a value, a driver that meets no error runs round after round to the end and stores the completed graph |
| GraphExecution.StoredResultsPersist | src/traccia_runtime/analytics/stores.py:28-34 | no save by any driver removes or changes a stored result, and versions never decrease |
| GraphExecution.StepIsSound | src/traccia_runtime/analytics/engine.py:107-243 | every atomic step keeps the invariant of store and drivers |
| GraphExecution.CheckpointIsSound | src/traccia_runtime/analytics/stores.py:28-34 | a checkpoint, accepted or refused, keeps the invariant and loses no stored result |
| GraphExecution.ReplacingKeepsSoundness | src/traccia_runtime/analytics/stores.py:28-34 | after a save every other driver is either as complete as the store or can no longer save |
| GraphExecution.ExecutionIsSound | src/traccia_runtime/analytics/engine.py:80-145 | the invariant holds in every reachable state |
| GraphScheduler.InMemoryGraphStore.Create | src/traccia_runtime/analytics/stores.py:15-19 | stores the state iff the identifier is new, and changes nothing else |
| GraphScheduler.InMemoryGraphStore.Get | src/traccia_runtime/analytics/stores.py:21-26 | returns the state of that identifier and tenant, or nothing |
| GraphScheduler.InMemoryGraphStore.Save | src/traccia_runtime/analytics/stores.py:28-34 | saves iff the stored version is the expected one, which it raises by one in store and copy |
| GraphScheduler.Scheduler.Schedule | src/traccia_runtime/analytics/engine.py:147-192 | never ends for lack of runnable nodes, reports a prior failure iff the checkpoint had a failed or cancelled node, ends with all nodes completed or an error, and takes at most as many rounds as nodes were missing |
| GraphScheduler.Scheduler.Round | src/traccia_runtime/analytics/engine.py:179-192 | a round over the ready nodes completes every one of them or raises, and loses no result |
| GraphScheduler.Scheduler.Gather | src/traccia_runtime/analytics/engine.py:187-192 | tasks moving in any order all return or raise, also after their node completed; without an error each has its result |
| GraphScheduler.Scheduler.AdvanceTask | src/traccia_runtime/analytics/engine.py:194-243 | one segment of a task loses no result and leaves the other tasks alone; a task that ends has its result or raised, or both when its last checkpoint conflicts |
| GraphScheduler.Scheduler.Inspect | src/traccia_runtime/analytics/engine.py:153-177 | what the loop decides at its head, and that the ready set is then not empty |
| GraphScheduler.Unfinished | src/traccia_runtime/analytics/engine.py:153-164 | there is no incomplete node iff all are completed, and no failed one iff every node is pending or completed |
| GraphScheduler.Scheduler.CollectReady | src/traccia_runtime/analytics/engine.py:167-177 | the ready set is exactly the ready nodes and is not empty |
| RunLifecycle.OutcomesTheTableAccepts | src/traccia_runtime/runtime/state_machine.py:6-31 | exactly from which statuses a run can fail, be cancelled or time out, and that terminal statuses are those without successor |
| RunLifecycle.WhereStatusesComeFrom | src/traccia_runtime/runtime/state_machine.py:6-31 | for every other status exactly the statuses that lead to it |
| RunLifecycle.PickedUpWhere | src/traccia_runtime/runtime/runtime.py:1127-1139 | exactly which unfinished runs are picked up as received, at building their context, at planning, or paused as they were |
| RunLifecycle.InMemoryRunStore.Create | src/traccia_runtime/persistence/memory.py:17-21 | stores the run iff the identifier is new |
| RunLifecycle.InMemoryRunStore.Get | src/traccia_runtime/persistence/memory.py:23-28 | returns the run of that identifier and tenant, or nothing |
| RunLifecycle.InMemoryRunStore.Save | src/traccia_runtime/persistence/memory.py:30-38 | saves iff the stored version is the expected one, which it raises by one in store and copy |
| RunLifecycle.InMemoryRunStore.Transition | src/traccia_runtime/runtime/runtime.py:934-939 | validates against the copy, saves at the copy's version, and changes the store only when saved; a missing run is a conflict, after which the copy has the new status and its old version |
| RunLifecycle.SavesFormALifecycle | src/traccia_runtime/runtime/runtime.py:147-334 | for every interleaving of driver, cancel, resume, shutdown and recover on copies of one run: each save adds one to the version, stored statuses follow the table or a recovery jump, and no save leaves a terminal status |
| RunLifecycle.TerminalIsFinal | src/traccia_runtime/runtime/runtime.py:214-242 | a stored terminal run never changes again, whatever copies are in flight |
| RunLifecycle.ToolsRunOnlyAfterApproval | src/traccia_runtime/runtime/runtime.py:754-786 | a call that needs approval reaches invoking_tool only after a resume decided on exactly that call and did not reject it |
| RunLifecycle.InMemoryApprovalService.Decide | src/traccia_runtime/approvals/service.py:90-110 | a decision is taken iff the request is open, in time and, if modified, has parameters; it is stored whatever it is, and the request stays open iff it is the pending status |
| RunLifecycle.RejectionEndsTheRun | src/traccia_runtime/runtime/runtime.py:180-184 | a rejection is the last save of its run, which is then failed |
| RunLifecycle.NoCallCompletesTwice | src/traccia_runtime/runtime/runtime.py:822-823 | with a built-in planner, no tool call identifier is completed by two saves, across crashes and recoveries |
| RunLifecycle.StepKeepsInv | src/traccia_runtime/runtime/runtime.py:147-242 | every step of every actor keeps the invariant of store, copies and history |
| RunPromises.ConsentWithoutApproval | src/traccia_runtime/runtime/runtime.py:173-185 | a decision lets a call through although it is neither approved nor modified iff it is pending or expired |
| RunPromises.AnyStatusButRejectedRunsTheTool | src/traccia_runtime/runtime/runtime.py:171-193 | for every status but rejected there is a run, from its start and with a built-in planner, that enters the tool with that decision alone, with consent iff it is approved or modified |
| RunPromises.ConsentIsRespectedIff | src/traccia_runtime/runtime/runtime.py:171-193 | in every execution of callers who use only these decisions calls needing approval enter the tool after an approved or modified decision on them, iff pending and expired are not among the decisions |
| RunPromises.ToolsRunOnlyAfterConsent | src/traccia_runtime/runtime/runtime.py:171-193 | with approved, rejected and modified as the only decisions, a call needing approval enters the tool only after it was approved or modified |
| RunPromises.UnfinishedRunsCanBeStoppedOrPickedUp | src/traccia_runtime/runtime/runtime.py:147-242 | from every reachable state with an unfinished run it can be cancelled, its deadline can elapse unless it is paused, and it can be picked up with its calls and approvals as they were |
| RunPromises.WaitingRunsCanBeDecided | src/traccia_runtime/runtime/runtime.py:171-193 | a run awaiting approval waits for one call, and every decision on it can be taken: a rejection fails the run, any other approves the call and plans on |
| RunPromises.CallsCompleteOnceIffBuiltIn | src/traccia_runtime/planning/planners.py:28-45 | no reachable state has completed a call twice iff the planner is a built-in one |
| RunPromises.OwnPlannerRepeatsACall | src/traccia_runtime/runtime/runtime.py:747-823 | a run in which another planner has the driver execute and complete the same call twice |
| DriverSaves.SavesAreSteps | src/traccia_runtime/runtime/runtime.py:934-939 | wherever the run was checked out and whatever other actors are about, the saves of a driver are enabled steps of the state machine of the run and enter its history in order |
| DriverSaves.ChainGrows | src/traccia_runtime/runtime/runtime.py:934-939 | one more save from the copy the last one left keeps the chain of saves |
| DriveLoop.Driver.Execute | src/traccia_runtime/runtime/runtime.py:336-423 | from any scheduled status the loop ends within the steps left, asks for no transition the table rejects, returns only with the run paused or terminal and its stored usage complete, and counts one step per iteration; after an error the stored usage lacks the last completion at most; a budget error means that a step, token or cost ceiling is reached, a run that starts at a ceiling makes no iteration, and any other run makes one unless it is refused |
| DriveLoop.Driver.TakesEnabledSteps | src/traccia_runtime/runtime/runtime.py:336-444 | the saves a driver has made so far, under a built-in planner or another, are enabled steps of the life of the run from where it was checked out, and leave it with the driver's copy and status |
| DriveLoop.Driver.Iterate | src/traccia_runtime/runtime/runtime.py:352-423 | an iteration executes what the planner plans for the state at its head, leads where that action leads, and raises the step count by one, or raises; the next loop head is in building_context, planning, paused or terminal with all completions charged |
| DriveLoop.Driver.ExecuteAction | src/traccia_runtime/runtime/runtime.py:425-444 | exactly one step is counted, no transition is rejected, and without an error the action leads to its own status: clarification, a planned next step, an approval or the completed call, completion or repair, failure; models are asked for model actions only |
| DriveLoop.Driver.ExecuteModel | src/traccia_runtime/runtime/runtime.py:446-568 | without an error the run is planning again with every completion charged and saved; on an error at most one completion is not charged and the stored usage lacks the last one at most; unless a policy replaces it, the first request has the limit of the override or the agent within the tokens left |
| DriveLoop.Driver.ModelWithRetry | src/traccia_runtime/runtime/runtime.py:626-705 | between one and the maximum number of requests; a returned completion is usable and is the only one not charged; on an error all are charged, and the stored run lacks the last one iff the last request brought a completion; a provider error is raised only after the last attempt, where a retry would not help, or cut off without room for a larger limit |
| DriveLoop.Driver.Attempt | src/traccia_runtime/runtime/runtime.py:636-692 | an attempt returns iff its completion is finished and, for a schema, not blank; otherwise it stops for a stated reason or retries within budget, with a strictly larger limit within the remaining tokens exactly after a cut-off |
| DriveLoop.Driver.RaiseLimit | src/traccia_runtime/runtime/runtime.py:674-680 | the next limit is the current one plus 256 or doubled, whichever is more, up to what is left; there is none iff the current one already reaches that |
| DriveLoop.Driver.RequestLimit | src/traccia_runtime/runtime/runtime.py:464-467 | unless a policy replaces it, the limit is the lesser of the override or agent limit and the tokens left |
| DriveLoop.Driver.Generate | src/traccia_runtime/runtime/runtime.py:659-659 | a request is issued strictly within the token and cost budgets and recorded with what had been charged before it |
| DriveLoop.Driver.Charge | src/traccia_runtime/runtime/runtime.py:729-736 | charged usage and calls are again the sum and count of all completions |
| DriveLoop.RequestKeepsLawful | src/traccia_runtime/runtime/runtime.py:667-681 | adding a request within budget keeps the whole history within budget and its cut-off limits increasing |
| DriveLoop.ChargedIsTheSum | src/traccia_runtime/runtime/runtime.py:1105-1112 | charging completions one by one adds their tokens, their costs and their number |
| DriveLoop.Driver.ExecuteTool | src/traccia_runtime/runtime/runtime.py:747-844 | without an error the run waits iff the call needs an approval it does not have; otherwise the call entered the tool as needed, is completed, no longer pending, and the run builds context |
| DriveLoop.Driver.VerifyAndComplete | src/traccia_runtime/runtime/runtime.py:846-932 | without an error the run is completed iff verification passed, and is planning again after one repair within the allowance otherwise; a verification error means that the allowance is used up |
| DriveLoop.Driver.Plan | src/traccia_runtime/planning/planners.py:8-75 | the rule-based planner clarifies blank input and otherwise plans as ReAct, which executes the first pending, uncompleted call; with none left it plans as the direct planner, which finalises available output or calls the model |
| DriveLoop.Driver.OpenCall | src/traccia_runtime/planning/planners.py:29-40 | the first pending call that is not completed, or none iff all are |
| DriveLoop.SchedulersLeaveScheduledRuns | src/traccia_runtime/runtime/runtime.py:1127-1139 | recovery leaves every unfinished, unpaused run in a status the drive loop starts from, and from a pause the table and a decision lead only there or to the end |
| ToolReservation.InMemoryToolExecutionStore.Begin | src/traccia_runtime/persistence/tool_executions.py:18-34 | reserves iff the key has no record or a failed one, and returns the current record |
| ToolReservation.InMemoryToolExecutionStore.Complete | src/traccia_runtime/persistence/tool_executions.py:36-41 | the record of the key is completed with the result, others are unchanged |
| ToolReservation.InMemoryToolExecutionStore.Fail | src/traccia_runtime/persistence/tool_executions.py:43-53 | the record of the key is failed or indeterminate, others are unchanged |
| ToolReservation.ToolExecutor.InvokeWithRetries | src/traccia_runtime/tools/executor.py:116-151 | at least one invocation, at most the attempts the tool allows and one if it is not idempotent, another one only after a retryable error; the outcome is that of the last, and it raises only on a final error, without attempts left, or cancelled in the pause between two |
| ToolReservation.ToolExecutor.Execute | src/traccia_runtime/tools/executor.py:63-193 | a call that is not admitted changes nothing, a completed record answers with its result without invoking the handler, any other unfinished record refuses, and otherwise the record tells the outcome of handler, cache or cancellation |
| ToolReservation.ToolExecutor.RunHandler | src/traccia_runtime/tools/executor.py:115-193 | the handler is invoked within its attempts and the record tells whether a result was returned, refused or lost in the cache write |
| ToolReservation.SideEffectsUnderOneReservation | src/traccia_runtime/tools/executor.py:78-151 | across concurrent calls, retries, cancellations and crashes, a side-effecting handler runs under at most one reservation per key, within its attempts, and once if it is not idempotent |
| ToolReservation.SettledIsFinal | src/traccia_runtime/tools/executor.py:78-85 | a settled key has its result and keeps it, is never reserved or invoked again, and answers every later call with that result |
| ToolReservation.CompletedCallsHoldTheirResult | src/traccia_runtime/tools/executor.py:80-81 | a completed record always has the result to return |
| ToolReservation.CancelledCacheWriteLosesCompletion | src/traccia_runtime/tools/executor.py:174-193 | for every cacheable tool there is a run in which a completed record becomes failed and its key can be reserved again |
| ToolReservation.UncacheableCompletionIsPermanent | src/traccia_runtime/tools/executor.py:86-91 | without a cacheable result a completed record stays completed in every run |
| ToolReservation.CompletionIsPermanentIffUncacheable | src/traccia_runtime/tools/executor.py:86-193 | completion is permanent iff caching is off, the tool has side effects, or it is not declared idempotent |
| ToolReservation.BeginKeepsInv | src/traccia_runtime/persistence/tool_executions.py:21-34 | a reservation keeps the invariant of records and calls in flight |
| WorkQueue.InMemoryWorkQueue.Enqueue | src/traccia_runtime/distributed/queue.py:18-26 | the item is created iff its tenant and key name no item; otherwise the named item is returned and nothing changes |
| WorkQueue.InMemoryWorkQueue.Claim | src/traccia_runtime/distributed/queue.py:28-53 | nothing is claimed iff every item is not yet available, out of attempts, finished or under an unexpired lease; otherwise the earliest other item in order of availability, creation and insertion is leased, and only it changes |
| WorkQueue.InMemoryWorkQueue.Renew | src/traccia_runtime/distributed/queue.py:55-60 | extends the lease iff the worker owns it |
| WorkQueue.InMemoryWorkQueue.Complete | src/traccia_runtime/distributed/queue.py:62-69 | completes the item iff the worker owns its lease |
| WorkQueue.InMemoryWorkQueue.Fail | src/traccia_runtime/distributed/queue.py:71-82 | iff the worker owns the lease, the item is pending again if a retry is wanted and attempts are left, and failed otherwise |
| WorkQueue.OnlyTheLatestClaimReports | src/traccia_runtime/distributed/queue.py:62-88 | a report is accepted only for the latest claim of the item |
| WorkQueue.LeasesAreExclusive | src/traccia_runtime/distributed/queue.py:28-53 | no two workers hold unexpired leases on one item, and an unexpired lease is honoured |
| WorkQueue.ClaimsAreBounded | src/traccia_runtime/distributed/queue.py:43-51 | the attempts of an item count its claims and never exceed its maximum |
| WorkQueue.FinishedItemsAreFinal | src/traccia_runtime/distributed/queue.py:62-88 | completed and failed items never change again |
| WorkQueue.DeduplicationIsForever | src/traccia_runtime/distributed/queue.py:19-26 | a tenant and key name one item for ever, and later items with them are answered with it |
| WorkQueue.DeduplicationNeedsAnIdentifier | src/traccia_runtime/distributed/queue.py:21-25 | a repeated key is turned away iff the first item's identifier is not empty |
| WorkQueue.ExecutionKeepsInv | src/traccia_runtime/distributed/worker.py:30-50 | the invariant of queue and workers holds in every reachable state |
| QueueProgress.CanBeFinishedIff | src/traccia_runtime/distributed/queue.py:28-88 | in every reachable state, some continuation finishes an unfinished item iff it has attempts left or the owner of its lease is at work on it |
| QueueProgress.LostItemsAreLostForEver | src/traccia_runtime/distributed/queue.py:32-45 | an unfinished item without attempts whose lease owner is not at work on it never changes again |
| QueueProgress.EligibleItemsCanBeFinished | src/traccia_runtime/distributed/queue.py:46-69 | one free worker, claiming and completing item after item, gets to every eligible item |
| CacheStore.InMemoryCacheStore.Get | src/traccia_runtime/cache/stores.py:41-51 | a hit iff the entry is unexpired; hits become most recent, expired entries are dropped; the tag index stays exact |
| CacheStore.InMemoryCacheStore.Set | src/traccia_runtime/cache/stores.py:53-65 | the entry is replaced at the recent end, the oldest entries over the maximum are evicted, and the tag index stays exact without empty sets |
| CacheStore.InMemoryCacheStore.EvictOverflow | src/traccia_runtime/cache/stores.py:63-65 | exactly the oldest entries over the maximum are dropped |
| CacheStore.InMemoryCacheStore.Delete | src/traccia_runtime/cache/stores.py:67-71 | the key and its tags are gone and nothing else changes |
| CacheStore.InMemoryCacheStore.InvalidateTags | src/traccia_runtime/cache/stores.py:73-80 | exactly the entries carrying one of the tags are removed, and their number is returned |
| CacheStore.InMemoryCacheStore.RemoveTags | src/traccia_runtime/cache/stores.py:89-95 | the key leaves the sets of the tags, and sets left empty go |
| CacheStore.InMemoryCacheStore.Drop | src/traccia_runtime/cache/stores.py:85-87 | the entry and its index go together |
| CacheStore.RemovalKeepsIndex | src/traccia_runtime/cache/stores.py:89-95 | removing an entry's tags leaves an index exact for the other entries |
| CacheStore.InsertionKeepsIndex | src/traccia_runtime/cache/stores.py:60-62 | adding an entry's tags keeps the index exact |
| CacheStore.HitsAgreeWithTheIdealMap | src/traccia_runtime/cache/stores.py:41-80 | after any operations a hit is the unexpired entry of an unbounded map |
| CacheStore.RecentKeysAreHits | src/traccia_runtime/cache/stores.py:50-65 | an unexpired, uninvalidated key is a hit while fewer than the maximum of distinct other keys were touched since its last touch |
| CacheStore.TouchedKeysAreStored | src/traccia_runtime/cache/stores.py:50-65 | a key just set or hit is stored with the entry of the unbounded map |
| CacheStore.RunIsSound | src/traccia_runtime/cache/stores.py:53-80 | order, size bound and containment in the unbounded map hold after any operations |
| SingleFlight.InflightTable.Join | src/traccia_runtime/cache/service.py:136-142 | the call owns a new future iff its key had none in flight |
| SingleFlight.InflightTable.Settle | src/traccia_runtime/cache/service.py:148-153 | a future takes the outcome iff it had none |
| SingleFlight.InflightTable.Release | src/traccia_runtime/cache/service.py:155-157 | the entry of the key is gone and no other |
| SingleFlight.OneLoaderPerKey | src/traccia_runtime/cache/service.py:137-147 | at every moment at most one call per key loads or stores |
| SingleFlight.FollowersShareTheOwnersOutcome | src/traccia_runtime/cache/service.py:143-154 | a follower ends with exactly the outcome of the owner whose future it joined, on the same key, also when the owner fails or is cancelled |
| SingleFlight.NothingOutlivesItsOwner | src/traccia_runtime/cache/service.py:145-157 | every entry in flight and every unsettled future has an owner at work; when all calls are done nothing is in flight |
| SingleFlight.FollowersAreServed | src/traccia_runtime/cache/service.py:143-144 | a follower's outcome is available or its owner is still loading or storing |
| SingleFlight.ReturnedValuesWereLoaded | src/traccia_runtime/cache/service.py:129-149 | any value returned, from cache, owner or future, was returned by a loader run for the same key |
| SingleFlight.OwnersEndWithWhatTheyLoaded | src/traccia_runtime/cache/service.py:145-153 | a call that ran its loader ends with the error it raised or the value it returned, unless storing the value was interrupted, and then with that error |
| SingleFlight.OthersEndAsTheyMust | src/traccia_runtime/cache/service.py:129-154 | every other call ends with the value it found in the cache, with what an owner on its key loaded, or cancelled |
| SingleFlight.EachCallLoadsOnce | src/traccia_runtime/cache/service.py:145-146 | a call runs its loader at most once |
| SingleFlight.StoredValuesWereStored | src/traccia_runtime/cache/service.py:146-147 | whatever is in the cache was put there by a call that loaded it for the key and whose store took it |
| SingleFlight.StoredValuesAreHits | src/traccia_runtime/cache/service.py:129-147 | a stored value answers every later lookup that does not fail, until the key is stored again or evicted |
| SingleFlight.OutcomesAreFinal | src/traccia_runtime/cache/service.py:148-154 | settled futures and finished calls never change |
| SingleFlight.LeaveKeepsInv | src/traccia_runtime/cache/service.py:155-157 | the entry that is popped is always the leaving call's own |
| SingleFlight.StepKeepsInv | src/traccia_runtime/cache/service.py:119-157 | every step of every call keeps the invariant |
| EventBus.InMemoryConversationEventBus.Publish | src/traccia_runtime/conversations/stores.py:119-131 | the event is appended, the history trimmed as the slice does, every queue of the conversation receives it with its oldest event dropped when full, and other conversations are unchanged |
| EventBus.InMemoryConversationEventBus.History | src/traccia_runtime/conversations/stores.py:133-141 | exactly the kept events after the cursor, in order |
| EventBus.InMemoryConversationEventBus.Subscribe | src/traccia_runtime/conversations/stores.py:146-148 | an empty queue is registered and no other changes |
| EventBus.InMemoryConversationEventBus.Discard | src/traccia_runtime/conversations/stores.py:164-166 | that queue is gone and no other changes |
| EventBus.Subscription.Next | src/traccia_runtime/conversations/stores.py:150-163 | the generator yields the first pending event and leaves exactly the others pending, its cursor strictly increasing; it yields nothing iff nothing is pending |
| EventBus.Subscription.Read | src/traccia_runtime/conversations/stores.py:160-163 | what is then to be replayed is exactly the kept history after the cursor, in order if the history is |
| EventBus.DeliveriesIncrease | src/traccia_runtime/conversations/stores.py:143-163 | in every interleaving deliveries are published events after the starting cursor in strictly increasing order |
| EventBus.DeliveredAndPendingAreEverything | src/traccia_runtime/conversations/stores.py:119-163 | if no unread event was dropped and no history read came too late, delivered and pending events are exactly those published after the start |
| EventBus.ASilentReadHeals | src/traccia_runtime/conversations/stores.py:160-163 | after a loss, a history read that still reaches the cursor makes pending events complete again from there on |
| EventBus.ARoomyBusLosesNothing | src/traccia_runtime/conversations/stores.py:107-131 | a history limit and a queue size that hold everything published rule out both kinds of loss |
| EventBus.NextSequenceIsInOrder | src/traccia_runtime/conversations/stores.py:114-123 | the next sequence number is in order in every execution iff the history limit is not negative |
| EventBus.HistoryIsTheLatest | src/traccia_runtime/conversations/stores.py:119-123 | the history is always the latest events up to the limit, or all of them for the limit 0 |
| EventBus.TrimmedIsALatestPart | src/traccia_runtime/conversations/stores.py:123-123 | trimming leaves the latest events: up to a positive limit, all for 0, and all but that many for a negative one |
| EventBus.NextSequenceContinues | src/traccia_runtime/conversations/stores.py:114-117 | for limits that are not negative, the next sequence number is 1 at first and then one more than the last published |
| EventBus.QueuesAreBounded | src/traccia_runtime/conversations/stores.py:125-131 | a queue with a positive size never holds more |
| EventBus.OfferedIsComplete | src/traccia_runtime/conversations/stores.py:125-131 | a publish keeps a subscription complete unless it drops an event beyond what was read |
| EventBus.CaughtUp | src/traccia_runtime/conversations/stores.py:154-163 | a complete read returns exactly what a complete queue still holds |
| EventBus.StepKeepsInv | src/traccia_runtime/conversations/stores.py:119-166 | every step keeps the invariant of bus and subscribers |
| SemanticLayer.BuildIndex | src/traccia_runtime/semantics/layer.py:67-73 | an index is built iff aliases with the same key name the same definition of the same model, and it then holds exactly the aliases |
| SemanticLayer.BuildLayer | src/traccia_runtime/semantics/layer.py:41-53 | a layer is built iff neither its metrics nor its dimensions have ambiguous aliases, with both indexes exact |
| SemanticLayer.AliasesAre | src/traccia_runtime/semantics/layer.py:41-53 | the indexed aliases are exactly the names and synonyms of what the models define |
| SemanticLayer.BuiltLayersResolveNames | src/traccia_runtime/semantics/layer.py:84-104 | in every built layer dimensions resolve under their own names, and whatever a field resolves to is found again under its own name |
| SemanticLayer.ResolvesIff | src/traccia_runtime/semantics/layer.py:84-104 | in every built layer a field resolves to a dimension iff the dimension has a name or synonym with the key of the field, or no dimension has and the field is its model, a dot and such an alias without a dot |
| SemanticLayer.LastDot | src/traccia_runtime/semantics/layer.py:98-100 | the position of the last dot, or -1 iff there is none |
| SemanticCompiler.EffectiveFilters | src/traccia_runtime/semantics/compiler.py:116-139 | fails with the first refused query filter, and otherwise yields the governed defaults and the query filters that do not repeat them |
| SemanticCompiler.RefusedIff | src/traccia_runtime/semantics/compiler.py:123-138 | a filter is accepted iff its field resolves to a dimension of the model and it repeats the governed default on it if there is one; otherwise it is refused as not found, of another model, or overriding |
| SemanticCompiler.EffectiveAre | src/traccia_runtime/semantics/compiler.py:121-139 | the effective filters are the defaults followed by exactly the query filters on dimensions without one, under the own names of the dimensions |
| SemanticCompiler.FilterCondition | src/traccia_runtime/semantics/compiler.py:156-185 | the condition uses placeholders for exactly the arguments it appends |
| SemanticCompiler.Compile | src/traccia_runtime/semantics/compiler.py:62-89 | succeeds iff no query filter is refused, with the conditions and parameters of the effective filters and the freshness bound |
| SemanticCompiler.CompileFilters | src/traccia_runtime/semantics/compiler.py:65-89 | conditions and parameters in filter order, the freshness bound last |
| SemanticCompiler.PlaceholdersAreInOrder | src/traccia_runtime/semantics/compiler.py:157-185 | read from left to right, placeholders are 1 to the number of parameters, each once, also after repeated filters are dropped |
| SemanticCompiler.MeaningIsPreserved | src/traccia_runtime/semantics/compiler.py:62-89 | for every row, clock and ordering of values, the row passes the clause in three-valued logic iff it satisfies every governed default, every query filter and the freshness bound |
| SemanticCompiler.ConditionMeansFilter | src/traccia_runtime/semantics/compiler.py:163-185 | one condition is true iff the value of the dimension is what the filter asks for, NULL included |
| SemanticCompiler.MemberMeansIn | src/traccia_runtime/semantics/compiler.py:174-176 | membership in placeholders is membership in the filter's values, unknown for NULL |
| SemanticCompiler.RepeatedFilterMeansDefault | src/traccia_runtime/semantics/compiler.py:131-137 | a dropped filter asks what the governed default asks |
| SemanticCompiler.EffectiveMeansAll | src/traccia_runtime/semantics/compiler.py:123-139 | the effective filters together ask what the defaults and the query ask |
| SemanticCompiler.EffectiveAreInModel | src/traccia_runtime/semantics/compiler.py:65-70 | every effective filter names a dimension of the model by its own name, so the check for another model never fails |
| JoinPath.FindJoinPath | src/traccia_runtime/semantics/production_compiler.py:296-324 | the loop computes the greedy choice, its error included |
| JoinPath.Candidate | src/traccia_runtime/semantics/production_compiler.py:303-311 | the first join of the layer that leads from a reached to a remaining model, or none iff no join does |
| JoinPath.SucceedsIffConnected | src/traccia_runtime/semantics/production_compiler.py:296-324 | with the joins among the query's models authorized, the choice succeeds iff every target is connected to the base within base and targets, and then takes one join per target, each adding one new model |
| JoinPath.GreedyBuildsATree | src/traccia_runtime/semantics/production_compiler.py:321-324 | a successful choice takes each time the first join of the layer that leads further, all of them authorized, each adding exactly one remaining model, and reaches exactly base and targets |
| JoinPath.NoJoinIsADeadEnd | src/traccia_runtime/semantics/production_compiler.py:312-315 | the error for a missing join names what was reached and what remains, and no join leads from one to the other |
| JoinPath.UnauthorizedJoinIsRelevant | src/traccia_runtime/semantics/production_compiler.py:316-320 | an authorization error names a join among the query's models and exactly its missing tags |
| JoinPath.SuccessMeansAuthorizedConnection | src/traccia_runtime/semantics/production_compiler.py:302-324 | a successful choice means that authorized joins alone connect every target to the base |
| JoinPath.AuthorizedConnectionSucceedsIff | src/traccia_runtime/semantics/production_compiler.py:302-324 | where authorized joins alone connect every target, the choice succeeds iff every join it takes when tags are ignored is authorized |
| JoinPath.AuthorizedIffChosenAreAuthorized | src/traccia_runtime/semantics/production_compiler.py:303-321 | the choice succeeds iff the choice that ignores tags does and took only authorized joins, and then they are the same |
| JoinPath.AuthorizedDetourIsNotTried | src/traccia_runtime/semantics/production_compiler.py:303-320 | an authorized join behind an unauthorized one is not found, although it connects the models |
| TextChunker.ChunkDocument | src/traccia_runtime/retrieval/ingestion.py:21-52 | every visible character is in some chunk, no chunk is empty or longer than the chunk size, each is a stretch of the text without whitespace at its ends, numbered from 0; normalising changed only whitespace and kept the words |
| TextChunker.ChunkText | src/traccia_runtime/retrieval/ingestion.py:23-52 | the loop ends, its windows slide through the whole text, and the chunks are their stripped contents |
| TextChunker.WindowsCover | src/traccia_runtime/retrieval/ingestion.py:26-51 | windows make progress, leave no gap, overlap in full unless that would stop progress, are at most the chunk size and end with the text |
| TextChunker.EndOf | src/traccia_runtime/retrieval/ingestion.py:27-32 | a window is not empty and ends within the chunk size |
| TextChunker.EndsAtTheLastSpace | src/traccia_runtime/retrieval/ingestion.py:27-32 | a window reaches the end of the text if its size allows, and otherwise ends at the last space of its second half, or at its full size if there is none |
| TextChunker.FindEnd | src/traccia_runtime/retrieval/ingestion.py:27-32 | the branches compute that end |
| TextChunker.CheckSettings | src/traccia_runtime/retrieval/ingestion.py:15-19 | the settings the constructor accepts |
| Words.NormaliseKeepsTheVisible | src/traccia_runtime/retrieval/ingestion.py:22-22 | the characters that are not whitespace are kept, in order |
| Words.NormaliseIsNormal | src/traccia_runtime/retrieval/ingestion.py:22-22 | the only whitespace left is single spaces between words |
| Words.SplitIsTheWords | src/traccia_runtime/retrieval/ingestion.py:22-22 | splitting a text yields exactly its maximal runs of characters that are not whitespace, in order |
| Words.NormaliseKeepsTheWords | src/traccia_runtime/retrieval/ingestion.py:22-22 | the normalised text has the same words |
| TextChunker.PiecesHold | src/traccia_runtime/retrieval/ingestion.py:33-48 | a visible character of a window is in a chunk |
| RateLimiter.SlidingWindowRateLimiter.TryAcquire | src/traccia_runtime/models/base.py:38-45 | expired timestamps are dropped, and the attempt is granted, told its delay, or fails |
| RateLimiter.AtMostLimitPerWindow | src/traccia_runtime/models/base.py:36-46 | in every execution no half-open interval of the window's length holds more grants than the limit |
| RateLimiter.GrantedIffRoom | src/traccia_runtime/models/base.py:40-44 | an attempt is granted iff fewer than the limit of all grants ever made are younger than the window |
| RateLimiter.WaitingIsEnough | src/traccia_runtime/models/base.py:45-46 | an attempt after the pause is granted if nobody was granted in between |
| RateLimiter.WaitingIsNeeded | src/traccia_runtime/models/base.py:42-46 | before the delay it was told, an attempt is not granted if nobody was granted in between |
| RateLimiter.FailsIffNonPositiveLimit | src/traccia_runtime/models/base.py:42-45 | an attempt fails iff the limit is below 1 |
| RateLimiter.TryKeepsInv | src/traccia_runtime/models/base.py:38-44 | the queue holds the latest grants, at most the limit, and those it dropped are a window old |

## Left out

- PostgreSQL, Redis and vector-store backends: their behaviour is in SQL and libraries; the in-memory counterparts are modelled.
- The web application, streaming encoding, provider adapters, plugins, telemetry, audit records and registries: input, output and lookups.
- Regular expressions, JSON Schema, hashing and JSON encoding: schema checks and policies are boundaries that may refuse; keys and digests are taken as given; JSON values are taken to survive encoding.
- Node result caching and the retry loop of a node handler in the graph engine: a handler call comes to a value or an error after all its attempts.
- GraphEngine: the text of a result path; a path is the list of its parts, each with the integer it parses to, if any.
- Node concurrency keys and the concurrency limits of graph and tool executor: they only restrict the interleavings allowed here.
- The model response cache, which makes a run issue fewer requests; accounting is stated without it.
- Policies that transform values: their result is arbitrary where it matters and otherwise not represented.
- ToolReservation.ToolExecutor.Execute: one caller alone on its key; other callers and crashes are in the state machine of the same module.
- ToolReservation.SettledIsFinal: speaks about completed keys with no call in flight, because a cacheable call in flight can still undo its completion.
- SingleFlight: a disabled cache policy, where the loader simply runs for every call.
- EventBus: several conversations interleaved with subscribers; the bus object keeps conversations apart, the state machine follows one.
- EventBus.DeliveredAndPendingAreEverything: needs publishes in order; nothing orders two publishers that asked for the same next number.
- SemanticCompiler: the query checks of the layer, the select list, aggregation, grouping, ordering and the text of the SQL.
- SemanticLayer.BuildLayer: the normalisation of aliases is any function, and which of several ambiguous aliases is reported is left open.
- JoinPath: what is proved about the choice is for targets without the base, as its only caller passes them.
- The production compiler beyond the join choice: it keeps the first filter of a dimension only and always joins the right model, so meaning is stated for the base compiler.
- TextChunker: identifiers and metadata of chunks.
- RateLimiter: rounding of clock readings, and fairness among waiting callers, which the source does not promise.
- Conversation storage, memory and artifacts: the same version check again.
- CacheStore: a negative maximum of entries.
