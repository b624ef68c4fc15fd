# The strategy executor and what it drives, modelled in Dafny

The Go port of spore-core runs a task as a tree of strategies. A ReAct leaf is one
bounded window of model turns. The combinators above it plan and walk a task graph,
build and verify, restart in fresh windows, or climb a metric, each under a budget
scope of its own with a chain of behaviours for when the allowance is spent. This
project models that executor and the machinery it drives, and proves what its
comments promise, for every tree and for every answer of the model, the tools, the
verifier, the metric and the human.

`dafny verify dfyconfig.toml` checks everything.

## The modules

| module | what it models |
|---|---|
| `Words` | 32-bit words: wrap-around, saturation, and the overflow tests |
| `Budgets` | budget policies, the behaviour chain, the budget scope and its exact capacity |
| `TaskLists` | the task list: transitions, additions, ready-set choice, graph searches, cycle detection |
| `PlanWalks`, `PlanSegments` | the walk over the ready set with failure cascade; what a drained walk reports; runs that pause and resume |
| `Strategies` | the tree, its step bound, the worker leaf's agent, startup validation, budget grants |
| `Results` | conversations, tool calls, pauses and results |
| `Breakers` | the error-loop and repeat breakers |
| `ReActWindows`, `Resumes` | one window of the turn loop, its batches and pauses, and the ways a pause is resumed |
| `Contexts`, `Logs` | the shared execution context, and the log of what answered the node being run |
| `Leaves`, `Nodes` | the leaf; what the combinators have in common, their scope and the ways they are left |
| `Planning`, `PlanSteps`, `PlanReports`, `Ledgers` | the planning half of a plan, the steps of its walk, the walk seen from outside, and what a step is told about the steps before it |
| `BuildSteps` | the steps of a build-and-evaluate round, and of a climb |
| `Executions` | the five mutually recursive run bodies |
| `RefusedResets`, `SurfacedBudgets` | runs on which the code does not do what its comments say, and when it does |
| `Driving` | the top-level loop that re-drives a task under raised budgets, and the resumption of pauses |
| `CanonicalJson`, `OutputSchemas`, `EmbeddedJson` | canonical JSON text, validation against it, and the scan for an embedded object (RFC 8259, grammar in section 2, objects in section 4, strings in section 7) |
| `Streams`, `StreamMaps` | the stream accumulators and emitter, and the mapper to harness events |

The source's mutable objects are classes here (`BudgetContext`, `TaskList`,
`PlanWalk`, `ToolLoopBreaker`, `TurnWindow`, `ExecutionContext`, the accumulators and
the mapper). The run bodies are methods over one `ExecutionContext`; they recurse on
the height of the tree. Because a scope is an object and a node may only modify the
context and the scopes it allocated, the frame of each method already says that no
outer scope is touched; the contract adds that the stack of scopes is the one found.
The contract every node keeps is the predicate `Contexts.Ran`.

What answered a node is kept in a ghost log on the context, written where the answer
is given: `Executions.RunChild` logs what a child ended with, `ExecutionContext.Charge`
what a charge led to, and likewise the resolution of a spent scope, the verdict, the
completion check, each planning attempt and a leaf's window. A child's events go to a
log of its own. The contracts of the nodes say what their outcome has to do with that
log: when a combinator is exhausted (`Logs.HandsUp`), how many turns its scope admitted
(`Nodes.Paid`), and which verdict or check made it succeed.

Whatever the harness asks of the outside world is a method that answers arbitrarily:
model turns, tool dispatch, sandbox checks, policies and hooks, verdicts, metric
evaluations, Ralph's completion check. What it is configured with, the number of rounds
a verifier allows among it, is the datatype `Contexts.Harness`. A durable task list is any list
with distinct ids, whatever its statuses and blockers; the planner, and where the
harness lets them the workers, may write any such list. What needs completion to be
closed under blockers says so.

## What the code does that its comments do not say

- The Continue and auto-grant arms of the walk (strategy.go:1419-1442) ask the task
  list for a transition it refuses (tasklist.go:351-372) and drop the error. The task
  stays in progress and is never picked again, and a walk without failures then
  reports Success. `resetTakes` switches between the code as written and the reset
  the comment describes. Over a clean list the promised partition, and Success
  meaning that all completed, hold for every walk when the reset takes effect or the
  starting scope cannot be refilled (`Executions.ExecutePlan`); over every clean list
  with a ready task and every scope that can be refilled some run breaks both
  (`RefusedResets.StrandingRun`), and a run does exactly when it was refused a reset
  (`PlanReports.DrainedExit`).
- For the same reason pauses do not always leave one task in progress: a pause does
  exactly when no reset was refused (`PlanReports.PausedExit`), and over every clean
  list with two ready tasks the resume can take up the wrong one
  (`RefusedResets.StrandedPause`). Runs that cannot be
  refused a reset chain as promised (`PlanSegments.ResumeChain`).
- A skip re-drives the plan without a seed, so the skipped task stays in progress,
  never completes, and the plan still succeeds (`RefusedResets.SkippedStays`).
- A combinator under SurfaceToHuman can reach the top-level loop exhausted, contrary
  to harness.go:4204-4205. It never does when the tree is contained
  (`Strategies.Contained`, which a caller can check): a Ralph node absorbs exhaustions, a
  plan asks or cascades over a spent child, and a verifying or climbing node needs a
  contained child; all but the Ralph node also need a chain that ends in Escalate, or a
  scope that refuses no charge (`Executions.Run`, `SurfacedBudgets.ContainedAsks`,
  `Driving.Drive`).
  Each way of not being contained has runs that are exhausted: any leaf
  (`SurfacedBudgets.LoopingLeafSurfaces`), any verifying or climbing node over a child
  that is not contained, whatever its own chain (`SurfacedBudgets.SpentChildSurfaces`,
  and from the root down `SurfacedBudgets.SpentTreeSurfaces`), and, under a positive
  cap, any such node and any plan whose chain ends in Fail
  (`SurfacedBudgets.RefusedChargeSurfaces`, `RefusedResets.RefusedStepSurfaces`). In
  every mode, a combinator is exhausted exactly when a spent child, a refused charge or
  its own scope's last word was handed on, as its log has it (`Logs.HandsUp`).
- A window that overran its leaf's cap makes the leaf report zero steps, and under a
  positive cap only such a window does; the grant of a continue then raises nothing.
  Under a PerLoop cap that takes refunded narration turns or a start beyond the cap
  (`Leaves.OverrunNeedsRefunds`, `Driving.ContinueRaisesCap`).
- The looked-up worker agent can differ from the one the leaf resolves
  (`Strategies.WorkerKeyDisagrees`).
- A pause raised by a child or by an escalation drops the interrupting call: it is
  neither approved nor pending and never gets a result
  (`Resumes.DroppedPauseNeverSettles`).
- From a threshold of 2^31 the doubled breaker threshold wraps (`Breakers.HaltsAtTwice`).
- A start frame without an id is forwarded under the empty id, while the accumulator
  makes one up (`StreamMaps.MapperAgrees`).
- `TransitiveBlockers` excludes the task itself only on an acyclic list.
- The deep-resume reconciliation changes nothing where it is called
  (`Planning.Reconcile`).

## Model

| member | source | states |
|---|---|---|
| Words.SaturatingAdd | go/spore-core/execution_scaffold.go:589-595 | the carry test on the wrapped sum yields exactly the sum clamped at the largest 32-bit word |
| Words.SaturatingSub | go/spore-core/execution_scaffold.go:598-603 | the difference, never below zero |
| Words.CheckedAdd | go/spore-core/strategy.go:695-701 | a value exactly when the true sum fits 32 bits, and then that sum |
| Words.CheckedMul | go/spore-core/strategy.go:704-713 | a value exactly when the true product fits 32 bits, and then that product |
| Words.WrappedProductTest | go/spore-core/strategy.go:704-713 | dividing the wrapped product back gives the other factor exactly when nothing wrapped |
| Budgets.Granted | go/spore-core/executor.go:649-658 | a grant gives every capped policy the larger of its cap and the grant, keeps its kind, and leaves an unlimited one alone |
| Budgets.ResolutionFollowsChain | go/spore-core/execution_scaffold.go:339-364 | resolving grants a continue exactly while the largest level of the nested chain exceeds the one shared counter; each grant costs exactly one of the continues left, and afterwards the chain answers with its innermost behaviour |
| Budgets.ActiveLevelKeepsChain | go/spore-core/execution_scaffold.go:347-359 | skipping the spent levels of a chain changes neither its last word nor the continues left |
| Budgets.CapacityAfterContinue | go/spore-core/execution_scaffold.go:298-301 | a continue trades one continue for one whole allowance: the capacity is unchanged |
| Budgets.CapacityAfterGrant | go/spore-core/execution_scaffold.go:303-321 | an automatic grant takes exactly what it adds to the cap off the steps still grantable |
| Budgets.ExactCapacity | go/spore-core/execution_scaffold.go:252-364 | the unit charges a scope admits, charge by charge through every resolution, equal the closed form: the rest of this round, one allowance per continue left, and the automatic grants |
| Budgets.ResumedCapacity | go/spore-core/execution_scaffold.go:226-239 | a scope of allowance N resumed with u continues spent admits N*(1+max(0,m-u)) + G*S unit charges, without the grants when the chain ends in Fail |
| Budgets.RefusesSomeUnitCharge | go/spore-core/execution_scaffold.go:252-266 | only scopes capped below the largest word ever refuse a unit charge: the debit saturates |
| Budgets.BudgetContext.constructor | go/spore-core/execution_scaffold.go:217-239 | a fresh scope has taken no step and no grant; a resumed one keeps its continues |
| Budgets.BudgetContext.Charge | go/spore-core/execution_scaffold.go:252-266 | refuses exactly the debits that would exceed the allowance, reports the scope as it stands and changes nothing; otherwise the steps grow by the debit, saturating |
| Budgets.BudgetContext.ContinuesRemaining | go/spore-core/execution_scaffold.go:282-290 | what is left of the current level under the shared counter |
| Budgets.BudgetContext.ConsumeContinue | go/spore-core/execution_scaffold.go:298-301 | rewinds the steps and spends one continue |
| Budgets.BudgetContext.ResolveExhausted | go/spore-core/execution_scaffold.go:339-364 | the loop down the chain reaches the first level with continues left, or the innermost behaviour, and leaves that level in place |
| Budgets.BudgetContext.GrantAutoContinue | go/spore-core/execution_scaffold.go:310-314 | counts the grant and raises the cap to the steps taken plus the grant, without rewinding |
| Budgets.BudgetContext.TryAutoContinue | go/spore-core/execution_scaffold.go:562-582 | grants exactly when the mode allows it and grants are left, and spends one |
| TaskLists.TaskList.Update | go/spore-core/tasklist.go:460-475 | writes the status, the description or both exactly when the task exists and the transition, if any, is allowed; a rejected update writes neither, and no other task changes |
| TaskLists.TaskList.Complete | go/spore-core/tasklist.go:481-491 | completes any known task |
| TaskLists.TaskList.Add | go/spore-core/tasklist.go:391-418 | appends a pending task with the next id; on a list built by additions it is refused exactly when a blocker is unknown or the task itself, and the result is again such a list; in general also when a blocker already waits for the new id |
| TaskLists.TaskList.CheckBlockers | go/spore-core/tasklist.go:391-418 | reports the first blocker that is the task itself or names no task |
| TaskLists.TaskList.WouldCreateCycle | go/spore-core/tasklist.go:430-449 | finds the new id exactly when it is among the blockers or reachable from one |
| TaskLists.TaskList.NextReady | go/spore-core/tasklist.go:514-540 | the pending task of smallest id whose blockers are all completed, or none when there is none |
| TaskLists.TaskList.TransitiveBlockers | go/spore-core/tasklist.go:556-579 | exactly the ids the task waits for, ascending; the task itself only when it lies on a cycle |
| TaskLists.TaskList.TransitiveDependents | go/spore-core/tasklist.go:587-616 | exactly the other tasks that wait for the task, ascending |
| TaskLists.TaskList.HasCycle | go/spore-core/tasklist.go:627-674 | the three-colour search reports a cycle exactly when the blocker graph has one; without one a topological order of all tasks exists |
| TaskLists.TaskList.Explore | go/spore-core/tasklist.go:633-671 | the search from one task finds a cycle, or finishes everything it reaches |
| TaskLists.TaskList.SearchStep | go/spore-core/tasklist.go:643-669 | each popped frame keeps the search state and shrinks the unmet tasks or the stack |
| TaskLists.TaskList.Visit | go/spore-core/tasklist.go:651-668 | a back edge to the current path closes a cycle; otherwise the node joins the path below its blockers |
| TaskLists.OrderedIsAcyclic | go/spore-core/tasklist.go:618-674 | a topological order of every task rules out a cycle |
| TaskLists.FinishKeepsSearch | go/spore-core/tasklist.go:644-647 | finishing a node appends it to a topological order |
| TaskLists.BackEdgeCloses | go/spore-core/tasklist.go:660-662 | an edge back onto the current path is a cycle |
| TaskLists.AuthoredIsAcyclic | go/spore-core/tasklist.go:385-418 | lists built by additions are acyclic |
| TaskLists.FreshIdUnreached | go/spore-core/tasklist.go:420-449 | nothing on such a list waits for an id that has not been handed out, so the cycle test of an addition never fires there |
| PlanWalks.StartKeeps | go/spore-core/strategy.go:1294-1311 | starting a ready task keeps the walk invariant |
| PlanWalks.CompleteKeeps | go/spore-core/strategy.go:1510-1511 | completing the active task keeps it: its blockers are completed, so closure is kept |
| PlanWalks.StrandKeeps | go/spore-core/strategy.go:1419-1442 | the refused reset leaves the active task in progress for good |
| PlanWalks.ResetKeeps | go/spore-core/strategy.go:1419-1442 | a reset that takes effect keeps the invariant and puts the task back |
| PlanWalks.CascadeSpares | go/spore-core/strategy.go:1273-1287 | under closed completion no completed task and no task with a refused reset waits for a task in progress, so a cascade spares them |
| PlanWalks.CascadeKeeps | go/spore-core/strategy.go:1273-1287 | after a cascade the blocked tasks are exactly the failed ones and everything that waits for them, whatever the list |
| PlanWalks.DrainClassifies | go/spore-core/strategy.go:1294-1300 | when nothing is ready each task is completed, blocked by a failure, or stuck behind a task the walk could never start; the classes are disjoint, except that completion must have been closed at the start for the first two to be |
| PlanWalks.DrainPartitions | go/spore-core/strategy.go:1617-1658 | over a clean list, completed and blocked-by-failure partition the tasks exactly when no executed task was left in progress |
| PlanWalks.DrainCompletes | go/spore-core/strategy.go:1617-1658 | without failures every task completed exactly when none was left in progress |
| PlanWalks.PlanWalk.Start | go/spore-core/strategy.go:1294-1311 | runs only the least ready task, pending with all blockers completed, and marks it in progress |
| PlanWalks.PickIsResumable | go/spore-core/strategy.go:1219-1235 | a task just picked would be picked first again if it were put back |
| PlanWalks.PlanWalk.Finish | go/spore-core/strategy.go:1510-1511 | the active task is completed and nothing else changes |
| PlanWalks.PlanWalk.Requeue | go/spore-core/strategy.go:1419-1442 | as written the update is refused and the task stays in progress; with a reset that takes effect it is pending again |
| PlanWalks.PlanWalk.Cascade | go/spore-core/strategy.go:1273-1287 | blocks exactly the active task and everything that waits for it, completed tasks excepted, and remembers only the first failure |
| PlanWalks.PlanWalk.BlockWithDependents | go/spore-core/strategy.go:1274-1280 | exactly the task and everything that waits for it is blocked, completed tasks excepted |
| PlanWalks.PlanWalk.Abort | go/spore-core/strategy.go:1452-1457 | giving up blocks the active task alone; completed tasks stay completed and nothing is left being executed |
| PlanSegments.ResetLeavesNone | go/spore-core/strategy.go:1219-1230 | with at most one task in progress the reset of a resume leaves none |
| PlanSegments.ResetKeepsClosed | go/spore-core/strategy.go:1219-1230 | the reset keeps ids unique, completed tasks completed, and closed completion closed |
| PlanSegments.StalledIsPickedAgain | go/spore-core/strategy.go:1215-1235 | when the only task in progress is the one that was being executed, a resume takes up that task, and it is the least ready one of the list it leaves: it is picked first |
| PlanSegments.WalkIsSegment | go/spore-core/strategy.go:1215-1311 | every exit of a walk: no completed task is executed or reverted, the carried conversation goes to the stalled task and to no other; without a refused reset, from a settled list exactly the active task is left in progress and the stalled task ran first, on the seed |
| PlanSegments.SettlesExactly | go/spore-core/strategy.go:1419-1442 | over a list with closed completion a segment settles exactly when no reset was refused |
| PlanSegments.ChainsAppend | go/spore-core/strategy.go:941-988 | the runs of a resume extend the chain of the runs before |
| PlanSegments.CompletedStays | go/spore-core/strategy.go:941-988 | across any chain of runs, whatever was refused or granted, a completed task stays completed and is never executed again |
| PlanSegments.ResumeChain | go/spore-core/strategy.go:941-988 | across any number of pauses and seed-carrying resumes of settling runs, begun on a settled list: at most one task is in progress, it is the one that was being executed, and each resume runs that task first, on the conversation it carries |
| Strategies.MaxStepsIsTurnBound | go/spore-core/strategy.go:622-676 | a value exactly when every leaf is capped, no unbounded-windows sentinel occurs and the bound over unbounded integers fits 32 bits, and then that bound |
| Strategies.FillEmptyWorkerAgent | go/spore-core/strategy.go:2537-2583 | filling an agent in changes neither the shape of the tree nor its behaviours |
| Strategies.FillSetsLeaf | go/spore-core/strategy.go:2537-2583 | exactly an empty worker leaf takes the agent |
| Strategies.LeafResolution | go/spore-core/strategy.go:2438-2474 | the leaf resolves its declared agent or else the outermost Ralph override; the lookup prefers the override |
| Strategies.WorkerKeyAgrees | go/spore-core/strategy.go:2438-2474 | the looked-up worker agent is the one the leaf resolves exactly when the leaf declares none, no Ralph overrides it, or both name the same |
| Strategies.WorkerKeyDisagrees | go/spore-core/strategy.go:2001-2009 | an explicit leaf agent under an overriding Ralph: the lookup names the wrong one |
| Strategies.ValidateFindsFirst | go/spore-core/execution_registry.go:474-562 | validation reports the first unresolvable handle of the tree in declaration order, and accepts exactly when there is none |
| Strategies.ValidResolvesWorker | go/spore-core/execution_registry.go:474-562 | in a validated tree the looked-up worker agent resolves |
| Strategies.FillKeepsValid | go/spore-core/strategy.go:2001-2009 | Ralph's per-window fill keeps a validated tree valid |
| Strategies.GrantStrategy | go/spore-core/executor.go:664-688 | a grant changes neither the shape of the tree nor the behaviour of its root |
| Strategies.GrantRaisesLeaves | go/spore-core/executor.go:664-688 | every leaf cap is raised to at least the grant, left to right, and no handle changes |
| Breakers.HaltsAtTwice | go/spore-core/harness.go:6166-6193 | the hard stop comes at exactly twice the threshold exactly when the threshold is below 2^31; above, the doubled word wraps and the stop comes at max(1, 2N-2^32), before any nudge |
| Breakers.ExtendErrors | go/spore-core/harness.go:6155-6164 | an error with the arguments of the run makes the longest failing suffix one longer |
| Breakers.RestartErrors | go/spore-core/harness.go:6155-6164 | an error with other arguments starts a run of one |
| Breakers.ClearErrors | go/spore-core/harness.go:6226-6231 | a success of the tool ends its run |
| Breakers.NextRunCounts | go/spore-core/harness.go:6155-6165 | the stored count is the length of the longest suffix of equal-argument errors of that tool |
| Breakers.NextRepeats | go/spore-core/harness.go:6239-6247 | the repeat count is the length of the longest equal-signature suffix of successes other than send_message |
| Breakers.StopTest | go/spore-core/harness.go:6166-6172 | the comparison of 32-bit counters stops exactly at the halting length |
| Breakers.ToolLoopBreaker.ObserveError | go/spore-core/harness.go:6155-6225 | stops exactly when the longest equal-argument error suffix of the tool reaches the halting length, nudges exactly at the threshold, once a run |
| Breakers.ToolLoopBreaker.ObserveSuccess | go/spore-core/harness.go:6226-6277 | clears the tool's run; stops exactly when the longest equal-signature success suffix reaches the halting length, nudges exactly at the threshold; send_message never counts |
| ReActWindows.DispatchBatch | go/spore-core/harness.go:5917-6343 | the dispatched calls are answered once each, in batch order; each nudge is one user message; at a pause approved followed by pending is the batch, the interrupting call included only for a clarification or consult |
| ReActWindows.DispatchCall | go/spore-core/harness.go:5917-6277 | one call: what stops the batch, and with which calls pending |
| ReActWindows.StopFor | go/spore-core/harness.go:6002-6145 | a clarification or consult keeps its own call pending, a child's pause or an escalation drops it |
| ReActWindows.BatchBalance | go/spore-core/harness.go:5845-6343 | after a batch exactly the unanswered calls are owed a result |
| ReActWindows.DroppedCall | go/spore-core/harness.go:6077-6130 | a dropped call stays owed ahead of the pending ones |
| ReActWindows.TurnWindow.Gate | go/spore-core/harness.go:5370-5400 | a turn is admitted only below the cap plus refunds and below the task's turn cap |
| ReActWindows.TurnWindow.CountTurn | go/spore-core/harness.go:5548-5563 | the 32-bit counter never wraps; a turn that only narrates is refunded, at most cap times |
| ReActWindows.TurnWindow.OnFinalResponse | go/spore-core/harness.go:5625-5815 | a final response ends the window, or forces another turn for one of four capped reasons; under a schema it succeeds only when the text validates, and is a violation only when it does not and the retries are used up |
| ReActWindows.TurnWindow.OnToolCalls | go/spore-core/harness.go:5817-6417 | a batch leaves every call answered, or ends the window with the owed calls accounted for |
| ReActWindows.TurnWindow.Run | go/spore-core/harness.go:5258-6444 | the window ends; it takes at most cap minus start turns beyond the refunded ones, ends within twice the cap and the task's turn cap, and takes none when it starts at its cap; a successful conversation answers every call exactly once, a paused one owes exactly its pending calls; a success under a schema conforms to it |
| Resumes.Drain | go/spore-core/harness.go:6694-6701 | answers every drained call once, in order |
| Resumes.InjectAnswer | go/spore-core/harness.go:6685-6701 | the answer becomes the result of the head call and the rest of the batch is dispatched in order |
| Resumes.ResumeConsult | go/spore-core/harness.go:6637-6734 | after a consult every pending call has exactly one result, in batch order |
| Resumes.ResumeHuman | go/spore-core/harness.go:6774-6965 | which calls each human response answers |
| Resumes.AnswersSettle | go/spore-core/harness.go:6685-6701 | the conversation is balanced exactly when the answers given are the calls owed, in order |
| Resumes.KeptPauseSettles | go/spore-core/harness.go:6774-6797 | after a clarification or consult: exactly one result per call exactly when the response settles the pending calls |
| Resumes.ClarificationResponses | go/spore-core/harness.go:6774-6943 | the responses that leave exactly one result per call after a clarification, and no others |
| Resumes.DroppedPauseNeverSettles | go/spore-core/harness.go:6077-6130 | after a child's pause or an escalation, settling the pending calls always leaves one call without a result |
| Contexts.ExecutionContext.PushBudget | go/spore-core/execution_scaffold.go:509-523 | a fresh scope on top; a continue seed of this phase restores the counter and is consumed, once |
| Contexts.ExecutionContext.PopBudget | go/spore-core/execution_scaffold.go:527-529 | removes exactly the innermost scope |
| Contexts.ExecutionContext.Refill | go/spore-core/execution_scaffold.go:339-364 | a spent scope is refilled exactly when a continue is left, or when it escalates with a grant left; otherwise the chain's last word is returned |
| Contexts.ExecutionContext.Charge | go/spore-core/strategy.go:1829-1876 | a charge is admitted, or resolved on the spot into another round or the signal of the scope as it stood |
| Contexts.ExecutionContext.ResolveSpent | go/spore-core/strategy.go:1397-1443 | a spent child: the scope is refilled or answers with its chain's last word, and the answer is logged |
| Contexts.ContinueRefills | go/spore-core/execution_scaffold.go:339-364 | a continue spends one continue, no grant, and no capacity |
| Contexts.GrantRefills | go/spore-core/execution_scaffold.go:562-582 | a grant spends one grant with no continue left, and no capacity |
| Contexts.ResolvedInChain | go/spore-core/execution_scaffold.go:339-364 | wherever the resolutions of a scope have led it along its chain, it has the continues left that the whole chain would have at its counter |
| Contexts.ExecutionContext.RecordTerminal | go/spore-core/executor.go:414-423 | the override is the full result, the outcome its image, and the session the result's |
| Contexts.ExecutionContext.TakeChildOverride | go/spore-core/executor.go:432-436 | hands the override out and clears it |
| Contexts.ExecutionContext.Finish | go/spore-core/executor.go:441-477 | a pause leaves with the parent's task, which is restored; everything else leaves as it is |
| Contexts.RehomedIsHomed | go/spore-core/executor.go:451-469 | rewriting the task of a pause changes neither its outcome nor its turn count |
| Contexts.ExecutionContext.GiveUp | go/spore-core/strategy.go:1843-1875 | a spent scope asks a human exactly when it escalates under that mode; otherwise the exhaustion propagates, with a partial exactly when it escalated |
| Contexts.ExecutionContext.Resolve | go/spore-core/execution_registry.go:401-435 | looks a handle up and counts a miss |
| Contexts.ExecutionContext.ResolveWorkerAgent | go/spore-core/harness.go:4389-4400 | fails exactly when the looked-up key does not resolve, and never on a validated tree |
| Leaves.RunReact | go/spore-core/strategy.go:773-908 | the contract of a node for the leaf; it is exhausted exactly when its window looped on errors, overran its allowance or stopped on its budget with the allowance used up; a spent budget is reported with the allowance itself or with zero steps, and under a positive cap with zero steps exactly when the window overran it; a success under a forced or enforced schema conforms to it, and a violation is reported only under one; a PerLoop leaf entered at its cap is exhausted at once |
| Leaves.OverrunNeedsRefunds | go/spore-core/strategy.go:848-905 | for every window result: zero steps are reported under a positive cap exactly when the window ended beyond it, which under a PerLoop cap takes refunds or a start beyond the cap; the reported steps stay within the task's turn cap |
| Leaves.Settle | go/spore-core/strategy.go:848-907 | the leaf charges its own scope, pops it, and propagates its exhaustion without resolving it; which window results are exhaustions, exactly |
| Ledgers.Push | go/spore-core/tasklist.go:205-213 | keeps exactly the most recent rows, and says whether it dropped one |
| Ledgers.PushRecords | go/spore-core/strategy.go:1513-1524 | however often rows were dropped, the ledger is the last twenty rows ever pushed and the flag says whether there were more |
| Ledgers.CollectResults | go/spore-core/strategy.go:1347-1354 | one line per upstream task that has a result, in ascending order |
| Ledgers.CollectRows | go/spore-core/strategy.go:1355-1363 | the rows of the upstream tasks, in ledger order |
| Ledgers.OnlyUpstreamShows | go/spore-core/strategy.go:1337-1354 | the results a step is shown depend on the tasks it waits for and on no other |
| Ledgers.OtherRowsDoNotShow | go/spore-core/strategy.go:1355-1363 | the rows of other tasks leave no trace in the scoped ledger |
| Executions.Run | go/spore-core/strategy.go:751-768 | for every tree and every behaviour of the model, tools and policies: the budget stack is as it was and no outer scope changed; the task is restored; the outcome is an exhaustion exactly when no override is left and otherwise its image; pauses carry the node's task; seeds are consumed at most once; a validated tree misses no handle; results, pauses and, without automatic grants, exhaustions of a Ralph-free tree carry at most the larger of the starting turns and the turn cap; an exhaustion carries a part of the node's own chain; when a human may be asked, a contained tree is never exhausted, and a leaf spent at once under verifying nodes always is; for each kind, by the log of what its children, its charges and its checks answered: a leaf is exhausted exactly after a window that looped on errors or used its allowance up, a combinator exactly when a spent child or a refused charge was handed on; the turns admitted are at most the capacity of its scope; success comes exactly with the last verdict or check |
| Executions.RunChild | go/spore-core/strategy.go:1380-1391 | a child runs on a scratch seeded for it and leaves its parent's stack untouched; its answer, and the conversation it left behind, are the next event of its parent |
| Executions.RunInner | go/spore-core/strategy.go:1763-1791 | the inner strategy of a verifying or climbing node runs once; spent, the node reports its own scope, as the child found it; otherwise its result is taken over |
| Nodes.Conclude | go/spore-core/executor.go:441-477 | pops the node's scope and leaves with its own result or a child's pause |
| Nodes.GiveUpScope | go/spore-core/strategy.go:1843-1875 | pops the scope that refused a charge for good, and asks a human or hands the exhaustion on, as that charge says |
| Nodes.PropagateSpent | go/spore-core/strategy.go:1781-1791 | a child's exhaustion is reported as the node's own scope, which the child never touched, in every escalation mode; only a tree that is not contained does so when a human may be asked |
| RefusedResets.RefusedStepSurfaces | go/spore-core/strategy.go:1529-1572 | under SurfaceToHuman, over any independent tasks with enough of them pending: a plan with a positive cap whose chain ends in Fail hands an exhaustion up, after spent children used up its refills and its tasks took more turns in all than its scope allows |
| SurfacedBudgets.ContainedAsks | go/spore-core/harness.go:4204-4205 | under SurfaceToHuman a contained tree hands no exhaustion up on any run: the comment's claim holds for these trees |
| SurfacedBudgets.SpentTreeSurfaces | go/spore-core/harness.go:4204-4205 | under SurfaceToHuman a leaf without an allowance under any number of verifying nodes is exhausted and leaves no result, whatever their chains: there the claim fails |
| SurfacedBudgets.SpentClimbSurfaces | go/spore-core/strategy.go:2304-2323 | and so does a climb over such a tree |
| SurfacedBudgets.LoopingLeafSurfaces | go/spore-core/strategy.go:848-905 | any leaf is exhausted by a window that ends in an error loop |
| SurfacedBudgets.SpentChildSurfaces | go/spore-core/strategy.go:1777-1791 | any verifying or climbing node over a tree that is not contained is exhausted by a spent child, whatever its chain, and reports its own scope |
| SurfacedBudgets.RefusedChargeSurfaces | go/spore-core/strategy.go:1829-1876 | any climb with a cap, and any verifying node with a positive one, whose chain ends in Fail is exhausted by some unit charge, after all its refills |
| Executions.RunPlanExecute | go/spore-core/strategy.go:925-1158 | the contract of a node for plan and execute; when it walks, the walk is a segment from the durable list found, or the list planned, to the durable list left, with the seed the run carried; it settles when the reset takes effect or the starting scope cannot be refilled; its tasks are the children that ran, and a pause in a task carries the conversation the last of them left behind |
| Executions.ReachPlan | go/spore-core/strategy.go:941-1139 | a durable list is taken as found with the seed kept for it; otherwise one is planned, and the seed used up |
| Planning.ResumePlan | go/spore-core/strategy.go:962-987 | a durable list is walked as it stands, without planning, unless it is cyclic |
| Executions.AuthorPlan | go/spore-core/strategy.go:988-1139 | planning is tried at least once and at most once more than the retries allow, attempt by attempt on the log, and ends in an acyclic non-empty durable list or a result; a seed is used up |
| Executions.PlanOnce | go/spore-core/strategy.go:1008-1085 | one planning run; a session seed continues it and is then used up; a list authored in the store is taken as it is; a plan that cannot be captured ends the node |
| Executions.RunPlanSubtree | go/spore-core/harness.go:4470-4485 | the planner runs in a context of its own: the node's stack, seeds and scratch are untouched |
| Planning.ListSteps | go/spore-core/tasklist.go:710-719 | exactly one independent pending task per step, with the step's text verbatim, numbered from one |
| Planning.Reconcile | go/spore-core/harness.go:5147-5169 | marking what is completed on the durable list changes nothing, since the list was persisted just before |
| PlanSteps.TakeUpStalled | go/spore-core/strategy.go:1215-1235 | a seed resets the first task in progress and is kept for that task; without such a task it is dropped |
| Executions.ExecutePlan | go/spore-core/strategy.go:1197-1659 | the walk as seen from outside: child runs number at most the tasks plus the refills of the scope; every exit is a segment; a drained walk over a clean list partitions the tasks, and succeeds exactly when all completed, whenever the reset takes effect or the starting scope cannot be refilled; a pause over closed completion settles exactly when no reset was refused; a pause in a task carries the conversation its child left behind; it is exhausted exactly by its own scope's last word |
| PlanSteps.EnterWalk | go/spore-core/strategy.go:1257-1269 | the scope of the walk starts with max(0, m-u) continues, and with the automatic grants when its chain escalates |
| PlanReports.DrainedExit | go/spore-core/strategy.go:1617-1658 | the report of a drained walk over a clean list: partition exactly when the reset takes effect or was never asked for; blocked exactly failed plus dependents; Success means all completed exactly then or when something failed |
| PlanReports.PausedExit | go/spore-core/strategy.go:1444-1487 | a pause over closed completion leaves only its active task in progress, ready to be picked first, exactly when no reset was refused |
| PlanReports.LeftWalk | go/spore-core/strategy.go:1294-1659 | every exit of the walk is a segment, and settles when the reset takes effect or was never asked for |
| RefusedResets.StrandingRun | go/spore-core/strategy.go:1419-1442 | as written, over every clean list with a ready task and every scope that can be refilled: after one spent child the walk drains with Success, a task left in progress and the partition broken |
| RefusedResets.StrandedPause | go/spore-core/strategy.go:1215-1235 | as written, over every clean list with two ready tasks and every scope that can be refilled: a spent first task and a pause in the next one leave two tasks in progress, and a resume takes up the one that comes first in the list, whichever paused |
| RefusedResets.SkippedStays | go/spore-core/harness.go:6857-6866 | a task found in progress by a run without a seed, as after a skip, is never completed, yet a run without failures reports Success |
| Executions.WalkTasks | go/spore-core/strategy.go:1294-1659 | the walk ends, by a measure over refills and pending tasks; the carried conversation went to the stalled task, the first time it ran, and to no other |
| Executions.WalkOne | go/spore-core/strategy.go:1294-1659 | each executed task spends a refill or a pending task, and gets the conversation it should |
| Executions.WalkStep | go/spore-core/strategy.go:1308-1391 | one execution of the active task: its conversation is recorded, and the walk goes on closer to its end or is left with the task's fate on the durable list |
| Executions.RunStep | go/spore-core/strategy.go:1380-1395 | the execute child runs once; its turns stay within the task's cap, and what it left behind is the last conversation on the log |
| PlanSteps.PrepareStep | go/spore-core/strategy.go:1308-1391 | the active task's own text, unless the hook rewrote it, and the conversation it is run on, which is put on record |
| PlanSteps.StepSession | go/spore-core/strategy.go:1326-1375 | the seed session goes to the stalled task only, once; every other step is the base session, the results and ledger rows of exactly the tasks it waits for in ascending order, the whole ledger with its elision mark, and its instruction |
| PlanSteps.OnExhausted | go/spore-core/strategy.go:1397-1443 | a child's exhaustion is resolved by the scope of the walk: asked for again exactly when a refill is left, and then as written the task is stranded; a cascade, over exactly the task and what waits for it, exactly when the chain ends in Fail; otherwise escalation with the worker's steps |
| PlanSteps.OnEscalated | go/spore-core/strategy.go:1444-1487 | a pause leaves the task in progress and carries the conversation its child left behind; otherwise the task is blocked and the exhaustion propagates |
| PlanSteps.OnResult | go/spore-core/strategy.go:1489-1613 | success completes the task and carries its turns, output and session on, and its output and ledger row for later steps; a failure fails exactly this task and its dependents; a pause leaves as it is with the task in progress |
| PlanSteps.OnSuccess | go/spore-core/strategy.go:1489-1572 | the task is completed, and recorded for later ones with its output and ledger row; its turns are charged to the walk's scope, which goes on exactly when they fit or a refill is left |
| PlanSteps.OnFailure | go/spore-core/strategy.go:1574-1606 | a turn-cap failure stops the run and blocks only its task; any other failure blocks exactly the task and what waits for it, completed tasks excepted, and the walk goes on |
| PlanSteps.ChargeStep | go/spore-core/strategy.go:1529-1572 | a completed step is charged to the walk's scope by exactly its turns: it goes on exactly when the charge fits or a refill is left, and otherwise pauses or propagates by the chain's last word |
| PlanSteps.Drain | go/spore-core/strategy.go:1617-1658 | Success without failures; otherwise the sorted completed and blocked ids and the first failure |
| Executions.RunSelfVerifying | go/spore-core/strategy.go:1668-1981 | the contract of a node; by its log it succeeds exactly when the last verdict accepted, every earlier one having rejected; verdicts number at most the builds, and builds at most what the verifier allows; the turns of builds and evaluations that its scope admitted total at most the scope's capacity; it is exhausted exactly when a build was, or when a charge was refused for good and its chain does not ask a human |
| BuildSteps.TakeBuildSession | go/spore-core/strategy.go:1686-1692 | the seed session replaces the run's own, and is consumed |
| BuildSteps.ResolveEvaluators | go/spore-core/strategy.go:1697-1740 | succeeds exactly when verifier and evaluation agent resolve, and always on a validated tree |
| Executions.BuildRounds | go/spore-core/strategy.go:1762-1981 | at most as many builds as the verifier allows, a verdict after each at most, all but the last rejections |
| Nodes.ChargeTurns | go/spore-core/strategy.go:1829-1876 | turns are admitted exactly when they fit; otherwise the scope is refilled for another round or the node gives up, and is then exhausted exactly unless its chain escalates and a human may be asked |
| Nodes.ChargeFunds | go/spore-core/execution_scaffold.go:252-266 | what a scope admitted and what it can still admit stay together within its capacity at the start; a refused charge admits nothing |
| Nodes.RefillFunds | go/spore-core/execution_scaffold.go:339-364 | a refill never adds to what a scope can admit |
| BuildSteps.OnBuilt | go/spore-core/strategy.go:1806-1876 | a paused build leaves the node uncharged; an ended one is charged by exactly the turns it added, goes to the verifier exactly when they fit, and otherwise is retried under a refilled scope or ends the node |
| PlanSteps.StepInstruction | go/spore-core/strategy.go:1305-1324 | a step runs under its task's own text unless the hook rewrote it |
| Executions.BuildPhase | go/spore-core/strategy.go:1763-1876 | one run of the inner strategy; its exhaustion is propagated as the node's own scope |
| BuildSteps.EvaluatePhase | go/spore-core/self_verifying.go:268-369 | the evaluator starts from zero turns and stays within the task's turn cap |
| BuildSteps.VerifyPhase | go/spore-core/strategy.go:1878-1963 | the evaluator's own turns, at most the task's cap, are charged, and the verdict is asked for exactly when they were admitted; success exactly on acceptance |
| Executions.RunRalph | go/spore-core/strategy.go:1991-2117 | never an exhaustion; at most the allowed number of windows, and a check after each at most; success exactly when the last check found the work complete, every earlier one having not |
| Executions.Windows | go/spore-core/strategy.go:2027-2116 | an exhausted window is retried afresh, a paused one leaves the node; by the log, at most the allowed windows run and success comes exactly with the last check |
| Executions.RunOneWindow | go/spore-core/strategy.go:2027-2075 | one child on a fresh session; nothing is left of it exactly when it was spent; a later window leaves the node's task list alone unless the store is pinned |
| Executions.RunHillClimbing | go/spore-core/strategy.go:2125-2433 | never a success; every charge is for one turn and an iteration runs only on an admitted one, so the iterations number at most the unit charges its scope admits; it is exhausted exactly when an iteration was, or when a charge was refused for good and its chain does not ask a human |
| Executions.Climb | go/spore-core/strategy.go:2225-2427 | the climb ends, by a measure over refills and what is left of the allowance; one that starts on a spent scope without refills ends at once, exhausted exactly unless its chain escalates and a human may be asked |
| Executions.ClimbStep | go/spore-core/strategy.go:2225-2287 | one unit charge admits one iteration; a refused one spends a refill or ends the climb by the last word of its chain |
| Executions.Iterate | go/spore-core/strategy.go:2277-2426 | at the task's turn cap nothing is run and the climb fails on turns; otherwise one inner run, after which the stagnation counter is back at zero or one higher, and the climb goes on only below a configured limit and reports stagnation only at it |
| Executions.ClimbOnce | go/spore-core/strategy.go:2289-2426 | one inner run, whose exhaustion is propagated and whose pause leaves the node; then the metric decides the stagnation counter |
| BuildSteps.ProceedClimbs | go/spore-core/strategy.go:2230-2275 | an admitted unit charge takes exactly one off the capacity |
| Driving.Drive | go/spore-core/harness.go:4145-4366 | at most (G+1)*(m+1) rounds, m+1 without automatic grants, every one but the last exhausted; when a human may be asked a contained tree is driven once and no exhaustion reaches the loop; the task ends with the same handles and behaviours under caps that were never lowered; a pause carries that task; no handle is missed on a validated tree; after k continues, each on a logged window that used its cap up without a refund, a bare PerLoop(N) leaf has cap N*2^k, saturating; the walks of a plan form a chain over the durable list, the first with the seed of the drive, and a pause in a task carries what that task left behind |
| Driving.RoundWalks | go/spore-core/harness.go:4154-4181 | one more round is one more link of that chain, or it ended before walking; a pause in a task carries what the task left behind |
| Driving.ResolveRound | go/spore-core/harness.go:4188-4351 | continue exactly while the threaded chain has continues left, an automatic grant exactly when it escalates with grants left, otherwise a pause or a failure reporting the cause; a Fail discards the partial |
| Driving.RoundBound | go/spore-core/harness.go:4154-4292 | the bound on rounds at every round |
| Driving.ContinueKeeps | go/spore-core/harness.go:4250-4268 | an in-process continue threads the chain state on and spends one continue |
| Driving.GrantKeeps | go/spore-core/harness.go:4269-4292 | an automatic grant drops the threaded chain state, so the whole chain is available again |
| Driving.ContinueRaisesCap | go/spore-core/harness.go:4250-4268 | the grant of a continue raises a leaf cap exactly when the leaf reported steps and the cap is not the largest word |
| Driving.DoubledIsPower | go/spore-core/harness.go:4250-4268 | doubling k times is multiplying by 2^k, saturating |
| Driving.ResumeExtends | go/spore-core/harness.go:6822-6857 | the walks of a resumed plan continue the chain of the runs before it, its first one carrying the resumed conversation |
| Driving.ResumedOnLeft | go/spore-core/harness.go:6822-6857 | when no reset is refused, the run resumed on a pause in a task executes that task first, on a conversation that goes on from the one the task left behind |
| Driving.ResumeBudget | go/spore-core/harness.go:6740-6888 | fails at once when the worker's agent does not resolve; a granted budget resumes under caps raised to the steps taken plus the grant, and extends the chain of the plan's runs with the stalled conversation as seed; a skip goes on with a plan and ends anything else; anything else fails with the partial discarded |
| Driving.ResumeWorker | go/spore-core/harness.go:6703-6756 | an answered composed run is driven again as a whole with the worker's conversation as its seed, extending the chain of the plan's runs; a bare leaf continues in one window; an answer by a human looks the agent up first |
| Driving.GrantMakesRoom | go/spore-core/executor.go:696-702 | after a grant every capped leaf and the task have room for the granted steps, and validity is unchanged |
| Driving.ResumedScopeHasRoom | go/spore-core/executor.go:585-643 | the run resumed after a granted pause starts the asking node on a scope with the counter it had, no continue left, and exactly as many unit charges as were taken and granted together, or the task's own cap when that is more |
| Driving.GrantCapsScope | go/spore-core/executor.go:696-702 | a combinator without a turn cap never refuses a charge; after a grant it does, unless the grant is the largest word |
| Driving.GrantRaises | go/spore-core/executor.go:664-702 | grants compose: caps are never lowered and handles never change |
| CanonicalJson.EscapeCharUnique | go/spore-core/model.go:829-831 | no escape is a prefix of another, so a text splits into escapes in one way |
| CanonicalJson.EscapeUnique | go/spore-core/model.go:829-831 | a quoted string ends where its closing quote says, whatever it holds |
| CanonicalJson.QuoteUnique | go/spore-core/model.go:829-831 | a quoted string can be read off the front of a text in one way only |
| CanonicalJson.SortKeys | go/spore-core/model.go:839-843 | lists exactly the keys of the object, in order |
| CanonicalJson.SortedUnique | go/spore-core/model.go:839-843 | a set of keys has one sorted listing, so map order never shows |
| CanonicalJson.NumberUnique | go/spore-core/model.go:827-828 | a number token ends where its characters do |
| CanonicalJson.Readable | go/spore-core/model.go:816-853 | a printed tree can be read off the front of a text in one way only |
| CanonicalJson.ReadableItems | go/spore-core/model.go:832-837 | the items of an array likewise |
| CanonicalJson.ReadableObject | go/spore-core/model.go:838-847 | an object likewise, and key order is immaterial |
| CanonicalJson.Canonicalize | go/spore-core/model.go:816-853 | the walk over the tree produces the canonical text |
| CanonicalJson.CanonicalIdentifies | go/spore-core/model.go:816-853 | two decoded trees print alike exactly when they are the same tree, so the hashed request text identifies the request tree |
| CanonicalJson.TokensMustBeNumbers | go/spore-core/model.go:827-828 | without the number grammar different trees can print alike |
| OutputSchemas.IsOption | go/spore-core/output_schema.go:302-309 | comparing canonical texts decides membership as equality of trees |
| OutputSchemas.FirstMissing | go/spore-core/output_schema.go:245-260 | the first required name, in array order, that the object lacks |
| OutputSchemas.FirstWrongType | go/spore-core/output_schema.go:274-287 | the least property whose value has the wrong type |
| OutputSchemas.FirstOutsideEnum | go/spore-core/output_schema.go:289-322 | the least property whose value is none of its options |
| OutputSchemas.ValidateOutput | go/spore-core/output_schema.go:220-327 | accepts exactly the responses that meet type, required, property types and enums, and otherwise reports the first failing check: every check before it passed, and within it the first required name in array order or the least property |
| EmbeddedJson.ExtractEmbeddedObject | go/spore-core/plan.go:202-242 | returns the balanced object at the first brace, or nothing exactly when that brace is never closed |
| EmbeddedJson.BalancedUnique | go/spore-core/plan.go:202-242 | no balanced object is a proper prefix of another, so the result is the shortest one |
| EmbeddedJson.ExtractedUnique | go/spore-core/plan.go:202-242 | whenever a balanced object stands at the first brace, it is the result |
| EmbeddedJson.EncodeChar | go/spore-core/plan.go:197-201 | every byte of a multi-byte character is above the structural ones |
| EmbeddedJson.EscapeCrosses | go/spore-core/plan.go:219-227 | an escaped character never leaves its string literal |
| EmbeddedJson.PrintCrosses | go/spore-core/plan.go:214-240 | a printed value leaves the scan at the depth it started from, never below it |
| EmbeddedJson.PrintedBalanced | go/spore-core/plan.go:214-240 | a printed object is balanced despite braces, quotes and backslashes inside its strings |
| EmbeddedJson.CaptureWithRepair | go/spore-core/plan.go:175-189 | a plan the strict grammar accepts is never changed; only a rejected text is retried on its embedded object |
| EmbeddedJson.RepairRecovers | go/spore-core/plan.go:175-189 | a plan object wrapped in prose is captured as if it stood alone |
| EmbeddedJson.RecoversPrintedObject | go/spore-core/plan.go:202-242 | a printed object after brace-free text is recovered exactly, whatever follows it |
| Streams.StreamAccumulator.Fold | go/spore-core/agent.go:746-780 | after every event the accumulator holds one block per index in first-seen order, with the fragments of that index and of the block's kind |
| Streams.StreamAccumulator.Entry | go/spore-core/agent.go:736-744 | finds the block of an index or opens it last |
| Streams.StreamAccumulator.IntoResponse | go/spore-core/agent.go:782-821 | one content block per index in first-seen order; an input that is no JSON text becomes null; a missing id is made from the index |
| Streams.ResponseBuffer.Fold | go/spore-core/prompt_tool_call.go:324-348 | text is appended whatever the kind of the block, and a tool event turns any block into a call |
| Streams.ResponseBuffer.IntoResponse | go/spore-core/prompt_tool_call.go:350-376 | one content block per index in first-seen order; an empty input becomes null |
| Streams.BufferStep | go/spore-core/prompt_tool_call.go:314-348 | folding one event keeps the buffer in step with everything seen |
| Streams.ConsistentBuffers | go/spore-core/prompt_tool_call.go:324-348 | on kind-consistent streams the buffer never mixes kinds |
| Streams.AccumulatorsAgree | go/spore-core/agent.go:782-821 | on a kind-consistent stream both rebuild the same response exactly when every tool input is empty or a JSON text |
| Streams.SplittingChangesNothing | go/spore-core/agent.go:746-780 | splitting a fragment anywhere in any stream changes nothing an accumulator sees |
| Streams.SameStreamSameResponse | go/spore-core/agent.go:782-821 | streams that differ in such splits rebuild the same responses |
| Streams.ResponseToStream | go/spore-core/prompt_tool_call.go:380-409 | emits start, fragments and stop of every block in order, then usage and stop reason |
| Streams.EmitThenBuffer | go/spore-core/prompt_tool_call.go:380-409 | buffering an emitted response gives it back up to defaulted ids and empty inputs |
| Streams.EmitThenAccumulate | go/spore-core/prompt_tool_call.go:380-409 | so does the agent's accumulator, when the inputs are JSON texts |
| Streams.NormalIsIdentity | go/spore-core/prompt_tool_call.go:380-409 | exactly the responses whose calls all have an id and an input come back unchanged |
| StreamMaps.TurnStream.Map | go/spore-core/harness.go:637-706 | on every stream: text goes out as the model's text in arrival order, a block begins once per open period, and every id sent is on record with its index |
| StreamMaps.TurnStream.MapText | go/spore-core/harness.go:642-651 | opens the block when it is closed, then forwards the text |
| StreamMaps.TurnStream.MapStart | go/spore-core/harness.go:662-677 | opens the block and starts the call under the frame's own id, which is put on record; ignored when the block is open |
| StreamMaps.TurnStream.MapFragment | go/spore-core/harness.go:678-699 | forwards the fragment under the id on record, or starts a call under a synthesized one |
| StreamMaps.TurnStream.MapStop | go/spore-core/harness.go:700-702 | closes the block and nothing else |
| StreamMaps.KnowsElsewhere | go/spore-core/harness.go:637-706 | an event changes nothing that is known at the indices it does not name |
| StreamMaps.IdsStart | go/spore-core/harness.go:662-677 | at an index where the stream is tidy a start frame puts its own id on record |
| StreamMaps.IdsDelta | go/spore-core/harness.go:678-699 | at a tidy index a fragment goes out under the id its index was started with, or the synthesized one |
| StreamMaps.MapperAgrees | go/spore-core/harness.go:637-706 | at a tidy index, whatever happens at the others, an id sent is the id of the call the accumulator rebuilds there, exactly when it is not empty |
| StreamMaps.LateStartDisagrees | go/spore-core/harness.go:678-699 | a start frame after a fragment: the mapper has sent only the synthesized id, the accumulator rebuilds the call under the late one |

## Left out

- Executions.Climb: an uncapped climb with no refusal of charges need not end in the source; here it is cut by `fuel` with an escalation, so the model says nothing of climbs beyond the fuel.
- Executions.ExecutePlan: durable lists are taken to have distinct ids, and the store to answer with what was last written; lists with repeated ids and storage errors are not modelled.
- PlanSteps.StepSession: results and ledger rows are those of the run under way, as in the source; the files a step wrote are an arbitrary answer of the harness.
- Planning.ListSteps: a plan is taken to name fewer than 2^32 - 1 steps.
- Executions.PlanOnce: parsing the planner's text into a plan artifact is an arbitrary list of steps, or a failed capture; only the scan for an embedded object is modelled (`EmbeddedJson`).
- SurfacedBudgets.RefusedChargeSurfaces: the scope is charged turn by turn with nothing in between; the children's runs are not part of that input.
- Driving.Drive: grants raise a copy of the task; the source raises the strategy tree in place, so the aliasing of that tree with the caller's is not captured.
- OutputSchemas.ValidateOutput: the rendered error strings, with the sorted enum listing, are not modelled; the float test behind "integer" and the JSON decoder are parameters.
- CanonicalJson.Canonicalize: strings are sequences of Unicode scalar values; the replacement of invalid UTF-8 by the encoder is not modelled, and number tokens are any strings of number characters starting with a digit or a minus sign.
- Streams.ResponseToStream: a response is taken to have at most 2^32 blocks; the channel and its errors are left out.
- TaskLists.TaskList.Add: the id counter wraps at 2^32, so lists stay well-formed only below it.
- Token, cost and wall-clock accounting: the limits they impose are arbitrary answers of the gate; usage totals are not carried.
- Middleware, hooks other than the step rewrite, compaction, prompt merging, memory and guide injection: they do not take part in the properties above. The result a middleware pause would carry is left out with them.
- Observability, streaming sinks, session auto-persistence, version control, TSV logs and skill discovery: input and output only.
- The serialised forms (`MarshalJSON`, `UnmarshalJSON`) and error renderings: field copying; the model works on datatypes.
- Subprocess execution, path resolution and the sandbox's own checks: calls into the operating system.
- `StripCodeFence`, `trimASCIIWS`, `DetectProseResponse` and `extractToolCalls`: text trimming and phrase lists without state.
- The replay, mock and recording models: test doubles.
