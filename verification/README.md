# A model of the durable graph scheduler

`graph_engineering` runs a workflow graph over a transactional state store. One owner at a time holds a
lease with a generation, starts attempts, settles their results, retries, blocks, skips, routes, loops and
repairs, and any owner can crash between two transactions and be taken over. This project models that
scheduler, the analysis of workflows that is meant to make its runs safe, and four protocols beside it, and
proves what holds over whole runs.

## How it is built

The tables of one run are a value (`Store.Db`), and each transaction of `state.py` is a function from the
tables and a lease to new tables and a reply. Three things are built on these functions:

- `StateStores.StateStore` is the store as an object. Its methods rewrite the tables in place, and each is
  proved to do exactly what its function says.
- `Runs` is a step relation over transactions, time, crashes, takeovers and fenced owners that keep sending.
  A guard says when the owner issues which transaction. The theorems about whole runs are about this
  relation: `RunInvariants`, `History`, `ReplaySafety`, `Doubt`, `Budgets`, `RetryLimits`, `Concurrency`,
  `StartOrder`, `AttemptBudget`, `FrozenJoins` and `Termination`; `Lease` looks at the lease alone. `LoopOverrun`,
  `OutdatedJoin`, `StalledChain`, `LateVoter`, `NestedLoops`, `RefusedVoter` and `RepeatedWrite` are runs of small
  workflows that attain what the theorems allow; most are put together with `Scenes`.
- `Schedulers.Scheduler` is one owner: the passes of `Scheduler.run` with their stale row snapshots, local
  counters and early exits. `Execute` is proved to issue only transactions the step relation allows, so
  everything proved about runs holds between any two statements of the passes. What each pass leaves
  behind is stated with `Passes`, `ControlPasses`, `Settling` and `Stalls`, how it begins and ends with `Recovery`
  and `Endings`.

Worker results, clock readings, the loss of the lease and interruptions by a completion are arbitrary throughout.
What reading an artifact, checking it against its schemas and evaluating a predicate yields are two arbitrary
functions, parameters of the owner.

| modules | what they model |
|---|---|
| `Workflow`, `Validator` | declared nodes, loop regions, the control checks of `validate_workflow` and its two attempt floors |
| `Graph`, `Kahn`, `Topology` | ancestors, the counting sort, ready layers and the critical path |
| `Store`, `StateStores`, `Progress` | tables, transactions, progress observations |
| `Joins`, `JoinReopening` | join snapshots, the rule that keeps reserve voters idle, and which decisions survive a reopening |
| `Lease`, `Runs`, `Invariants`, `RunInvariants`, `History`, `ReplaySafety`, `Doubt`, `Budgets`, `RetryLimits`, `Concurrency`, `StartOrder`, `AttemptBudget`, `FrozenJoins`, `Termination` | whole runs |
| `Scenes`, `OutdatedJoin`, `LoopOverrun`, `StalledChain`, `LateVoter`, `NestedLoops`, `RefusedVoter`, `RepeatedWrite` | explicit runs |
| `Schedulers`, `Passes`, `ControlPasses`, `Settling`, `Recovery`, `Endings`, `Stalls`, `StalledOwner` | the loop of one owner, how it begins and ends, and when it ends without progress |
| `SchemaScan`, `SchemaGraph`, `SchemaResources`, `JsonPointer` | the resource scan, the reference cycle check, the check of a whole schema resource, and local pointers |
| `Ledger`, `LedgerEvents` | the hash-chained lifecycle ledger, its stream, and the events of the store |
| `RemoteTask` | submitting, binding and polling over A2A protocol 1.0 |
| `Intervals` | the two interval sweeps |

## Where the code surprises

- A pass reads the rows once. A failure is therefore blocked one dependency further per pass, and the loop can end
  without progress although nothing is wrong with the rest of the graph: if and only if nothing runs, nothing is launched,
  and the rows are stalled (`Schedulers.Scheduler.Iterate`, `Stalls.StalledExactly`). A chain of three nodes whose first
  fails gets there (`StalledChain.ChainRunStalls`). So does a cancel event that only the dispatch pass
  sees: it skips the launches, and with nothing running the iteration raises the error (`Stalls.SkippedStalls`).
- Within one run of `_process_loops`, a controller that an earlier controller has just reopened is failed,
  because it was read as succeeded and its artifact is gone. `ControlPasses.JudgedOnOwnArtifact` says
  exactly when this happens, `NestedLoops.InnerControllerFails` is a run in which it does.
- In the reserve pass a voter that was refused can be asked again for the next consumer, and a refused voter can
  then be overwritten as blocked or skipped (`RefusedVoter.VoterIsAskedTwice`).
- A loop-back edge does not look at attempts, so a node can exceed its own `max_attempts`: only if a loop over it may
  iterate (`RetryLimits.OnlyLoopsExceed`), by at most one per iteration after the first
  (`RetryLimits.AttemptsWithinDeclared`), and by no less in the worst case (`LoopOverrun.BoundIsAttained`). The total
  budget cannot be exceeded.
- The loop check lets a loop replay a node that may write and declares no effect, which retry, repair and recovery
  treat as unsafe to repeat (`RepeatedWrite.WriteIsRepeated`). Nodes that declare their effect are not repeated
  (`ReplaySafety.AcceptedWritesOnce`).
- A frozen join decision is not reset by a loop, a repair or a reconciliation. It stays the decision of the rows if
  and only if each of those is harmless when it happens, which is told from the tables before it
  (`FrozenJoins.FrozenIsRecomputed`, `JoinReopening.ReopeningIsExact`); `OutdatedJoin.ReconciliationOutdatesJoin` is a
  run that fails this.
- A loop can leave an owner waiting for an attempt that is no longer the node's own
  (`LateVoter.VoterIsReplaced`). As a completed worker its result is dropped; as an overdue one it raises an error
  that leaves `run` (`Schedulers.Scheduler.Expire`).
- `route.decided`, `loop.decided` and `node.skipped` are not among the known event types, so on a run with an
  active ledger those transactions never commit, and no others are refused (`Ledger.ControlEventsAreRefused`,
  `LedgerEvents.OnlyControlIsRefused`). The store is modelled for runs without one.
- The overlap sweep does not clamp inverted intervals and still agrees with the measure on them.
- Array tokens of a pointer may have leading zeros (`JsonPointer.LeadingZerosResolve`).

## Model

| member | source | states |
|---|---|---|
| RunInvariants.InvRun | src/graph_engineering/state.py:1111-1605 | In every state of every run, with any crashes, takeovers, zombies, loops and repairs: attempt numbers of a node are 1..attempt_count without gaps; the artifacts of a succeeded node are exactly those its newest attempt published; pending, running, blocked, skipped, uncertain and optional_failed nodes hold none; a running node waits for its newest, still open attempt; the attempt total never exceeds max_total_attempts |
| History.RunKeeps | src/graph_engineering/state.py:1237-1327 | Between any two moments of any run: a settled attempt stays settled the same way, a progress deadline once started never moves, a terminal join row and a remote binding never change, starts are only appended, generations never fall |
| Runs.ZombieIsHarmless | src/graph_engineering/state.py:673-686 | Whatever transaction an owner of an older generation sends, the run is exactly as before |
| Lease.InvRun | src/graph_engineering/state.py:593-686 | Under any interleaving of acquire, renew, release and guarded writes on a non-decreasing clock: generations never fall, and a generation once issued to a token stays with that token |
| Lease.GenerationBelongsToOneToken | src/graph_engineering/state.py:593-643 | A lease handed out by acquire is, after every continuation, still the only holder recorded for its generation |
| Lease.DeadForever | src/graph_engineering/state.py:645-686 | A lease that once fails its assertion fails it at every later moment of every continuation |
| Lease.CommitsAreFenced | src/graph_engineering/state.py:673-686 | No write guarded by an older generation commits after one guarded by a newer one |
| Lease.TakeoverFences | src/graph_engineering/state.py:593-643 | Taking a lease over kills the lease it replaces, from then on and for good |
| Lease.GenerationsAreFresh | src/graph_engineering/state.py:593-643 | An acquisition is refused exactly while another token is live; one that is granted brings a generation nobody ever had, except that a live owner asking again keeps its own |
| Lease.GoodForItsTtl | src/graph_engineering/state.py:593-663 | A lease acquired or renewed is, after any operations of everybody else, live at a later moment if and only if that comes before the grant plus its ttl |
| Concurrency.ConcurrencyIsBounded | src/graph_engineering/runtime.py:1059-1096 | From any moment at which the owner waits for every running row, running rows stay within max_concurrency until somebody takes the run over, reserve launches, loops, repairs and refused acquisitions included |
| Concurrency.RecoveryCovers | src/graph_engineering/state.py:1642-1695 | Recovery establishes that moment: nothing is left running |
| ReplaySafety.AtMostOncePerReconciliation | src/graph_engineering/runtime.py:736-778 | A node that is not replay-safe, owns no repair route and lies in no loop region spends at most one attempt plus one per explicit retry reconciliation, over every run |
| ReplaySafety.AcceptedWritesOnce | src/graph_engineering/contracts.py:895-913 | Over every run of a workflow the control checks accept: a node without repair routes that declares a non-idempotent write, an idempotent one without a key, or no effect under an external or destructive permission, makes at most one attempt plus one per explicit retry; that no loop replays it follows from the acceptance |
| RepeatedWrite.WriteIsRepeated | src/graph_engineering/contracts.py:895-913 | The loop check and the replay check differ on one kind of node: an accepted workflow and a run of it, without failure or reconciliation, in which a loop repeats a node that may write and declares no effect |
| Doubt.DoubtHoldsBack | src/graph_engineering/runtime.py:1028-1091 | Over every run: a node that is uncertain stays so and is not started, and nothing that waits for it starts, until it is reconciled, looped over or invalidated, or the run is cancelled |
| Budgets.BudgetsAreDeclared | src/graph_engineering/supervision.py:280-305 | Over every run, resumed and recovered any number of times: each node is required as declared and has the time, check and repetition budget it declares, time defaulting to the least of the workflow's and what its attempts may take, and its deadline is its first start plus that time |
| Budgets.StartsInTime | src/graph_engineering/state.py:1111-1215 | Whenever a run starts an attempt, it is the first of its node or comes before that deadline |
| RetryLimits.AttemptsAreAccountedFor | src/graph_engineering/runtime.py:712-778 | Over every run of every workflow: attempts made plus the pending one never exceed what a node gets unaided plus one for each loop-back edge taken over it, each repair round naming it, each recovery and each explicit retry |
| RetryLimits.AttemptsWithinDeclared | src/graph_engineering/state.py:389-428 | From the workflow alone: without recovery and reconciliation of it, a node stays within its base (its own and the workflow limit, or one) plus max_iterations - 1 for every loop whose region holds it; for nodes of repair routes the base already holds the rounds |
| RetryLimits.OnlyLoopsExceed | src/graph_engineering/state.py:389-428 | So a node passes its declared max_attempts only if some loop over it may iterate |
| LoopOverrun.BoundIsAttained | src/graph_engineering/contracts.py:876-930 | The bound is exact: for every limit and iteration ceiling up to it, an accepted workflow and a run of it in which a node of a loop region makes max_attempts + max_iterations - 1 attempts |
| StartOrder.StartsWhenNeedsAreMet | src/graph_engineering/runtime.py:1071-1091 | Over every run, loops, repairs, crashes and joins elsewhere allowed: each recorded start of a node without a join, not a voter of a quorum, found every need succeeded or optional_failed |
| StartOrder.StartsLinearizeTheGraph | src/graph_engineering/runtime.py:1058-1096 | Without joins, loops and repairs: over the whole run no node starts after one that transitively needs it |
| AttemptBudget.RunWithinPlan | src/graph_engineering/contracts.py:801-936 | While only loop decisions and repair rounds rerun nodes, attempts made plus attempts pending never exceed the floor the validator computes |
| AttemptBudget.NeverStallsOnBudget | src/graph_engineering/runtime.py:1190-1203 | In such a run a pending node always has an attempt left, if the budget covers the floor |
| AttemptBudget.AcceptedNeverStalls | src/graph_engineering/contracts.py:1115-1289 | What the validator accepts never stalls on its attempt budget |
| Termination.ChangeDrops | src/graph_engineering/runtime.py:942-1204 | Every change that a transaction of the loop makes lowers a lexicographic rank: attempts left, repair rounds left, results and loop decisions owed, nodes to settle, joins to freeze |
| Termination.FinitelyManyChanges | src/graph_engineering/runtime.py:942-1204 | Without recovery and reconciliation, any number of owners change the tables at most as often as the rank, flattened to a number, allows |
| Termination.TransactionBurns | src/graph_engineering/runtime.py:942-1204 | The flattened rank together with the workers waited for never grows, and falls with every settled worker, a stale one included, and every pending node failed |
| Passes.EvidenceSettles | src/graph_engineering/runtime.py:384-397 | Recording join evidence again from unchanged rows changes nothing: what the pass writes is idempotent |
| FrozenJoins.FrozenIsRecomputed | src/graph_engineering/state.py:945-1025 | Over every run, loops, repairs, invalidations and reconciliations included: recomputing any frozen join decision at any later moment gives the same decision if and only if every action of the run was harmless, which the tables before it tell |
| FrozenJoins.ForwardRunsKeepDecisions | src/graph_engineering/runtime.py:1012-1056 | In particular whenever no action reopens a settled dependency or takes a good one back |
| JoinReopening.ReopeningIsExact | src/graph_engineering/runtime.py:345-369 | The condition for reopened dependencies, for every policy: the decision survives if and only if none of them is a dependency, or enough votes or enough failures remain without them; all_settled never survives |
| JoinReopening.FailureIsExact | src/graph_engineering/runtime.py:345-369 | The condition for a dependency that fails after all: it was bad already, or the decision did not rest on its vote |
| OutdatedJoin.ReconciliationOutdatesJoin | src/graph_engineering/state.py:1697-1737 | A run of a concrete workflow that ends in a harmful reconciliation: the frozen decision is failed while the rows leave the join open |
| Joins.CountsPartition | src/graph_engineering/runtime.py:326-334 | passed, failed, cancelled and missing add up to expected, and failed and missing count what their names say |
| Joins.DecisionByVotes | src/graph_engineering/runtime.py:336-369 | In sizes of sets: majority succeeds iff twice the successes exceed the dependencies and fails iff twice the successes and unsettled together do not; n_of_m iff n successes, or fewer with all unsettled; any iff some success, or none and nothing unsettled; all iff every one succeeded or was optional and forgiven, or some settled otherwise; all_settled iff nothing is unsettled, and never fails |
| Joins.DecisionIsExact | src/graph_engineering/runtime.py:345-369 | For any, n_of_m, majority and all: the decision is terminal with an outcome if and only if, counted in votes, every completion of the unsettled dependencies has that outcome |
| Joins.DecidedWhenComplete | src/graph_engineering/runtime.py:345-369 | Once every dependency has settled the decision is terminal |
| Joins.DecisionIsStable | src/graph_engineering/runtime.py:345-369 | A terminal decision is the decision of every later settlement of the same dependencies |
| Joins.AllSettledDecidesLast | src/graph_engineering/runtime.py:363-364 | all_settled succeeds exactly when the last dependency has settled, although every completion forces success earlier |
| Joins.RoomSurvivesLaunches | src/graph_engineering/runtime.py:399-444 | A voter dispatchable on the rows a pass has read still finds, after what the pass has launched or refused since, that votes and voters in flight do not suffice for any open quorum it belongs to |
| Joins.SliceIsExact | src/graph_engineering/runtime.py:417-443 | A quorum lets through just enough voters: without the last of them votes and voters in flight would not suffice, with all of them they do unless every voter is let through; smaller ids come first |
| Graph.Ancestors | src/graph_engineering/contracts.py:450-459 | The worklist returns exactly the transitive needs of a node, on cyclic graphs too |
| Kahn.Sort | src/graph_engineering/contracts.py:528-564 | The counting sort visits each node at most once, after everything it needs, and all of them if and only if the graph has no cycle |
| Topology.Layers | src/graph_engineering/supervision.py:59-73 | ready_layers[i] holds exactly the nodes whose longest dependency chain has i edges, and all layers are there; all nodes are peeled exactly when there is no cycle |
| Topology.LongestChains | src/graph_engineering/supervision.py:82-91 | The chain kept for a node ends there, is as long as any that does, and is the lexicographically least of those |
| Topology.CriticalPath | src/graph_engineering/supervision.py:82-97 | The critical path is a dependency chain ending at an output producer, no such chain is longer, and it is the lexicographically least of the longest |
| Topology.CriticalIsUnique | src/graph_engineering/supervision.py:92-97 | That determines the path |
| Workflow.FindLoopRegion | src/graph_engineering/runtime.py:259-278 | The runtime region is the target, the controller, and exactly the nodes on a dependency path between them; the validator uses the same region |
| Validator.HasCycle | src/graph_engineering/contracts.py:541-564 | CYCLE is reported if and only if some node transitively needs itself |
| Validator.LoopFloor | src/graph_engineering/contracts.py:804-930 | No route or loop issue is reported if and only if every route is decided by a declared output upstream and every loop goes back to an ancestor, on a declared output, over nodes that declare no write, have no external or destructive permission, and may be tried once per iteration; the running floor then is the cost of all loops |
| Validator.RepairFloor | src/graph_engineering/contracts.py:1115-1280 | The same for repair routes: distinct ids, declared checks handled once, each target a required replay-safe writing agent that feeds a changeset to this integration and nothing else, without an input collision, enough attempts for every round; the floor is raised by the cost of all rounds |
| Validator.CostCountsReruns | src/graph_engineering/contracts.py:1117-1155 | What repair routes add to the floor is what their rounds can rerun: the integration once for every round, and every node once for every round of every route that names it |
| Validator.ValidateControl | src/graph_engineering/contracts.py:528-1289 | The control checks report nothing if and only if the graph is acyclic, every route, loop and repair is accepted, and the worst case fits max_total_attempts |
| Validator.AcceptedIsWellFormed | src/graph_engineering/contracts.py:849-1268 | What they accept is well-formed, which is all that the theorems about runs ask, and repairs rerun replay-safe nodes only |
| Validator.LoopsRepeatNoWrites | src/graph_engineering/contracts.py:884-913 | No node of an accepted loop declares an effect other than none or read, or has external or destructive permission |
| StateStores.StateStore.constructor | src/graph_engineering/state.py:206-253 | A created run: every node pending with its progress budget, all other tables empty |
| StateStores.StateStore.Acquire | src/graph_engineering/state.py:593-643 | Refused while another token is live; the live holder keeps its generation, everyone else gets the next one; only the run row changes |
| StateStores.StateStore.Renew | src/graph_engineering/state.py:645-663 | A live lease is extended, any other is reported lost; only the run row changes |
| StateStores.StateStore.Release | src/graph_engineering/state.py:665-671 | Only the holder of the current generation can give the run up |
| StateStores.StateStore.AdmitAttempt | src/graph_engineering/state.py:806-880 | Fenced; with the progress budget expired or stopped the pending node fails and the stop is recorded, otherwise nothing changes |
| StateStores.StateStore.StartAttempt | src/graph_engineering/state.py:1111-1214 | Fenced; a pending node gets its next attempt number, an open attempt row of the lease's generation and, once, a deadline; an expired budget fails it instead |
| StateStores.StateStore.FinishAttempt | src/graph_engineering/state.py:1237-1327 | Fenced twice; the failure is recorded on attempt, node and progress, with the no-progress count kept only for a repeated digest |
| StateStores.StateStore.SucceedAttempt | src/graph_engineering/state.py:1488-1605 | Fenced twice; artifacts, attempt, node and progress change together or not at all |
| StateStores.StateStore.SetNodeStatus | src/graph_engineering/state.py:1607-1630 | Fenced; one status changes and nothing else |
| StateStores.StateStore.RecordRouteDecision | src/graph_engineering/state.py:255-321 | Fenced; decided once per pending node, repeated with equal content without effect, refused otherwise; an unselected node is skipped |
| StateStores.StateStore.ApplyLoopDecision | src/graph_engineering/state.py:323-428 | Fenced; decided once per controller attempt; a match below the ceiling reopens exactly the region without artifacts or route decisions, at the ceiling the controller fails |
| StateStores.StateStore.RouteRepair | src/graph_engineering/state.py:1356-1486 | Fenced; a round is routed only if the integration failed and rounds, progress and attempts of it and of every succeeded target are left; then exactly they are pending again, with the evidence attached |
| StateStores.StateStore.RecordJoinState | src/graph_engineering/state.py:945-1025 | Fenced; evidence is refreshed until the first terminal decision, which is frozen |
| StateStores.StateStore.RecoverInterrupted | src/graph_engineering/state.py:1642-1695 | Fenced; every open attempt is interrupted, running nodes become pending when replay-safe and uncertain otherwise, and the uncertain ones are reported |
| Recovery.RecoveryIsExact | src/graph_engineering/state.py:1642-1695 | With the nodes the scheduler passes: a node that was running is pending afterwards iff its declaration allows repeating it and uncertain iff not; every other row, settled attempts, artifacts, progress, control and bindings stay; exactly the uncertain ones are reported |
| Recovery.ReconciliationIsExact | src/graph_engineering/state.py:1697-1737 | Only an uncertain node can be decided about: it is pending after a retry and failed otherwise, the run goes on, and nothing else changes |
| StateStores.StateStore.ReconcileNode | src/graph_engineering/state.py:1697-1737 | Fenced; only an uncertain node can be retried or failed |
| StateStores.StateStore.InvalidateNode | src/graph_engineering/state.py:1739-1757 | Fenced; the node fails |
| StateStores.StateStore.FinishRun | src/graph_engineering/state.py:1780-1835 | Fenced; cancelling also cancels every node that has not succeeded and every open attempt |
| StateStores.StateStore.BindRemoteTask | src/graph_engineering/state.py:1049-1109 | Not fenced by the lease; only the running attempt binds, and a binding never changes |
| Progress.StallIsStopped | src/graph_engineering/supervision.py:323-385 | Each repetition of a failure without new artifacts counts, so the verdict is stop no later than at the limit |
| Progress.UsedUpStays | src/graph_engineering/supervision.py:323-385 | A budget of time or checks that is used up stays used up, and only success gets past it |
| Progress.VerdictOfHistory | src/graph_engineering/supervision.py:323-385 | Over every history of reports: the verdict is complete iff the last one succeeded, and otherwise stop iff the time is up, the checks reported so far together reach their limit, or the repeated failures since the last new artifacts reach theirs |
| Progress.SettlementReports | src/graph_engineering/state.py:887-943 | A failed attempt reports its outputs, digest and checks to the progress budget of its node and is answered with the verdict on that report; a successful one reports no failure |
| Schedulers.ReachedStep | src/graph_engineering/runtime.py:942-1204 | What the scheduler may do next leads from a state some run reaches to another |
| Schedulers.Scheduler.constructor | src/graph_engineering/runtime.py:846-851 | A new owner starts from any state a run can reach, with nothing in memory |
| Schedulers.Scheduler.Execute | src/graph_engineering/runtime.py:828-1206 | One transaction at whatever time it is: it commits exactly as the store says and is a step of the run, or the lease is lost and nothing changes |
| Schedulers.Scheduler.Launch | src/graph_engineering/runtime.py:875-900 | One attempt is started and remembered if and only if the progress budget of the node goes on and its deadline has not passed; otherwise the node fails with its budget stopped; no other row changes |
| Passes.StartOpens | src/graph_engineering/state.py:1155-1215 | A start opens the attempt after the last one, under the generation of the owner, on the node and in the attempt table; besides, only the first start of a node writes its progress row |
| Schedulers.Scheduler.DispatchPass | src/graph_engineering/runtime.py:1058-1096 | Launches only what is ready, in id order, within slots and attempts; each launched node had its join succeeded or all needs good on the rows read; unless the pass ran out or was interrupted, every node ready on those rows now runs, is held back as a reserve voter, or was refused |
| Schedulers.Scheduler.ReservePass | src/graph_engineering/runtime.py:982-1010 | For each quorum decided on the rows read, every pending voter is launched or refused as long as slots and attempts last, whatever its own needs |
| Schedulers.Scheduler.PersistJoins | src/graph_engineering/runtime.py:384-397 | Every join has a row: the frozen one if there was one, else the snapshot of the rows read; nothing else changes |
| Schedulers.Scheduler.BlockPass | src/graph_engineering/runtime.py:1012-1056 | Exactly the nodes pending on the rows read whose join failed, or one of whose direct needs has stopped, are blocked, and those with a skipped need are skipped |
| Passes.FailureTravelsOneLevel | src/graph_engineering/runtime.py:1012-1056 | A failure moves one dependency per pass: on a chain, one pass blocks the second node and leaves the third pending, the next pass blocks it |
| Passes.BlockedStatuses | src/graph_engineering/runtime.py:1014-1056 | Of the pending nodes of a pass, one with a join is blocked iff its join has failed; one without is blocked iff a need failed, is blocked, cancelled or uncertain, and skipped iff none of these holds and a need was skipped; every other row stays |
| Passes.NobodyIsForgotten | src/graph_engineering/runtime.py:1014-1091 | A pending node whose needs have all settled is left pending by that pass if and only if it may start |
| Passes.SlicesOnlyFill | src/graph_engineering/runtime.py:419-443 | Launching a voter frees no place in a quorum slice for a node visited before it |
| Passes.ReadyNow | src/graph_engineering/runtime.py:1063-1091 | What was ready on the rows the pass has read is ready on the present rows, after the launches and refusals of the pass |
| Passes.ReserveNow | src/graph_engineering/runtime.py:988-1010 | A quorum decided on the rows the pass has read is decided on the present rows |
| RefusedVoter.VoterIsAskedTwice | src/graph_engineering/runtime.py:982-1056 | A run of an accepted workflow in which one pass refuses a voter, asks it again for the next consumer and refuses it again, and then overwrites it as blocked |
| LateVoter.VoterIsReplaced | src/graph_engineering/runtime.py:1119-1134 | A run of an accepted workflow after which the owner waits for an attempt of a reserve voter that a loop has replaced, so that its expiry leaves the scheduler |
| Schedulers.Scheduler.RoutePass | src/graph_engineering/runtime.py:237-257 | The pass is a fold of one decision per node over the rows read |
| ControlPasses.RoutesSettle | src/graph_engineering/runtime.py:237-257 | After it every route that was due is recorded with its node selected or skipped, or its node has failed closed; every other node is untouched |
| Schedulers.Scheduler.LoopPass | src/graph_engineering/runtime.py:280-310 | The pass is a fold of one decision per controller over the rows read, and leaves no succeeded controller undecided |
| ControlPasses.LoopsDecided | src/graph_engineering/runtime.py:1144-1153 | After the pass every succeeded controller has a decision for its newest attempt, so a fast last controller cannot bypass its loop |
| ControlPasses.TurnIsExact | src/graph_engineering/state.py:340-428 | The turn of a controller not decided yet: it fails without a verdict; otherwise the verdict is counted under its newest attempt, and a negative one changes nothing else, a positive one makes exactly the region pending without artifacts and route decisions, and at the ceiling only fails the controller and drops its artifacts |
| ControlPasses.JudgedOnOwnArtifact | src/graph_engineering/runtime.py:285-310 | A controller is judged on the artifact it was read with if and only if no controller before it in id order has reopened it in the same pass; one that was reopened is failed |
| NestedLoops.InnerControllerFails | src/graph_engineering/runtime.py:280-310 | A run of an accepted workflow with two nested loops, the outer controller first in id order, to a state in which the pass fails the inner controller, decided and done, whenever the outer verdict matches; and the run that does so |
| Schedulers.Scheduler.TryRepair | src/graph_engineering/runtime.py:661-710 | A repair round is routed if and only if exactly one route handles the failed check and that route has rounds, progress and attempts left; otherwise nothing changes |
| Settling.AllowedWhenItFits | src/graph_engineering/state.py:1381-1430 | The store accepts a round exactly when the route fits |
| Schedulers.Scheduler.FinalizeAttempt | src/graph_engineering/runtime.py:712-778 | A passed result is accepted; a failed one is recorded and then settled as `Settling.SettlementStatus` and `Settling.RoundIsExact` say; a result of an attempt that is no longer the node's own changes nothing |
| Settling.SettlementStatus | src/graph_engineering/runtime.py:749-778 | A failed attempt without repair routes, on declared fields: another try is left iff its number is below both attempt limits, the repetitions of its digest are below their limit and the verdict is to continue; the node is pending iff a try is left and it may be repeated, uncertain iff a try is left and it may not, optional_failed iff none is left and it is optional, failed iff none is left and it is required; no other row changes |
| Settling.AttemptIsClosed | src/graph_engineering/state.py:1237-1605 | A success closes the attempt, publishes exactly its artifacts and forgets earlier failures; a fault closes it with its failure, publishes nothing and counts the repetitions of its digest; nothing else but the progress row changes |
| Schedulers.Scheduler.RepairPass | src/graph_engineering/runtime.py:966-972 | The tables change by repair rounds for last failures alone, and afterwards no round fits the last failure of any node |
| Settling.RepairOnlyCloses | src/graph_engineering/state.py:1413-1467 | A round routed for one node opens no round for another and closes its own |
| Settling.RoundIsExact | src/graph_engineering/state.py:1413-1487 | A routed round makes exactly the integration and the targets of the one route that handles the check pending, without artifacts; each target finds the same evidence under the input its route names; the round is counted for that route under the failure digest, repetitions of which are counted apart |
| Schedulers.Scheduler.Collect | src/graph_engineering/runtime.py:1098-1117 | The worker at the head of the completions is settled if and only if it is still waited for: with its own result, or as a timeout if it is past its deadline by then; otherwise nothing changes |
| Schedulers.Scheduler.Expire | src/graph_engineering/runtime.py:1119-1134 | Exactly the overdue workers still waited for are settled one after the other, each with the timeout failure and no artifacts, and nothing else happens; an exception leaves the scheduler with the lease in hand if and only if at its turn some worker's attempt is no longer its node's own, and then its result changes nothing |
| Schedulers.Scheduler.Close | src/graph_engineering/runtime.py:1164-1204 | With nothing running: a terminal graph is finished, used-up attempts fail what is pending, and the iteration ends without progress if and only if there was none, some node is not terminal, and no pending one waits for used-up attempts |
| Schedulers.Scheduler.FrontierPass | src/graph_engineering/runtime.py:977-1096 | If the passes from the reserve voters to the dispatch launch nothing, the rows and join evidence they leave are a function of the rows before and of whether the cancel event was seen; if they launch something, somebody was due |
| Schedulers.Scheduler.ControlPass | src/graph_engineering/runtime.py:973-976 | Loop decisions on the rows read, then route decisions on the rows these have left; afterwards no loop decision is outstanding |
| Schedulers.Scheduler.Exhaust | src/graph_engineering/runtime.py:1189-1203 | Exactly the pending nodes fail |
| Schedulers.Scheduler.ValidateAccepted | src/graph_engineering/runtime.py:780-819 | It is valid if and only if every declared output of every succeeded node is accepted and still holds and, when asked for, every workflow output is accepted from a succeeded producer; it fails exactly the nodes for which this is not so and changes nothing else |
| Schedulers.Scheduler.Finish | src/graph_engineering/runtime.py:1164-1188 | The run ends needs_reconciliation iff a node is uncertain; else cancelled iff one is cancelled; else succeeded iff every required node succeeded or was skipped, no accepted artifact is lost and every workflow output is there; else failed. The rows it leaves are stated for each ending |
| Endings.OneEnding | src/graph_engineering/runtime.py:1164-1188 | No rows and artifacts end in two ways |
| Endings.CancellationIsExact | src/graph_engineering/state.py:1780-1835 | A cancellation cancels exactly the nodes that are neither succeeded nor optional_failed and exactly the attempts still open; artifacts, progress and control edges stay |
| Schedulers.Scheduler.Cancel | src/graph_engineering/runtime.py:948-964 | Only succeeded and optional_failed nodes keep their rows, all others are cancelled; no worker is left, and the join evidence of these rows is recorded |
| Schedulers.Scheduler.Open | src/graph_engineering/runtime.py:918-940 | Opening ends the run failed iff artifacts are lost; else needs_reconciliation iff it resumes a running run and some running node must not be repeated; else the loop begins, on unchanged tables or on rows where every interrupted node is pending |
| Schedulers.Scheduler.Iterate | src/graph_engineering/runtime.py:942-1204 | One iteration uses up part of a finite allowance, waits for a running worker, or is the last. A requested cancellation ends it. Otherwise it ends the run iff after its passes nothing runs and everything has settled, with the one status the settled rows and artifacts end as (`Endings.EndsAs`) and no loop decision outstanding. It ends without progress iff nothing was running, nothing was launched, and the rows before the passes that launch were stalled; with nothing to repair those rows are the ones the iteration began with after its control decisions |
| Stalls.StalledExactly | src/graph_engineering/runtime.py:977-1204 | Rows are stalled if and only if some node runs that nobody waits for, or some pending node has a need that is not settled and none that stopped, has an open join, or is held back; and none of the pending ones waits for used-up attempts |
| Stalls.StalledWithoutJoins | src/graph_engineering/runtime.py:1012-1204 | Without joins, with room and nobody cancelling: if and only if a node runs that nobody waits for, or a failure or anything else has yet to travel to a pending node |
| Stalls.SkippedStalls | src/graph_engineering/runtime.py:1058-1204 | A cancel event seen by the dispatch pass alone stalls the rows whenever some node is ready |
| StalledChain.ChainRunStalls | src/graph_engineering/runtime.py:1012-1204 | A run of an accepted workflow, a chain of three nodes whose first fails, after which nothing runs, nothing is due, and the rows are stalled |
| StalledOwner.NextIteration | src/graph_engineering/runtime.py:942-1204 | From that state every iteration that keeps its lease and is not cancelled ends without progress |
| Schedulers.Scheduler.Serve | src/graph_engineering/runtime.py:828-1206 | The loop returns unless it keeps waiting for a running worker, after at most a number of iterations that the workflow fixes plus the waits; attempts and workers stay within their budgets; the lease is given up; the final tables show what the status says, and succeeded means no uncertain or cancelled node, every required one succeeded or skipped, no artifact lost and all outputs there |
| SchemaScan.TallyExists | src/graph_engineering/contracts.py:123-214 | The recursive measure of a value exists if and only if every location is JSON with string keys and lies at most the allowed depth down |
| SchemaScan.AcceptableIsAcyclic | src/graph_engineering/contracts.py:168-175 | In an acceptable resource no container contains itself |
| SchemaScan.ScanJsonResource | src/graph_engineering/contracts.py:123-214 | Halts on every object graph; accepts if and only if depth, number of values and bytes of the recursive definition are within limits; its location map and containment edges are then exact; a rejection names a reason that holds at the path it names |
| SchemaScan.ReasonsAreSound | src/graph_engineering/contracts.py:139-208 | Each reason to reject excludes acceptance |
| SchemaScan.ScannedLocationsRoundTrip | src/graph_engineering/contracts.py:243-268 | Every location of an acceptable resource can be printed as a pointer and resolved back |
| SchemaGraph.ReferenceCycle | src/graph_engineering/contracts.py:302-328 | A cycle is reported if and only if containment and reference edges contain one; otherwise a rank decreases along every such edge |
| SchemaGraph.ExpansionEnds | src/graph_engineering/contracts.py:302-328 | With such a rank no expansion is longer than the rank it starts from |
| SchemaGraph.CyclesUseReferences | src/graph_engineering/contracts.py:302-400 | A recursive schema has a reference that leads no deeper than it stands |
| SchemaResources.JsonSchemaLocations | src/graph_engineering/contracts.py:271-299 | The worklist finds exactly the root and the objects and booleans that a keyword of a schema leads to |
| SchemaResources.SchemaResourceIssue | src/graph_engineering/contracts.py:331-400 | Nothing is reported if and only if the resource is an acceptable object, no schema has an unsupported keyword, every reference resolves to a schema inside it, and expansion never recurs; then no expansion is longer than the number of containers; an issue that is reported is so |
| JsonPointer.ResolveLocalPointer | src/graph_engineering/contracts.py:243-268 | The loop computes the resolution function, error cases included |
| JsonPointer.RoundTrip | src/graph_engineering/contracts.py:243-268 | Printing a location with the escapes of RFC 6901 section 3, percent-encoded in any way section 6 allows, and resolving it gives the location back |
| JsonPointer.PointersAreDistinct | src/graph_engineering/contracts.py:243-268 | Two locations of a document never share a pointer |
| JsonPointer.WalkIsExact | src/graph_engineering/contracts.py:251-268 | A fragment resolves to a location if and only if the location exists and each token names its part, leading zeros allowed |
| JsonPointer.ResolvesToALocation | src/graph_engineering/contracts.py:267-268 | Resolving never leaves the document |
| JsonPointer.UnescapeEscape | src/graph_engineering/contracts.py:254 | The two replacements in this order undo the escaping of every token |
| JsonPointer.LeadingZerosResolve | src/graph_engineering/contracts.py:258-262 | Two zeros name the first element although RFC 6901 section 4 rules them out, and no printed pointer looks like that |
| Ledger.VerifyRows | src/graph_engineering/lifecycle.py:275-298 | Accepts if and only if versions, sequence, types, chain and digests hold at every row and the head matches count and last digest |
| Ledger.TamperEvident | src/graph_engineering/lifecycle.py:275-298 | With an injective digest, any other list of rows than the verified one is rejected against the same head |
| Ledger.DigestPinsPrefix | src/graph_engineering/lifecycle.py:275-298 | Two verified histories that agree in one digest agree in everything up to it |
| Ledger.AppendKeepsIntact | src/graph_engineering/lifecycle.py:343-431 | Every append leaves an intact ledger intact and only adds at the end; it succeeds exactly for a known type without a conflicting entry under its key |
| Ledger.AppendIsIdempotent | src/graph_engineering/lifecycle.py:376-394 | Appending again under a key changes nothing and returns the same event for an equal entry, and is refused for another one |
| Ledger.ControlEventsAreRefused | src/graph_engineering/lifecycle.py:33-66 | The events of routes, loops and skipped nodes are of no known type and are never recorded on an active run |
| LedgerEvents.OnlyControlIsRefused | src/graph_engineering/state.py:255-428 | Of all transactions, and with the events each appends: an active ledger refuses exactly a new route decision, a new loop decision, and a node skipped by hand |
| Ledger.LifecycleStore.Record | src/graph_engineering/lifecycle.py:343-431 | No effect on a legacy run, an error on a pending one; on an intact active one exactly the append |
| Ledger.LifecycleStore.Snapshot | src/graph_engineering/lifecycle.py:301-340 | Answers with the rows of an intact active run, and never with rows that do not verify |
| Ledger.LifecycleStore.Stream | src/graph_engineering/lifecycle.py:640-702 | With others appending meanwhile, the batch is what one snapshot taken during the call yields for the cursor; terminal implies that snapshot was delivered to its end |
| Ledger.StreamIsPrefix | src/graph_engineering/lifecycle.py:640-702 | Starting without a cursor and following the returned ones, with any limits and any appends in between, the batches together are exactly a prefix of the ledger |
| Ledger.FetchCompletes | src/graph_engineering/lifecycle.py:690-700 | A fetch reports no more if and only if everything was delivered, and otherwise brings the consumer closer by its full limit |
| Ledger.CursorPinsHistory | src/graph_engineering/lifecycle.py:656-668 | With an injective digest, a cursor is accepted on a verified history if and only if that history begins with the one it was issued for |
| RemoteTask.AtMostOneTask | src/graph_engineering/a2a.py:355-509 | For one node no two different tasks are ever bound, polled or accepted, at any two moments of any interleaving of crashing, retried and replaced workers, whatever the remote answers |
| RemoteTask.MemoryIsDeduplication | src/graph_engineering/a2a.py:397-441 | Over a whole run message ids are deduplicated if and only if the remote answered every message it had seen with the task it created then |
| RemoteTask.AtMostOneCreated | src/graph_engineering/a2a.py:397-441 | With such a remote, over every interleaving, at most one task is created for a node and no other is bound, polled or accepted |
| RemoteTask.BindingsAreForever | src/graph_engineering/state.py:1079-1109 | A binding, once made, never changes |
| RemoteTask.ReplacedWorkerCannotBind | src/graph_engineering/state.py:1080-1094 | Whenever in a run a worker replaced at an earlier moment tries to bind, the bindings stay as they are and it is turned away |
| RemoteTask.ReplacedForever | src/graph_engineering/state.py:1080-1094 | A worker replaced by a later attempt stays replaced |
| RemoteTask.OrphanWithoutDeduplication | src/graph_engineering/a2a.py:397-441 | Without deduplication a crash between sending and binding leads to two tasks created for one node, of which one is bound |
| RemoteTask.BindMatchesStore | src/graph_engineering/state.py:1049-1109 | The binding step of the protocol succeeds and writes exactly as the store's transaction does |
| RemoteTask.Exchange.ExecuteA2A | src/graph_engineering/a2a.py:324-521 | A result taken from a task comes from the task durably bound to the node, and is returned iff the states read from it end in TASK_STATE_COMPLETED after active ones; it fails as remote failure iff they end in one of the three other terminal states, and as unsupported iff they end in any state but these and the two active ones |
| Intervals.UnionSeconds | src/graph_engineering/learning.py:57-69 | The sweep returns the number of cells the intervals cover together, for every input |
| Intervals.OrderIsIrrelevant | src/graph_engineering/learning.py:57-69 | That number does not depend on the order of the intervals |
| Intervals.SharedTime | src/graph_engineering/session_ux.py:454-465 | Covered time never exceeds the sum of the lengths, and equals it if and only if no two intervals overlap |
| Intervals.UsefulOverlap | src/graph_engineering/session_ux.py:444-475 | The unclamped sweep agrees with the measure on inverted intervals too, so the overlap is the sum of the lengths minus the measure, never negative, and zero if and only if no two intervals overlap |

## Left out

- SQLite, files, threads, HTTP, worker processes: a transaction is atomic, a worker is an arbitrary result, a crash is the loss of an owner's memory.
- Several runs in one store: the tables are those of one run; run ids only matter in `Ledger` and `RemoteTask`.
- Node ids as strings: a node is its rank in the sorted order of ids, which is all the code compares; dictionary order is the parameter `order` where the code iterates over declared nodes.
- Fractions of a second: time is an integer.
- Error texts and reasons attached to statuses, and the JSON schema of each artifact.
- Runs with an active ledger inside the store transactions: the ledger is modelled on its own, and the store for runs where appending has no effect.
- `node_progress` backfill for databases created by older versions, forks, and lifecycle contexts beyond present, missing or damaged.
- Other owners' writes during a lease of `Schedulers.Scheduler`: they are impossible while the lease is live, which `Lease.CommitsAreFenced` shows, and after its loss the model of the owner ends.
- Schedulers.Scheduler.Serve: gives up after waiting a given number of times for workers that neither finish nor run out of time; the original waits on, and how long one wait takes is not modelled.
- Termination.ChangeDrops: does not count updates of progress rows or of the evidence of joins still undecided, because the reserve pass can record evidence from rows it has already outdated; an iteration makes finitely many of them, and `Schedulers.Scheduler.Serve` bounds the iterations.
- Termination.FinitelyManyChanges: leaves the same updates out of its count.
- Artifacts lost while an owner is at work: whether an accepted artifact holds is one function for the time of a lease.
- The order of completions: which completed worker is collected first is arbitrary; deadlines of workers are not stored, any of them may be overdue.
- Workers in flight: executing a node, its checks and its inputs (`_attempt`, `_run_check`, `_inputs`).
- Which workflows never stall: `Stalls.StalledExactly` tells it from the rows of an iteration, not from the workflow alone.
- The `terminal` flag of the stream against appends that happen between its two reads: `Ledger.LifecycleStore.Stream` promises completeness for the snapshot only.
- SchemaResources.SchemaResourceIssue: which of several issues is reported is arbitrary, where the original takes the first in the order of printed paths.
- `_string_bytes` of strings that cannot be encoded: text is represented by its UTF-8 encoding.
- JsonPointer.ResolveLocalPointer: percent-encoded bytes that are not UTF-8 stay as they are, where `unquote` puts U+FFFD in their place; array tokens beyond Python's limit on the digits of an integer, and digits outside ASCII, are not modelled.
- `_preflight` and the identity of an Agent Card beyond equality; redirects and transport limits.
- `unlocks`, `terminal_slice` and the other projections of `analyze_topology`, `live_topology`, `graph_shape_issues`.
- Validator.ValidateControl: which node and message each issue is attached to is simplified to the node that declares the control edge; declared ids, known dependencies and iteration ceilings of at least one are taken from the checks before.
- The field-by-field checks of `validate_workflow` outside cycles, routes, loops and repairs, and role, risk and economics policies: each is settled by reading one branch.
- `_scopes_overlap`: not claimed to be sound for globs.
