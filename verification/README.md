# Verified models of the emulator's stateful core

This project models, in Dafny, the parts of the Databricks emulator whose correctness depends on
order, interleaving or accumulated state, and proves what they promise for every input, schedule
and history. `dafny verify dfyconfig.toml` checks everything.

**The jobs runner.** `Scheduler` gives a job's task graph a meaning by plain recursion: each task is
decided from its dependencies' results, with the six `run_if` rules and if/else conditions, and the
tasks that can never be decided are characterised by the graph alone. `NestedRuns` extends the
meaning through child runs (`run_job_task`, depth bound 5) and loops (`for_each_task`); the engine
is an oracle that answers each dispatched task. `RunStore` is the run store on the heap, with its
copies. `Executor` is the runner itself, loops and mutable runs included, choosing every map order
and completion order freely, and is proved to compute the recursive meaning. `RunProtocol` is the
same runner as a step relation, so that executors, completions and cancels of many runs interleave;
`BoundedLoop` does that for the semaphore of one loop. `RunTree` lets whole trees of runs
interleave: a run_job task waits for the executor of its child run, which is a run like any other
and may be cancelled like any other, and loops run such tasks inside. `Outcomes` says what a tree
comes to when some of its runs are cancelled; `TreeOutcomes`, `TreeIds` and `TreeProgress` prove
that it does come to that, that child run ids can be trusted, and that no tree blocks. `TreeBounds`
bounds how many runs a tree can have and `TreeWork` how many moves it can take, whoever cancels what;
`TreeCounts` says how many runs an uncancelled one has, `TreeFailures` how failures climb, and
`TreeLoops` that loops keep their limits.

**The HiveServer2 surface.** `HandleTable` is the table of sessions and results with its idle
limit, ceilings and evictions, entered by critical sections in any order. `Columns` builds typed
columns from JSON rows. `LikePattern` translates SQL LIKE to path globs.

**SQL names and the registry.** `SqlIdent` scans and splits quoted names and allocates managed
locations. `Registry` says what the experiment store and model registry keep, through failed writes
and restarts, `RegistryLaws` what a caller can rely on from each operation, and `RegistryStore` is
the store with its loops and its file. `Basics`, `Text`, `Decimal`, `JobModel` and `ChildIds` hold
shared vocabulary.

## Where the code differs from what it says

- `internal/server/jobs.go:560-562` says a condition is evaluated even when no engine is attached.
  `executeRun` fails such a run before looking at any task (lines 506-512), and the model does too.
- A result can be lost when another session closes, although both it and its session are live:
  metadata results are inserted without a reap, and a polled one is as recent as any.
  `HandleTable.ClosingAnotherSessionCanEvict` gives such a history, and
  `HandleTable.OtherCloseKeepsIff` says exactly when it cannot happen.
- The matcher of metadata calls is SQL LIKE on names without `/` only: on other values a wildcard
  does not cross a `/`, and the empty pattern matches everything
  (`LikePattern.MatcherIsLikeIff`, `LikePattern.MatcherIsLikeOnNames`).
- The inferred type of a column depends on the order of its rows unless the values are all integers
  or all of one type (`Columns.OrderFreeIff`).
- A name of four parts or more is taken for its first three: names that differ only further on are
  one table in one place (`SqlIdent.FourthPartIsLost` has two such names, `SqlIdent.OneLocationIff`
  says exactly when locations agree).
- `internal/store/mlflow.go:496` says `UpdateExperiment` renames an active experiment; it renames a
  deleted one as well (`Registry.DeletedIsRenamedAlike`).
- When writing the registry's file fails the caller gets an error, but the change stays in memory
  and goes out with the next operation that is accepted and saved, unless a restart comes first
  (`Registry.FailedChangeGoesOut`). So restarts go unnoticed as long as each finds the last accepted
  operation saved (`Registry.RestartsAreInvisible`), and one right after a failed write is noticed
  exactly when that operation changed anything (`Registry.RestartLosesChangeIff`;
  `Registry.NumberCanRepeat` is such a history).
- An experiment number can be given twice, when nothing was written between its first use and a
  restart (`Registry.NumberCanRepeat`, `Registry.RestartTakesBackIff`).
- A child run that is cancelled does not fail its parent, but a cancelled iteration fails its loop
  (`Outcomes.FailsByFailedTasksOnly`, `Outcomes.CanceledIterationFailsLoop`).

## Model

| member | source | states |
|---|---|---|
| `Scheduler.ConditionFamilies` | internal/server/jobs.go:464-494 | equality of operands is equality of text; an ordering comparison and its converse take opposite arms exactly when both operands are comparable numbers; swapping operands swaps the comparison |
| `Scheduler.NumbersCompare` | internal/server/jobs.go:478-491 | two finite operands compare as numbers: LESS_THAN is true exactly when the left one is less, and so on for the other three |
| `Scheduler.InfinitiesCompare` | internal/server/jobs.go:478-491 | the infinities stand below and above every number and equal themselves |
| `Scheduler.OthersDoNotCompare` | internal/server/jobs.go:478-494 | an ordering against text that is no number, or a NaN, is false either way round |
| `Scheduler.CountStates` | internal/server/jobs.go:636-646 | the counting loop's totals say whether none, some or all dependencies ended SUCCESS or FAILED |
| `Scheduler.DecideShouldRun` | internal/server/jobs.go:618-659 | the loops decide the declarative rule: every labelled edge matches its condition's outcome and the quantified `run_if` rule holds |
| `Scheduler.RunIfTable` | internal/server/jobs.go:635-658 | what each of the six rules decides, by whether some dependency succeeded, some failed, and some did neither |
| `Scheduler.LabelsComeFirst` | internal/server/jobs.go:618-634 | a task without dependencies runs; one on an arm not taken does not, whatever its rule |
| `Scheduler.ShouldRunIsLocal` | internal/server/jobs.go:618-659 | whether a task runs depends only on its own dependencies' states and outcomes |
| `Scheduler.LaterTaskWins` | internal/server/jobs.go:515-518 | of tasks with one key the last stands |
| `Scheduler.EnoughWaves` | internal/server/jobs.go:519-582 | whatever is decided at all is decided within as many waves as there are distinct keys |
| `Scheduler.StuckStep` | internal/server/jobs.go:531-541 | a task is stuck exactly when it is undefined or some dependency is |
| `Scheduler.FinalEquation` | internal/server/jobs.go:519-582 | the meaning satisfies the unbounded recursive equation: every other task is decided from its dependencies' final results |
| `Scheduler.ComesTo` | internal/server/jobs.go:543-582 | a task that does not run is SKIPPED and blank; a condition that runs succeeds and names the arm its operands choose; any other has the result it is dispatched for |
| `Scheduler.DecidesRight` | internal/server/jobs.go:543-580 | deciding any ready task from right results gives its final result, in whatever order tasks are taken |
| `Scheduler.LeftOversAreStuck` | internal/server/jobs.go:537-542 | when a wave finds nothing ready, the tasks left over are exactly the stuck ones |
| `Scheduler.StuckIffDeadEnd` | internal/server/jobs.go:531-541 | stuck tasks are exactly those from which dependency edges reach a cycle or an undefined key |
| `Scheduler.RunsIffCleanHistory` | internal/server/jobs.go:618-659 | under ALL_SUCCESS a task runs exactly when all its transitive ancestors ended SUCCESS and every labelled edge among them matched |
| `Scheduler.OnlyTheTakenArm` | internal/server/jobs.go:622-634 | anything that runs on or below a labelled arm has that arm as the condition's outcome |
| `Scheduler.NeverBothArms` | internal/server/jobs.go:622-634 | tasks on or below the two arms of one condition never both run |
| `RunStore.Run.Clone` | internal/store/jobs.go:192-204 | the copy shares neither the run object nor the task array, and is equal in value |
| `RunStore.Run.AllFields` | internal/store/jobs.go:192-204 | what is read of a run object is its fields and its task list |
| `RunStore.Store.NewRun` | internal/store/jobs.go:210-217 | a PENDING run under a new number is stored, and a separate snapshot returned |
| `RunStore.Store.GetRun` | internal/store/jobs.go:219-225 | a snapshot equal to the stored run and sharing nothing with it, or none for an unknown id |
| `RunStore.Store.ListRuns` | internal/store/jobs.go:249-260 | one snapshot of each run selected, of no other, sharing nothing with the store or each other |
| `RunStore.Store.UpdateRun` | internal/store/jobs.go:227-247 | stores a copy of the run, unless the stored run is CANCELED |
| `RunStore.Store.CancelRun` | internal/store/jobs.go:262-276 | marks exactly this run CANCELED in place unless it has terminated; true exactly when it exists |
| `RunStore.CancelMarks` | internal/store/jobs.go:262-276 | a cancel leaves a run that has not terminated TERMINATED and CANCELED, its other fields and all other runs as they were; a terminated or unknown run is not touched |
| `RunStore.CancelTakes` | internal/store/jobs.go:227-276 | so over any script that goes on the run stays CANCELED |
| `RunStore.Serve` | internal/store/jobs.go:192-276 | every call, and every mutation of a snapshot by its holder, acts on the heap as on plain values: the store and the snapshots never reach each other |
| `RunStore.ServeAll` | internal/store/jobs.go:192-276 | so does every script of calls |
| `RunStore.CallsDo` | internal/store/jobs.go:192-276 | a new run is PENDING, blank and under a new number; readers hold what is stored; publishes store what is held; mutations reach their holder only |
| `RunStore.SnapshotsAreStable` | internal/store/jobs.go:192-204 | whatever is published or cancelled later, a snapshot changes only by its holder |
| `RunStore.HoldersCannotReachTheStore` | internal/store/jobs.go:192-204 | reading runs and mutating snapshots leaves the store as it was |
| `RunStore.CanceledIsFinal` | internal/store/jobs.go:227-247 | over any script a cancelled run's record never changes again |
| `NestedRuns.LoopSucceedsIffAllDo` | internal/server/jobs.go:735-751 | a loop reports SUCCESS exactly when every iteration did, and FAILED otherwise |
| `NestedRuns.SubstituteInput` | internal/server/jobs.go:754-774 | the iteration's task has the nested task's kind and nesting |
| `NestedRuns.IterationIsNested` | internal/server/jobs.go:754-774 | an iteration's task is the nested task but for its key, which names the loop and the input and differs from every other input's, and its parameters, which have the input in place |
| `NestedRuns.LeafSucceedsIff` | internal/server/jobs.go:806-839 | a leaf task is SUCCESS exactly when its code was found and the engine answered that it ran; stdout is the engine's and stderr the reason |
| `NestedRuns.TaskCases` | internal/server/jobs.go:775-839 | the cases of a dispatched task in the code's order: secrets, dbt, child run, loop, engine, and what each reports |
| `NestedRuns.LoopReports` | internal/server/jobs.go:736-751 | a loop's outputs are its iterations', in input order, after a line that counts the failed ones when there are any |
| `NestedRuns.UnsuccessfulCounts` | internal/server/jobs.go:736-751 | the number counted is that of the iterations that did not succeed |
| `NestedRuns.ConcludeLists` | internal/server/jobs.go:585-606 | a run lists one result a task in the job's order, joins their outputs in that order, and is FAILED exactly when one of them is |
| `NestedRuns.ConcludeNothing` | internal/server/jobs.go:585-606 | a job without tasks ends SUCCESS with nothing to show |
| `NestedRuns.WithoutEngine` | internal/server/jobs.go:506-512 | without an engine a run fails with a message, looks at no task and starts nothing |
| `NestedRuns.ConcludeFails` | internal/server/jobs.go:585-606 | the closing state is FAILED exactly when some result is |
| `NestedRuns.FailedIffSomeTaskFailed` | internal/server/jobs.go:585-606 | an uncancelled run ends FAILED exactly when some task of it did, and SUCCESS otherwise |
| `NestedRuns.FailedChildFailsParent` | internal/server/jobs.go:691-700 | a FAILED child run fails the run that started it, also from inside loops |
| `NestedRuns.FailureReachesTheTop` | internal/server/jobs.go:674-701 | at any depth, a FAILED run makes every enclosing run FAILED |
| `NestedRuns.TaskStartsIff` | internal/server/jobs.go:661-752 | a task counts child runs exactly when it starts some |
| `NestedRuns.RunStartsAtMost` | internal/server/jobs.go:661-701 | with at most b run_job slots a job, a run at a given depth starts at most the geometric sum of what is left of the depth bound, for every job store, self-running jobs included |
| `NestedRuns.TopRunStartsAtMost` | internal/server/jobs.go:661-701 | one run-now starts at most b + b^2 + b^3 + b^4 + b^5 child runs |
| `NestedRuns.SelfRunFails` | internal/server/jobs.go:661-685 | a job whose one task runs itself ends FAILED at every level |
| `NestedRuns.SelfRunFailsAfterFive` | internal/server/jobs.go:661-685 | started from the top it ends FAILED after exactly five child runs |
| `Executor.CollectByKey` | internal/server/jobs.go:514-518 | the loop keeps the last task of each key |
| `Executor.ReadyTasks` | internal/server/jobs.go:530-536 | the loop finds exactly the remaining tasks whose dependencies all have results, in any map order |
| `Executor.SkipRest` | internal/server/jobs.go:537-542 | exactly the remaining tasks are marked SKIPPED, in any map order |
| `Executor.RunWave` | internal/server/jobs.go:543-582 | one wave, with dispatches and completions in any order: its tasks and no others gain results, each the one its recursive meaning gives, and the child runs started are counted |
| `Executor.NextWave` | internal/server/jobs.go:530-582 | a wave strictly shrinks what remains, or nothing is ready and nothing changed |
| `Executor.RunWaves` | internal/server/jobs.go:519-583 | a run cancelled beforehand begins no wave and changes nothing; any other decides every task right, its waves being exactly the levels of the task graph (each the tasks that the waves before it made ready), at most as many as keys |
| `Executor.RunTask` | internal/server/jobs.go:775-839 | a dispatched task, in the code's order of cases, returns its recursive meaning |
| `Executor.RunJobTask` | internal/server/jobs.go:674-701 | reports the child run's ending and, exactly when one is started, the id of a new run whose stored record says the same |
| `Executor.RunChild` | internal/server/jobs.go:686-700 | exactly one child run, and those it starts, are added to the store, all finished |
| `Executor.RunIterations` | internal/server/jobs.go:720-734 | every input's result is stored at its own index whatever the completion order; the returned history of iterations in flight spawns them in input order, one at a time, returns each, and never holds more than the limit |
| `Executor.Collect` | internal/server/jobs.go:736-751 | the collecting loop computes the loop's result from the results in input order |
| `Executor.RunForEachTask` | internal/server/jobs.go:710-752 | the loop task returns the meaning of its iterations |
| `Executor.Gather` | internal/server/jobs.go:585-597 | task list, joined outputs and failed flag are those of the results in task order |
| `Executor.Report` | internal/server/jobs.go:597-606 | the closing record's every field, and nothing else changed |
| `Executor.RunAttached` | internal/server/jobs.go:514-606 | the run's stored record ends as the recursive meaning, after waves that are its graph's levels, unless cancelled beforehand, when no wave begins |
| `Executor.RefuseRun` | internal/server/jobs.go:506-512 | without an engine the run is stored FAILED with the code's message and nothing else changes |
| `Executor.ExecuteRun` | internal/server/jobs.go:502-607 | under every map order and completion order an uncancelled run is stored with the tasks, output and state of its recursive meaning, exactly the counted child runs are added, and no other run changes |
| `RunProtocol.Always` | internal/server/jobs.go:502-607 | in every interleaving of executors, completions, cancels and launches the protocol's invariant holds |
| `RunProtocol.LifeCycleMovesForward` | internal/store/jobs.go:227-276 | an observed life cycle only moves PENDING, RUNNING, TERMINATED, and a terminated record never changes |
| `RunProtocol.CanceledStaysCanceled` | internal/store/jobs.go:237-276 | once CANCELED a run stays CANCELED whatever its executor publishes later |
| `RunProtocol.CanceledIff` | internal/store/jobs.go:227-276 | in every history a run shows CANCELED exactly when a cancel reached it before it terminated |
| `RunProtocol.CancelStep` | internal/store/jobs.go:262-276 | that cancel changes its state and nothing else |
| `RunProtocol.ObservedIsWhereItStands` | internal/server/jobs.go:502-606 | of an uncancelled run callers see PENDING until its executor begins, RUNNING with nothing reported until it is done, and TERMINATED with a result then |
| `RunProtocol.DispatchAfterCancel` | internal/server/jobs.go:520-529 | after a cancel no wave begins, and a task dispatched later was waiting in the wave whose check had passed |
| `RunProtocol.DoneMeansMeant` | internal/server/jobs.go:514-606 | an uncancelled run that is done shows exactly the record its plan means |
| `RunProtocol.Confluence` | internal/server/jobs.go:514-606 | two executions of one plan, in any two histories, end with the same results, tasks, output and state |
| `RunProtocol.DoneShowsMeaning` | internal/server/jobs.go:502-607 | in every history, a done, uncancelled run of a job, whose tasks answer as the recursive meaning says, shows that meaning, with or without an engine |
| `Outcomes.SparedRun` | internal/server/jobs.go:661-701 | with no cancels in its tree the outcome of a run is its meaning |
| `Outcomes.RunOutcomeIsLocal` | internal/server/jobs.go:502-701 | a run's outcome depends only on which runs below it are cancelled and how the tasks below it are answered: not on where it stands, its number, or anything else; two places whose surroundings below agree give one outcome |
| `Outcomes.TaskOutcomeIsLocal` | internal/server/jobs.go:661-752 | the same for a task's result and what agrees at its place and below |
| `Outcomes.OnlyCancelsBelowMatter` | internal/server/jobs.go:502-701 | in one world, two records of cancels that agree below a run give it one outcome |
| `Outcomes.CanceledChildCancelsTask` | internal/server/jobs.go:691-700 | a task whose child run is cancelled ends CANCELED |
| `Outcomes.FailsByFailedTasksOnly` | internal/server/jobs.go:585-606 | whatever is cancelled below it, a run ends FAILED exactly when some task of it is FAILED |
| `Outcomes.CanceledIterationFailsLoop` | internal/server/jobs.go:736-751 | a loop with a cancelled iteration ends FAILED |
| `RunTree.AlwaysSound` | internal/server/jobs.go:674-752 | in every state of every tree no two runs stand at one place, and each child run stands where a task that launches it started it |
| `RunTree.PathParts` | internal/server/jobs.go:674-752 | a place in the tree names one run, one task and one iteration |
| `RunTree.TraceKeeps` | internal/store/jobs.go:227-276 | through any moves of any runs a cancelled run stays cancelled and a done run keeps its record |
| `TreeOutcomes.TreesFollowTheProtocol` | internal/server/jobs.go:502-774 | child run ids aside, every history of a tree is a history of the protocol in which each task answers with its outcome, so what holds of those holds of every run of the tree |
| `TreeOutcomes.TreesEndAsFated` | internal/server/jobs.go:502-774 | a done, uncancelled run shows the outcome that the job definitions, the engine's answers and the runs cancelled in the history give it |
| `TreeOutcomes.TreesAreConfluent` | internal/server/jobs.go:502-774 | in any two histories, however they interleave and whatever else runs or is cancelled in them, runs of one job at one depth end with equal records, their own ids and their child runs' ids aside, if below them the same runs are cancelled and the same answers given; run numbers need not agree |
| `TreeOutcomes.UncancelledTreesMeanTheRun` | internal/server/jobs.go:502-774 | with no cancels in its tree a done run shows the recursive meaning, however its child runs, loops and tasks interleave |
| `TreeOutcomes.CanceledChildIsReported` | internal/server/jobs.go:691-700 | a task whose child run was cancelled is recorded CANCELED with the child's id, and its run is FAILED exactly when some task is |
| `TreeOutcomes.TreesCanceledIff` | internal/store/jobs.go:227-276 | in every history of trees a run, child run or not, shows CANCELED exactly when a cancel reached it before it terminated |
| `TreeIds.IdsAreTruthful` | internal/server/jobs.go:667-673 | in every state each non-zero child run id, in task results and their iterations, names a done run whose record the result reports |
| `TreeIds.ChildrenAreNamed` | internal/server/jobs.go:667-673 | each child run is named by its parent's result for the task, in the iteration that started it |
| `ChildIds.StripForgetsIdsOnly` | internal/server/jobs.go:667-673 | results are compared with nothing left out but child run ids |
| `TreeProgress.TreesNeverBlock` | internal/server/jobs.go:674-752 | while some run is not done the runner has a move of its own: waiting for child runs and for loop slots never blocks |
| `TreeBounds.BelowIsPlace` | internal/server/jobs.go:674-752 | a run that lies below another stands where the other's job, and the jobs that runs, allow a child run to be started |
| `TreeBounds.JobPlacesAtMost` | internal/server/jobs.go:661-701 | with at most b run_job slots a job there are no more such places than the geometric sum of what is left of the depth bound |
| `TreeBounds.TreesAreBounded` | internal/server/jobs.go:661-752 | so no more runs than that ever lie below a run, in any history of any trees, cancels included |
| `TreeWork.MovesUseUpTree` | internal/server/jobs.go:502-774 | every move of the runner's own lowers the work left in all trees, cancels and reads add none, and a run-now adds what its job allows |
| `TreeWork.TreesEnd` | internal/server/jobs.go:502-774 | in every history the runner's own moves and the work left are at most what the jobs run from the top allow, so no tree goes on for ever |
| `TreeWork.TreesEndFrom` | internal/server/jobs.go:502-774 | the same from any state on: later moves of the runner's own are paid for by the work left there and by later runs from the top |
| `TreeWork.TreesCanFinish` | internal/server/jobs.go:502-774 | every history, whatever has been cancelled in it, goes on by moves of the runner's own, at most as many as there is work left, to where every run is done |
| `TreeWork.AtRestMeansDone` | internal/server/jobs.go:502-774 | and whichever moves are chosen, where the runner has no move of its own every run is done |
| `TreeWork.RunsCanEnd` | internal/server/jobs.go:502-774 | in any state, a run in whose tree nothing is cancelled can come, by moves of the runner's own, to show its recursive meaning |
| `TreeFailures.WholeTreeDone` | internal/server/jobs.go:674-701 | when a run is done so is every run below it, cancelled or not |
| `TreeFailures.FailedChildFailsRun` | internal/server/jobs.go:585-752 | a FAILED child run, started directly or in loops, fails its parent, whatever else is cancelled, unless the parent is |
| `TreeFailures.FailureClimbs` | internal/server/jobs.go:585-752 | a FAILED run fails every done run it lies below, unless that run or one in between is cancelled |
| `TreeCounts.UncancelledTreesCount` | internal/server/jobs.go:502-774 | however its tree interleaves, a done run in whose tree nothing was cancelled has below it exactly the runs that its recursive meaning counts |
| `TreeCounts.SelfRunTree` | internal/server/jobs.go:661-701 | a job that runs itself, run from the top, ends FAILED with exactly five runs below it |
| `TreeLoops.LoopsKeepTheirLimits` | internal/server/jobs.go:710-734 | in every state of every tree each loop, however deep in other loops, has at most its limit of iterations in flight |
| `RunProtocol.NothingWrongEver` | internal/server/jobs.go:543-580 | in every reachable state, of cancelled runs too, each result is final and each started task is one that executes |
| `RunProtocol.NoStateRunsBothArms` | internal/server/jobs.go:622-634 | no reachable state has started tasks on or below both arms of one condition |
| `RunProtocol.DependenciesFirst` | internal/server/jobs.go:530-582 | a task is decided or dispatched only after all its dependencies have results, unless it is stuck |
| `RunProtocol.CannotBlock` | internal/server/jobs.go:519-606 | an executor that is not done always has a step of its own |
| `RunProtocol.MovesUseUpWork` | internal/server/jobs.go:519-606 | every step of an executor uses up some of its work, and others leave it alone |
| `RunProtocol.RunsEnd` | internal/server/jobs.go:519-606 | a run takes at most four steps a task and six more, and at most one wave a task, in any interleaving |
| `BoundedLoop.BodiesAreBounded` | internal/server/jobs.go:713-734 | in every schedule at most min(max(concurrency, 1), inputs) bodies are in flight |
| `BoundedLoop.JoinedIsComplete` | internal/server/jobs.go:720-734 | when the parent has joined every body ran exactly once and its result is at its input's index |
| `BoundedLoop.NoDeadlock` | internal/server/jobs.go:721-734 | until the parent has joined some step is possible |
| `BoundedLoop.StepsRunOut` | internal/server/jobs.go:721-734 | every step uses one up |
| `BoundedLoop.SchedulesEnd` | internal/server/jobs.go:721-734 | so after i steps of any schedule 4n + 1 - i are left, and none are left exactly when the parent has joined |
| `BoundedLoop.SubstituteParams` | internal/server/jobs.go:759-765 | an iteration gets a fresh parameter list with its input in place; the shared list is unchanged |
| `BoundedLoop.NoPlaceholderNoChange` | internal/server/jobs.go:757-774 | text without the placeholder reaches every iteration unchanged |
| `BoundedLoop.PlaceholderReplaced` | internal/server/jobs.go:757-774 | the first placeholder becomes the input, the text before it stays, and the scan goes on behind it |
| `HandleTable.Service.DropSessionOps` | internal/hs2/service.go:104-113 | exactly the session's operations go |
| `HandleTable.Service.EvictOldestOp` | internal/hs2/service.go:115-126 | one operation goes, and none was older; false exactly when there is none |
| `HandleTable.Service.EvictOldestSession` | internal/hs2/service.go:128-140 | one session goes with its operations, and none was older |
| `HandleTable.Service.SweepOps` | internal/hs2/service.go:81-85 | exactly the idle operations go |
| `HandleTable.Service.SweepSessions` | internal/hs2/service.go:86-91 | exactly the idle sessions go, each with its operations |
| `HandleTable.Service.TrimOps` | internal/hs2/service.go:92-96 | as many operations as the ceiling allows stay, none older than one let go |
| `HandleTable.Service.TrimSessions` | internal/hs2/service.go:97-101 | the same for sessions, whose operations go with them |
| `HandleTable.Service.Reap` | internal/hs2/service.go:76-102 | the loops, in any map order and with ties broken any way, do what a reap may do and no more |
| `HandleTable.Service.OpenSession` | internal/hs2/service.go:187-230 | a session is stored and the table reaped exactly when protocol, warehouse and engine allow it; otherwise nothing changes |
| `HandleTable.Service.CloseSession` | internal/hs2/service.go:232-242 | the session and its operations go, then the table is reaped |
| `HandleTable.Service.BeginStatement` | internal/hs2/service.go:252-261 | an existing session is touched and its warehouse found; an unknown one changes nothing |
| `HandleTable.Service.FinishStatement` | internal/hs2/service.go:269-310 | the result or error is stored for the session, open or not by now, then the table is reaped |
| `HandleTable.Service.FinishMeta` | internal/hs2/metadata.go:41-66 | a metadata result is stored with no session, last seen at 0, and no reap |
| `HandleTable.Service.ReadOperation` | internal/hs2/service.go:426-447 | the stored table or error is answered and the operation alone is touched |
| `HandleTable.Service.CloseOperation` | internal/hs2/service.go:449-465 | exactly that operation goes |
| `HandleTable.ReapLeavesOnlyLive` | internal/hs2/service.go:79-140 | after a reap every survivor is within the idle limit and unchanged, both ceilings hold, and no survivor belongs to a session removed |
| `HandleTable.ReapGoesByAge` | internal/hs2/service.go:34-91 | within the ceilings a reap goes by age alone: a session stays exactly half an hour after it was last seen, an operation as long unless its session goes |
| `HandleTable.CeilingsAre` | internal/hs2/service.go:34-101 | the ceilings are 512 sessions and 2048 results, and nothing goes for number alone below them |
| `HandleTable.EventsAreSeen` | internal/hs2/service.go:187-465 | what each critical section does for its own key: opened sessions have their warehouse, finished results are answered, closed and dropped ones are not, polls change no answer |
| `HandleTable.UseKeeps` | internal/hs2/service.go:252-447 | beginning a statement keeps its session, and polling a result keeps it, through any reap in the half hour after |
| `HandleTable.AnswersAre` | internal/hs2/service.go:426-447 | an operation answers its error when it has one, otherwise its table |
| `HandleTable.EveryRemovalHasACause` | internal/hs2/service.go:79-140 | whatever a reap removes was idle, or its session was removed, or a ceiling was exceeded and nothing its eviction kept is older |
| `HandleTable.NothingToReap` | internal/hs2/service.go:79-102 | a table within the limits is left exactly as it is |
| `HandleTable.ReapTwiceIsReapOnce` | internal/hs2/service.go:79-102 | a second reap at the same clock removes nothing |
| `HandleTable.CapacityHolds` | internal/hs2/service.go:218-310 | in every interleaving, at every lock release, at most 512 sessions, and at most 2048 operations plus the metadata results inserted since the last reap |
| `HandleTable.KeptOrCaused` | internal/hs2/service.go:232-321 | one critical section leaves an operation's result as it is or removes it for a cause |
| `HandleTable.ResultsPersist` | internal/hs2/service.go:426-447 | until a cause arises an operation keeps answering with the identical table |
| `HandleTable.OtherCloseKeepsIff` | internal/hs2/service.go:232-242 | closing another session keeps a live result of a live session, however ties fall, exactly when the live operations at least as recent fit under the ceiling |
| `HandleTable.KeptUnderCeiling` | internal/hs2/service.go:92-96 | under that condition every outcome keeps it |
| `HandleTable.EvictedOverCeiling` | internal/hs2/service.go:92-96 | without it some outcome drops it |
| `HandleTable.ClosingAnotherSessionCanEvict` | internal/hs2/metadata.go:41-66 | a complete history, every statement begun before it finishes, in which closing another session drops a live result |
| `Columns.PackNulls` | internal/hs2/result.go:457-468 | reading any bit back, in range or not, gives the flag, and no padding bit is set |
| `Columns.BitIsShifted` | internal/hs2/result.go:457-468 | bits are numbered from the lowest |
| `Columns.InferType` | internal/hs2/result.go:283-303 | the loop with its early exits computes the kind of the column's present values |
| `Columns.IntegerKind` | internal/hs2/result.go:283-328 | an integer column is INT exactly when every value is a canonical 32-bit integer, else BIGINT |
| `Columns.FirstValueDecides` | internal/hs2/result.go:283-328 | other columns take the type of their first value: booleans, text, wide or fractional numbers; STRING when there is none |
| `Columns.PresentIsTheColumn` | internal/hs2/result.go:283-303 | the values looked at are the column's non-null ones, the topmost first |
| `Columns.WidthDecides` | internal/hs2/result.go:305-328 | a printed integer is INT within 32 bits, BIGINT within 64 and DOUBLE beyond |
| `Columns.IntegerKindIgnoresOrder` | internal/hs2/result.go:283-328 | and so does not depend on row order |
| `Columns.OrderFreeIff` | internal/hs2/result.go:283-328 | no reordering of the rows changes the inferred type exactly when the values are all integers or all of one type |
| `Columns.BoolAndStringAreNot` | internal/hs2/result.go:283-303 | a boolean and a string are a column for which one does |
| `Columns.PackInts` | internal/hs2/result.go:348-380 | every value unchanged and null flags exact, or the first row that does not fit is named |
| `Columns.PackColumn` | internal/hs2/result.go:330-408 | a packed column holds every row's value and null bit; an error names the first misfit |
| `Columns.BuildTable` | internal/hs2/result.go:256-278 | a table is built exactly when every cell fits its column's kind, and then renders the whole grid; otherwise the first column with a misfit and the first row of it are named |
| `Columns.TableFromArrays` | internal/hs2/result.go:221-254 | no cell and no declared column is dropped, missing names are filled in, and the first row that is no array is refused |
| `Columns.TableFromObjects` | internal/hs2/result.go:186-219 | every row is read by the first row's columns, absent fields as null; refused exactly when some row is no object |
| `Columns.Rectangular` | internal/hs2/result.go:512-534 | every built table is rectangular and reports as many rows as came in, when it has a column |
| `Columns.CellReadsBack` | internal/hs2/result.go:330-594 | every cell reads as its source value: text unchanged, true and false as words, null as nothing, a number as its column prints it |
| `Columns.NullsAreZero` | internal/hs2/result.go:330-408 | a null leaves the zero of its type among the values |
| `Columns.HintsStand` | internal/hs2/result.go:256-278 | a declared type stands, any other is inferred, and the values are packed as that type |
| `Columns.NamesStand` | internal/hs2/result.go:221-254 | declared names stand; the other columns are numbered from _c0, no two alike |
| `Columns.WrittenOrderStands` | internal/hs2/result.go:136-219 | columns keep the written order whenever it names each key of the first row once, and otherwise are sorted |
| `Columns.NullExactlyWhereSourceIs` | internal/hs2/result.go:596-601 | a cell reads as null exactly when its source row was short or held null there |
| `Columns.IntegersAreExact` | internal/hs2/result.go:557-594 | every cell of an inferred integer column shows its source number, for INT the very text |
| `Columns.IntegersAlwaysFit` | internal/hs2/result.go:256-383 | inference plus packing never refuses a column of 64-bit integers that has no hint, whatever the other columns have |
| `Columns.OneTypeFits` | internal/hs2/result.go:330-408 | nor does it refuse a column of booleans, or of fractions that parse; and a STRING column takes anything |
| `Columns.DeclaredIntIsExactOrRefused` | internal/hs2/result.go:348-367 | a column declared INT comes out exact or the build fails; nothing is truncated |
| `Decimal.ParseFormat` | internal/hs2/result.go:410-425 | printing an integer and reading it back is the identity |
| `Decimal.DigitByDigit` | internal/hs2/result.go:410-425 | numbers are printed in base ten, the last digit last, negative ones behind a minus |
| `Decimal.SignsRead` | internal/hs2/result.go:410-425 | a sign may stand in front of digits when reading, and nothing else may |
| `Decimal.FormatInjective` | internal/store/mlflow.go:418-419 | different numbers print differently |
| `Decimal.CanonicalIffRoundTrip` | internal/hs2/result.go:305-328 | text is canonical exactly when reading and printing it gives it back |
| `LikePattern.LikeToGlob` | internal/hs2/metadata.go:192-208 | the loop writes each character's glob in turn |
| `LikePattern.LikeIff` | internal/hs2/metadata.go:184-208 | LIKE as its declarative meaning: the value falls into one part for each pattern character, any for %, a single character for _, itself otherwise |
| `LikePattern.TranslationIsWellFormed` | internal/hs2/metadata.go:192-208 | every pattern becomes a well-formed glob, one term a character |
| `LikePattern.TranslationPreservesMeaning` | internal/hs2/metadata.go:184-208 | on values without `/` the glob matches exactly when LIKE does; on any value, exactly when LIKE does with no wildcard crossing a `/` |
| `LikePattern.LikeMatch` | internal/hs2/metadata.go:184-190 | what metadata calls match by |
| `LikePattern.MatcherIsLikeIff` | internal/hs2/metadata.go:184-190 | the matcher is SQL LIKE on every value exactly for `%` and for non-empty patterns without wildcards |
| `LikePattern.MatcherIsLikeOnNames` | internal/hs2/metadata.go:184-190 | on names without `/` it is SQL LIKE except for the empty pattern |
| `Text.TrimIsTrimmed` | internal/sqlshim/shim.go:175-199 | trimming leaves no white space at either end, once is enough, and only trimmed text is unchanged |
| `Text.TrimTakesSpace` | internal/sqlshim/shim.go:175-199 | trimming takes white space off the ends and nothing else |
| `Text.AsciiSpace` | internal/sqlshim/shim.go:175-199 | of the ASCII characters the blank, the tab and the line breaks are white space |
| `SqlIdent.FirstIdent` | internal/sqlshim/shim.go:175-199 | the scanning loop finds the recursively defined name |
| `SqlIdent.SplitIdent` | internal/sqlshim/shim.go:247-281 | the splitting loops find the recursively defined parts |
| `SqlIdent.IdentIsPrefix` | internal/sqlshim/shim.go:175-199 | the name found is a prefix of the trimmed statement |
| `SqlIdent.NamesReadBack` | internal/sqlshim/shim.go:175-281 | after any written list of quoted or plain names the scanner stops right there, and the splitter gives back their texts, trimmed, the empty ones dropped |
| `SqlIdent.RoundTripIff` | internal/sqlshim/shim.go:175-281 | names survive exactly when none is empty and none has white space at an end |
| `SqlIdent.NameCharacters` | internal/sqlshim/shim.go:243-245 | names are made of letters, digits, the underscore and the hyphen |
| `SqlIdent.UnclosedQuote` | internal/sqlshim/shim.go:175-281 | a quote that is never closed reaches to the end and is one part |
| `SqlIdent.IsSafeSegment` | internal/sqlshim/shim.go:201-217 | the loop accepts exactly non-empty whitelisted names other than one or two dots |
| `SqlIdent.SafeIff` | internal/sqlshim/shim.go:204-218 | a segment is safe exactly when it is made of name characters and dots and is not empty, one dot or two |
| `SqlIdent.WithoutBackticks` | internal/sqlshim/shim.go:283-285 | no backtick is left, and a name without any is unchanged |
| `SqlIdent.OnlyTicksDropped` | internal/sqlshim/shim.go:283-285 | and every other character stays, in its place |
| `SqlIdent.RewriteCreateTable` | internal/sqlshim/shim.go:96-139 | left alone, refused for an unsafe part, or rewritten with the location of its first three parts and exactly what followed the name |
| `SqlIdent.RewriteSays` | internal/sqlshim/shim.go:96-139 | a rewritten statement replaces a table exactly when the one given did, and the location is the root, catalog, schema and name in that order |
| `SqlIdent.LeftAloneIff` | internal/sqlshim/shim.go:96-123 | a statement is left alone exactly when it has a location, fewer than three parts or the hive metastore's catalog, and refused exactly when otherwise some part is unsafe |
| `SqlIdent.HiveInAnyCase` | internal/sqlshim/shim.go:96-110 | that catalog is recognised however it is capitalised |
| `SqlIdent.LocationInjective` | internal/sqlshim/shim.go:106-123 | under one root two safe names share a location only when they are equal |
| `SqlIdent.HeadReadsBack` | internal/sqlshim/shim.go:130 | the name in the rewritten head reads back as the table registered |
| `SqlIdent.OneLocationIff` | internal/sqlshim/shim.go:96-139 | any two statements rewritten under one root get one location exactly when the first three parts of their names agree |
| `SqlIdent.SameLocationIff` | internal/sqlshim/shim.go:96-139 | of statements that begin with written names, also: each keeps exactly what followed its name |
| `SqlIdent.FourthPartIsLost` | internal/sqlshim/shim.go:96-139 | two four-part names that differ in the last part and become one table at one location |
| `Registry.NewNumberIsNew` | internal/store/mlflow.go:418-427 | the next experiment's number is no experiment's yet |
| `Registry.NumbersDiffer` | internal/store/mlflow.go:418-430 | in every history, a number whose experiment was written is never given again |
| `Registry.RestartTakesBackIff` | internal/store/mlflow.go:189-212 | the next restart takes a number back exactly when nothing was written since its experiment was created |
| `Registry.NumberCanRepeat` | internal/store/mlflow.go:427-434 | a history in which one number names two experiments, one after the other |
| `Registry.OpsKeepExperiments` | internal/store/mlflow.go:408-550 | every modelled operation keeps identifiers equal to keys and issued, names trimmed, and one active experiment a name |
| `Registry.OpsKeepRuns` | internal/store/mlflow.go:553-595 | every run is in a known experiment, and runs never disappear |
| `Registry.OpsKeepModels` | internal/store/mlflow.go:847-1112 | versions are numbered 1 to n in order, carry their model's name, exist only under existing models and come from known runs |
| `Registry.OpsKeepGood` | internal/store/mlflow.go:408-1112 | every modelled operation keeps the whole invariant |
| `Registry.LoadDump` | internal/store/mlflow.go:189-304 | loading a dump written in any map order restores the state up to empty version lists |
| `Registry.SameStep` | internal/store/mlflow.go:408-1112 | no later modelled operation can tell a missing version list from an empty one: same refusal, same reply, same state again |
| `Registry.AlwaysGood` | internal/store/mlflow.go:189-1112 | the invariant holds in every state of every history, across failed writes and restarts |
| `Registry.HistoryIsReplay` | internal/store/mlflow.go:189-304 | memory and file always agree with a replay that knows no files or orders |
| `Registry.SettledRestartsDoNothing` | internal/store/mlflow.go:189-304 | if at every restart the last operation accepted since the restart before it was saved, the restarts change nothing, whatever other writes failed |
| `Registry.RestartsAreInvisible` | internal/store/mlflow.go:189-304 | then every modelled operation is answered as by a store that never stopped |
| `Registry.WhileWritesSucceed` | internal/store/mlflow.go:189-304 | in particular while every write succeeds |
| `Registry.FailedChangeGoesOut` | internal/store/mlflow.go:189-304 | a change whose write failed is in the file after the next operation accepted and saved, with all that was done in between, if no restart came first |
| `Registry.RestartLosesChangeIff` | internal/store/mlflow.go:189-304 | a restart right after a failed write is noticed exactly when the operation changed anything |
| `Registry.NameAndTagAgree` | internal/store/mlflow.go:573-583 | a named run is tagged with its name, and an unnamed one carries no other name in its tags |
| `Registry.ArchivingLeavesOne` | internal/store/mlflow.go:1079-1112 | with archiving the version is alone in its stage, those that were there are archived, and no other version moves |
| `Registry.RestoreUndoesDelete` | internal/store/mlflow.go:521-550 | restoring at once undoes deleting, but for the update time |
| `Registry.DeletedIsRenamedAlike` | internal/store/mlflow.go:496-519 | renaming is refused or not whether the experiment is deleted or active, and a deleted one is renamed and stays deleted |
| `Registry.RenameBack` | internal/store/mlflow.go:926-955 | renaming a model away and back restores it and its versions, but for update times |
| `RegistryLaws.CreatedExperiment` | internal/store/mlflow.go:408-436 | a new experiment is active and what was asked for, its name is taken from then on, and nothing else changes |
| `RegistryLaws.RenamedExperiment` | internal/store/mlflow.go:497-519 | renaming changes the name and the update time only |
| `RegistryLaws.DeletedExperiment` | internal/store/mlflow.go:522-532 | deleting only marks an experiment, and its name is free at once |
| `RegistryLaws.RestoredExperiment` | internal/store/mlflow.go:535-550 | restoring only marks it active, and is refused exactly while another active experiment has its name |
| `RegistryLaws.ExperimentRefusals` | internal/store/mlflow.go:408-550 | blank names, unknown experiments and names another active experiment has are refused, each with its own error, and nothing else is |
| `RegistryLaws.StartedRun` | internal/store/mlflow.go:553-595 | a run starts RUNNING and empty, in an active experiment only, below that experiment's artifacts, with the start time given or the clock's |
| `RegistryLaws.TagsByKey` | internal/store/mlflow.go:553-595 | of tags with one key the last counts |
| `RegistryLaws.NamedByTag` | internal/store/mlflow.go:553-595 | a run has the name given, or else that of the first name tag that is not empty |
| `RegistryLaws.SlashesOff` | internal/store/mlflow.go:553-595 | only trailing slashes are taken off the artifact location |
| `RegistryLaws.CreatedModel` | internal/store/mlflow.go:847-872 | a model is registered under its trimmed name, once, with what was given |
| `RegistryLaws.DeletedModel` | internal/store/mlflow.go:958-968 | a model goes with its versions and with nothing else |
| `RegistryLaws.DeletedStartsOver` | internal/store/mlflow.go:847-1005 | registered again after that, its first version is number 1 |
| `RegistryLaws.CreatedVersion` | internal/store/mlflow.go:970-1005 | a version is added behind the others under the next number, with what was given and no stage |
| `RegistryLaws.StagesAre` | internal/store/mlflow.go:1079-1092 | the stages are four, and archiving is for Staging and Production |
| `RegistryLaws.MovedVersion` | internal/store/mlflow.go:1079-1112 | the version named ends in the stage asked for; no other changes unless archiving was asked for and it was in that stage; no other model's does |
| `RegistryLaws.DescribedModel` | internal/store/mlflow.go:910-924 | describing a model changes its description and update time only |
| `RegistryLaws.DescribedVersion` | internal/store/mlflow.go:1063-1077 | and describing a version those of that version only |
| `RegistryLaws.RenamedModel` | internal/store/mlflow.go:926-956 | a model is renamed with all its versions, nothing else of them changes, and its old name is free |
| `RegistryLaws.RenameRefusals` | internal/store/mlflow.go:926-956 | a blank name, an unknown model and the name of another model are refused, and nothing else is |
| `RegistryLaws.RefusedChangesNothing` | internal/store/mlflow.go:408-1112 | whatever is refused changes nothing, and the caller is told why |
| `RegistryStore.MLflow.constructor` | internal/store/mlflow.go:189-259 | the loading loops rebuild exactly the state a dump describes |
| `RegistryStore.MLflow.Persist` | internal/store/mlflow.go:261-304 | the loops write a dump of the whole state in some order; a failed write leaves the file as it was |
| `RegistryStore.MLflow.Taken` | internal/store/mlflow.go:415-419 | the loop finds an active experiment of the name, other than the one excepted, exactly when there is one |
| `RegistryStore.MLflow.CreateExperiment` | internal/store/mlflow.go:408-435 | errors, whole new state, file and reply, for a write that succeeds or fails |
| `RegistryStore.MLflow.UpdateExperiment` | internal/store/mlflow.go:497-519 | the same for renaming an experiment |
| `RegistryStore.MLflow.DeleteExperiment` | internal/store/mlflow.go:522-532 | the same for deleting one |
| `RegistryStore.MLflow.RestoreExperiment` | internal/store/mlflow.go:535-550 | the same for restoring one, refused while another active experiment has its name |
| `RegistryStore.MLflow.CreateRun` | internal/store/mlflow.go:553-595 | the same for starting a run |
| `RegistryStore.MLflow.CreateModel` | internal/store/mlflow.go:847-871 | the same for registering a model |
| `RegistryStore.MLflow.RenameModel` | internal/store/mlflow.go:926-955 | the same for renaming a model with every version it has |
| `RegistryStore.MLflow.DeleteModel` | internal/store/mlflow.go:958-967 | the same for removing a model with its versions |
| `RegistryStore.MLflow.CreateModelVersion` | internal/store/mlflow.go:970-1005 | the same for adding a version under the next number |
| `RegistryStore.MLflow.TransitionStage` | internal/store/mlflow.go:1079-1112 | the same for moving a version, archiving others if asked |
| `RegistryStore.MLflow.UpdateModel` | internal/store/mlflow.go:910-923 | the same for describing a model |
| `RegistryStore.MLflow.UpdateModelVersion` | internal/store/mlflow.go:1063-1076 | the same for describing a version |
| `Registry.FindVersion` | internal/store/mlflow.go:1007-1017 | the first version with the number, or none |
| `RegistryStore.Move` | internal/store/mlflow.go:1094-1104 | the archiving loop and the move change exactly the versions they should |
| `RegistryStore.CollectTags` | internal/store/mlflow.go:574-583 | the loop keeps the last value of each tag, and the first non-empty run name |

## Left out

- HTTP, authentication, request parsing, response rendering and the engine: the engine's, dbt's and
  the secret store's answers are arbitrary values, one for each dispatched task. `parseTask`
  accepts only what `JobModel` can express.
- `Executor.RunWave`: a dispatched task's body takes effect at one moment, its completion; its own
  steps, and what other runs do between them, are in `RunTree`.
- `Executor.RunIterations`: the same for an iteration's body. In `RunTree` an iteration gives its
  token back in the step that returns its result; `BoundedLoop` has the finer steps.
- `Executor.ExecuteRun`: a run is cancelled beforehand or not at all; cancels that arrive while it
  runs are in `RunProtocol` and, for whole trees of runs, in `RunTree`.
- Cancelling a parent run does not cancel its child runs.
- `NestedRuns.RunStartsAtMost`: counts the child runs of a run in which nobody cancels anything, as
  `TreeCounts.UncancelledTreesCount` does in trees; `TreeBounds.TreesAreBounded` has the bound for
  every history.
- `NestedRuns.TopRunStartsAtMost`: the same.
- Jobs are fixed while a run of them executes (no reset or delete meanwhile), a condition task is
  not a loop's body, and a child run's record cannot vanish, since runs are never deleted.
- The ids of child runs are left out when results are compared with the meaning, since numbering
  depends on the order in which runs start; what the ids promise is in `TreeIds`.
- `Scheduler.ConditionFamilies`: operands are texts that may also read as numbers; parsing them is
  not part of the model, nor is rounding.
- An unrecognised `run_if` behaves as ALL_SUCCESS in the code; the model has one constructor for
  both.
- Lists shared inside a run's task results (iterations, artifacts) are values, so their aliasing is
  not modelled; the run object and its task array are on the heap.
- `HandleTable`: clock readings are arguments of each critical section, fresh handles are keys
  nothing uses, and Thrift responses are reduced to their answers.
- `Columns.PackColumn`: DOUBLE values are real numbers read by an arbitrary function; rounding, and
  the text of other JSON values inside string columns, are not modelled.
- `Columns.TableFromObjects`: the sorted keys of the first row are given, and so is the key order
  read from the raw text.
- `LikePattern.TranslationPreservesMeaning`: character classes of path globs, which the
  translation never writes, are outside the glob parser.
- `SqlIdent.RewriteCreateTable`: whether a regular expression matches is a given boolean, and the
  splicing of the location clause into the body is left out, as are comment stripping and
  CREATE SCHEMA. Text is a sequence of characters, not of UTF-8 bytes.
- `Registry`: records are values in the store's maps rather than heap objects, because every
  reply is a copy and no record is reachable from outside; updates of a record replace its map
  entry. JSON encoding is the identity, timestamps and the experiment counter do not wrap. A run's
  own updates (status, lifecycle, metrics, parameters, tags, and `LogBatch`, which keeps its earlier
  entries when a later one is refused) and the readers (`LatestVersions`, `ListVersions`, the
  searches and getters) are not among the modelled operations.
- Clusters, policies, secrets, warehouses, command contexts, SCIM, DBFS, generated scripts: simple
  keyed records or input and output, which would only add easy members.
