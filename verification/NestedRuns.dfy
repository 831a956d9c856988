// What a run means when its tasks may run other jobs and loops: a recursive function of the
// job definitions and of the engine's answers, and how failures and child runs add up.
module NestedRuns {
  import opened Basics
  import opened JobModel
  import opened Scheduler
  import Decimal

  // ------------------------------------------------------------- the outside world

  // Where in the tree of runs a task is dispatched: the run at the top, then the task keys and
  // loop indices above it.
  datatype Hop = ToRun(id: int) | ToTask(key: string) | ToInput(index: nat)
  type Path = seq<Hop>

  datatype Reply =
    | Unreachable(message: string)
    | Answer(ok: bool, stdout: string, errorValue: string, errorName: string)

  datatype DbtReply = DbtReply(ok: bool, stdout: string, stderr: string, artifacts: map<string, string>)

  // The job definitions, whether an engine is attached, and an arbitrary answer of the engine,
  // the secret scopes and the code store for every single dispatch.
  datatype Env = Env(
    jobs: map<int, Job>,
    attached: bool,
    secretError: (Path, Task) -> Option<string>,
    codeError: (Path, Task) -> Option<string>,
    spark: (Path, Task) -> Reply,
    dbt: (Path, Task) -> DbtReply)

  const MAX_RUN_JOB_DEPTH := 5

  // ------------------------------------------------------------------- leaf tasks

  function FailedRun(key: string, stderr: string): TaskRun { Bare(key, Failed).(stderr := stderr) }

  function DbtRun(key: string, r: DbtReply): TaskRun
  {
    Bare(key, if r.ok then Success else Failed).(stdout := r.stdout, stderr := r.stderr, artifacts := r.artifacts)
  }

  function LeafRun(env: Env, t: Task, path: Path): TaskRun
  {
    match env.codeError(path, t)
    case Some(e) => FailedRun(t.key, e)
    case None =>
      match env.spark(path, t)
      case Unreachable(message) => FailedRun(t.key, message)
      case Answer(ok, stdout, errorValue, errorName) =>
        var tr := Bare(t.key, if ok then Success else Failed).(stdout := stdout, stderr := errorValue);
        if !ok && errorValue == "" then tr.(stderr := errorName) else tr
  }

  /** A leaf task succeeds exactly when its code was found and the engine answered that it ran; its output
      is the engine's. Otherwise it fails, and its stderr says why: whatever reason came, the error's name
      only when the error has no text. */
  lemma LeafSucceedsIff(env: Env, t: Task, path: Path)
    ensures
      var tr, code, reply := LeafRun(env, t, path), env.codeError(path, t), env.spark(path, t);
      && tr.key == t.key && tr.lifeCycle == Terminated && tr.resultState in {Success, Failed}
      && (tr.resultState == Success <==> code.None? && reply.Answer? && reply.ok)
      && (code.None? && reply.Answer? ==> tr.stdout == reply.stdout)
      && (code.Some? || reply.Unreachable? ==> tr.stdout == "")
      && (tr.resultState == Failed ==>
            tr.stderr == if code.Some? then code.value
                         else if reply.Unreachable? then reply.message
                         else if reply.errorValue != "" then reply.errorValue else reply.errorName)
  {
  }

  // ------------------------------------------------------------------------ loops

  predicate At(text: string, i: nat, word: string) { i + |word| <= |text| && text[i..i + |word|] == word }

  /** Every occurrence of a word replaced, scanning from the left without overlap. */
  function ReplaceAll(text: string, word: string, substitute: string): string
    requires word != ""
    decreases |text|
  {
    if text == "" then ""
    else if At(text, 0, word) then substitute + ReplaceAll(text[|word|..], word, substitute)
    else [text[0]] + ReplaceAll(text[1..], word, substitute)
  }

  function WithInput(text: string, input: string): string { ReplaceAll(text, "{{input}}", input) }

  /** An iteration's task differs from the loop's nested task in its key and its parameters only, and
      different inputs give different keys. */
  lemma {:induction false} IterationIsNested(t: Task, parentKey: string, a: string, b: string)
    ensures
      var nested := SubstituteInput(t, parentKey, a);
      && nested.key == parentKey + "_" + a
      && nested.(key := t.key, pythonParams := t.pythonParams, notebookParams := t.notebookParams) == t
      && |nested.pythonParams| == |t.pythonParams| && nested.notebookParams.Keys == t.notebookParams.Keys
      && (forall i | 0 <= i < |t.pythonParams| :: nested.pythonParams[i] == WithInput(t.pythonParams[i], a))
      && (forall k | k in t.notebookParams :: nested.notebookParams[k] == WithInput(t.notebookParams[k], a))
    ensures SubstituteInput(t, parentKey, a).key == SubstituteInput(t, parentKey, b).key <==> a == b
  {
    hide WithInput;
    var p := parentKey + "_";
    assert (p + a)[|p|..] == a && (p + b)[|p|..] == b;
  }

  /** The nested task as one iteration sees it. */
  function SubstituteInput(t: Task, parentKey: string, input: string): (nested: Task)
    ensures Nesting(nested) == Nesting(t) && nested.runJob == t.runJob && nested.forEach == t.forEach
  {
    t.(key := parentKey + "_" + input,
       pythonParams :=
         seq(|t.pythonParams|, i requires 0 <= i < |t.pythonParams| => WithInput(t.pythonParams[i], input)),
       notebookParams := map k | k in t.notebookParams :: WithInput(t.notebookParams[k], input))
  }

  function Stdouts(runs: seq<TaskRun>): string
  {
    if runs == [] then "" else Stdouts(runs[..|runs| - 1]) + runs[|runs| - 1].stdout
  }

  function Stderrs(runs: seq<TaskRun>): string
  {
    if runs == [] then "" else Stderrs(runs[..|runs| - 1]) + runs[|runs| - 1].stderr
  }

  /** Outputs are joined in the order of the results. */
  lemma {:induction false} OutputsJoin(a: seq<TaskRun>, b: seq<TaskRun>)
    ensures Stdouts(a + b) == Stdouts(a) + Stdouts(b) && Stderrs(a + b) == Stderrs(a) + Stderrs(b)
  {
    hide Stdouts, Stderrs;
    StdoutsJoin(a, b);
    StderrsJoin(a, b);
  }

  lemma {:induction false} StdoutsJoin(a: seq<TaskRun>, b: seq<TaskRun>)
    ensures Stdouts(a + b) == Stdouts(a) + Stdouts(b)
    decreases |b|
  {
    if b == [] {
      assert a + b == a;
    } else {
      assert (a + b)[..|a + b| - 1] == a + b[..|b| - 1];
      StdoutsJoin(a, b[..|b| - 1]);
    }
  }

  lemma {:induction false} StderrsJoin(a: seq<TaskRun>, b: seq<TaskRun>)
    ensures Stderrs(a + b) == Stderrs(a) + Stderrs(b)
    decreases |b|
  {
    if b == [] {
      assert a + b == a;
    } else {
      assert (a + b)[..|a + b| - 1] == a + b[..|b| - 1];
      StderrsJoin(a, b[..|b| - 1]);
    }
  }

  lemma OneOutput(tr: TaskRun)
    ensures Stdouts([tr]) == tr.stdout && Stderrs([tr]) == tr.stderr
  {
    assert [tr][..0] == [];
    assert Stdouts([]) + tr.stdout == tr.stdout;
  }

  function Unsuccessful(runs: seq<TaskRun>): nat
  {
    if runs == [] then 0
    else Unsuccessful(runs[..|runs| - 1]) + if runs[|runs| - 1].resultState != Success then 1 else 0
  }

  /** A loop's result, from its iterations in input order. */
  function LoopRun(key: string, runs: seq<TaskRun>): TaskRun
  {
    var failed := Unsuccessful(runs);
    var stderr := if failed == 0 then Stderrs(runs)
      else Decimal.Format(failed) + " of " + Decimal.Format(|runs|) + " iterations failed\n" + Stderrs(runs);
    Bare(key, if failed == 0 then Success else Failed).(iterations := runs, stdout := Stdouts(runs), stderr := stderr)
  }

  lemma {:induction false} NoneUnsuccessful(runs: seq<TaskRun>)
    ensures Unsuccessful(runs) == 0 <==> forall r | r in runs :: r.resultState == Success
  {
    if runs != [] {
      var front := runs[..|runs| - 1];
      NoneUnsuccessful(front);
      assert runs == front + [runs[|runs| - 1]];
    }
  }

  /** A loop reports SUCCESS exactly when every iteration did, and FAILED otherwise. */
  lemma LoopSucceedsIffAllDo(key: string, runs: seq<TaskRun>)
    ensures LoopRun(key, runs).resultState == Success <==> forall r | r in runs :: r.resultState == Success
    ensures LoopRun(key, runs).resultState == Failed <==> exists r | r in runs :: r.resultState != Success
  {
    NoneUnsuccessful(runs);
  }

  /** What a loop reports: its iterations' outputs in input order, and, when some did not succeed, in front
      of their errors how many of how many. */
  lemma {:induction false} LoopReports(key: string, a: seq<TaskRun>, tr: TaskRun, b: seq<TaskRun>)
    ensures
      var runs, loop := a + [tr] + b, LoopRun(key, a + [tr] + b);
      && loop.key == key && loop.iterations == runs && loop.lifeCycle == Terminated
      && loop.stdout == Stdouts(a) + tr.stdout + Stdouts(b)
      && (loop.resultState == Success ==> loop.stderr == Stderrs(a) + tr.stderr + Stderrs(b))
      && (loop.resultState != Success ==> exists bad: nat ::
            && 0 < bad <= |runs| && bad == Unsuccessful(runs)
            && loop.stderr == Decimal.Format(bad) + " of " + Decimal.Format(|runs|) + " iterations failed\n" +
                              (Stderrs(a) + tr.stderr + Stderrs(b)))
  {
    hide Decimal.Format;
    OutputsJoin(a + [tr], b);
    OutputsJoin(a, [tr]);
    OneOutput(tr);
    UnsuccessfulAtMost(a + [tr] + b);
  }

  lemma {:induction false} UnsuccessfulAtMost(runs: seq<TaskRun>)
    ensures Unsuccessful(runs) <= |runs|
  {
    if runs != [] {
      UnsuccessfulAtMost(runs[..|runs| - 1]);
    }
  }

  function Misses(runs: seq<TaskRun>): set<int> { set i | 0 <= i < |runs| && runs[i].resultState != Success }

  /** The count is of the iterations that did not succeed. */
  lemma {:induction false} UnsuccessfulCounts(runs: seq<TaskRun>)
    ensures Unsuccessful(runs) == |Misses(runs)|
  {
    if runs != [] {
      hide Misses;
      UnsuccessfulCounts(runs[..|runs| - 1]);
      OneMoreMiss(runs);
    }
  }

  lemma OneMoreMiss(runs: seq<TaskRun>)
    requires runs != []
    ensures |Misses(runs)| ==
      |Misses(runs[..|runs| - 1])| + if runs[|runs| - 1].resultState != Success then 1 else 0
  {
    var n := |runs| - 1;
    assert forall i | 0 <= i < n :: runs[..n][i] == runs[i];
    assert Misses(runs) == Misses(runs[..n]) + if runs[n].resultState != Success then {n} else {};
  }

  // ------------------------------------------------------------------- the meaning

  /** How a run ends: what its last publish carries. */
  datatype Ending = Ending(state: ResultState, message: string, tasks: seq<TaskRun>, stdout: string, stderr: string)

  function NoEngine(): Ending
  {
    Ending(Failed, "no Spark engine is attached \U{2014} set DATABRICKS_SPARK_CONNECT_URL", [], "", "")
  }

  /** The result list follows the job's task list, whatever order the tasks ran in. */
  function InTaskOrder(tasks: seq<Task>, results: Results): (runs: seq<TaskRun>)
    requires forall t | t in tasks :: t.key in results
    ensures |runs| == |tasks| && forall i | 0 <= i < |tasks| :: runs[i] == results[tasks[i].key]
  {
    seq(|tasks|, i requires 0 <= i < |tasks| => results[tasks[i].key])
  }

  predicate AnyFailed(runs: seq<TaskRun>) { exists r | r in runs :: r.resultState == Failed }

  function Conclude(tasks: seq<Task>, results: Results): Ending
    requires forall t | t in tasks :: t.key in results
  {
    var runs := InTaskOrder(tasks, results);
    Ending(if AnyFailed(runs) then Failed else Success, "", runs, Stdouts(runs), Stderrs(runs))
  }

  function Remaining(depth: nat): nat { if depth <= MAX_RUN_JOB_DEPTH then MAX_RUN_JOB_DEPTH + 1 - depth else 0 }

  function Nesting(t: Task): nat { if t.forEach.Some? then 1 + Nesting(t.forEach.value.task) else 0 }

  ghost function RunMeaning(env: Env, job: Job, depth: nat, path: Path): Ending
    decreases Remaining(depth), 2, 0
  {
    if !env.attached then NoEngine()
    else Conclude(job.tasks, FinalResults(ByKey(job.tasks), WorkAt(env, depth, path)))
  }

  ghost function WorkAt(env: Env, depth: nat, path: Path): Work
    decreases Remaining(depth), 1, 0
  {
    (t: Task) => TaskMeaning(env, t, depth, path + [ToTask(t.key)])
  }

  /** One dispatched task's result. Child run ids are left 0 here: they depend on the
      interleaving and nothing is decided on them. */
  ghost function TaskMeaning(env: Env, t: Task, depth: nat, path: Path): TaskRun
    decreases Remaining(depth), 0, 1 + Nesting(t)
  {
    if env.secretError(path, t).Some? then FailedRun(t.key, env.secretError(path, t).value)
    else if t.isDbt then DbtRun(t.key, env.dbt(path, t))
    else if t.runJob.Some? then ChildMeaning(env, t.key, t.runJob.value, depth, path)
    else if t.forEach.Some? then
      var loop := t.forEach.value;
      LoopRun(t.key, seq(|loop.inputs|, i requires 0 <= i < |loop.inputs| =>
        TaskMeaning(env, SubstituteInput(loop.task, t.key, loop.inputs[i]), depth, path + [ToInput(i)])))
    else LeafRun(env, t, path)
  }

  function MissingJob(key: string, jobID: int): TaskRun
  {
    FailedRun(key, "run_job_task.job_id " + Decimal.Format(jobID) + " does not exist")
  }

  function NestedTooDeep(key: string): TaskRun
  {
    FailedRun(key, "run_job_task nested deeper than " + Decimal.Format(MAX_RUN_JOB_DEPTH)
                     + ": a job that runs itself, directly or through a cycle, would not terminate")
  }

  /** A run_job task reports the child run's ending as its own. */
  function ChildRun(key: string, ending: Ending): TaskRun
  {
    Bare(key, ending.state).(stdout := ending.stdout, stderr := ending.stderr)
  }

  ghost function ChildMeaning(env: Env, key: string, jobID: int, depth: nat, path: Path): TaskRun
    decreases Remaining(depth), 0, 0
  {
    if jobID !in env.jobs then MissingJob(key, jobID)
    else if depth + 1 > MAX_RUN_JOB_DEPTH then NestedTooDeep(key)
    else ChildRun(key, RunMeaning(env, env.jobs[jobID], depth + 1, path))
  }

  /** What a run shows at its end: one result a task, in the job's order, and their outputs joined in that
      order, so that the last task's come last. */
  lemma {:induction false} ConcludeLists(tasks: seq<Task>, t: Task, results: Results)
    requires forall u | u in tasks + [t] :: u.key in results
    ensures
      var before, e := Conclude(tasks, results), Conclude(tasks + [t], results);
      && e.tasks == before.tasks + [results[t.key]] && e.message == ""
      && e.stdout == before.stdout + results[t.key].stdout && e.stderr == before.stderr + results[t.key].stderr
      && (e.state == Failed <==> before.state == Failed || results[t.key].resultState == Failed)
      && e.state in {Success, Failed}
  {
    hide Stdouts, Stderrs;
    var runs := InTaskOrder(tasks, results);
    assert forall u | u in tasks :: u in tasks + [t];
    assert t in tasks + [t];
    assert InTaskOrder(tasks + [t], results) == runs + [results[t.key]];
    OutputsJoin(runs, [results[t.key]]);
    OneOutput(results[t.key]);
    assert AnyFailed(runs + [results[t.key]]) <==> AnyFailed(runs) || results[t.key].resultState == Failed;
  }

  lemma ConcludeNothing()
    ensures Conclude([], map[]) == Ending(Success, "", [], "", "")
  {
  }

  /** Without an engine a run fails and says so, looks at none of its tasks and starts nothing. */
  lemma WithoutEngine(env: Env, job: Job, depth: nat, path: Path)
    requires !env.attached
    ensures
      var e := RunMeaning(env, job, depth, path);
      && e.state == Failed && e.tasks == [] && e.stdout == e.stderr == "" && e.message != ""
    ensures RunsStarted(env, job, depth, path) == 0
  {
  }

  /** Which case a dispatched task falls under, in the code's order: an unresolved secret first, then dbt,
      then a child run, which is refused when its job is unknown or too deep, then a loop, then the engine. */
  lemma {:induction false} TaskCases(env: Env, t: Task, depth: nat, path: Path)
    ensures
      var tr := TaskMeaning(env, t, depth, path);
      && (env.secretError(path, t).Some? ==>
            tr.resultState == Failed && tr.stdout == "" && tr.stderr == env.secretError(path, t).value)
      && (env.secretError(path, t).None? && t.isDbt ==>
            var r := env.dbt(path, t);
            && (tr.resultState == Success <==> r.ok) && (tr.resultState == Failed <==> !r.ok)
            && tr.stdout == r.stdout && tr.stderr == r.stderr && tr.artifacts == r.artifacts)
      && (env.secretError(path, t).None? && !t.isDbt && t.runJob.Some? ==>
            if t.runJob.value !in env.jobs || depth >= 5 then tr.resultState == Failed && tr.stderr != ""
            else
              var e := RunMeaning(env, env.jobs[t.runJob.value], depth + 1, path);
              tr.resultState == e.state && tr.stdout == e.stdout && tr.stderr == e.stderr)
      && (env.secretError(path, t).None? && !t.isDbt && t.runJob.None? && t.forEach.Some? ==>
            |tr.iterations| == |t.forEach.value.inputs|)
      && (env.secretError(path, t).None? && !t.isDbt && t.runJob.None? && t.forEach.None? ==>
            tr == LeafRun(env, t, path))
  {
    hide RunMeaning, LeafRun, Decimal.Format, SubstituteInput;
  }

  // ------------------------------------------------------------ failure propagation

  lemma ConcludeFails(tasks: seq<Task>, results: Results)
    requires results.Keys == ByKey(tasks).Keys
    ensures Conclude(tasks, results).state ==
      if exists k | k in results :: results[k].resultState == Failed then Failed else Success
  {
    var runs := InTaskOrder(tasks, results);
    forall k | k in results && results[k].resultState == Failed ensures AnyFailed(runs) {
      var i :| 0 <= i < |tasks| && tasks[i] == ByKey(tasks)[k];
      assert runs[i] in runs;
    }
  }

  /** Every task's result, in a run with an engine. */
  ghost function ResultsOf(env: Env, job: Job, depth: nat, path: Path): Results
  {
    FinalResults(ByKey(job.tasks), WorkAt(env, depth, path))
  }

  /** An uncancelled run with an engine ends FAILED exactly when some task of it did, and
      SUCCESS otherwise. */
  lemma {:induction false} FailedIffSomeTaskFailed(env: Env, job: Job, depth: nat, path: Path)
    requires env.attached
    ensures
      var results := ResultsOf(env, job, depth, path);
      RunMeaning(env, job, depth, path).state ==
        if exists k | k in results :: results[k].resultState == Failed then Failed else Success
  {
    ConcludeFails(job.tasks, ResultsOf(env, job, depth, path));
  }

  // A run in the tree of runs.
  datatype Node = Node(job: Job, depth: nat, path: Path)

  ghost function EndingOf(env: Env, n: Node): Ending { RunMeaning(env, n.job, n.depth, n.path) }

  /** Dispatching the task starts the given child run, directly or from a loop iteration. */
  ghost predicate TaskStarts(env: Env, t: Task, depth: nat, path: Path, child: Node)
    decreases Nesting(t)
  {
    env.secretError(path, t).None? && !t.isDbt &&
    if t.runJob.Some? then
      && t.runJob.value in env.jobs && depth + 1 <= MAX_RUN_JOB_DEPTH
      && child == Node(env.jobs[t.runJob.value], depth + 1, path)
    else
      t.forEach.Some? &&
      var loop := t.forEach.value;
      exists i | 0 <= i < |loop.inputs| ::
        TaskStarts(env, SubstituteInput(loop.task, t.key, loop.inputs[i]), depth, path + [ToInput(i)], child)
  }

  /** The run dispatches a task that starts the child. */
  ghost predicate RunStarts(env: Env, parent: Node, child: Node)
  {
    env.attached &&
    var g := ByKey(parent.job.tasks);
    exists k | k in g ::
      Executes(g, WorkAt(env, parent.depth, parent.path), k) && g[k].condition.None? &&
      TaskStarts(env, g[k], parent.depth, parent.path + [ToTask(k)], child)
  }

  lemma {:induction false} FailedChildFailsTask(env: Env, t: Task, depth: nat, path: Path, child: Node)
    requires TaskStarts(env, t, depth, path, child) && EndingOf(env, child).state == Failed
    ensures TaskMeaning(env, t, depth, path).resultState == Failed
    decreases Nesting(t)
  {
    hide RunMeaning, SubstituteInput, LoopRun;
    if t.runJob.None? {
      var loop := t.forEach.value;
      var i :| 0 <= i < |loop.inputs| &&
        TaskStarts(env, SubstituteInput(loop.task, t.key, loop.inputs[i]), depth, path + [ToInput(i)], child);
      FailedChildFailsTask(env, SubstituteInput(loop.task, t.key, loop.inputs[i]), depth, path + [ToInput(i)], child);
      FailedIterationFailsLoop(env, t, depth, path, i);
    }
  }

  lemma {:induction false} FailedIterationFailsLoop(env: Env, t: Task, depth: nat, path: Path, i: nat)
    requires env.secretError(path, t).None? && !t.isDbt && t.runJob.None? && t.forEach.Some?
    requires i < |t.forEach.value.inputs|
    requires TaskMeaning(env, SubstituteInput(t.forEach.value.task, t.key, t.forEach.value.inputs[i]), depth,
                         path + [ToInput(i)]).resultState == Failed
    ensures TaskMeaning(env, t, depth, path).resultState == Failed
  {
    hide RunMeaning, Bare, SubstituteInput;
    var runs := TaskMeaning(env, t, depth, path).iterations;
    assert runs[i].resultState == Failed && runs[i] in runs;
    LoopSucceedsIffAllDo(t.key, runs);
  }

  lemma {:induction false} FailedChildFailsParent(env: Env, parent: Node, child: Node)
    requires RunStarts(env, parent, child) && EndingOf(env, child).state == Failed
    ensures EndingOf(env, parent).state == Failed
  {
    hide RunMeaning, TaskMeaning, TaskStarts, Grounded, Meaning;
    var g, work := ByKey(parent.job.tasks), WorkAt(env, parent.depth, parent.path);
    var k :| k in g && Executes(g, work, k) && g[k].condition.None? &&
      TaskStarts(env, g[k], parent.depth, parent.path + [ToTask(k)], child);
    FailedChildFailsTask(env, g[k], parent.depth, parent.path + [ToTask(k)], child);
    FinalEquation(g, work, k);
    assert Final(g, work, k) == work(g[k]);
    ResultAt(env, parent.job, parent.depth, parent.path, k);
    FailedResultFailsRun(env, parent.job, parent.depth, parent.path, k);
  }

  lemma ResultAt(env: Env, job: Job, depth: nat, path: Path, k: string)
    requires k in ByKey(job.tasks)
    ensures k in ResultsOf(env, job, depth, path)
    ensures ResultsOf(env, job, depth, path)[k] == Final(ByKey(job.tasks), WorkAt(env, depth, path), k)
  {
    hide Final;
  }

  ghost function StartsIn(env: Env): (Node, Node) -> bool { (a: Node, b: Node) => RunStarts(env, a, b) }

  ghost function FailsIn(env: Env): Node -> bool { (n: Node) => EndingOf(env, n).state == Failed }

  /** Each node of the chain is linked to the next. */
  ghost predicate Chain<T(!new)>(chain: seq<T>, linked: (T, T) -> bool)
  {
    |chain| <= 1 || (linked(chain[0], chain[1]) && Chain(chain[1..], linked))
  }

  lemma {:induction false} UpTheChain<T(!new)>(chain: seq<T>, linked: (T, T) -> bool, p: T -> bool)
    requires chain != [] && Chain(chain, linked) && p(chain[|chain| - 1])
    requires forall a, b :: linked(a, b) && p(b) ==> p(a)
    ensures p(chain[0])
    decreases |chain|
  {
    if |chain| > 1 {
      UpTheChain(chain[1..], linked, p);
    }
  }

  /** With no cancels, a FAILED run at any nesting depth makes the run at the top FAILED (and,
      a chain's tails being chains, every run in between). */
  lemma {:induction false} FailureReachesTheTop(env: Env, chain: seq<Node>)
    requires chain != []
    ensures Chain(chain, StartsIn(env)) && FailsIn(env)(chain[|chain| - 1]) ==> FailsIn(env)(chain[0])
  {
    forall a, b | StartsIn(env)(a, b) && FailsIn(env)(b) ensures FailsIn(env)(a) {
      FailedChildFailsParent(env, a, b);
    }
    if Chain(chain, StartsIn(env)) && FailsIn(env)(chain[|chain| - 1]) {
      UpTheChain(chain, StartsIn(env), FailsIn(env));
    }
  }

  // ------------------------------------------------------------- how many child runs

  ghost function SumTo(n: nat, f: nat -> nat): nat { if n == 0 then 0 else SumTo(n - 1, f) + f(n - 1) }

  ghost function Indices(n: nat): set<nat> { if n == 0 then {} else Indices(n - 1) + {n - 1} }

  lemma {:induction false} InIndices(n: nat, i: nat)
    ensures i in Indices(n) <==> i < n
  {
    if n > 0 {
      InIndices(n - 1, i);
    }
  }

  lemma {:induction false} SumOverIndices(n: nat, f: nat -> nat)
    ensures Sum<nat>(Indices(n), f) == SumTo(n, f)
  {
    if n > 0 {
      SumOverIndices(n - 1, f);
      InIndices(n - 1, n - 1);
      SumAdd<nat>(Indices(n - 1), f, n - 1);
    } else {
      assert Indices(0) == {};
    }
  }

  lemma {:induction false} CountIndices(n: nat)
    ensures |Indices(n)| == n
  {
    if n > 0 {
      CountIndices(n - 1);
      InIndices(n - 1, n - 1);
    }
  }

  /** How many child runs one run starts, its children's children included. */
  ghost function RunsStarted(env: Env, job: Job, depth: nat, path: Path): nat
    decreases Remaining(depth), 2, 0
  {
    if !env.attached then 0
    else
      var g := ByKey(job.tasks);
      Sum(Dispatched(g, WorkAt(env, depth, path)), StartedAt(env, g, depth, path))
  }

  /** The keys handed to the engine side: they run and are not conditions. */
  ghost function Dispatched(g: Graph, work: Work): set<string>
  {
    set k | k in g && Executes(g, work, k) && g[k].condition.None?
  }

  ghost function StartedAt(env: Env, g: Graph, depth: nat, path: Path): string -> nat
    decreases Remaining(depth), 1, 0
  {
    (k: string) => if k in g then StartedByTask(env, g[k], depth, path + [ToTask(k)]) else 0
  }

  ghost function StartedByTask(env: Env, t: Task, depth: nat, path: Path): nat
    decreases Remaining(depth), 0, 2 * Nesting(t) + 1
  {
    if env.secretError(path, t).Some? || t.isDbt then 0
    else if t.runJob.Some? then
      if t.runJob.value !in env.jobs || depth + 1 > MAX_RUN_JOB_DEPTH then 0
      else 1 + RunsStarted(env, env.jobs[t.runJob.value], depth + 1, path)
    else if t.forEach.Some? then
      var loop := t.forEach.value;
      SumTo(|loop.inputs|, StartedByIteration(env, loop, t.key, depth, path))
    else 0
  }

  ghost function StartedByIteration(env: Env, loop: ForEach, key: string, depth: nat, path: Path): nat -> nat
    decreases Remaining(depth), 0, 2 * Nesting(loop.task) + 2
  {
    (i: nat) =>
      if i < |loop.inputs| then
        StartedByTask(env, SubstituteInput(loop.task, key, loop.inputs[i]), depth, path + [ToInput(i)])
      else 0
  }

  ghost predicate StartsAny(env: Env, t: Task, depth: nat, path: Path)
  {
    exists child :: TaskStarts(env, t, depth, path, child)
  }

  /** A task counts child runs exactly when it starts some. */
  lemma {:induction false} TaskStartsIff(env: Env, t: Task, depth: nat, path: Path)
    ensures StartedByTask(env, t, depth, path) > 0 <==> StartsAny(env, t, depth, path)
    decreases Nesting(t)
  {
    hide SubstituteInput;
    if env.secretError(path, t).None? && !t.isDbt && t.runJob.None? && t.forEach.Some? {
      hide StartsAny, StartedByTask;
      var loop := t.forEach.value;
      forall i: nat | i < |loop.inputs|
        ensures StartedByIteration(env, loop, t.key, depth, path)(i) > 0 <==>
          StartsAny(env, SubstituteInput(loop.task, t.key, loop.inputs[i]), depth, path + [ToInput(i)])
      {
        TaskStartsIff(env, SubstituteInput(loop.task, t.key, loop.inputs[i]), depth, path + [ToInput(i)]);
      }
      LoopStartsIff(env, t, depth, path);
    } else {
      NoLoopStartsIff(env, t, depth, path);
    }
  }

  lemma NoLoopStartsIff(env: Env, t: Task, depth: nat, path: Path)
    requires env.secretError(path, t).Some? || t.isDbt || t.runJob.Some? || t.forEach.None?
    ensures StartedByTask(env, t, depth, path) > 0 <==> StartsAny(env, t, depth, path)
  {
    hide RunsStarted, SubstituteInput;
    if env.secretError(path, t).None? && !t.isDbt && t.runJob.Some? && t.runJob.value in env.jobs &&
       depth + 1 <= MAX_RUN_JOB_DEPTH {
      assert TaskStarts(env, t, depth, path, Node(env.jobs[t.runJob.value], depth + 1, path));
    }
  }

  lemma {:induction false} LoopStartsIff(env: Env, t: Task, depth: nat, path: Path)
    requires env.secretError(path, t).None? && !t.isDbt && t.runJob.None? && t.forEach.Some?
    requires
      var loop := t.forEach.value;
      forall i: nat | i < |loop.inputs| ::
        StartedByIteration(env, loop, t.key, depth, path)(i) > 0 <==>
          StartsAny(env, SubstituteInput(loop.task, t.key, loop.inputs[i]), depth, path + [ToInput(i)])
    ensures StartedByTask(env, t, depth, path) > 0 <==> StartsAny(env, t, depth, path)
  {
    hide SubstituteInput, SumTo, StartedByIteration, TaskStarts, StartsAny, RunsStarted;
    var loop := t.forEach.value;
    var f := StartedByIteration(env, loop, t.key, depth, path);
    SumToPositive(|loop.inputs|, f);
    LoopStartsSome(env, t, depth, path);
    if i: nat :| i < |loop.inputs| && f(i) > 0 {
      assert StartsAny(env, SubstituteInput(loop.task, t.key, loop.inputs[i]), depth, path + [ToInput(i)]);
    }
    if i: nat :| i < |loop.inputs| &&
                 StartsAny(env, SubstituteInput(loop.task, t.key, loop.inputs[i]), depth, path + [ToInput(i)]) {
      assert f(i) > 0;
    }
  }

  lemma {:induction false} LoopStartsSome(env: Env, t: Task, depth: nat, path: Path)
    requires env.secretError(path, t).None? && !t.isDbt && t.runJob.None? && t.forEach.Some?
    ensures
      var loop := t.forEach.value;
      StartsAny(env, t, depth, path) <==>
        exists i: nat | i < |loop.inputs| ::
          StartsAny(env, SubstituteInput(loop.task, t.key, loop.inputs[i]), depth, path + [ToInput(i)])
  {
    hide SubstituteInput;
    var loop := t.forEach.value;
    if i: nat :| i < |loop.inputs| &&
                 StartsAny(env, SubstituteInput(loop.task, t.key, loop.inputs[i]), depth, path + [ToInput(i)]) {
      var nested := SubstituteInput(loop.task, t.key, loop.inputs[i]);
      var child :| TaskStarts(env, nested, depth, path + [ToInput(i)], child);
      assert TaskStarts(env, t, depth, path, child);
    }
    if child :| TaskStarts(env, t, depth, path, child) {
      var i :| 0 <= i < |loop.inputs| &&
        TaskStarts(env, SubstituteInput(loop.task, t.key, loop.inputs[i]), depth, path + [ToInput(i)], child);
      var m: nat := i;
      assert StartsAny(env, SubstituteInput(loop.task, t.key, loop.inputs[m]), depth, path + [ToInput(m)]);
    }
  }

  lemma {:induction false} SumToPositive(n: nat, f: nat -> nat)
    ensures SumTo(n, f) > 0 <==> exists i: nat :: i < n && f(i) > 0
  {
    if n > 0 {
      SumToPositive(n - 1, f);
      assert f(n - 1) > 0 ==> n - 1 < n && f(n - 1) > 0;
    }
  }

  /** The run_job dispatches a task can make: one, or one per input of a loop over one. */
  function Slots(t: Task): nat
  {
    if t.runJob.Some? then 1
    else if t.forEach.Some? then |t.forEach.value.inputs| * Slots(t.forEach.value.task)
    else 0
  }

  function SlotAt(g: Graph): string -> nat { (k: string) => if k in g then Slots(g[k]) else 0 }

  /** The run_job tasks of a job, each loop over one counted once per input. */
  ghost function JobSlots(job: Job): nat { Sum(ByKey(job.tasks).Keys, SlotAt(ByKey(job.tasks))) }

  /** The most child runs below depth d when no job has more than b slots. */
  function Cap(b: nat, d: nat): nat
    decreases Remaining(d)
  {
    if d >= MAX_RUN_JOB_DEPTH then 0 else b * (1 + Cap(b, d + 1))
  }

  lemma {:induction false} CapAtTop(b: nat)
    ensures Cap(b, 0) == b + b * b + b * b * b + b * b * b * b + b * b * b * b * b
  {
    assert Cap(b, 4) == b * (1 + Cap(b, 5)) == b;
    assert Cap(b, 3) == b * (1 + b) == b + b * b;
    assert Cap(b, 2) == b * (1 + (b + b * b)) == b + b * b + b * b * b;
    assert Cap(b, 1) == b * (1 + (b + b * b + b * b * b)) == b + b * b + b * b * b + b * b * b * b;
  }

  /** What one slot at depth d can amount to: a child run and everything below it. */
  function PerSlot(b: nat, d: nat): nat { if d < MAX_RUN_JOB_DEPTH then 1 + Cap(b, d + 1) else 0 }

  ghost predicate SlotsBounded(env: Env, b: nat) { forall id | id in env.jobs :: JobSlots(env.jobs[id]) <= b }

  lemma {:induction false} SumToScaled(n: nat, f: nat -> nat, c: nat)
    requires forall i: nat | i < n :: f(i) <= c
    ensures SumTo(n, f) <= n * c
  {
    if n > 0 {
      SumToScaled(n - 1, f, c);
      assert n * c == (n - 1) * c + c;
    }
  }

  lemma LoopSum(n: nat, f: nat -> nat, slots: nat, per: nat)
    requires forall i: nat | i < n :: f(i) <= slots * per
    ensures SumTo(n, f) <= n * slots * per
  {
    SumToScaled(n, f, slots * per);
    MulAssociates(n, slots, per);
  }

  lemma {:induction false} SlotsOfIteration(t: Task, key: string, input: string)
    ensures Slots(SubstituteInput(t, key, input)) == Slots(t)
    ensures Nesting(SubstituteInput(t, key, input)) == Nesting(t)
  {
  }

  lemma SlotsOfJob(env: Env, id: int, b: nat)
    requires SlotsBounded(env, b) && id in env.jobs
    ensures JobSlots(env.jobs[id]) <= b
  {
  }

  lemma {:induction false} TaskStartsAtMost(env: Env, t: Task, depth: nat, path: Path, b: nat)
    requires SlotsBounded(env, b)
    ensures StartedByTask(env, t, depth, path) <= Slots(t) * PerSlot(b, depth)
    decreases Remaining(depth), 0, 1 + Nesting(t)
  {
    hide SumTo, Cap, JobSlots, SubstituteInput, SlotsBounded, RunsStarted;
    if env.secretError(path, t).Some? || t.isDbt {
    } else if t.runJob.Some? {
      if t.runJob.value in env.jobs && depth + 1 <= MAX_RUN_JOB_DEPTH {
        SlotsOfJob(env, t.runJob.value, b);
        RunStartsAtMost(env, env.jobs[t.runJob.value], depth + 1, path, b);
      }
    } else if t.forEach.Some? {
      var loop := t.forEach.value;
      var f := StartedByIteration(env, loop, t.key, depth, path);
      forall i: nat | i < |loop.inputs| ensures f(i) <= Slots(loop.task) * PerSlot(b, depth) {
        TaskStartsAtMost(env, SubstituteInput(loop.task, t.key, loop.inputs[i]), depth, path + [ToInput(i)], b);
        SlotsOfIteration(loop.task, t.key, loop.inputs[i]);
      }
      LoopSum(|loop.inputs|, f, Slots(loop.task), PerSlot(b, depth));
    }
  }

  lemma {:induction false} SumSubset<T>(a: set<T>, b: set<T>, f: T -> nat)
    requires a <= b
    ensures Sum(a, f) <= Sum(b, f)
    decreases |a|
  {
    if a != {} {
      var x :| x in a;
      SumSplit(a, f, x);
      SumSplit(b, f, x);
      SumSubset(a - {x}, b - {x}, f);
    }
  }

  /** With at most b run_job slots in every job, a run at a given depth starts at most
      Cap(b, depth) child runs: b + b^2 + ... + b^5 from the top (CapAtTop). This holds of
      every job store, including jobs that run themselves or each other. */
  lemma {:induction false} RunStartsAtMost(env: Env, job: Job, depth: nat, path: Path, b: nat)
    requires SlotsBounded(env, b) && JobSlots(job) <= b
    ensures RunsStarted(env, job, depth, path) <= Cap(b, depth)
    decreases Remaining(depth), 2, 0
  {
    if env.attached {
      var g := ByKey(job.tasks);
      DispatchedStartAtMost(env, g, Dispatched(g, WorkAt(env, depth, path)), depth, path, b);
    }
  }

  lemma {:induction false} DispatchedStartAtMost(
      env: Env, g: Graph, dispatched: set<string>, depth: nat, path: Path, b: nat)
    requires SlotsBounded(env, b) && dispatched <= g.Keys && Sum(g.Keys, SlotAt(g)) <= b
    ensures Sum(dispatched, StartedAt(env, g, depth, path)) <= Cap(b, depth)
    decreases Remaining(depth), 1, 0
  {
    forall k | k in dispatched ensures StartedAt(env, g, depth, path)(k) <= SlotAt(g)(k) * PerSlot(b, depth) {
      TaskStartsAtMost(env, g[k], depth, path + [ToTask(k)], b);
    }
    DispatchSum(dispatched, g.Keys, StartedAt(env, g, depth, path), SlotAt(g), PerSlot(b, depth), b);
  }

  lemma DispatchSum(a: set<string>, all: set<string>, started: string -> nat, slots: string -> nat, c: nat, b: nat)
    requires a <= all && Sum(all, slots) <= b && forall k | k in a :: started(k) <= slots(k) * c
    ensures Sum(a, started) <= b * c
  {
    SumScaled(a, started, slots, c);
    SumSubset(a, all, slots);
    MulMonotone(Sum(a, slots), b, c);
  }

  lemma {:induction false} TopRunStartsAtMost(env: Env, job: Job, path: Path, b: nat)
    requires SlotsBounded(env, b) && JobSlots(job) <= b
    ensures RunsStarted(env, job, 0, path) <= b + b * b + b * b * b + b * b * b * b + b * b * b * b * b
  {
    RunStartsAtMost(env, job, 0, path, b);
    CapAtTop(b);
  }

  // ------------------------------------------------------------ a job that runs itself

  /** A job whose one task runs the job itself and can be dispatched. */
  ghost predicate RunsItself(env: Env, job: Job)
  {
    && job.id in env.jobs && env.jobs[job.id] == job
    && |job.tasks| == 1
    && var t := job.tasks[0];
       && t.dependsOn == [] && t.condition.None? && !t.isDbt && t.runJob == Some(job.id)
       && forall path :: env.secretError(path, t).None?
  }

  /** A run of one unconditional task is that task, dispatched once. */
  lemma {:induction false} OneTaskRun(env: Env, job: Job, depth: nat, path: Path)
    requires env.attached && |job.tasks| == 1
    requires job.tasks[0].dependsOn == [] && job.tasks[0].condition.None?
    ensures
      var t := job.tasks[0];
      && ResultsOf(env, job, depth, path) == map[t.key := TaskMeaning(env, t, depth, path + [ToTask(t.key)])]
      && RunsStarted(env, job, depth, path) == StartedByTask(env, t, depth, path + [ToTask(t.key)])
  {
    hide RunMeaning, TaskMeaning, StartedByTask, Meaning;
    var g, work := ByKey(job.tasks), WorkAt(env, depth, path);
    var t := job.tasks[0];
    LaterTaskWins(job.tasks, 0);
    assert g.Keys == {t.key} && g[t.key] == t && DepKeys(t) == {};
    assert Grounded(g, t.key, 1);
    EnoughWaves(g, t.key, 1);
    FinalEquation(g, work, t.key);
    assert Dispatched(g, work) == {t.key};
    SumSplit({t.key}, StartedAt(env, g, depth, path), t.key);
    assert {t.key} - {t.key} == {};
  }

  lemma {:induction false} SelfRunState(env: Env, job: Job, depth: nat, path: Path)
    requires RunsItself(env, job) && env.attached
    requires depth < MAX_RUN_JOB_DEPTH ==>
      RunMeaning(env, job, depth + 1, path + [ToTask(job.tasks[0].key)]).state == Failed
    ensures RunMeaning(env, job, depth, path).state == Failed
  {
    var t := job.tasks[0];
    OneTaskRun(env, job, depth, path);
    assert TaskMeaning(env, t, depth, path + [ToTask(t.key)]).resultState == Failed;
    FailedResultFailsRun(env, job, depth, path, t.key);
  }

  lemma {:induction false} SelfRunCount(env: Env, job: Job, depth: nat, path: Path)
    requires RunsItself(env, job) && env.attached
    ensures RunsStarted(env, job, depth, path) ==
      if depth >= MAX_RUN_JOB_DEPTH then 0 else 1 + RunsStarted(env, job, depth + 1, path + [ToTask(job.tasks[0].key)])
  {
    hide RunMeaning, TaskMeaning, ResultsOf, RunsStarted;
    OneTaskRun(env, job, depth, path);
  }

  lemma FailedResultFailsRun(env: Env, job: Job, depth: nat, path: Path, k: string)
    requires env.attached && k in ResultsOf(env, job, depth, path)
    requires ResultsOf(env, job, depth, path)[k].resultState == Failed
    ensures RunMeaning(env, job, depth, path).state == Failed
  {
    FailedIffSomeTaskFailed(env, job, depth, path);
  }

  ghost predicate StepsDown(p: (nat, Path) -> bool, depth: nat, path: Path, hop: Hop)
  {
    (depth < MAX_RUN_JOB_DEPTH ==> p(depth + 1, path + [hop])) ==> p(depth, path)
  }

  lemma {:induction false} Descend(p: (nat, Path) -> bool, depth: nat, path: Path, hop: Hop)
    requires forall d: nat, q :: StepsDown(p, d, q, hop)
    ensures p(depth, path)
    decreases Remaining(depth)
  {
    if depth < MAX_RUN_JOB_DEPTH {
      Descend(p, depth + 1, path + [hop], hop);
    }
    assert StepsDown(p, depth, path, hop);
  }

  ghost function FailsAt(env: Env, job: Job): (nat, Path) -> bool
  {
    (depth: nat, path: Path) => RunMeaning(env, job, depth, path).state == Failed
  }

  lemma {:induction false} FailStepsDown(env: Env, job: Job, d: nat, q: Path)
    requires RunsItself(env, job) && env.attached
    ensures StepsDown(FailsAt(env, job), d, q, ToTask(job.tasks[0].key))
  {
    hide RunMeaning;
    if d < MAX_RUN_JOB_DEPTH ==> FailsAt(env, job)(d + 1, q + [ToTask(job.tasks[0].key)]) {
      SelfRunState(env, job, d, q);
    }
  }

  /** With an engine attached it ends FAILED at every depth. */
  lemma {:induction false} SelfRunFails(env: Env, job: Job, depth: nat, path: Path)
    requires RunsItself(env, job) && env.attached
    ensures FailsAt(env, job)(depth, path)
  {
    var hop := ToTask(job.tasks[0].key);
    forall d: nat, q ensures StepsDown(FailsAt(env, job), d, q, hop) {
      FailStepsDown(env, job, d, q);
    }
    Descend(FailsAt(env, job), depth, path, hop);
  }

  lemma {:induction false} SelfRunChildren(env: Env, job: Job, depth: nat, path: Path)
    requires RunsItself(env, job) && env.attached && depth <= MAX_RUN_JOB_DEPTH
    ensures RunsStarted(env, job, depth, path) == MAX_RUN_JOB_DEPTH - depth
    decreases MAX_RUN_JOB_DEPTH - depth
  {
    hide RunsStarted;
    SelfRunCount(env, job, depth, path);
    if depth < MAX_RUN_JOB_DEPTH {
      SelfRunChildren(env, job, depth + 1, path + [ToTask(job.tasks[0].key)]);
    }
  }

  /** Started from the top it ends FAILED after exactly five child runs. */
  lemma SelfRunFailsAfterFive(env: Env, job: Job, path: Path)
    requires RunsItself(env, job) && env.attached
    ensures RunMeaning(env, job, 0, path).state == Failed
    ensures RunsStarted(env, job, 0, path) == 5
  {
    SelfRunFails(env, job, 0, path);
    SelfRunChildren(env, job, 0, path);
    assert FailsAt(env, job)(0, path);
  }
}
