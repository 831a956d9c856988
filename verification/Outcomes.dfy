// What a tree of runs comes to when some of its runs are cancelled: a recursive function of the
// job definitions, the engine's answers and which of the runs below it were cancelled.
module Outcomes {
  import opened JobModel
  import opened Scheduler
  import opened NestedRuns

  /** The child runs that are cancelled before they end, by where they were started. */
  type Fate = Path -> bool

  /** A run_job task that gets as far as starting its child run. */
  predicate Launches(env: Env, t: Task, depth: nat, path: Path)
  {
    && env.secretError(path, t).None? && !t.isDbt
    && t.runJob.Some? && t.runJob.value in env.jobs && depth + 1 <= MAX_RUN_JOB_DEPTH
  }

  predicate Loops(env: Env, t: Task, path: Path)
  {
    env.secretError(path, t).None? && !t.isDbt && t.runJob.None? && t.forEach.Some?
  }

  /** The result of any other task. */
  function Alone(env: Env, t: Task, depth: nat, path: Path): TaskRun
    requires !Launches(env, t, depth, path) && !Loops(env, t, path)
  {
    if env.secretError(path, t).Some? then FailedRun(t.key, env.secretError(path, t).value)
    else if t.isDbt then DbtRun(t.key, env.dbt(path, t))
    else if t.runJob.Some? then
      if t.runJob.value !in env.jobs then MissingJob(t.key, t.runJob.value) else NestedTooDeep(t.key)
    else LeafRun(env, t, path)
  }

  ghost function RunOutcome(env: Env, fate: Fate, job: Job, depth: nat, path: Path): Ending
    decreases Remaining(depth), 2, 0
  {
    if !env.attached then NoEngine()
    else Conclude(job.tasks, FinalResults(ByKey(job.tasks), WorkOutcome(env, fate, depth, path)))
  }

  ghost function WorkOutcome(env: Env, fate: Fate, depth: nat, path: Path): Work
    decreases Remaining(depth), 1, 0
  {
    (t: Task) => TaskOutcome(env, fate, t, depth, path + [ToTask(t.key)])
  }

  /** A cancelled child run makes its task CANCELED; everything else is as without cancels. */
  ghost function TaskOutcome(env: Env, fate: Fate, t: Task, depth: nat, path: Path): TaskRun
    decreases Remaining(depth), 0, 1 + Nesting(t)
  {
    if Launches(env, t, depth, path) then
      if fate(path) then Bare(t.key, Canceled)
      else ChildRun(t.key, RunOutcome(env, fate, env.jobs[t.runJob.value], depth + 1, path))
    else if Loops(env, t, path) then
      var loop := t.forEach.value;
      LoopRun(t.key, seq(|loop.inputs|, i requires 0 <= i < |loop.inputs| =>
        TaskOutcome(env, fate, SubstituteInput(loop.task, t.key, loop.inputs[i]), depth, path + [ToInput(i)])))
    else Alone(env, t, depth, path)
  }

  // ------------------------------------------------------------ without cancelled runs

  ghost predicate WorksAgree(g: Graph, a: Work, b: Work) { forall k | k in g :: a(g[k]) == b(g[k]) }

  lemma {:induction false} MeaningSame(g: Graph, a: Work, b: Work, k: string, n: nat)
    requires WorksAgree(g, a, b) && Grounded(g, k, n)
    ensures Meaning(g, a, k, n) == Meaning(g, b, k, n)
    decreases n
  {
    hide ShouldRun;
    forall d | d in DepKeys(g[k]) ensures Meaning(g, a, d, n - 1) == Meaning(g, b, d, n - 1) {
      MeaningSame(g, a, b, d, n - 1);
    }
    assert Meanings(g, a, DepKeys(g[k]), n - 1) == Meanings(g, b, DepKeys(g[k]), n - 1);
  }

  lemma {:induction false} FinalSame(g: Graph, a: Work, b: Work)
    requires WorksAgree(g, a, b)
    ensures FinalResults(g, a) == FinalResults(g, b)
  {
    hide Meaning;
    forall k | k in g ensures Final(g, a, k) == Final(g, b, k) {
      if !Stuck(g, k) {
        MeaningSame(g, a, b, k, |g|);
      }
    }
  }

  /** No run at the path or below it is cancelled. */
  ghost predicate Spared(fate: Fate, path: Path) { forall p | path <= p :: !fate(p) }

  lemma SparedBelow(fate: Fate, path: Path, hop: Hop)
    requires Spared(fate, path)
    ensures Spared(fate, path + [hop])
  {
    forall p | path + [hop] <= p ensures !fate(p) {
      assert path <= p;
    }
  }

  /** With no cancels in its tree a run comes to what it means. */
  lemma {:induction false} SparedRun(env: Env, fate: Fate, job: Job, depth: nat, path: Path)
    requires Spared(fate, path)
    ensures RunOutcome(env, fate, job, depth, path) == RunMeaning(env, job, depth, path)
    decreases Remaining(depth), 2, 0
  {
    hide Final, FinalResults, Conclude, TaskOutcome, TaskMeaning;
    var g := ByKey(job.tasks);
    forall k | k in g ensures WorkOutcome(env, fate, depth, path)(g[k]) == WorkAt(env, depth, path)(g[k]) {
      SparedBelow(fate, path, ToTask(g[k].key));
      SparedTask(env, fate, g[k], depth, path + [ToTask(g[k].key)]);
    }
    FinalSame(g, WorkOutcome(env, fate, depth, path), WorkAt(env, depth, path));
  }

  lemma {:induction false} SparedTask(env: Env, fate: Fate, t: Task, depth: nat, path: Path)
    requires Spared(fate, path)
    ensures TaskOutcome(env, fate, t, depth, path) == TaskMeaning(env, t, depth, path)
    decreases Remaining(depth), 0, 1 + Nesting(t)
  {
    hide RunOutcome, RunMeaning, LoopRun, SubstituteInput;
    if Launches(env, t, depth, path) {
      SparedRun(env, fate, env.jobs[t.runJob.value], depth + 1, path);
      assert !fate(path);
    } else if Loops(env, t, path) {
      var loop := t.forEach.value;
      forall i | 0 <= i < |loop.inputs|
        ensures TaskOutcome(env, fate, SubstituteInput(loop.task, t.key, loop.inputs[i]), depth, path + [ToInput(i)])
             == TaskMeaning(env, SubstituteInput(loop.task, t.key, loop.inputs[i]), depth, path + [ToInput(i)])
      {
        SparedBelow(fate, path, ToInput(i));
        SparedTask(env, fate, SubstituteInput(loop.task, t.key, loop.inputs[i]), depth, path + [ToInput(i)]);
      }
      assert seq(|loop.inputs|, i requires 0 <= i < |loop.inputs| =>
          TaskOutcome(env, fate, SubstituteInput(loop.task, t.key, loop.inputs[i]), depth, path + [ToInput(i)]))
        == seq(|loop.inputs|, i requires 0 <= i < |loop.inputs| =>
          TaskMeaning(env, SubstituteInput(loop.task, t.key, loop.inputs[i]), depth, path + [ToInput(i)]));
    }
  }

  // ------------------------------------------------------ only the runs below it matter

  /** One place as seen in one world and another in another: cancelled alike, and answered alike. */
  ghost predicate PlaceAgrees(env: Env, f: Fate, p: Path, env': Env, g: Fate, q: Path)
  {
    && f(p) == g(q)
    && forall t: Task ::
         && env.secretError(p, t) == env'.secretError(q, t) && env.codeError(p, t) == env'.codeError(q, t)
         && env.spark(p, t) == env'.spark(q, t) && env.dbt(p, t) == env'.dbt(q, t)
  }

  ghost predicate SameJobs(env: Env, env': Env) { env.jobs == env'.jobs && env.attached == env'.attached }

  /** The two agree at the paths and everywhere below them. */
  ghost predicate AgreeFrom(env: Env, f: Fate, p: Path, env': Env, g: Fate, q: Path)
  {
    SameJobs(env, env') && forall r: Path :: PlaceAgrees(env, f, p + r, env', g, q + r)
  }

  /** They agree below them. */
  ghost predicate AgreeBelow(env: Env, f: Fate, p: Path, env': Env, g: Fate, q: Path)
  {
    SameJobs(env, env') && forall r: Path | r != [] :: PlaceAgrees(env, f, p + r, env', g, q + r)
  }

  lemma AgreeDown(env: Env, f: Fate, p: Path, env': Env, g: Fate, q: Path, hop: Hop)
    requires AgreeBelow(env, f, p, env', g, q)
    ensures AgreeFrom(env, f, p + [hop], env', g, q + [hop])
  {
    hide PlaceAgrees;
    forall r: Path ensures PlaceAgrees(env, f, p + [hop] + r, env', g, q + [hop] + r) {
      assert PlaceAgrees(env, f, p + ([hop] + r), env', g, q + ([hop] + r));
      assert p + [hop] + r == p + ([hop] + r) && q + [hop] + r == q + ([hop] + r);
    }
  }

  lemma AgreeHere(env: Env, f: Fate, p: Path, env': Env, g: Fate, q: Path)
    requires AgreeFrom(env, f, p, env', g, q)
    ensures PlaceAgrees(env, f, p, env', g, q) && SameJobs(env, env') && AgreeBelow(env, f, p, env', g, q)
  {
    hide PlaceAgrees;
    assert PlaceAgrees(env, f, p + [], env', g, q + []);
    assert p + [] == p && q + [] == q;
  }

  lemma SameKind(env: Env, f: Fate, p: Path, env': Env, g: Fate, q: Path, t: Task, depth: nat)
    requires PlaceAgrees(env, f, p, env', g, q) && SameJobs(env, env')
    ensures f(p) == g(q)
    ensures Launches(env, t, depth, p) == Launches(env', t, depth, q) && Loops(env, t, p) == Loops(env', t, q)
    ensures !Launches(env, t, depth, p) && !Loops(env, t, p) ==> Alone(env, t, depth, p) == Alone(env', t, depth, q)
  {
    hide DbtRun, FailedRun, MissingJob, NestedTooDeep;
  }

  /** What a run comes to depends only on what the runs and tasks below it are answered and on which of
      them are cancelled: not on where the run itself stands, nor on any other run. */
  lemma {:induction false} RunOutcomeIsLocal(
      env: Env, f: Fate, p: Path, env': Env, g: Fate, q: Path, job: Job, depth: nat)
    requires AgreeBelow(env, f, p, env', g, q)
    ensures RunOutcome(env, f, job, depth, p) == RunOutcome(env', g, job, depth, q)
    decreases Remaining(depth), 2, 0
  {
    hide Final, FinalResults, Conclude, TaskOutcome, PlaceAgrees;
    var tasks := ByKey(job.tasks);
    forall k | k in tasks ensures WorkOutcome(env, f, depth, p)(tasks[k]) == WorkOutcome(env', g, depth, q)(tasks[k]) {
      AgreeDown(env, f, p, env', g, q, ToTask(tasks[k].key));
      TaskOutcomeIsLocal(env, f, p + [ToTask(tasks[k].key)], env', g, q + [ToTask(tasks[k].key)], tasks[k], depth);
    }
    FinalSame(tasks, WorkOutcome(env, f, depth, p), WorkOutcome(env', g, depth, q));
  }

  /** And a task's result on that at its place and below. */
  lemma {:induction false} TaskOutcomeIsLocal(
      env: Env, f: Fate, p: Path, env': Env, g: Fate, q: Path, t: Task, depth: nat)
    requires AgreeFrom(env, f, p, env', g, q)
    ensures TaskOutcome(env, f, t, depth, p) == TaskOutcome(env', g, t, depth, q)
    decreases Remaining(depth), 0, 1 + Nesting(t)
  {
    hide RunOutcome, LoopRun, SubstituteInput, AgreeFrom, AgreeBelow, PlaceAgrees, Alone;
    AgreeHere(env, f, p, env', g, q);
    SameKind(env, f, p, env', g, q, t, depth);
    if Launches(env, t, depth, p) {
      RunOutcomeIsLocal(env, f, p, env', g, q, env.jobs[t.runJob.value], depth + 1);
    } else if Loops(env, t, p) {
      var loop := t.forEach.value;
      forall i | 0 <= i < |loop.inputs|
        ensures TaskOutcome(env, f, SubstituteInput(loop.task, t.key, loop.inputs[i]), depth, p + [ToInput(i)])
             == TaskOutcome(env', g, SubstituteInput(loop.task, t.key, loop.inputs[i]), depth, q + [ToInput(i)])
      {
        AgreeDown(env, f, p, env', g, q, ToInput(i));
        TaskOutcomeIsLocal(env, f, p + [ToInput(i)], env', g, q + [ToInput(i)],
          SubstituteInput(loop.task, t.key, loop.inputs[i]), depth);
      }
      assert seq(|loop.inputs|, i requires 0 <= i < |loop.inputs| =>
          TaskOutcome(env, f, SubstituteInput(loop.task, t.key, loop.inputs[i]), depth, p + [ToInput(i)]))
        == seq(|loop.inputs|, i requires 0 <= i < |loop.inputs| =>
          TaskOutcome(env', g, SubstituteInput(loop.task, t.key, loop.inputs[i]), depth, q + [ToInput(i)]));
    }
  }

  /** In one world: two records of cancels give a run one outcome when they agree below it. */
  lemma {:induction false} OnlyCancelsBelowMatter(env: Env, f: Fate, g: Fate, job: Job, depth: nat, path: Path)
    requires forall p | path < p :: f(p) == g(p)
    ensures RunOutcome(env, f, job, depth, path) == RunOutcome(env, g, job, depth, path)
  {
    hide RunOutcome;
    forall r: Path | r != [] ensures PlaceAgrees(env, f, path + r, env, g, path + r) {
      assert path < path + r;
    }
    RunOutcomeIsLocal(env, f, path, env, g, path, job, depth);
  }

  // --------------------------------------------------------------- what a cancel changes

  lemma CanceledTask(env: Env, fate: Fate, t: Task, depth: nat, path: Path)
    requires Launches(env, t, depth, path) && fate(path)
    ensures TaskOutcome(env, fate, t, depth, path) == Bare(t.key, Canceled)
  {
  }

  /** A task whose child run is cancelled ends CANCELED. */
  lemma {:induction false} CanceledChildCancelsTask(env: Env, fate: Fate, job: Job, depth: nat, path: Path, k: string)
    requires k in ByKey(job.tasks) && ByKey(job.tasks)[k].condition.None?
    requires Executes(ByKey(job.tasks), WorkOutcome(env, fate, depth, path), k)
    requires Launches(env, ByKey(job.tasks)[k], depth, path + [ToTask(k)]) && fate(path + [ToTask(k)])
    ensures OutcomesOf(env, fate, job, depth, path)[k] == Bare(k, Canceled)
  {
    hide Final, Launches, TaskOutcome, ShouldRun, DepsSatisfied;
    var g, work := ByKey(job.tasks), WorkOutcome(env, fate, depth, path);
    FinalEquation(g, work, k);
    assert g[k].key == k;
    CanceledTask(env, fate, g[k], depth, path + [ToTask(k)]);
    assert work(g[k]) == Bare(k, Canceled);
  }

  /** Every task's result, in a run with an engine. */
  ghost function OutcomesOf(env: Env, fate: Fate, job: Job, depth: nat, path: Path): Results
  {
    FinalResults(ByKey(job.tasks), WorkOutcome(env, fate, depth, path))
  }

  /** Whatever is cancelled below it, a run fails only by a task that FAILED: CANCELED tasks do not
      count. */
  lemma {:induction false} FailsByFailedTasksOnly(env: Env, fate: Fate, job: Job, depth: nat, path: Path)
    requires env.attached
    ensures
      var results := OutcomesOf(env, fate, job, depth, path);
      RunOutcome(env, fate, job, depth, path).state ==
        if exists k | k in results :: results[k].resultState == Failed then Failed else Success
  {
    ConcludeFails(job.tasks, OutcomesOf(env, fate, job, depth, path));
  }

  lemma LoopIsNoLaunch(env: Env, t: Task, depth: nat, path: Path)
    requires Loops(env, t, path)
    ensures !Launches(env, t, depth, path)
  {
  }

  /** But a loop fails by a cancelled iteration: it is one that did not succeed. */
  lemma {:induction false} CanceledIterationFailsLoop(env: Env, fate: Fate, t: Task, depth: nat, path: Path, i: nat)
    requires Loops(env, t, path) && i < |t.forEach.value.inputs|
    requires
      var nested := SubstituteInput(t.forEach.value.task, t.key, t.forEach.value.inputs[i]);
      Launches(env, nested, depth, path + [ToInput(i)]) && fate(path + [ToInput(i)])
    ensures TaskOutcome(env, fate, t, depth, path).resultState == Failed
  {
    hide RunOutcome, SubstituteInput, Launches;
    var nested := SubstituteInput(t.forEach.value.task, t.key, t.forEach.value.inputs[i]);
    CanceledTask(env, fate, nested, depth, path + [ToInput(i)]);
    LoopIsNoLaunch(env, t, depth, path);
    var runs := TaskOutcome(env, fate, t, depth, path).iterations;
    assert runs[i].resultState == Canceled && runs[i] in runs;
    LoopSucceedsIffAllDo(t.key, runs);
  }
}
