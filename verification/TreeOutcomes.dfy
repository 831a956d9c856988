// What a tree of runs comes to: child run ids aside it follows the protocol in which every task's
// answer is fixed in advance, by the outcome of the runs below it.
module TreeOutcomes {
  import opened JobModel
  import opened Scheduler
  import opened NestedRuns
  import opened Outcomes
  import opened RunStore
  import opened ChildIds
  import opened RunProtocol
  import opened RunTree
  import Decimal

  // --------------------------------------- the protocol a tree follows, child run ids aside

  /** What a run executes, as a plan whose answers are fixed in advance. */
  ghost function PlanOf(env: Env, fate: Fate, n: Node): Plan
  {
    Plan(n.job.id, n.job.tasks, WorkOutcome(env, fate, n.depth, n.path), env.attached)
  }

  function StripResults(results: Results): Results { map k | k in results :: Strip(results[k]) }

  function StripRecord(r: Record): Record { r.(tasks := StripAll(r.tasks)) }

  function StripRecords(runs: Records): Records { map id | id in runs :: StripRecord(runs[id]) }

  ghost function ExecOf(env: Env, fate: Fate, n: Node, e: Exec): Exec
  {
    e.(plan := PlanOf(env, fate, n), results := StripResults(e.results))
  }

  ghost function ExecsOf(env: Env, fate: Fate, sites: map<int, Node>, execs: map<int, Exec>): map<int, Exec>
  {
    map id | id in execs && id in sites :: ExecOf(env, fate, sites[id], execs[id])
  }

  ghost function SystemOf(env: Env, fate: Fate, sites: map<int, Node>, sys: System): System
  {
    System(sys.nextID, StripRecords(sys.runs), ExecsOf(env, fate, sites, sys.execs))
  }

  /** The tree as a state of the protocol in which results are fixed in advance. */
  ghost function Protocol(env: Env, fate: Fate, T: Tree): System { SystemOf(env, fate, T.sites, T.sys) }

  ghost function ActionOf(env: Env, fate: Fate, T: Tree, m: Move): Action
    requires Can(env, T, m)
  {
    match m
    case RunNow(jobID) => Launch(PlanOf(env, fate, TopNode(env, T, jobID)))
    case Flow(a) => a
    case Return(id, k) => Complete(id, k)
    case Advance(id, _, _) =>
      var child := ChildOf(env, T, m);
      if child.Some? then Launch(PlanOf(env, fate, child.value)) else Read(id)
  }

  lemma SameReady(env: Env, fate: Fate, n: Node, e: Exec)
    requires e.plan == PlanAt(env, n)
    ensures GraphOf(PlanOf(env, fate, n)) == GraphOf(e.plan)
    ensures ReadyKeys(ExecOf(env, fate, n, e)) == ReadyKeys(e)
  {
    hide WorkOutcome, Strip;
    forall t: Task ensures DepsSatisfied(t, StripResults(e.results)) == DepsSatisfied(t, e.results) {
      assert StripResults(e.results).Keys == e.results.Keys;
    }
  }

  lemma StripSkipped(results: Results, keys: set<string>)
    ensures
      var skipped := map k | k in keys :: SkippedRun(k);
      StripResults(results + skipped) == StripResults(results) + skipped
  {
    hide Strip, SkippedRun;
    forall k: string ensures Strip(SkippedRun(k)) == SkippedRun(k) {
      SkippedPlain(k);
    }
  }

  lemma SkippedPlain(k: string)
    ensures Strip(SkippedRun(k)) == SkippedRun(k)
  {
    hide Strip;
    StripPlain(SkippedRun(k));
  }

  lemma {:induction false} CheckCommutes(env: Env, fate: Fate, n: Node, e: Exec, canceled: bool)
    requires e.plan == PlanAt(env, n)
    ensures AfterCheck(ExecOf(env, fate, n, e), canceled) == ExecOf(env, fate, n, AfterCheck(e, canceled))
  {
    hide PlanOf, ReadyKeys, SkippedRun, StripResults;
    SameReady(env, fate, n, e);
    StripSkipped(e.results, e.remaining);
  }

  lemma SameDecision(t: Task, results: Results)
    requires DepsSatisfied(t, results)
    ensures DepsSatisfied(t, StripResults(results)) && ShouldRun(t, StripResults(results)) == ShouldRun(t, results)
  {
    hide ShouldRun;
    forall d | d in DepKeys(t) ensures d in results && SameSignal(StripResults(results)[d], results[d]) {
    }
    ShouldRunIsLocal(t, StripResults(results), results);
  }

  lemma StripOne(results: Results, k: string, tr: TaskRun)
    ensures StripResults(results[k := tr]) == StripResults(results)[k := Strip(tr)]
  {
    hide Strip;
  }

  lemma {:induction false} DispatchCommutes(env: Env, fate: Fate, n: Node, e: Exec, k: string)
    requires e.plan == PlanAt(env, n) && MayDispatch(e, k)
    ensures MayDispatch(ExecOf(env, fate, n, e), k)
    ensures AfterDispatch(ExecOf(env, fate, n, e), k) == ExecOf(env, fate, n, AfterDispatch(e, k))
  {
    hide PlanOf, Strip, ReadyKeys, ShouldRun, DepsSatisfied, StripResults;
    SameReady(env, fate, n, e);
    var t := GraphOf(e.plan)[k];
    SameDecision(t, e.results);
    StripPlain(SkippedRun(k));
    StripOne(e.results, k, SkippedRun(k));
    if t.condition.Some? {
      StripPlain(ConditionRun(t));
      StripOne(e.results, k, ConditionRun(t));
    }
  }

  lemma {:induction false} ReturnCommutes(env: Env, fate: Fate, n: Node, e: Exec, k: string, tr: TaskRun)
    requires e.plan == PlanAt(env, n) && MayComplete(e, k)
    requires Strip(tr) == PlanOf(env, fate, n).work(GraphOf(e.plan)[k])
    ensures MayComplete(ExecOf(env, fate, n, e), k)
    ensures AfterComplete(ExecOf(env, fate, n, e), k) == ExecOf(env, fate, n, Returned(e, k, tr))
  {
    hide WorkOutcome, Strip, StripResults;
    StripOne(e.results, k, tr);
  }

  lemma PublishCommutes(runs: Records, r: Record)
    ensures StripRecords(Publish(runs, r)) == Publish(StripRecords(runs), StripRecord(r))
  {
    hide StripAll;
  }

  lemma CancelCommutes(runs: Records, id: int)
    ensures StripRecords(Cancel(runs, id)) == Cancel(StripRecords(runs), id)
  {
    hide StripAll;
  }

  lemma PlainRecords(env: Env, fate: Fate, n: Node, id: int)
    ensures StripRecord(PendingRecord(id, n.job.id)) == PendingRecord(id, n.job.id)
    ensures StripRecord(RunningRecord(id, PlanAt(env, n))) == RunningRecord(id, PlanOf(env, fate, n))
    ensures StripRecord(RefusedRecord(id, PlanAt(env, n))) == RefusedRecord(id, PlanOf(env, fate, n))
  {
    hide WorkOutcome;
    assert StripAll([]) == [];
  }

  lemma {:induction false} ClosedCommutes(env: Env, fate: Fate, n: Node, id: int, results: Results)
    requires forall t | t in n.job.tasks :: t.key in results
    ensures StripRecord(ClosedRecord(id, PlanAt(env, n), results)) ==
      ClosedRecord(id, PlanOf(env, fate, n), StripResults(results))
  {
    hide WorkOutcome, Strip, StripAll, Conclude;
    ConcludesAlike(n.job.tasks, results, StripResults(results));
  }

  lemma ExecPut(env: Env, fate: Fate, sites: map<int, Node>, execs: map<int, Exec>, id: int, e: Exec)
    requires id in sites
    ensures ExecsOf(env, fate, sites, execs[id := e]) ==
      ExecsOf(env, fate, sites, execs)[id := ExecOf(env, fate, sites[id], e)]
  {
    hide ExecOf;
  }

  lemma RecordPut(runs: Records, id: int, r: Record)
    ensures StripRecords(runs[id := r]) == StripRecords(runs)[id := StripRecord(r)]
  {
    hide StripRecord;
  }

  /** One executor's step, seen in the protocol. */
  lemma PutCommutes(env: Env, fate: Fate, sites: map<int, Node>, sys: System, id: int, runs: Records, e: Exec)
    requires id in sites
    ensures SystemOf(env, fate, sites, sys.(runs := runs, execs := sys.execs[id := e])) ==
      SystemOf(env, fate, sites, sys).(
        runs := StripRecords(runs),
        execs := SystemOf(env, fate, sites, sys).execs[id := ExecOf(env, fate, sites[id], e)])
  {
    hide ExecOf, StripRecords, ExecsOf;
    ExecPut(env, fate, sites, sys.execs, id, e);
  }

  /** The step of a run's executor that the action is, in place. */
  lemma {:induction false} OwnFlowCommutes(env: Env, fate: Fate, sites: map<int, Node>, s: System, a: Action, id: int)
    requires Enabled(s, a) && !a.Launch? && !a.Complete? && !a.CancelRequest? && !a.Read? && id == Owner(s, a)
    requires id in s.execs && id in s.runs && id in sites && s.execs[id].plan == PlanAt(env, sites[id])
    ensures
      var s0 := SystemOf(env, fate, sites, s);
      Enabled(s0, a) && SystemOf(env, fate, sites, Step(s, a)) == Step(s0, a)
  {
    hide AfterCheck, AfterDispatch, MayDispatch, Publish, RunningRecord, RefusedRecord, ClosedRecord, StripRecords,
      StripRecord,
      StripResults, WorkOutcome, GraphOf, IsCanceled, Conclude;
    var e, n := s.execs[id], sites[id];
    PutCommutes(env, fate, sites, s, id, Step(s, a).runs, Step(s, a).execs[id]);
    PlainRecords(env, fate, n, id);
    match a
    case Begin(_) => PublishCommutes(s.runs, RunningRecord(id, e.plan));
    case Refuse(_) => PublishCommutes(s.runs, RefusedRecord(id, e.plan));
    case Check(_) => CheckCommutes(env, fate, n, e, IsCanceled(s.runs, id)); CanceledCommutes(s.runs, id);
    case Dispatch(_, k) => DispatchCommutes(env, fate, n, e, k);
    case EndWave(_) =>
    case Close(_) =>
      SameTasks(e.results, n.job.tasks);
      ClosedCommutes(env, fate, n, id, e.results);
      PublishCommutes(s.runs, ClosedRecord(id, e.plan, e.results));
  }

  lemma CanceledCommutes(runs: Records, id: int)
    ensures IsCanceled(StripRecords(runs), id) == IsCanceled(runs, id)
  {
  }

  lemma SameTasks(results: Results, tasks: seq<Task>)
    ensures (forall t | t in tasks :: t.key in StripResults(results)) <==> (forall t | t in tasks :: t.key in results)
  {
    hide Strip;
    assert StripResults(results).Keys == results.Keys;
  }

  lemma {:induction false} FlowCommutes(env: Env, fate: Fate, T: Tree, a: Action)
    requires Sound(env, T) && Can(env, T, Flow(a))
    ensures Enabled(Protocol(env, fate, T), a)
    ensures Protocol(env, fate, After(env, T, Flow(a))) == Step(Protocol(env, fate, T), a)
  {
    hide Enabled, Step, SystemOf, Kept, Ended, Born, PathsDiffer, PlanAt;
    FlowGrows(env, T, a);
    if a.CancelRequest? || a.Read? {
      AsideSteps(T.sys, a);
      AsideSteps(Protocol(env, fate, T), a);
      CancelAside(env, fate, T.sites, T.sys, a.id);
    } else {
      OwnerKnown(T.sys, a);
      assert SoundRun(env, T, Owner(T.sys, a));
      OwnFlowCommutes(env, fate, T.sites, T.sys, a, Owner(T.sys, a));
    }
  }

  lemma CancelAside(env: Env, fate: Fate, sites: map<int, Node>, s: System, id: int)
    ensures SystemOf(env, fate, sites, s.(runs := Cancel(s.runs, id))) ==
      SystemOf(env, fate, sites, s).(runs := Cancel(SystemOf(env, fate, sites, s).runs, id))
  {
    hide Cancel, StripRecords, ExecsOf;
    CancelCommutes(s.runs, id);
  }

  /** A caller's request. */
  lemma AsideSteps(s: System, a: Action)
    requires a.CancelRequest? || a.Read?
    ensures Enabled(s, a) && Step(s, a) == if a.CancelRequest? then s.(runs := Cancel(s.runs, a.id)) else s
  {
  }

  lemma OwnerKnown(s: System, a: Action)
    requires Enabled(s, a) && !a.Launch? && !a.CancelRequest? && !a.Read?
    ensures Owner(s, a) in s.execs
  {
  }

  lemma {:induction false} LaunchCommutes(env: Env, fate: Fate, T: Tree, n: Node)
    requires Sound(env, T)
    ensures Protocol(env, fate, Launched(env, T, n)) == Step(Protocol(env, fate, T), Launch(PlanOf(env, fate, n)))
  {
    hide WorkOutcome, StripRecord, ExecOf, SoundRun, Born, PathsDiffer, PendingRecord, NewExec;
    var id := T.sys.nextID + 1;
    assert id !in T.sites by {
      if id in T.sites {
        assert SoundRun(env, T, id);
        TooNew(env, T, id);
      }
    }
    NewExecCommutes(env, fate, n);
    PlainRecords(env, fate, n, id);
    var sites' := T.sites[id := n];
    assert ExecsOf(env, fate, sites', T.sys.execs) == ExecsOf(env, fate, T.sites, T.sys.execs);
    ExecPut(env, fate, sites', T.sys.execs, id, NewExec(PlanAt(env, n)));
    RecordPut(T.sys.runs, id, PendingRecord(id, n.job.id));
  }

  lemma TooNew(env: Env, T: Tree, id: int)
    requires SoundRun(env, T, id)
    ensures id <= T.sys.nextID
  {
  }

  lemma NewExecCommutes(env: Env, fate: Fate, n: Node)
    ensures ExecOf(env, fate, n, NewExec(PlanAt(env, n))) == NewExec(PlanOf(env, fate, n))
  {
    hide WorkOutcome;
    assert StripResults(map[]) == map[];
  }

  // ------------------------------------------------------------ bodies return what they should

  /** What a body stands for is on the way to the task's outcome: a run it waits for is the one its
      task starts, the iterations of a loop are on their way, and what it returned is the outcome. */
  ghost predicate OnItsWay(env: Env, fate: Fate, sites: map<int, Node>, t: Task, depth: nat, path: Path, b: Body)
    decreases b
  {
    match b
    case Idle => true
    case Ready => true
    case Awaiting(c) =>
      Launches(env, t, depth, path) && c in sites && sites[c] == Node(env.jobs[t.runJob.value], depth + 1, path)
    case Looping(parts) =>
      && Loops(env, t, path) && |parts| == |t.forEach.value.inputs|
      && forall i | 0 <= i < |parts| ::
           OnItsWay(env, fate, sites, SubstituteInput(t.forEach.value.task, t.key, t.forEach.value.inputs[i]),
                    depth, path + [ToInput(i)], parts[i])
    case Finished(tr) => Strip(tr) == TaskOutcome(env, fate, t, depth, path) && Spawned(env, sites, t, depth, path)
  }

  /** The runs a returned task starts are there, each at its place. */
  ghost predicate Spawned(env: Env, sites: map<int, Node>, t: Task, depth: nat, path: Path)
    decreases Nesting(t)
  {
    && (Launches(env, t, depth, path) ==>
          exists c | c in sites :: sites[c] == Node(env.jobs[t.runJob.value], depth + 1, path))
    && (Loops(env, t, path) ==> forall i | 0 <= i < |t.forEach.value.inputs| ::
          Spawned(env, sites, SubstituteInput(t.forEach.value.task, t.key, t.forEach.value.inputs[i]), depth,
                  path + [ToInput(i)]))
  }

  lemma {:induction false} SpawnedStays(
      env: Env, sites: map<int, Node>, sites': map<int, Node>, t: Task, depth: nat, path: Path)
    requires Spawned(env, sites, t, depth, path) && forall id | id in sites :: id in sites' && sites'[id] == sites[id]
    ensures Spawned(env, sites', t, depth, path)
    decreases Nesting(t)
  {
    hide SubstituteInput, Launches;
    if Loops(env, t, path) {
      forall i | 0 <= i < |t.forEach.value.inputs|
        ensures Spawned(env, sites', SubstituteInput(t.forEach.value.task, t.key, t.forEach.value.inputs[i]), depth,
                        path + [ToInput(i)])
      {
        SpawnedStays(env, sites, sites', SubstituteInput(t.forEach.value.task, t.key, t.forEach.value.inputs[i]), depth,
          path + [ToInput(i)]);
      }
    }
  }

  lemma {:induction false} StillOnItsWay(
      env: Env, fate: Fate, sites: map<int, Node>, sites': map<int, Node>, t: Task, depth: nat, path: Path, b: Body)
    requires OnItsWay(env, fate, sites, t, depth, path, b)
    requires forall id | id in sites :: id in sites' && sites'[id] == sites[id]
    ensures OnItsWay(env, fate, sites', t, depth, path, b)
    decreases b
  {
    hide TaskOutcome, SubstituteInput, Launches, Strip, Spawned;
    if b.Finished? {
      SpawnedStays(env, sites, sites', t, depth, path);
    } else if b.Looping? {
      forall i | 0 <= i < |b.parts|
        ensures OnItsWay(env, fate, sites', SubstituteInput(t.forEach.value.task, t.key, t.forEach.value.inputs[i]),
                         depth, path + [ToInput(i)], b.parts[i])
      {
        StillOnItsWay(env, fate, sites, sites', SubstituteInput(t.forEach.value.task, t.key, t.forEach.value.inputs[i]),
                      depth, path + [ToInput(i)], b.parts[i]);
      }
    }
  }

  lemma InputsSplit(path: Path, at: seq<nat>)
    requires at != []
    ensures path + Inputs(at) == (path + [ToInput(at[0])]) + Inputs(at[1..])
  {
  }

  /** Inside a body on its way, the body at an address is on its own. */
  lemma {:induction false} PartOnItsWay(
      env: Env, fate: Fate, sites: map<int, Node>, t: Task, depth: nat, path: Path, b: Body, at: seq<nat>)
    requires OnItsWay(env, fate, sites, t, depth, path, b) && BodyAt(b, at).Some?
    ensures OnItsWay(env, fate, sites, TaskAt(t, at), depth, path + Inputs(at), BodyAt(b, at).value)
    decreases |at|
  {
    hide TaskOutcome, SubstituteInput, Launches, Strip;
    if at == [] {
      assert path + Inputs(at) == path;
    } else {
      var nested := SubstituteInput(t.forEach.value.task, t.key, t.forEach.value.inputs[at[0]]);
      InputsSplit(path, at);
      PartOnItsWay(env, fate, sites, nested, depth, path + [ToInput(at[0])], b.parts[at[0]], at[1..]);
    }
  }

  lemma {:induction false} PutOnItsWay(
      env: Env, fate: Fate, sites: map<int, Node>, t: Task, depth: nat, path: Path, b: Body, at: seq<nat>, c: Body)
    requires OnItsWay(env, fate, sites, t, depth, path, b) && BodyAt(b, at).Some?
    requires OnItsWay(env, fate, sites, TaskAt(t, at), depth, path + Inputs(at), c)
    ensures OnItsWay(env, fate, sites, t, depth, path, Put(b, at, c))
    decreases |at|
  {
    hide TaskOutcome, SubstituteInput, Launches, Strip;
    if at == [] {
      assert path + Inputs(at) == path;
    } else {
      var nested := SubstituteInput(t.forEach.value.task, t.key, t.forEach.value.inputs[at[0]]);
      InputsSplit(path, at);
      PutOnItsWay(env, fate, sites, nested, depth, path + [ToInput(at[0])], b.parts[at[0]], at[1..], c);
    }
  }

  /** A done run that was not cancelled shows its outcome, child run ids aside. */
  lemma {:induction false} DoneShowsOutcome(env: Env, fate: Fate, T: Tree, id: int)
    requires Sound(env, T) && id in T.sites && Fine(Protocol(env, fate, T), id) && IsDone(T, id)
    requires !IsCanceled(T.sys.runs, id)
    ensures
      var n := T.sites[id];
      Shows(StripRecord(T.sys.runs[id]), RunOutcome(env, fate, n.job, n.depth, n.path))
    ensures T.sys.runs[id].jobID == T.sites[id].job.id && T.sys.runs[id].executedBy == EXECUTED_BY
  {
    hide ExecOk, Sound, FinalResults, WorkOutcome, Strip, StripAll, InTaskOrder, Stdouts, Stderrs, AnyFailed,
      StripResults;
  }

  lemma CanceledIsBlank(env: Env, fate: Fate, T: Tree, id: int)
    requires Sound(env, T) && id in T.sites && Fine(Protocol(env, fate, T), id) && IsCanceled(T.sys.runs, id)
    ensures T.sys.runs[id].stdout == "" && T.sys.runs[id].stderr == ""
  {
    hide ExecOk, Sound, FinalResults, WorkOutcome, Strip, StripAll, Conclude, StripResults;
  }

  /** A run_job task reports what its child run came to, or that it was cancelled. */
  lemma {:induction false} ReportMeans(env: Env, fate: Fate, T: Tree, t: Task, depth: nat, path: Path, c: int)
    requires Sound(env, T) && Foretells(fate, T) && c in T.sites && Fine(Protocol(env, fate, T), c) && IsDone(T, c)
    requires Launches(env, t, depth, path) && T.sites[c] == Node(env.jobs[t.runJob.value], depth + 1, path)
    ensures Strip(ReportOf(t.key, c, T.sys.runs[c])) == TaskOutcome(env, fate, t, depth, path)
  {
    hide Sound, Fine, RunOutcome, Launches, Strip, StripAll, Protocol;
    var tr := ReportOf(t.key, c, T.sys.runs[c]);
    StripPlain(tr.(childRunID := 0));
    SameStrip(tr);
    if IsCanceled(T.sys.runs, c) {
      CanceledIsBlank(env, fate, T, c);
    } else {
      DoneShowsOutcome(env, fate, T, c);
    }
    LaunchOutcome(env, fate, t, depth, path);
  }

  lemma SameStrip(tr: TaskRun)
    ensures Strip(tr) == Strip(tr.(childRunID := 0))
  {
  }

  lemma LaunchOutcome(env: Env, fate: Fate, t: Task, depth: nat, path: Path)
    requires Launches(env, t, depth, path)
    ensures TaskOutcome(env, fate, t, depth, path) ==
      if fate(path) then Bare(t.key, Canceled)
      else ChildRun(t.key, RunOutcome(env, fate, env.jobs[t.runJob.value], depth + 1, path))
  {
  }

  lemma {:induction false} LoopReturns(
      env: Env, fate: Fate, sites: map<int, Node>, t: Task, depth: nat, path: Path, parts: seq<Body>)
    requires OnItsWay(env, fate, sites, t, depth, path, Looping(parts)) && AllFinished(parts)
    ensures Strip(LoopRun(t.key, RunsOf(parts))) == TaskOutcome(env, fate, t, depth, path)
  {
    hide SubstituteInput, Launches, LoopRun, Strip;
    var loop := t.forEach.value;
    StripLoop(t.key, RunsOf(parts));
    forall i | 0 <= i < |parts|
      ensures Strip(parts[i].run) ==
        TaskOutcome(env, fate, SubstituteInput(loop.task, t.key, loop.inputs[i]), depth, path + [ToInput(i)])
    {
      var nested := SubstituteInput(loop.task, t.key, loop.inputs[i]);
      assert OnItsWay(env, fate, sites, nested, depth, path + [ToInput(i)], parts[i]);
    }
    LoopIsNoLaunch(env, t, depth, path);
    assert StripAll(RunsOf(parts)) == seq(|loop.inputs|, i requires 0 <= i < |loop.inputs| =>
      TaskOutcome(env, fate, SubstituteInput(loop.task, t.key, loop.inputs[i]), depth, path + [ToInput(i)]));
  }

  lemma AloneReturns(env: Env, fate: Fate, t: Task, depth: nat, path: Path)
    requires !Launches(env, t, depth, path) && !Loops(env, t, path)
    ensures Strip(Alone(env, t, depth, path)) == TaskOutcome(env, fate, t, depth, path)
  {
    hide Strip, Launches;
    AlonePlain(env, t, depth, path);
    StripPlain(Alone(env, t, depth, path));
  }

  lemma AlonePlain(env: Env, t: Task, depth: nat, path: Path)
    requires !Launches(env, t, depth, path) && !Loops(env, t, path)
    ensures Alone(env, t, depth, path).iterations == [] && Alone(env, t, depth, path).childRunID == 0
  {
    hide Decimal.Format;
  }

  lemma WaitingSpawned(env: Env, sites: map<int, Node>, t: Task, depth: nat, path: Path, c: int)
    requires Launches(env, t, depth, path) && c in sites && sites[c] == Node(env.jobs[t.runJob.value], depth + 1, path)
    ensures Spawned(env, sites, t, depth, path)
  {
    hide Launches;
    if Loops(env, t, path) {
      LoopIsNoLaunch(env, t, depth, path);
    }
  }

  lemma {:induction false} LoopSpawned(
      env: Env, fate: Fate, sites: map<int, Node>, t: Task, depth: nat, path: Path, parts: seq<Body>)
    requires OnItsWay(env, fate, sites, t, depth, path, Looping(parts)) && AllFinished(parts)
    ensures Spawned(env, sites, t, depth, path)
  {
    hide SubstituteInput, Launches, TaskOutcome, Strip;
    LoopIsNoLaunch(env, t, depth, path);
    forall i | 0 <= i < |parts|
      ensures Spawned(env, sites, SubstituteInput(t.forEach.value.task, t.key, t.forEach.value.inputs[i]), depth,
                      path + [ToInput(i)])
    {
      assert OnItsWay(env, fate, sites, SubstituteInput(t.forEach.value.task, t.key, t.forEach.value.inputs[i]), depth,
                      path + [ToInput(i)], parts[i]);
    }
  }

  /** A body's next step, but for starting a child run, keeps it on its way. */
  lemma {:induction false} NextOnItsWay(env: Env, fate: Fate, T: Tree, t: Task, depth: nat, path: Path, b: Body)
    requires Sound(env, T) && Foretells(fate, T) && AllFine(Protocol(env, fate, T))
    requires OnItsWay(env, fate, T.sites, t, depth, path, b) && NextBody(env, T.sys, t, depth, path, b).Some?
    requires !(b.Ready? && Launches(env, t, depth, path))
    ensures OnItsWay(env, fate, T.sites, t, depth, path, NextBody(env, T.sys, t, depth, path, b).value)
  {
    hide Sound, Fine, Foretells, TaskOutcome, Launches, Loops, Alone, LoopRun, Strip, SubstituteInput, ReportOf,
      RunsOf, AllFinished, InFlight;
    match b
    case Ready =>
      if !Loops(env, t, path) {
        AloneReturns(env, fate, t, depth, path);
      }
    case Awaiting(c) =>
      assert c in Protocol(env, fate, T).execs;
      ReportMeans(env, fate, T, t, depth, path, c);
      WaitingSpawned(env, T.sites, t, depth, path, c);
    case Looping(parts) =>
      if AllFinished(parts) {
        LoopReturns(env, fate, T.sites, t, depth, path, parts);
        LoopSpawned(env, fate, T.sites, t, depth, path, parts);
      }
    case _ =>
  }

  function TaskPath(n: Node, k: string): Path { n.path + [ToTask(k)] }

  ghost predicate BodyRight(env: Env, fate: Fate, T: Tree, id: int, k: string)
  {
    HasBody(T, id, k) &&
    OnItsWay(env, fate, T.sites, TaskOf(T, id, k), T.sites[id].depth, TaskPath(T.sites[id], k), T.bodies[id][k])
  }

  /** The tree, child run ids aside, is a state the protocol allows, and its bodies are on their way
      to what the protocol takes their results to be. */
  ghost predicate Right(env: Env, fate: Fate, T: Tree)
  {
    && AllFine(Protocol(env, fate, T))
    && forall id, k | id in T.bodies && k in T.bodies[id] :: BodyRight(env, fate, T, id, k)
  }

  /** What a move does, seen in the protocol. */
  ghost predicate Follows(env: Env, fate: Fate, T: Tree, m: Move)
    requires Can(env, T, m)
  {
    var s, a := Protocol(env, fate, T), ActionOf(env, fate, T, m);
    Enabled(s, a) && (Protocol(env, fate, After(env, T, m)) == Step(s, a))
  }

  lemma {:induction false} ReturnFollows(env: Env, fate: Fate, T: Tree, id: int, k: string)
    requires Sound(env, T) && BodyRight(env, fate, T, id, k) && Can(env, T, Return(id, k))
    ensures Follows(env, fate, T, Return(id, k))
  {
    hide Sound, TaskOutcome, Strip, StripResults, StripRecords, GraphOf, Returned, MayComplete, AfterComplete,
      PlanAt, PlanOf, ExecsOf, TaskPath;
    var e, n, tr := T.sys.execs[id], T.sites[id], T.bodies[id][k].run;
    PlanHere(env, T, id);
    WorkIs(env, fate, n, e, k);
    ReturnCommutes(env, fate, n, e, k, tr);
    PutCommutes(env, fate, T.sites, T.sys, id, T.sys.runs, Returned(e, k, tr));
    ExecHere(env, fate, T, id);
  }

  lemma PlanHere(env: Env, T: Tree, id: int)
    requires Sound(env, T) && id in T.sites
    ensures id in T.sys.execs && T.sys.execs[id].plan == PlanAt(env, T.sites[id])
  {
    hide Born, PathsDiffer, Kept, Ended, PlanAt;
    assert SoundRun(env, T, id);
  }

  lemma WorkIs(env: Env, fate: Fate, n: Node, e: Exec, k: string)
    requires k in GraphOf(e.plan)
    ensures PlanOf(env, fate, n).work(GraphOf(e.plan)[k]) ==
      TaskOutcome(env, fate, GraphOf(e.plan)[k], n.depth, TaskPath(n, k))
  {
    hide TaskOutcome;
    KeyOf(e.plan, k);
  }

  lemma ExecHere(env: Env, fate: Fate, T: Tree, id: int)
    requires id in T.sites && id in T.sys.execs
    ensures id in Protocol(env, fate, T).execs
    ensures Protocol(env, fate, T).execs[id] == ExecOf(env, fate, T.sites[id], T.sys.execs[id])
  {
    hide ExecOf;
  }

  lemma {:induction false} MoveFollows(env: Env, fate: Fate, T: Tree, m: Move)
    requires Sound(env, T) && Right(env, fate, T) && Can(env, T, m)
    ensures Follows(env, fate, T, m)
  {
    hide Sound, BodyRight, Enabled, Step, AllFine, Launched, PathOf, TaskAt, GraphOf, NextBody, BodyAt, Put, ChildOf;
    match m
    case RunNow(jobID) =>
      LaunchCommutes(env, fate, T, TopNode(env, T, jobID));
      LaunchEnabled(Protocol(env, fate, T), PlanOf(env, fate, TopNode(env, T, jobID)));
    case Flow(a) => FlowCommutes(env, fate, T, a);
    case Return(id, k) => ReturnFollows(env, fate, T, id, k);
    case Advance(id, k, at) => AdvanceFollows(env, fate, T, id, k, at);
  }

  lemma LaunchEnabled(s: System, p: Plan)
    ensures Enabled(s, Launch(p))
  {
  }

  lemma ReadDoesNothing(s: System, id: int)
    ensures Enabled(s, Read(id)) && Step(s, Read(id)) == s
  {
  }

  lemma {:induction false} AdvanceFollows(env: Env, fate: Fate, T: Tree, id: int, k: string, at: seq<nat>)
    requires Sound(env, T) && Can(env, T, Advance(id, k, at))
    ensures Follows(env, fate, T, Advance(id, k, at))
  {
    hide Sound, Enabled, Step, Launched, PathOf, TaskAt, GraphOf, NextBody, BodyAt, Put, ChildOf, SystemOf, PlanOf;
    var m := Advance(id, k, at);
    var T' := WithBody(T, id, k, Put(T.bodies[id][k], at, Advanced(env, T, id, k, at).value));
    if ChildOf(env, T, m).Some? {
      var n := ChildOf(env, T, m).value;
      AdvanceFurthers(env, T, id, k, at);
      StillRunning(env, T, id, k, at);
      BodySound(env, T, id, k, T'.bodies[id][k]);
      LaunchCommutes(env, fate, T', n);
      LaunchEnabled(Protocol(env, fate, T), PlanOf(env, fate, n));
    } else {
      ReadDoesNothing(Protocol(env, fate, T), id);
    }
  }

  ghost predicate PlacesStay(T: Tree, T': Tree)
  {
    forall id | id in T.sites :: id in T'.sites && T'.sites[id] == T.sites[id]
  }

  /** A body not touched stays right. */
  lemma {:induction false} BodyStaysRight(env: Env, fate: Fate, T: Tree, T': Tree, id: int, k: string)
    requires Sound(env, T) && Sound(env, T') && BodyRight(env, fate, T, id, k) && PlacesStay(T, T')
    requires id in T'.bodies && k in T'.bodies[id] && T'.bodies[id][k] == T.bodies[id][k]
    ensures BodyRight(env, fate, T', id, k)
  {
    hide Sound, OnItsWay, GraphOf, TaskPath;
    SoundHasBody(env, T, id, k);
    SoundHasBody(env, T', id, k);
    StillOnItsWay(env, fate, T.sites, T'.sites, TaskOf(T, id, k), T.sites[id].depth, TaskPath(T.sites[id], k),
      T.bodies[id][k]);
  }

  lemma ReadyIsRight(env: Env, fate: Fate, T: Tree, id: int, k: string)
    requires Sound(env, T) && id in T.bodies && k in T.bodies[id] && T.bodies[id][k] == Ready
    ensures BodyRight(env, fate, T, id, k)
  {
    hide Sound;
    SoundHasBody(env, T, id, k);
  }

  lemma {:induction false} FlowBodiesRight(env: Env, fate: Fate, T: Tree, a: Action, id: int, k: string)
    requires Sound(env, T) && Right(env, fate, T) && Can(env, T, Flow(a)) && Sound(env, After(env, T, Flow(a)))
    requires id in After(env, T, Flow(a)).bodies && k in After(env, T, Flow(a)).bodies[id]
    ensures BodyRight(env, fate, After(env, T, Flow(a)), id, k)
  {
    hide Sound, BodyRight, AllFine, Enabled, Step, Protocol;
    var T' := After(env, T, Flow(a));
    FlowGrows(env, T, a);
    if id in T.bodies && k in T.bodies[id] && T'.bodies[id][k] == T.bodies[id][k] {
      BodyStaysRight(env, fate, T, T', id, k);
    } else {
      ReadyIsRight(env, fate, T', id, k);
    }
  }

  lemma {:induction false} LaunchBodiesRight(env: Env, fate: Fate, T: Tree, n: Node, id: int, k: string)
    requires Sound(env, T) && Sound(env, Launched(env, T, n))
    requires id in Launched(env, T, n).bodies && k in Launched(env, T, n).bodies[id]
    requires id in T.bodies && k in T.bodies[id] ==> BodyRight(env, fate, T, id, k)
    ensures BodyRight(env, fate, Launched(env, T, n), id, k)
  {
    hide Sound, BodyRight, Step, Kept, Ended, Born, PathsDiffer, PlanAt;
    LaunchGrows(env, T, n);
    BodyStaysRight(env, fate, T, Launched(env, T, n), id, k);
  }

  /** The body an advance changes, when it starts no run. */
  lemma {:induction false} AdvancedIsRight(env: Env, fate: Fate, T: Tree, id: int, k: string, at: seq<nat>)
    requires Sound(env, T) && Right(env, fate, T) && Foretells(fate, T) && Can(env, T, Advance(id, k, at))
    requires ChildOf(env, T, Advance(id, k, at)).None?
    ensures BodyRight(env, fate, After(env, T, Advance(id, k, at)), id, k)
  {
    hide Sound, Foretells, AllFine, Protocol, OnItsWay, NextBody, Launches, TaskAt, Put, BodyAt, GraphOf, Inputs;
    var t, n, b := TaskOf(T, id, k), T.sites[id], T.bodies[id][k];
    var c := Advanced(env, T, id, k, at).value;
    assert BodyRight(env, fate, T, id, k);
    PartOnItsWay(env, fate, T.sites, t, n.depth, TaskPath(n, k), b, at);
    NextOnItsWay(env, fate, T, TaskAt(t, at), n.depth, PathOf(n, k, at), BodyAt(b, at).value);
    PutOnItsWay(env, fate, T.sites, t, n.depth, TaskPath(n, k), b, at, c);
  }

  /** And when it starts one: it now waits for that run. */
  lemma {:induction false} LaunchedIsRight(env: Env, fate: Fate, T: Tree, id: int, k: string, at: seq<nat>)
    requires Sound(env, T) && BodyRight(env, fate, T, id, k)
    requires Can(env, T, Advance(id, k, at)) && ChildOf(env, T, Advance(id, k, at)).Some?
    requires Sound(env, After(env, T, Advance(id, k, at)))
    ensures BodyRight(env, fate, After(env, T, Advance(id, k, at)), id, k)
  {
    hide Sound, OnItsWay, After, Can, ChildOf, TaskAt, Put, BodyAt, GraphOf, Inputs, Launches;
    var T' := After(env, T, Advance(id, k, at));
    LaunchedTo(env, T, id, k, at);
    var t, n, b := TaskOf(T, id, k), T.sites[id], T.bodies[id][k];
    SoundHasBody(env, T, id, k);
    SoundHasBody(env, T', id, k);
    StillOnItsWay(env, fate, T.sites, T'.sites, t, n.depth, TaskPath(n, k), b);
    WaitOnItsWay(env, fate, T'.sites, t, n.depth, TaskPath(n, k), b, at, T.sys.nextID + 1);
  }

  lemma WaitOnItsWay(env: Env, fate: Fate, sites: map<int, Node>, t: Task, depth: nat, path: Path, b: Body,
                     at: seq<nat>, c: int)
    requires OnItsWay(env, fate, sites, t, depth, path, b) && BodyAt(b, at).Some? && c in sites
    requires Launches(env, TaskAt(t, at), depth, path + Inputs(at))
    requires sites[c] == Node(env.jobs[TaskAt(t, at).runJob.value], depth + 1, path + Inputs(at))
    ensures OnItsWay(env, fate, sites, t, depth, path, Put(b, at, Awaiting(c)))
  {
    hide OnItsWay, TaskAt, Put, BodyAt, Inputs, Launches;
    WaitingOnItsWay(env, fate, sites, TaskAt(t, at), depth, path + Inputs(at), c);
    PutOnItsWay(env, fate, sites, t, depth, path, b, at, Awaiting(c));
  }

  /** Where a launch leaves the body and the places. */
  ghost predicate NowWaits(env: Env, T: Tree, T': Tree, id: int, k: string, at: seq<nat>)
    requires HasBody(T, id, k) && BodyAt(T.bodies[id][k], at).Some?
  {
    var c, n, t := T.sys.nextID + 1, T.sites[id], TaskAt(TaskOf(T, id, k), at);
    && PlacesStay(T, T') && id in T'.sites && id in T'.bodies && k in T'.bodies[id]
    && T'.bodies[id][k] == Put(T.bodies[id][k], at, Awaiting(c))
    && Launches(env, t, n.depth, PathOf(n, k, at))
    && c in T'.sites && T'.sites[c] == Node(env.jobs[t.runJob.value], n.depth + 1, PathOf(n, k, at))
  }

  lemma LaunchedTo(env: Env, T: Tree, id: int, k: string, at: seq<nat>)
    requires Sound(env, T) && Can(env, T, Advance(id, k, at)) && ChildOf(env, T, Advance(id, k, at)).Some?
    ensures HasBody(T, id, k) && BodyAt(T.bodies[id][k], at).Some?
    ensures NowWaits(env, T, After(env, T, Advance(id, k, at)), id, k, at)
  {
    hide Sound, NextBody, TaskAt, Put, BodyAt, GraphOf, Inputs, Step, Launches, PlanAt;
    NotTheNewOne(env, T, id);
    LaunchGrows(env, T, ChildOf(env, T, Advance(id, k, at)).value);
    ReadyLaunches(env, T.sys, TaskAt(TaskOf(T, id, k), at), T.sites[id].depth, PathOf(T.sites[id], k, at));
  }

  lemma NotTheNewOne(env: Env, T: Tree, id: int)
    requires Sound(env, T) && id in T.sites
    ensures id != T.sys.nextID + 1
  {
    assert SoundRun(env, T, id);
  }

  lemma WaitingOnItsWay(env: Env, fate: Fate, sites: map<int, Node>, t: Task, depth: nat, path: Path, c: int)
    requires Launches(env, t, depth, path) && c in sites && sites[c] == Node(env.jobs[t.runJob.value], depth + 1, path)
    ensures OnItsWay(env, fate, sites, t, depth, path, Awaiting(c))
  {
  }

  /** No body but the one an advance names changes, and a new run has none. */
  lemma {:induction false} AdvanceBodies(env: Env, T: Tree, id: int, k: string, at: seq<nat>, i: int, l: string)
    requires Sound(env, T) && Can(env, T, Advance(id, k, at)) && (i != id || l != k)
    requires i in After(env, T, Advance(id, k, at)).bodies && l in After(env, T, Advance(id, k, at)).bodies[i]
    ensures i in T.bodies && l in T.bodies[i] && After(env, T, Advance(id, k, at)).bodies[i][l] == T.bodies[i][l]
    ensures PlacesStay(T, After(env, T, Advance(id, k, at)))
  {
    hide Sound, NextBody, TaskAt, Put, BodyAt, GraphOf, Inputs, Step, Launches;
    if ChildOf(env, T, Advance(id, k, at)).Some? {
      LaunchGrows(env, T, ChildOf(env, T, Advance(id, k, at)).value);
    }
  }

  lemma {:induction false} AdvanceBodiesRight(env: Env, fate: Fate, T: Tree, m: Move, i: int, l: string)
    requires Sound(env, T) && Right(env, fate, T) && Foretells(fate, T) && m.Advance? && Can(env, T, m)
    requires Sound(env, After(env, T, m)) && i in After(env, T, m).bodies && l in After(env, T, m).bodies[i]
    ensures BodyRight(env, fate, After(env, T, m), i, l)
  {
    hide Sound, BodyRight, AllFine, Foretells, Protocol, After, ChildOf, Advanced, PlacesStay;
    if i == m.id && l == m.k {
      AdvancedHas(env, T, m);
      if ChildOf(env, T, m).Some? {
        LaunchedIsRight(env, fate, T, m.id, m.k, m.at);
      } else {
        AdvancedIsRight(env, fate, T, m.id, m.k, m.at);
      }
    } else {
      AdvanceBodies(env, T, m.id, m.k, m.at, i, l);
      BodyStaysRight(env, fate, T, After(env, T, m), i, l);
    }
  }

  lemma AdvancedHas(env: Env, T: Tree, m: Move)
    requires m.Advance? && Can(env, T, m)
    ensures m.id in T.bodies && m.k in T.bodies[m.id]
  {
  }

  lemma {:induction false} BodiesStayRight(env: Env, fate: Fate, T: Tree, m: Move, i: int, l: string)
    requires Sound(env, T) && Right(env, fate, T) && Foretells(fate, T) && Can(env, T, m)
    requires Sound(env, After(env, T, m)) && i in After(env, T, m).bodies && l in After(env, T, m).bodies[i]
    ensures BodyRight(env, fate, After(env, T, m), i, l)
  {
    hide Sound, BodyRight, AllFine, Foretells, Protocol, Launched, Advanced;
    match m
    case RunNow(jobID) =>
      NewHasNone(env, T, TopNode(env, T, jobID), i);
      LaunchBodiesRight(env, fate, T, TopNode(env, T, jobID), i, l);
    case Flow(a) => FlowBodiesRight(env, fate, T, a, i, l);
    case Return(id, k) => BodyStaysRight(env, fate, T, After(env, T, m), i, l);
    case Advance(id, k, at) => AdvanceBodiesRight(env, fate, T, m, i, l);
  }

  lemma NewHasNone(env: Env, T: Tree, n: Node, i: int)
    requires Sound(env, T) && i in Launched(env, T, n).bodies && Launched(env, T, n).bodies[i] != map[]
    ensures i in T.bodies && Launched(env, T, n).bodies[i] == T.bodies[i]
  {
    hide Sound, Step;
  }

  lemma {:induction false} MoveRight(env: Env, fate: Fate, T: Tree, m: Move)
    requires Sound(env, T) && Right(env, fate, T) && Foretells(fate, T) && Can(env, T, m)
    ensures Right(env, fate, After(env, T, m))
  {
    hide Sound, BodyRight, AllFine, Foretells, Protocol, After, Can, ActionOf, Enabled, Step;
    MoveSound(env, T, m);
    MoveFollows(env, fate, T, m);
    StepKeepsAllFine(Protocol(env, fate, T), ActionOf(env, fate, T, m));
    forall i, l | i in After(env, T, m).bodies && l in After(env, T, m).bodies[i]
      ensures BodyRight(env, fate, After(env, T, m), i, l)
    {
      BodiesStayRight(env, fate, T, m, i, l);
    }
  }

  /** Foretold, every state of a history is right. */
  lemma {:induction false} AlwaysRight(env: Env, fate: Fate, t: TreeTrace, i: nat)
    requires IsTreeTrace(env, t) && i < |t.trees| && forall j | 0 <= j < i :: Foretells(fate, t.trees[j])
    ensures Right(env, fate, t.trees[i])
  {
    hide Can, After, Sound, BodyRight, Foretells, Fine;
    if i > 0 {
      AlwaysRight(env, fate, t, i - 1);
      AlwaysSound(env, t, i - 1);
      MoveRight(env, fate, t.trees[i - 1], t.moves[i - 1]);
      assert t.trees[i - 1 + 1] == After(env, t.trees[i - 1], t.moves[i - 1]);
    }
  }

  /** Every history of a tree of runs follows the protocol: child run ids aside, it is one of the
      protocol's histories, in which each task's answer is its outcome. So whatever holds of all the
      protocol's histories holds of every run of the tree. */
  ghost function ProtocolTrace(env: Env, t: TreeTrace): Trace
    requires IsTreeTrace(env, t)
  {
    var fate := FateAt(t.trees[|t.moves|]);
    Trace(seq(|t.trees|, i requires 0 <= i < |t.trees| => Protocol(env, fate, t.trees[i])),
          seq(|t.moves|, i requires 0 <= i < |t.moves| => ActionOf(env, fate, t.trees[i], t.moves[i])))
  }

  lemma {:induction false} TreesFollowTheProtocol(env: Env, t: TreeTrace)
    requires IsTreeTrace(env, t)
    ensures IsTrace(ProtocolTrace(env, t))
  {
    hide Sound, Right, Foretells, FateAt, Protocol, ActionOf, Enabled, Step;
    var fate, p := FateAt(t.trees[|t.moves|]), ProtocolTrace(env, t);
    NothingYet(env, fate);
    forall i | 0 <= i < |p.actions|
      ensures Enabled(p.states[i], p.actions[i]) && p.states[i + 1] == Step(p.states[i], p.actions[i])
    {
      forall j | 0 <= j < i ensures Foretells(fate, t.trees[j]) {
        EndForetells(env, t, j, |t.moves|);
      }
      AlwaysRight(env, fate, t, i);
      AlwaysSound(env, t, i);
      MoveFollows(env, fate, t.trees[i], t.moves[i]);
    }
  }

  /** The move cancels the run: it is a request to, and the run has not terminated. */
  predicate CancelsRun(T: Tree, m: Move, id: int)
  {
    m == Flow(CancelRequest(id)) && id in T.sys.runs && T.sys.runs[id].lifeCycle != Terminated
  }

  /** In every history of trees a run, child run or not, shows CANCELED exactly when a cancel reached it
      before it terminated. */
  lemma {:induction false} TreesCanceledIff(env: Env, t: TreeTrace, id: int, n: nat)
    requires IsTreeTrace(env, t) && n < |t.trees|
    ensures IsCanceled(t.trees[n].sys.runs, id) <==> exists i | 0 <= i < n :: CancelsRun(t.trees[i], t.moves[i], id)
  {
    hide Can, After, Sound, Right, FateAt, Foretells, Cancels, IsCanceled, Protocol, ActionOf;
    var fate, p := FateAt(t.trees[|t.moves|]), ProtocolTrace(env, t);
    TreesFollowTheProtocol(env, t);
    CanceledIff(p, id, n);
    SameCancels(env, fate, t.trees[n], id);
    forall i | 0 <= i < n ensures Cancels(p.states[i], p.actions[i], id) == CancelsRun(t.trees[i], t.moves[i], id) {
      SameCancel(env, fate, t.trees[i], t.moves[i], id);
    }
    if i :| 0 <= i < n && CancelsRun(t.trees[i], t.moves[i], id) {
      assert Cancels(p.states[i], p.actions[i], id);
    }
    if i :| 0 <= i < n && Cancels(p.states[i], p.actions[i], id) {
      assert CancelsRun(t.trees[i], t.moves[i], id);
    }
  }

  lemma SameCancels(env: Env, fate: Fate, T: Tree, id: int)
    ensures IsCanceled(Protocol(env, fate, T).runs, id) == IsCanceled(T.sys.runs, id)
  {
    hide ExecsOf;
    CanceledCommutes(T.sys.runs, id);
  }

  lemma SameCancel(env: Env, fate: Fate, T: Tree, m: Move, id: int)
    requires Can(env, T, m)
    ensures Cancels(Protocol(env, fate, T), ActionOf(env, fate, T, m), id) == CancelsRun(T, m, id)
  {
    hide ExecsOf, PlanOf, HasBody, Enabled, ChildOf, Advanced, MayComplete;
  }

  lemma NothingYet(env: Env, fate: Fate)
    ensures Protocol(env, fate, NO_TREE) == INITIAL
  {
  }

  // ------------------------------------------------------------------ what every history shows

  lemma {:induction false} RightAt(env: Env, t: TreeTrace, n: nat)
    requires IsTreeTrace(env, t) && n < |t.trees|
    ensures Sound(env, t.trees[n]) && Right(env, FateAt(t.trees[n]), t.trees[n])
  {
    hide Sound, Right, Foretells, FateAt, Can, After;
    forall j | 0 <= j < n ensures Foretells(FateAt(t.trees[n]), t.trees[j]) {
      EndForetells(env, t, j, n);
    }
    AlwaysRight(env, FateAt(t.trees[n]), t, n);
    AlwaysSound(env, t, n);
  }

  lemma FineHere(env: Env, fate: Fate, T: Tree, id: int)
    requires Sound(env, T) && Right(env, fate, T) && id in T.sites
    ensures Fine(Protocol(env, fate, T), id)
  {
    hide Fine, BodyRight, ExecOf, SoundRun, Born, PathsDiffer;
    assert id in Protocol(env, fate, T).execs;
  }

  /** A run that is done and was not cancelled shows its outcome under the cancels of the history.
      Of those only the ones below it matter (RunOutcomeIsLocal, TreesAreConfluent). */
  lemma {:induction false} TreesEndAsFated(env: Env, t: TreeTrace, n: nat, id: int)
    requires IsTreeTrace(env, t) && n < |t.trees| && id in t.trees[n].sites
    requires IsDone(t.trees[n], id) && !IsCanceled(t.trees[n].sys.runs, id)
    ensures
      var T := t.trees[n];
      var site := T.sites[id];
      Shows(StripRecord(T.sys.runs[id]), RunOutcome(env, FateAt(T), site.job, site.depth, site.path))
  {
    hide Sound, Right, FateAt, RunOutcome, IsTreeTrace, Shows, Fine;
    RightAt(env, t, n);
    FineHere(env, FateAt(t.trees[n]), t.trees[n], id);
    DoneShowsOutcome(env, FateAt(t.trees[n]), t.trees[n], id);
  }

  /** The run is done, and was not cancelled. */
  predicate EndedUncancelled(T: Tree, id: int) { id in T.sites && IsDone(T, id) && !IsCanceled(T.sys.runs, id) }

  /** Two histories, whatever else runs or is cancelled in them, before or meanwhile: runs of one job at
      one depth, wherever they stand and whatever their numbers, end with the same record, their own
      ids and their child runs' ids aside, if below them the same runs are cancelled and the same
      answers given. */
  lemma {:induction false} TreesAreConfluent(
      env1: Env, t1: TreeTrace, n1: nat, id1: int, env2: Env, t2: TreeTrace, n2: nat, id2: int)
    requires IsTreeTrace(env1, t1) && n1 < |t1.trees| && EndedUncancelled(t1.trees[n1], id1)
    requires IsTreeTrace(env2, t2) && n2 < |t2.trees| && EndedUncancelled(t2.trees[n2], id2)
    requires
      var T1, T2, site1, site2 := t1.trees[n1], t2.trees[n2], t1.trees[n1].sites[id1], t2.trees[n2].sites[id2];
      && site1.job == site2.job && site1.depth == site2.depth
      && AgreeBelow(env1, FateAt(T1), site1.path, env2, FateAt(T2), site2.path)
    ensures
      StripRecord(t1.trees[n1].sys.runs[id1]).(id := 0) == StripRecord(t2.trees[n2].sys.runs[id2]).(id := 0)
  {
    hide Sound, Right, FateAt, RunOutcome, IsTreeTrace, Fine, AgreeBelow, StripAll, Protocol, IsDone, IsCanceled;
    var T1, T2, site1, site2 := t1.trees[n1], t2.trees[n2], t1.trees[n1].sites[id1], t2.trees[n2].sites[id2];
    EndShowsOutcome(env1, t1, n1, id1);
    EndShowsOutcome(env2, t2, n2, id2);
    RunOutcomeIsLocal(env1, FateAt(T1), site1.path, env2, FateAt(T2), site2.path, site1.job, site1.depth);
  }

  lemma EndShowsOutcome(env: Env, t: TreeTrace, n: nat, id: int)
    requires IsTreeTrace(env, t) && n < |t.trees| && EndedUncancelled(t.trees[n], id)
    ensures
      var T, r := t.trees[n], StripRecord(t.trees[n].sys.runs[id]);
      && Shows(r, RunOutcome(env, FateAt(T), T.sites[id].job, T.sites[id].depth, T.sites[id].path))
      && r.jobID == T.sites[id].job.id && r.executedBy == EXECUTED_BY
  {
    hide Sound, Right, FateAt, RunOutcome, IsTreeTrace, Fine, StripAll, Protocol, IsDone, IsCanceled;
    RightAt(env, t, n);
    FineHere(env, FateAt(t.trees[n]), t.trees[n], id);
    DoneShowsOutcome(env, FateAt(t.trees[n]), t.trees[n], id);
  }

  /** So an uncancelled tree ends as the recursive meaning says, however its runs interleave. */
  lemma {:induction false} UncancelledTreesMeanTheRun(env: Env, t: TreeTrace, n: nat, id: int)
    requires IsTreeTrace(env, t) && n < |t.trees| && id in t.trees[n].sites && IsDone(t.trees[n], id)
    requires forall i | i in t.trees[n].sites && t.trees[n].sites[id].path <= t.trees[n].sites[i].path ::
               !IsCanceled(t.trees[n].sys.runs, i)
    ensures
      var T := t.trees[n];
      var site := T.sites[id];
      Shows(StripRecord(T.sys.runs[id]), RunMeaning(env, site.job, site.depth, site.path))
  {
    hide IsTreeTrace, IsCanceled, RunOutcome, RunMeaning, Shows, IsDone;
    var T := t.trees[n];
    TreesEndAsFated(env, t, n, id);
    assert Spared(FateAt(T), T.sites[id].path);
    SparedRun(env, FateAt(T), T.sites[id].job, T.sites[id].depth, T.sites[id].path);
  }

  /** A task whose child run was cancelled is recorded CANCELED, and with the child's id; and its run
      ends FAILED only by a task that FAILED. */
  lemma {:induction false} CanceledChildIsReported(env: Env, t: TreeTrace, n: nat, id: int, k: string, c: int)
    requires IsTreeTrace(env, t) && n < |t.trees| && env.attached && StartedFrom(env, t.trees[n], c, id, k, [])
    requires IsDone(t.trees[n], id) && !IsCanceled(t.trees[n].sys.runs, id) && IsCanceled(t.trees[n].sys.runs, c)
    ensures
      var T := t.trees[n];
      var results := T.sys.execs[id].results;
      && k in results && Strip(results[k]) == Bare(k, Canceled) && results[k].childRunID == c
      && T.sys.runs[id].resultState ==
           if exists j | j in results :: results[j].resultState == Failed then Failed else Success
  {
    hide IsTreeTrace, Sound, Right, FateAt, Fine, StartedFrom, Final, Strip, Shows, IsChild, Started, IsCanceled;
    var T, fate := t.trees[n], FateAt(t.trees[n]);
    RightAt(env, t, n);
    StartedWhere(env, T, c, id, k);
    FatedHere(T, c);
    FineHere(env, fate, T, id);
    ResultsHere(env, fate, T, id);
    CanceledTaskHere(env, fate, T, id, k, c);
    StateHere(env, fate, T, id);
  }

  lemma FatedHere(T: Tree, c: int)
    requires c in T.sites && IsCanceled(T.sys.runs, c)
    ensures FateAt(T)(T.sites[c].path)
  {
    hide IsCanceled;
  }

  lemma StartedWhere(env: Env, T: Tree, c: int, id: int, k: string)
    requires StartedFrom(env, T, c, id, k, [])
    ensures id in T.sites && c in T.sites && id in T.bodies && k in T.bodies[id] && Started(T.bodies[id][k], [], c)
    ensures IsChild(env, T.sites[id], k, [], T.sites[c])
  {
  }

  /** The results of a done run that was not cancelled. */
  lemma {:induction false} ResultsHere(env: Env, fate: Fate, T: Tree, id: int)
    requires Sound(env, T) && id in T.sites && Fine(Protocol(env, fate, T), id) && env.attached
    requires IsDone(T, id) && !IsCanceled(T.sys.runs, id)
    ensures
      var n, e := T.sites[id], T.sys.execs[id];
      && StripResults(e.results) == OutcomesOf(env, fate, n.job, n.depth, n.path)
      && e.inflight == {}
      && forall k | k in e.started && k in e.results ::
           k in ByKey(n.job.tasks) && Executes(ByKey(n.job.tasks), WorkOutcome(env, fate, n.depth, n.path), k)
  {
    hide Sound, PlanOf, FinalResults, OutcomesOf, Conclude, ExecOk, Executes, StripAll, StripResults, ByKey,
      RunningRecord;
    StrippedKeys(T.sys.execs[id].results);
    ExecHere(env, fate, T, id);
    PlanAnswers(env, fate, T.sites[id]);
    ExecutedHere(ExecOf(env, fate, T.sites[id], T.sys.execs[id]));
  }

  lemma PlanAnswers(env: Env, fate: Fate, n: Node)
    ensures
      var p := PlanOf(env, fate, n);
      && GraphOf(p) == ByKey(n.job.tasks) && p.work == WorkOutcome(env, fate, n.depth, n.path)
      && p.attached == env.attached && FinalResults(GraphOf(p), p.work) == OutcomesOf(env, fate, n.job, n.depth, n.path)
  {
    hide ByKey, WorkOutcome, FinalResults;
  }

  /** Of what a finished executor has decided, exactly the tasks that execute have run. */
  lemma ExecutedHere(e: Exec)
    requires ExecOk(e) && e.phase == Done
    ensures e.inflight == {} && e.results.Keys <= GraphOf(e.plan).Keys
    ensures forall k | k in e.results :: k in e.started <==> Executes(GraphOf(e.plan), e.plan.work, k)
  {
    hide GraphOf, Executes, Final, Stuck, DepsSatisfied, WavesBounded;
  }

  lemma StrippedKeys(results: Results)
    ensures StripResults(results).Keys == results.Keys
    ensures forall k | k in results ::
              StripResults(results)[k] == Strip(results[k]) && Strip(results[k]).resultState == results[k].resultState
  {
  }

  lemma {:induction false} CanceledTaskHere(env: Env, fate: Fate, T: Tree, id: int, k: string, c: int)
    requires Sound(env, T) && id in T.sites && c in T.sites && id in T.bodies && k in T.bodies[id] && id in T.sys.execs
    requires IsChild(env, T.sites[id], k, [], T.sites[c]) && fate(T.sites[c].path) && Started(T.bodies[id][k], [], c)
    requires var n := T.sites[id];
      StripResults(T.sys.execs[id].results) == OutcomesOf(env, fate, n.job, n.depth, n.path)
    requires T.sys.execs[id].inflight == {}
    requires forall j | j in T.sys.execs[id].started && j in T.sys.execs[id].results ::
      j in ByKey(T.sites[id].job.tasks) &&
      Executes(ByKey(T.sites[id].job.tasks), WorkOutcome(env, fate, T.sites[id].depth, T.sites[id].path), j)
    ensures k in T.sys.execs[id].results
    ensures Strip(T.sys.execs[id].results[k]) == Bare(k, Canceled) && T.sys.execs[id].results[k].childRunID == c
  {
    hide Born, PathsDiffer, Ended, Kept, WorkOutcome, Strip, StripResults, OutcomesOf, Executes, Launches, ByKey;
    var n, e := T.sites[id], T.sys.execs[id];
    assert SoundRun(env, T, id);
    KeptResult(e, T.bodies[id], k);
    StrippedKeys(e.results);
    assert Inputs([]) == [] && PathOf(n, k, []) == n.path + [ToTask(k)];
    CanceledChildCancelsTask(env, fate, n.job, n.depth, n.path, k);
  }

  lemma {:induction false} StateHere(env: Env, fate: Fate, T: Tree, id: int)
    requires Sound(env, T) && id in T.sites && Fine(Protocol(env, fate, T), id) && env.attached
    requires IsDone(T, id) && !IsCanceled(T.sys.runs, id)
    requires var n := T.sites[id];
      StripResults(T.sys.execs[id].results) == OutcomesOf(env, fate, n.job, n.depth, n.path)
    ensures
      var results := T.sys.execs[id].results;
      T.sys.runs[id].resultState ==
        if exists j | j in results :: results[j].resultState == Failed then Failed else Success
  {
    hide Sound, Fine, OutcomesOf, RunOutcome, Strip, StripResults;
    var n := T.sites[id];
    DoneShowsOutcome(env, fate, T, id);
    FailsByFailedTasksOnly(env, fate, n.job, n.depth, n.path);
    StrippedKeys(T.sys.execs[id].results);
  }
}
