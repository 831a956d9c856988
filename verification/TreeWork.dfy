// Trees of runs end: what the runner still has to do falls with every move of its own, and only new
// runs from the top add to it.
module TreeWork {
  import opened Basics
  import opened JobModel
  import opened Scheduler
  import opened NestedRuns
  import opened Outcomes
  import opened ChildIds
  import opened RunStore
  import opened RunProtocol
  import opened RunTree
  import opened TreeOutcomes
  import opened TreeProgress
  import opened TreeBounds

  // --------------------------------------------------------------- the work that is left

  /** The most moves a run can take, those of the runs below it included. */
  ghost function JobWork(env: Env, job: Job, depth: nat): nat
    decreases Remaining(depth), 2, 0
  {
    4 * |ByKey(job.tasks)| + 6 + Sum(ByKey(job.tasks).Keys, KeyWork(env, ByKey(job.tasks), depth))
  }

  ghost function KeyWork(env: Env, g: Graph, depth: nat): string -> nat
    decreases Remaining(depth), 1, 0
  {
    (k: string) => if k in g then TaskWork(env, g[k], depth) else 0
  }

  /** The most moves a dispatched task's body can take, with the runs it starts. */
  ghost function TaskWork(env: Env, t: Task, depth: nat): nat
    decreases Remaining(depth), 0, 2 * Nesting(t) + 1
  {
    2 + ChildWork(env, t, depth) +
    if t.forEach.Some? then SumTo(|t.forEach.value.inputs|, LoopWork(env, t, depth)) else 0
  }

  ghost function ChildWork(env: Env, t: Task, depth: nat): nat
    decreases Remaining(depth), 0, 0
  {
    if t.runJob.Some? && t.runJob.value in env.jobs && depth + 1 <= MAX_RUN_JOB_DEPTH
      then JobWork(env, env.jobs[t.runJob.value], depth + 1) else 0
  }

  ghost function LoopWork(env: Env, t: Task, depth: nat): nat -> nat
    decreases Remaining(depth), 0, 2 * Nesting(t)
  {
    (i: nat) =>
      if t.forEach.Some? && i < |t.forEach.value.inputs| then 1 + TaskWork(env, Iteration(t, i), depth) else 0
  }

  /** The moves a body still has; a run it waits for has its own. */
  ghost function BodyLeft(env: Env, t: Task, depth: nat, b: Body): nat
    decreases b
  {
    match b
    case Idle => 1 + TaskWork(env, t, depth)
    case Ready => TaskWork(env, t, depth)
    case Awaiting(_) => 1
    case Looping(parts) => 1 + SumTo(|parts|, PartsLeft(env, t, depth, parts))
    case Finished(_) => 0
  }

  ghost function PartsLeft(env: Env, t: Task, depth: nat, parts: seq<Body>): nat -> nat
    decreases parts
  {
    (i: nat) =>
      if i < |parts| && t.forEach.Some? && i < |t.forEach.value.inputs|
      then BodyLeft(env, Iteration(t, i), depth, parts[i]) else 0
  }

  ghost function BodiesLeft(env: Env, g: Graph, depth: nat, bodies: map<string, Body>): string -> nat
  {
    (k: string) => if k in g && k in bodies then BodyLeft(env, g[k], depth, bodies[k]) else 0
  }

  ghost function RunLeft(env: Env, n: Node, e: Exec, bodies: map<string, Body>): nat
  {
    Work2Do(e) + Sum(e.remaining, KeyWork(env, ByKey(n.job.tasks), n.depth)) +
    Sum(bodies.Keys, BodiesLeft(env, ByKey(n.job.tasks), n.depth, bodies))
  }

  ghost function RunsLeft(env: Env, T: Tree): int -> nat
  {
    (id: int) =>
      if id in T.sites && id in T.sys.execs && id in T.bodies
      then RunLeft(env, T.sites[id], T.sys.execs[id], T.bodies[id])
      else 0
  }

  ghost function TreeLeft(env: Env, T: Tree): nat { Sum(T.sites.Keys, RunsLeft(env, T)) }

  // ---------------------------------------------------------------- sums, one summand changed

  lemma {:induction false} SumToSame(n: nat, f: nat -> nat, g: nat -> nat)
    requires forall i: nat | i < n :: f(i) == g(i)
    ensures SumTo(n, f) == SumTo(n, g)
  {
    if n > 0 {
      SumToSame(n - 1, f, g);
    }
  }

  lemma {:induction false} SumToChange(n: nat, f: nat -> nat, g: nat -> nat, j: nat)
    requires j < n && forall i: nat | i < n && i != j :: f(i) == g(i)
    ensures SumTo(n, g) + f(j) == SumTo(n, f) + g(j)
  {
    if j == n - 1 {
      SumToSame(n - 1, f, g);
    } else {
      SumToChange(n - 1, f, g, j);
    }
  }

  lemma {:induction false} SumSame<T>(s: set<T>, f: T -> nat, g: T -> nat)
    requires forall x | x in s :: f(x) == g(x)
    ensures Sum(s, f) == Sum(s, g)
    decreases |s|
  {
    if s != {} {
      var x :| x in s;
      SumSplit(s, f, x);
      SumSplit(s, g, x);
      SumSame(s - {x}, f, g);
    }
  }

  lemma {:induction false} SumChange<T>(s: set<T>, f: T -> nat, g: T -> nat, x: T)
    requires x in s && forall y | y in s && y != x :: f(y) == g(y)
    ensures Sum(s, g) + f(x) == Sum(s, f) + g(x)
  {
    SumSplit(s, f, x);
    SumSplit(s, g, x);
    SumSame(s - {x}, f, g);
  }

  // --------------------------------------------------------------------------- a body's move

  /** Putting another body at an address changes what is left by the difference. */
  lemma {:induction false} PutLeft(
      env: Env, fate: Fate, sites: map<int, Node>, t: Task, depth: nat, path: Path, b: Body, at: seq<nat>, c: Body)
    requires OnItsWay(env, fate, sites, t, depth, path, b) && BodyAt(b, at).Some?
    ensures BodyLeft(env, t, depth, Put(b, at, c)) + BodyLeft(env, TaskAt(t, at), depth, BodyAt(b, at).value) ==
      BodyLeft(env, t, depth, b) + BodyLeft(env, TaskAt(t, at), depth, c)
    decreases |at|
  {
    hide TaskOutcome, SubstituteInput, Launches, Strip, TaskWork, SumTo;
    if at != [] {
      var i := at[0];
      var parts, parts' := b.parts, b.parts[i := Put(b.parts[i], at[1..], c)];
      LoopHasTask(env, t, path);
      PutLeft(env, fate, sites, Iteration(t, i), depth, path + [ToInput(i)], parts[i], at[1..], c);
      SumToChange(|parts|, PartsLeft(env, t, depth, parts), PartsLeft(env, t, depth, parts'), i);
    }
  }

  lemma {:induction false} SpawnLeft(env: Env, t: Task, depth: nat, parts: seq<Body>, i: nat)
    requires i < |parts| && parts[i].Idle? && t.forEach.Some? && |parts| == |t.forEach.value.inputs|
    ensures BodyLeft(env, t, depth, Looping(parts[i := Ready])) + 1 == BodyLeft(env, t, depth, Looping(parts))
  {
    hide TaskWork, SumTo, Iteration;
    var parts' := parts[i := Ready];
    var f, g := PartsLeft(env, t, depth, parts), PartsLeft(env, t, depth, parts');
    assert f(i) == BodyLeft(env, Iteration(t, i), depth, Idle) && g(i) == BodyLeft(env, Iteration(t, i), depth, Ready);
    forall j: nat | j < |parts| && j != i ensures f(j) == g(j) {
      assert parts[j] == parts'[j];
    }
    SumToChange(|parts|, f, g, i);
  }

  lemma {:induction false} LoopLeft(env: Env, t: Task, depth: nat)
    requires t.forEach.Some?
    ensures BodyLeft(env, t, depth, Looping(seq(|t.forEach.value.inputs|, _ => Idle))) + 1 <= TaskWork(env, t, depth)
  {
    hide SumTo, Iteration, ChildWork;
    var parts := seq(|t.forEach.value.inputs|, _ => Idle);
    var f, g := PartsLeft(env, t, depth, parts), LoopWork(env, t, depth);
    forall i: nat | i < |parts| ensures f(i) == g(i) {
      assert parts[i] == Idle && f(i) == BodyLeft(env, Iteration(t, i), depth, Idle);
    }
    SumToSame(|parts|, f, g);
  }

  lemma LaunchLeft(env: Env, t: Task, depth: nat, path: Path)
    requires Launches(env, t, depth, path)
    ensures TaskWork(env, t, depth) >= 2 + JobWork(env, env.jobs[t.runJob.value], depth + 1)
  {
    hide JobWork, SumTo;
  }

  /** What the run a body starts adds. */
  ghost function Started2Do(env: Env, t: Task, depth: nat, path: Path, b: Body): nat
  {
    if b.Ready? && Launches(env, t, depth, path) then JobWork(env, env.jobs[t.runJob.value], depth + 1) else 0
  }

  lemma {:induction false} NextLeft(
      env: Env, fate: Fate, sites: map<int, Node>, sys: System, t: Task, depth: nat, path: Path, b: Body)
    requires OnItsWay(env, fate, sites, t, depth, path, b) && NextBody(env, sys, t, depth, path, b).Some?
    ensures
      var c := NextBody(env, sys, t, depth, path, b).value;
      BodyLeft(env, t, depth, c) + Started2Do(env, t, depth, path, b) + 1 <= BodyLeft(env, t, depth, b)
  {
    hide TaskOutcome, SubstituteInput, Launches, Strip, JobWork, SumTo, Alone, LoopRun, ReportOf, AllFinished, InFlight,
      Loops;
    match b
    case Ready =>
      if Launches(env, t, depth, path) {
        LaunchLeft(env, t, depth, path);
      } else if Loops(env, t, path) {
        LoopHasTask(env, t, path);
        LoopLeft(env, t, depth);
      }
    case Looping(parts) =>
      LoopHasTask(env, t, path);
      if !AllFinished(parts) {
        SpawnLeft(env, t, depth, parts, NextIdle(parts));
      }
    case _ =>
  }

  // ------------------------------------------------------------------------- a run's move

  /** What an executor's own step leaves of its keys. */
  lemma {:induction false} FlowUses(s: System, a: Action, id: int, bodies: map<string, Body>)
    requires Enabled(s, a) && !a.Launch? && !a.Complete? && !a.CancelRequest? && !a.Read? && id == Owner(s, a)
    requires id in s.execs && Kept(s.execs[id], bodies)
    ensures id in Step(s, a).execs && Work2Do(Step(s, a).execs[id]) + 1 <= Work2Do(s.execs[id])
    ensures
      var e, e' := s.execs[id], Step(s, a).execs[id];
      && e'.remaining <= e.remaining
      && (a.Dispatch? ==> a.id == id && e'.remaining == e.remaining - {a.k} && a.k in e.remaining && a.k !in bodies)
  {
    hide GraphOf, ReadyKeys, DepsSatisfied, AfterDispatch, AfterCheck, Conclude, Publish, RunningRecord, RefusedRecord,
      ClosedRecord, Work2Do, MayDispatch;
    var e := s.execs[id];
    match a
    case Check(_) =>
      CheckUsesUp(e, IsCanceled(s.runs, id));
      CheckShrinks(e, IsCanceled(s.runs, id));
    case Dispatch(_, k) =>
      DispatchUsesUp(e, k);
      DispatchShrinks(e, k);
    case _ => OtherUses(s, a, id);
  }

  lemma CheckShrinks(e: Exec, canceled: bool)
    ensures AfterCheck(e, canceled).remaining <= e.remaining
  {
    hide ReadyKeys;
  }

  lemma DispatchShrinks(e: Exec, k: string)
    requires MayDispatch(e, k)
    ensures AfterDispatch(e, k).remaining == e.remaining - {k} && k in e.todo
  {
    hide GraphOf, DepsSatisfied, ShouldRun;
  }

  lemma OtherUses(s: System, a: Action, id: int)
    requires Enabled(s, a) && (a.Begin? || a.Refuse? || a.EndWave? || a.Close?) && id == Owner(s, a) && id in s.execs
    ensures id in Step(s, a).execs && Work2Do(Step(s, a).execs[id]) + 1 <= Work2Do(s.execs[id])
    ensures Step(s, a).execs[id].remaining == s.execs[id].remaining
  {
    hide GraphOf, Publish, RunningRecord, RefusedRecord, ClosedRecord, Conclude;
  }

  /** A run's own step uses up its work: a dispatched task's is its body's from then on. */
  lemma {:induction false} FlowLeft(env: Env, n: Node, s: System, a: Action, id: int, bodies: map<string, Body>)
    requires Enabled(s, a) && !a.Launch? && !a.Complete? && !a.CancelRequest? && !a.Read? && id == Owner(s, a)
    requires id in s.execs && Kept(s.execs[id], bodies) && id in Step(s, a).execs
    ensures
      var e' := Step(s, a).execs[id];
      RunLeft(env, n, e', if a.Dispatch? && a.k in e'.inflight then bodies[a.k := Ready] else bodies) + 1
        <= RunLeft(env, n, s.execs[id], bodies)
  {
    hide Enabled, Step, Work2Do, KeyWork, BodiesLeft, Kept, ByKey;
    FlowUses(s, a, id, bodies);
    var e, e', g := s.execs[id], Step(s, a).execs[id], ByKey(n.job.tasks);
    SumSubset(e'.remaining, e.remaining, KeyWork(env, g, n.depth));
    if a.Dispatch? {
      SumSplit(e.remaining, KeyWork(env, g, n.depth), a.k);
      if a.k in e'.inflight {
        BodyAdded(env, g, n.depth, bodies, a.k);
      }
    }
  }

  lemma BodyAdded(env: Env, g: Graph, depth: nat, bodies: map<string, Body>, k: string)
    requires k !in bodies
    ensures Sum(bodies[k := Ready].Keys, BodiesLeft(env, g, depth, bodies[k := Ready])) ==
      Sum(bodies.Keys, BodiesLeft(env, g, depth, bodies)) + KeyWork(env, g, depth)(k)
  {
    hide TaskWork;
    var bodies' := bodies[k := Ready];
    var f, f' := BodiesLeft(env, g, depth, bodies), BodiesLeft(env, g, depth, bodies');
    assert bodies'.Keys == bodies.Keys + {k};
    SumAdd(bodies.Keys, f', k);
    forall l | l in bodies.Keys ensures f(l) == f'(l) {
      assert bodies'[l] == bodies[l];
    }
    SumSame(bodies.Keys, f, f');
  }

  lemma {:induction false} BodyChanged(env: Env, g: Graph, depth: nat, bodies: map<string, Body>, k: string, b: Body)
    requires k in bodies && k in g
    ensures
      Sum(bodies[k := b].Keys, BodiesLeft(env, g, depth, bodies[k := b])) + BodyLeft(env, g[k], depth, bodies[k]) ==
      Sum(bodies.Keys, BodiesLeft(env, g, depth, bodies)) + BodyLeft(env, g[k], depth, b)
  {
    hide BodyLeft;
    var bodies' := bodies[k := b];
    assert bodies'.Keys == bodies.Keys;
    SumChange(bodies.Keys, BodiesLeft(env, g, depth, bodies), BodiesLeft(env, g, depth, bodies'), k);
  }

  lemma ReturnLeft(env: Env, n: Node, e: Exec, bodies: map<string, Body>, k: string, tr: TaskRun)
    requires MayComplete(e, k)
    ensures RunLeft(env, n, Returned(e, k, tr), bodies) + 1 <= RunLeft(env, n, e, bodies)
  {
    hide KeyWork, BodiesLeft, ByKey, GraphOf, Sum;
    assert |e.inflight - {k}| == |e.inflight| - 1;
  }

  lemma NewRunLeft(env: Env, n: Node)
    ensures RunLeft(env, n, NewExec(PlanAt(env, n)), map[]) == JobWork(env, n.job, n.depth)
  {
    hide KeyWork, BodiesLeft;
    assert |ByKey(n.job.tasks).Keys| == |ByKey(n.job.tasks)|;
  }

  // ------------------------------------------------------------------------- the tree's moves

  lemma {:induction false} OneRunUses(env: Env, T: Tree, T': Tree, id: int, extra: nat)
    requires T'.sites == T.sites && id in T.sites && RunsLeft(env, T')(id) + extra <= RunsLeft(env, T)(id)
    requires forall i | i in T.sites && i != id :: RunsLeft(env, T')(i) == RunsLeft(env, T)(i)
    ensures TreeLeft(env, T') + extra <= TreeLeft(env, T)
  {
    hide RunsLeft;
    var f, g := RunsLeft(env, T), RunsLeft(env, T');
    forall i | i in T.sites.Keys && i != id ensures f(i) == g(i) {
      assert i in T.sites;
    }
    SumChange(T.sites.Keys, f, g, id);
  }

  lemma {:induction false} FlowMoveLeft(env: Env, T: Tree, a: Action)
    requires Sound(env, T) && Can(env, T, Flow(a))
    ensures TreeLeft(env, After(env, T, Flow(a))) + (if Working(Flow(a)) then 1 else 0) <= TreeLeft(env, T)
  {
    hide Enabled, Step, RunLeft, Kept, Ended, Born, PathsDiffer, PlanAt, Cancel;
    var T' := After(env, T, Flow(a));
    if a.CancelRequest? || a.Read? {
      AsideSteps(T.sys, a);
      SumSame(T.sites.Keys, RunsLeft(env, T), RunsLeft(env, T'));
    } else {
      OwnerKnown(T.sys, a);
      var id := Owner(T.sys, a);
      assert SoundRun(env, T, id);
      FlowUses(T.sys, a, id, T.bodies[id]);
      FlowLeft(env, T.sites[id], T.sys, a, id, T.bodies[id]);
      forall i | i in T.sites && i != id ensures RunsLeft(env, T')(i) == RunsLeft(env, T)(i) {
        assert SoundRun(env, T, i);
        FlowOthers(T.sys, a, i);
      }
      OneRunUses(env, T, T', id, 1);
    }
  }

  lemma {:induction false} ReturnMoveLeft(env: Env, T: Tree, id: int, k: string)
    requires Sound(env, T) && Can(env, T, Return(id, k))
    ensures TreeLeft(env, After(env, T, Return(id, k))) + 1 <= TreeLeft(env, T)
  {
    hide Sound, RunLeft, MayComplete, Returned, GraphOf;
    var T' := After(env, T, Return(id, k));
    ReturnLeft(env, T.sites[id], T.sys.execs[id], T.bodies[id], k, T.bodies[id][k].run);
    OneRunUses(env, T, T', id, 1);
  }

  lemma LaunchRunsLeft(env: Env, T: Tree, n: Node, i: int)
    ensures RunsLeft(env, Launched(env, T, n))(i) ==
      if i == T.sys.nextID + 1 then JobWork(env, n.job, n.depth) else RunsLeft(env, T)(i)
  {
    hide RunLeft, JobWork, Step, PlanAt, NewExec;
    NewRunLeft(env, n);
    LaunchExecs(T.sys, PlanAt(env, n));
  }

  lemma LaunchExecs(s: System, p: Plan)
    ensures Step(s, Launch(p)).execs == s.execs[s.nextID + 1 := NewExec(p)]
  {
    hide NewExec, PendingRecord;
  }

  lemma {:induction false} LaunchAdds(env: Env, T: Tree, n: Node)
    requires T.sys.nextID + 1 !in T.sites
    ensures TreeLeft(env, Launched(env, T, n)) == TreeLeft(env, T) + JobWork(env, n.job, n.depth)
  {
    hide RunsLeft;
    var T', id := Launched(env, T, n), T.sys.nextID + 1;
    var f, g := RunsLeft(env, T), RunsLeft(env, T');
    assert T'.sites.Keys == T.sites.Keys + {id};
    SumAdd(T.sites.Keys, g, id);
    LaunchRunsLeft(env, T, n, id);
    forall i | i in T.sites.Keys ensures f(i) == g(i) {
      LaunchRunsLeft(env, T, n, i);
    }
    SumSame(T.sites.Keys, f, g);
  }

  /** What the run adds that a move of the body at the address starts. */
  ghost function Extra(env: Env, T: Tree, id: int, k: string, at: seq<nat>): nat
    requires Can(env, T, Advance(id, k, at))
  {
    var n := T.sites[id];
    Started2Do(env, TaskAt(TaskOf(T, id, k), at), n.depth, PathOf(n, k, at), BodyAt(T.bodies[id][k], at).value)
  }

  lemma {:induction false} BodyStepLeft(env: Env, fate: Fate, T: Tree, id: int, k: string, at: seq<nat>)
    requires Sound(env, T) && Right(env, fate, T) && Can(env, T, Advance(id, k, at))
    ensures
      var t, depth := TaskOf(T, id, k), T.sites[id].depth;
      BodyLeft(env, t, depth, Moved(env, T, id, k, at)) + Extra(env, T, id, k, at) + 1 <=
        BodyLeft(env, t, depth, T.bodies[id][k])
  {
    hide Sound, AllFine, Protocol, OnItsWay, NextBody, BodyAt, Put, TaskAt, Inputs, GraphOf, BodyLeft, Started2Do;
    var n, b, t := T.sites[id], T.bodies[id][k], TaskOf(T, id, k);
    assert BodyRight(env, fate, T, id, k);
    var c := Advanced(env, T, id, k, at).value;
    PartOnItsWay(env, fate, T.sites, t, n.depth, TaskPath(n, k), b, at);
    NextLeft(env, fate, T.sites, T.sys, TaskAt(t, at), n.depth, PathOf(n, k, at), BodyAt(b, at).value);
    PutLeft(env, fate, T.sites, t, n.depth, TaskPath(n, k), b, at, c);
  }

  lemma {:induction false} BodyMoveLeft(env: Env, fate: Fate, T: Tree, id: int, k: string, at: seq<nat>)
    requires Sound(env, T) && Right(env, fate, T) && Can(env, T, Advance(id, k, at))
    ensures TreeLeft(env, WithBody(T, id, k, Moved(env, T, id, k, at))) + Extra(env, T, id, k, at) + 1 <=
      TreeLeft(env, T)
  {
    hide Sound, Right, Advanced, Moved, Extra, GraphOf, BodyLeft, TreeLeft, RunsLeft;
    BodyStepLeft(env, fate, T, id, k, at);
    var b := Moved(env, T, id, k, at);
    var T' := WithBody(T, id, k, b);
    WithBodyLeft(env, T, id, k, b);
    forall i | i in T.sites && i != id ensures RunsLeft(env, T')(i) == RunsLeft(env, T)(i) {
      OthersLeft(env, T, id, k, b, i);
    }
    OneRunUses(env, T, T', id, 1 + Extra(env, T, id, k, at));
  }

  lemma WithBodyLeft(env: Env, T: Tree, id: int, k: string, b: Body)
    requires Sound(env, T) && HasBody(T, id, k)
    ensures
      var t, depth := TaskOf(T, id, k), T.sites[id].depth;
      RunsLeft(env, WithBody(T, id, k, b))(id) + BodyLeft(env, t, depth, T.bodies[id][k]) ==
        RunsLeft(env, T)(id) + BodyLeft(env, t, depth, b)
  {
    hide Sound, ByKey, GraphOf, BodyLeft, KeyWork, BodiesLeft, Work2Do;
    SoundHasBody(env, T, id, k);
    BodyChanged(env, ByKey(T.sites[id].job.tasks), T.sites[id].depth, T.bodies[id], k, b);
  }

  lemma OthersLeft(env: Env, T: Tree, id: int, k: string, b: Body, i: int)
    requires id in T.bodies && i != id
    ensures RunsLeft(env, WithBody(T, id, k, b))(i) == RunsLeft(env, T)(i)
  {
    hide RunLeft;
  }

  lemma {:induction false} AdvanceMoveLeft(env: Env, fate: Fate, T: Tree, id: int, k: string, at: seq<nat>)
    requires Sound(env, T) && Right(env, fate, T) && Can(env, T, Advance(id, k, at))
    ensures TreeLeft(env, After(env, T, Advance(id, k, at))) + 1 <= TreeLeft(env, T)
  {
    hide Sound, Right, Launches, NextBody, BodyAt, Put, TaskAt, PathOf, GraphOf, TreeLeft, JobWork, Launched;
    BodyMoveLeft(env, fate, T, id, k, at);
    var child := ChildOf(env, T, Advance(id, k, at));
    if child.Some? {
      NewIsNew(env, T);
      LaunchAdds(env, WithBody(T, id, k, Moved(env, T, id, k, at)), child.value);
    }
  }

  lemma NewIsNew(env: Env, T: Tree)
    requires Sound(env, T)
    ensures T.sys.nextID + 1 !in T.sites
  {
    hide Sound;
    if T.sys.nextID + 1 in T.sites {
      NotTheNewOne(env, T, T.sys.nextID + 1);
    }
  }

  /** What a caller's request adds: a run of the job, from the top. */
  ghost function Granted(env: Env, m: Move): nat
  {
    if m.RunNow? && m.jobID in env.jobs then JobWork(env, env.jobs[m.jobID], 0) else 0
  }

  /** Every move of the runner's own uses up some of what is left, cancels add nothing, and a new run
      from the top adds its job's work. */
  lemma {:induction false} MovesUseUpTree(env: Env, fate: Fate, T: Tree, m: Move)
    requires Sound(env, T) && Right(env, fate, T) && Can(env, T, m)
    ensures TreeLeft(env, After(env, T, m)) + (if Working(m) then 1 else 0) <= TreeLeft(env, T) + Granted(env, m)
  {
    hide Sound, Right, TreeLeft, After, JobWork, Enabled, HasBody, Advanced, MayComplete, NextBody;
    match m
    case RunNow(jobID) =>
      NewIsNew(env, T);
      LaunchAdds(env, T, TopNode(env, T, jobID));
      RunNowLaunches(env, T, jobID);
    case Flow(a) => FlowMoveLeft(env, T, a);
    case Return(id, k) => ReturnMoveLeft(env, T, id, k);
    case Advance(id, k, at) => AdvanceMoveLeft(env, fate, T, id, k, at);
  }

  lemma RunNowLaunches(env: Env, T: Tree, jobID: int)
    requires Can(env, T, RunNow(jobID))
    ensures jobID in env.jobs && After(env, T, RunNow(jobID)) == Launched(env, T, TopNode(env, T, jobID))
  {
  }

  /** How many of the moves are the runner's own. */
  function Worked(moves: seq<Move>): nat
  {
    if moves == [] then 0 else Worked(moves[..|moves| - 1]) + if Working(moves[|moves| - 1]) then 1 else 0
  }

  /** What the runs started from the top allow. */
  ghost function Budget(env: Env, moves: seq<Move>): nat
  {
    if moves == [] then 0 else Budget(env, moves[..|moves| - 1]) + Granted(env, moves[|moves| - 1])
  }

  /** From any state on, however runs interleave and whatever is cancelled, the runner's own moves and
      what is left after them never exceed what was left and what new runs from the top allow. */
  lemma {:induction false} TreesEndFrom(env: Env, t: TreeTrace, i: nat, n: nat)
    requires IsTreeTrace(env, t) && i <= n < |t.trees|
    ensures Worked(t.moves[i..n]) + TreeLeft(env, t.trees[n]) <= TreeLeft(env, t.trees[i]) + Budget(env, t.moves[i..n])
    decreases n
  {
    hide Can, After, Sound, Right, FateAt, Granted, Working, TreeLeft;
    if n > i {
      TreesEndFrom(env, t, i, n - 1);
      RightAt(env, t, n - 1);
      var T, m := t.trees[n - 1], t.moves[n - 1];
      assert Can(env, T, m) && t.trees[n - 1 + 1] == After(env, T, m);
      MovesUseUpTree(env, FateAt(T), T, m);
      assert t.moves[i..n][..n - 1 - i] == t.moves[i..n - 1];
    }
  }

  /** So over a whole history the runs started from the top pay for all of the runner's moves. */
  lemma {:induction false} TreesEnd(env: Env, t: TreeTrace, n: nat)
    requires IsTreeTrace(env, t) && n < |t.trees|
    ensures Worked(t.moves[..n]) + TreeLeft(env, t.trees[n]) <= Budget(env, t.moves[..n])
  {
    hide Can, After, Worked, Budget;
    TreesEndFrom(env, t, 0, n);
    StartsAtNothing(env, t);
    assert t.moves[0..n] == t.moves[..n];
  }

  lemma StartsAtNothing(env: Env, t: TreeTrace)
    requires IsTreeTrace(env, t)
    ensures TreeLeft(env, t.trees[0]) == 0
  {
    hide Can, After;
  }

  ghost predicate AllDone(T: Tree) { forall id | id in T.sites :: IsDone(T, id) }

  /** The later history goes on from the earlier one with moves of the runner's own only. */
  ghost predicate GoesOn(t: TreeTrace, later: TreeTrace)
  {
    && t.trees <= later.trees && t.moves <= later.moves
    && forall i | |t.moves| <= i < |later.moves| :: Working(later.moves[i])
  }

  function LastTree(t: TreeTrace): Tree
    requires t.trees != []
  {
    t.trees[|t.trees| - 1]
  }

  function Then(env: Env, t: TreeTrace, m: Move): TreeTrace
    requires t.trees != [] && Can(env, LastTree(t), m)
  {
    TreeTrace(t.trees + [After(env, LastTree(t), m)], t.moves + [m])
  }

  lemma ThenIsTrace(env: Env, t: TreeTrace, m: Move)
    requires IsTreeTrace(env, t) && Can(env, LastTree(t), m)
    ensures IsTreeTrace(env, Then(env, t, m)) && LastTree(Then(env, t, m)) == After(env, LastTree(t), m)
  {
    hide Can, After;
    var t' := Then(env, t, m);
    forall i | 0 <= i < |t'.moves| ensures Can(env, t'.trees[i], t'.moves[i])
      && t'.trees[i + 1] == After(env, t'.trees[i], t'.moves[i])
    {
      assert i < |t.moves| ==> t.trees[i + 1] == After(env, t.trees[i], t.moves[i]);
    }
  }

  lemma StepGoesOn(env: Env, t: TreeTrace, m: Move, later: TreeTrace)
    requires t.trees != [] && |t.trees| == |t.moves| + 1
    requires Can(env, LastTree(t), m) && Working(m) && GoesOn(Then(env, t, m), later)
    ensures GoesOn(t, later)
  {
    hide Can, After, Working;
    var t' := Then(env, t, m);
    assert t.trees <= t'.trees && t.moves <= t'.moves && later.moves[|t.moves|] == t'.moves[|t.moves|];
  }

  /** Every history, whatever has been cancelled in it, can be brought to where every run is done, in
      no more moves of the runner's own than there is work left. */
  lemma {:induction false} TreesCanFinish(env: Env, t: TreeTrace) returns (later: TreeTrace)
    requires IsTreeTrace(env, t)
    ensures IsTreeTrace(env, later) && GoesOn(t, later) && AllDone(LastTree(later))
    ensures |later.moves| <= |t.moves| + TreeLeft(env, LastTree(t))
    decreases TreeLeft(env, LastTree(t))
  {
    hide Sound, Right, FateAt, Can, After, Working, TreeLeft, IsDone, GoesOn, Granted;
    var T := LastTree(t);
    if id :| id in T.sites && !IsDone(T, id) {
      TreesNeverBlock(env, t, |t.moves|, id);
      var m :| Can(env, T, m) && Working(m);
      RightAt(env, t, |t.moves|);
      MovesUseUpTree(env, FateAt(T), T, m);
      NothingGranted(env, m);
      ThenIsTrace(env, t, m);
      later := TreesCanFinish(env, Then(env, t, m));
      StepGoesOn(env, t, m, later);
    } else {
      later := t;
      GoesOnItself(t);
    }
  }

  lemma NothingGranted(env: Env, m: Move)
    requires Working(m)
    ensures Granted(env, m) == 0
  {
  }

  lemma GoesOnItself(t: TreeTrace)
    ensures GoesOn(t, t)
  {
  }

  /** And however the moves are chosen: where the runner has none left, every run is done. */
  lemma {:induction false} AtRestMeansDone(env: Env, t: TreeTrace)
    requires IsTreeTrace(env, t) && !CanWork(env, LastTree(t))
    ensures AllDone(LastTree(t))
  {
    hide Can, After, CanWork, IsDone;
    forall id | id in LastTree(t).sites ensures IsDone(LastTree(t), id) {
      if !IsDone(LastTree(t), id) {
        TreesNeverBlock(env, t, |t.moves|, id);
      }
    }
  }

  // ------------------------------------------------------- a run can come to what it means

  lemma FlowCancelsNothing(s: System, a: Action, i: int)
    requires Enabled(s, a) && !a.Launch? && !a.Complete? && !a.CancelRequest? && IsCanceled(Step(s, a).runs, i)
    ensures IsCanceled(s.runs, i)
  {
    hide GraphOf, AfterCheck, AfterDispatch, MayDispatch, Conclude;
    if a.Close? {
      ConcludesOneWay(s.execs[a.id].plan.tasks, s.execs[a.id].results);
    }
  }

  lemma LaunchCancelsNothing(env: Env, T: Tree, n: Node, i: int)
    requires IsCanceled(Launched(env, T, n).sys.runs, i)
    ensures IsCanceled(T.sys.runs, i)
  {
    hide PlanAt, NewExec;
  }

  /** The runner's own moves cancel no run. */
  lemma {:induction false} WorkCancelsNothing(env: Env, T: Tree, m: Move, i: int)
    requires Can(env, T, m) && Working(m) && IsCanceled(After(env, T, m).sys.runs, i)
    ensures IsCanceled(T.sys.runs, i)
  {
    hide IsCanceled, Enabled, Step, Launched, NextBody, BodyAt, Put, PathOf, TaskAt, GraphOf, Launches, MayComplete;
    match m
    case Flow(a) => FlowCancelsNothing(T.sys, a, i);
    case Return(_, _) =>
    case Advance(id, k, at) =>
      if ChildOf(env, T, m).Some? {
        LaunchCancelsNothing(env, WithBody(T, id, k, Moved(env, T, id, k, at)), ChildOf(env, T, m).value, i);
      }
  }

  lemma {:induction false} GoesOnCancelsNothing(env: Env, t: TreeTrace, later: TreeTrace, n: nat, i: int)
    requires IsTreeTrace(env, t) && IsTreeTrace(env, later) && GoesOn(t, later)
    requires |t.moves| <= n < |later.trees| && IsCanceled(later.trees[n].sys.runs, i)
    ensures IsCanceled(LastTree(t).sys.runs, i)
    decreases n
  {
    hide Can, After, IsCanceled, Working;
    if n == |t.moves| {
      assert later.trees[n] == t.trees[n];
    } else {
      var T, m := later.trees[n - 1], later.moves[n - 1];
      assert Can(env, T, m) && later.trees[n - 1 + 1] == After(env, T, m);
      WorkCancelsNothing(env, T, m, i);
      GoesOnCancelsNothing(env, t, later, n - 1, i);
    }
  }

  /** From every state a run in whose tree nothing is cancelled can come to what it means, by moves of the
      runner's own. */
  lemma {:induction false} RunsCanEnd(env: Env, t: TreeTrace, id: int) returns (later: TreeTrace)
    requires IsTreeTrace(env, t) && id in LastTree(t).sites
    requires forall i | i in LastTree(t).sites && LastTree(t).sites[id].path <= LastTree(t).sites[i].path ::
               !IsCanceled(LastTree(t).sys.runs, i)
    ensures IsTreeTrace(env, later) && GoesOn(t, later) && id in LastTree(later).sites && IsDone(LastTree(later), id)
    ensures
      var site := LastTree(t).sites[id];
      Shows(StripRecord(LastTree(later).sys.runs[id]), RunMeaning(env, site.job, site.depth, site.path))
  {
    hide Can, After, Sound, SoundRun, Right, IsCanceled, IsDone, RunMeaning, GoesOn, Shows;
    later := TreesCanFinish(env, t);
    var E, n := LastTree(later), |later.moves|;
    LaterKeeps(env, t, later, id);
    forall i | i in E.sites && E.sites[id].path <= E.sites[i].path ensures !IsCanceled(E.sys.runs, i) {
      if IsCanceled(E.sys.runs, i) {
        LongEnough(env, t, later);
        GoesOnCancelsNothing(env, t, later, n, i);
        AlwaysSound(env, t, |t.moves|);
        CanceledHasPlace(env, LastTree(t), i);
        LaterKeeps(env, t, later, i);
      }
    }
    UncancelledTreesMeanTheRun(env, later, n, id);
  }

  lemma LongEnough(env: Env, t: TreeTrace, later: TreeTrace)
    requires IsTreeTrace(env, t) && IsTreeTrace(env, later) && GoesOn(t, later)
    ensures |t.moves| <= |later.moves| && later.trees[|t.moves|] == LastTree(t)
  {
    hide Can, After;
  }

  lemma LaterKeeps(env: Env, t: TreeTrace, later: TreeTrace, id: int)
    requires IsTreeTrace(env, t) && IsTreeTrace(env, later) && GoesOn(t, later) && id in LastTree(t).sites
    ensures id in LastTree(later).sites && LastTree(later).sites[id] == LastTree(t).sites[id]
  {
    hide Can, After, GoesOn, IsDone, IsCanceled;
    LongEnough(env, t, later);
    TraceKeeps(env, later, |t.moves|, |later.moves|, id);
  }

  lemma CanceledHasPlace(env: Env, T: Tree, i: int)
    requires Sound(env, T) && IsCanceled(T.sys.runs, i)
    ensures i in T.sites
  {
    hide SoundRun, Born, PathsDiffer;
  }
}
