// A tree of runs never blocks.
module TreeProgress {
  import opened JobModel
  import opened Scheduler
  import opened NestedRuns
  import opened Outcomes
  import opened ChildIds
  import opened RunProtocol
  import opened RunTree
  import opened TreeOutcomes

  // ------------------------------------------------------------------------- progress

  /** A move of the runner's own, as opposed to a caller's request. */
  predicate Working(m: Move) { !m.RunNow? && !(m.Flow? && (m.a.CancelRequest? || m.a.Read?)) }

  ghost predicate CanWork(env: Env, T: Tree) { exists m :: Can(env, T, m) && Working(m) }

  lemma Works(env: Env, T: Tree, m: Move)
    requires Can(env, T, m) && Working(m)
    ensures CanWork(env, T)
  {
    hide Can, Working;
  }

  lemma {:induction false} NoneInFlight(parts: seq<Body>)
    requires forall i | 0 <= i < |parts| :: parts[i].Idle? || parts[i].Finished?
    ensures InFlight(parts) == 0
  {
    if parts != [] {
      NoneInFlight(parts[..|parts| - 1]);
    }
  }

  /** A body that has been spawned and has not returned can step somewhere, or waits somewhere for a
      run that is not done. */
  lemma {:induction false} BodyCanStep(
      env: Env, fate: Fate, T: Tree, t: Task, depth: nat, path: Path, b: Body) returns (at: seq<nat>)
    requires OnItsWay(env, fate, T.sites, t, depth, path, b) && !b.Idle? && !b.Finished?
    ensures
      var part := BodyAt(b, at);
      && part.Some?
      && (NextBody(env, T.sys, TaskAt(t, at), depth, path + Inputs(at), part.value).Some? ||
          (part.value.Awaiting? && !IsDone(T, part.value.child)))
    decreases b
  {
    hide TaskOutcome, SubstituteInput, Launches, Loops, Alone, Strip, LoopRun, ReportOf, InFlight;
    at := [];
    assert path + Inputs(at) == path;
    if b.Looping? && !AllFinished(b.parts) {
      LoopHasTask(env, t, path);
      if i :| 0 <= i < |b.parts| && !b.parts[i].Idle? && !b.parts[i].Finished? {
        var nested := SubstituteInput(t.forEach.value.task, t.key, t.forEach.value.inputs[i]);
        var rest := BodyCanStep(env, fate, T, nested, depth, path + [ToInput(i)], b.parts[i]);
        at := [i] + rest;
        InputsSplit(path, at);
        assert at[1..] == rest;
      } else {
        NoneInFlight(b.parts);
      }
    }
  }

  lemma LoopHasTask(env: Env, t: Task, path: Path)
    requires Loops(env, t, path)
    ensures t.forEach.Some?
  {
  }

  lemma FlowWorks(env: Env, T: Tree, a: Action)
    requires Enabled(T.sys, a) && !a.Launch? && !a.Complete? && !a.CancelRequest? && !a.Read?
    ensures CanWork(env, T)
  {
    hide Enabled, CanWork;
    Works(env, T, Flow(a));
  }

  lemma {:induction false} WaveCanGo(env: Env, fate: Fate, n: Node, e: Exec, k: string)
    requires e.plan == PlanAt(env, n) && ExecOk(ExecOf(env, fate, n, e)) && e.phase == InWave
    ensures k in e.todo ==> MayDispatch(e, k)
    ensures k in e.inflight ==> MayComplete(e, k)
  {
    hide ExecOk, PlanOf, StripResults, DepsSatisfied;
    SameReady(env, fate, n, e);
    WaitingMayGo(ExecOf(env, fate, n, e), k);
    if k in e.todo {
      SameDeps(GraphOf(e.plan)[k], e.results);
    }
  }

  lemma SameDeps(t: Task, results: Results)
    ensures DepsSatisfied(t, StripResults(results)) == DepsSatisfied(t, results)
  {
    hide Strip;
    assert StripResults(results).Keys == results.Keys;
  }

  lemma {:induction false} CanClose(env: Env, fate: Fate, n: Node, e: Exec)
    requires e.plan == PlanAt(env, n) && ExecOk(ExecOf(env, fate, n, e)) && e.phase == Closing
    ensures MayClose(e)
  {
    hide ExecOk, StripResults, WorkOutcome;
    MayCloseThen(ExecOf(env, fate, n, e));
    SameTasks(e.results, n.job.tasks);
  }

  lemma HasSpawned(env: Env, T: Tree, id: int, k: string)
    requires Sound(env, T) && id in T.sites && k in T.sys.execs[id].inflight
    ensures id in T.bodies && k in T.bodies[id] && !T.bodies[id][k].Idle?
  {
    hide Born, PathsDiffer, Ended, PlanAt, GraphOf;
    assert SoundRun(env, T, id);
  }

  lemma AdvanceWorks(env: Env, T: Tree, id: int, k: string, at: seq<nat>)
    requires HasBody(T, id, k) && Advanced(env, T, id, k, at).Some?
    ensures CanWork(env, T)
  {
    hide HasBody, Advanced, CanWork;
    Works(env, T, Advance(id, k, at));
  }

  lemma ReturnWorks(env: Env, T: Tree, id: int, k: string)
    requires HasBody(T, id, k) && MayComplete(T.sys.execs[id], k) && T.bodies[id][k].Finished?
    ensures CanWork(env, T)
  {
    hide HasBody, CanWork;
    Works(env, T, Return(id, k));
  }

  /** In flight, a task's body can step, or has returned, or waits for a run below. */
  lemma {:induction false} InFlightWorks(env: Env, fate: Fate, T: Tree, id: int, k: string) returns (c: int)
    requires id in T.sites && id in T.sys.execs && k in T.sys.execs[id].inflight && MayComplete(T.sys.execs[id], k)
    requires Sound(env, T) && Right(env, fate, T)
    ensures CanWork(env, T) || WaitsFor(T, id, c)
  {
    hide Sound, BodyRight, AllFine, Protocol, CanWork, MayComplete, WaitsFor;
    HasSpawned(env, T, id, k);
    assert BodyRight(env, fate, T, id, k);
    RightHas(env, fate, T, id, k);
    c := 0;
    if T.bodies[id][k].Finished? {
      ReturnWorks(env, T, id, k);
    } else {
      c := BodyWorks(env, fate, T, id, k);
    }
  }

  lemma RightHas(env: Env, fate: Fate, T: Tree, id: int, k: string)
    requires BodyRight(env, fate, T, id, k)
    ensures HasBody(T, id, k)
  {
  }

  ghost predicate WaitsFor(T: Tree, id: int, c: int)
  {
    id in T.sites && c in T.sites && !IsDone(T, c) && Remaining(T.sites[c].depth) < Remaining(T.sites[id].depth)
  }

  lemma {:induction false} BodyWorks(env: Env, fate: Fate, T: Tree, id: int, k: string) returns (c: int)
    requires HasBody(T, id, k) && BodyRight(env, fate, T, id, k) && !T.bodies[id][k].Idle? && !T.bodies[id][k].Finished?
    ensures CanWork(env, T) || WaitsFor(T, id, c)
  {
    hide CanWork, OnItsWay, NextBody, Launches, TaskAt, BodyAt, GraphOf, Inputs, IsDone, Remaining;
    var n, b, t := T.sites[id], T.bodies[id][k], TaskOf(T, id, k);
    c := 0;
    var at := BodyCanStep(env, fate, T, t, n.depth, TaskPath(n, k), b);
    if NextBody(env, T.sys, TaskAt(t, at), n.depth, PathOf(n, k, at), BodyAt(b, at).value).Some? {
      AdvanceWorks(env, T, id, k, at);
    } else {
      PartOnItsWay(env, fate, T.sites, t, n.depth, TaskPath(n, k), b, at);
      c := BodyAt(b, at).value.child;
      WaitsBelow(env, fate, T.sites, TaskAt(t, at), n.depth, PathOf(n, k, at), c);
    }
  }

  lemma WaitsBelow(env: Env, fate: Fate, sites: map<int, Node>, t: Task, depth: nat, path: Path, c: int)
    requires OnItsWay(env, fate, sites, t, depth, path, Awaiting(c))
    ensures c in sites && Remaining(sites[c].depth) < Remaining(depth)
  {
  }

  lemma {:induction false} RunCanWork(env: Env, fate: Fate, T: Tree, id: int)
    requires Sound(env, T) && Right(env, fate, T) && id in T.sites && !IsDone(T, id)
    ensures CanWork(env, T)
    decreases Remaining(T.sites[id].depth)
  {
    hide Born, PathsDiffer, Ended, Kept, BodyRight, ExecOk, CanWork, MayDispatch, MayComplete, MayClose, Remaining,
      PlanAt, ExecOf, Agrees, Right;
    assert SoundRun(env, T, id);
    FineHere(env, fate, T, id);
    ExecHere(env, fate, T, id);
    var n, e := T.sites[id], T.sys.execs[id];
    match e.phase
    case Starting => FlowWorks(env, T, Begin(id));
    case Refusing => FlowWorks(env, T, Refuse(id));
    case AtTop => FlowWorks(env, T, Check(id));
    case Closing =>
      CanClose(env, fate, n, e);
      FlowWorks(env, T, Close(id));
    case InWave =>
      if k :| k in e.todo {
        WaveCanGo(env, fate, n, e, k);
        FlowWorks(env, T, Dispatch(id, k));
      } else if k :| k in e.inflight {
        WaveCanGo(env, fate, n, e, k);
        var c := InFlightWorks(env, fate, T, id, k);
        if !CanWork(env, T) {
          RunCanWork(env, fate, T, c);
        }
      } else {
        FlowWorks(env, T, EndWave(id));
      }
    case Done =>
  }

  /** As long as some run is not done the runner has a move of its own: runs waiting for their child
      runs, and iterations waiting for each other, never block a tree. */
  lemma {:induction false} TreesNeverBlock(env: Env, t: TreeTrace, n: nat, id: int)
    requires IsTreeTrace(env, t) && n < |t.trees| && id in t.trees[n].sites && !IsDone(t.trees[n], id)
    ensures CanWork(env, t.trees[n])
  {
    hide IsTreeTrace, Sound, Right, CanWork, FateAt, IsDone;
    RightAt(env, t, n);
    RunCanWork(env, FateAt(t.trees[n]), t.trees[n], id);
  }
}
