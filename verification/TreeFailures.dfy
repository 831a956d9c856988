// Failures in trees of runs, some of them cancelled: a done run's whole tree is done, and a failed run
// fails the runs above it.
module TreeFailures {
  import opened JobModel
  import opened NestedRuns
  import opened Outcomes
  import opened RunStore
  import opened ChildIds
  import opened RunProtocol
  import opened RunTree
  import opened TreeOutcomes
  import opened TreeIds
  import opened TreeBounds

  /** The part of a result at an address. */
  function PartAt(tr: TaskRun, at: seq<nat>, id: int): TaskRun
    requires Names(tr, at, id)
    decreases |at|
  {
    if at == [] then tr else PartAt(tr.iterations[at[0]], at[1..], id)
  }

  lemma {:induction false} PartReports(s: System, tr: TaskRun, at: seq<nat>, id: int)
    requires Truthful(s, tr) && Names(tr, at, id) && id != 0
    ensures id in s.execs && id in s.runs && s.execs[id].phase == Done
    ensures PartAt(tr, at, id).resultState == s.runs[id].resultState
    decreases |at|
  {
    if at != [] {
      assert tr.iterations[at[0]] in tr.iterations;
      PartReports(s, tr.iterations[at[0]], at[1..], id);
    }
  }

  /** A part that failed fails the task. */
  lemma {:induction false} PartFails(
      env: Env, fate: Fate, t: Task, depth: nat, path: Path, tr: TaskRun, at: seq<nat>, id: int)
    requires Strip(tr) == TaskOutcome(env, fate, t, depth, path) && Names(tr, at, id)
    requires PartAt(tr, at, id).resultState == Failed
    ensures tr.resultState == Failed
    decreases |at|
  {
    hide TaskOutcome, SubstituteInput, Loops;
    if at != [] {
      var i := at[0];
      assert Strip(tr).iterations[i] == Strip(tr.iterations[i]);
      OnlyLoopsIterate(env, fate, t, depth, path, i);
      PartFails(env, fate, Iteration(t, i), depth, path + [ToInput(i)], tr.iterations[i], at[1..], id);
      BadIterationFails(env, fate, t, depth, path, i);
    }
  }

  lemma {:induction false} BadIterationFails(env: Env, fate: Fate, t: Task, depth: nat, path: Path, i: nat)
    requires Loops(env, t, path) && i < |TaskOutcome(env, fate, t, depth, path).iterations|
    requires TaskOutcome(env, fate, t, depth, path).iterations[i].resultState != Success
    ensures TaskOutcome(env, fate, t, depth, path).resultState == Failed
  {
    hide RunOutcome, SubstituteInput, Launches;
    LoopIsNoLaunch(env, t, depth, path);
    var runs := TaskOutcome(env, fate, t, depth, path).iterations;
    assert runs[i] in runs;
    LoopSucceedsIffAllDo(t.key, runs);
  }

  /** A done run has the results of all its bodies. */
  lemma {:induction false} BodyReturned(env: Env, fate: Fate, T: Tree, p: int, k: string)
    requires Sound(env, T) && Right(env, fate, T) && p in T.bodies && k in T.bodies[p] && IsDone(T, p)
    ensures p in T.sites && p in T.sys.execs && k in T.sys.execs[p].results
    ensures T.bodies[p][k] == Finished(T.sys.execs[p].results[k])
  {
    hide Born, PathsDiffer, Ended, PlanAt, GraphOf, BodyRight, Agrees, ExecOk, Protocol, ExecOf;
    assert SoundRun(env, T, p);
    FineHere(env, fate, T, p);
    ExecHere(env, fate, T, p);
    TodoRemains(ExecOf(env, fate, T.sites[p], T.sys.execs[p]));
    SameFlight(env, fate, T.sites[p], T.sys.execs[p]);
  }

  lemma SameFlight(env: Env, fate: Fate, n: Node, e: Exec)
    ensures ExecOf(env, fate, n, e).inflight == e.inflight && ExecOf(env, fate, n, e).phase == e.phase
  {
  }

  /** A child run of a done run is done, and the done run's result for the task reports it: as it is at
      the address, so is the child. */
  lemma {:induction false} ChildReported(env: Env, t: TreeTrace, n: nat, c: int, p: int, k: string, at: seq<nat>)
    requires IsTreeTrace(env, t) && n < |t.trees| && StartedFrom(env, t.trees[n], c, p, k, at) && IsDone(t.trees[n], p)
    ensures
      var T := t.trees[n];
      && IsDone(T, c) && p in T.sys.execs && k in T.sys.execs[p].results && Names(T.sys.execs[p].results[k], at, c)
      && PartAt(T.sys.execs[p].results[k], at, c).resultState == T.sys.runs[c].resultState
  {
    hide IsTreeTrace, Sound, Right, FateAt, Names, Truthful, IsChild;
    var T := t.trees[n];
    RightAt(env, t, n);
    BodyReturned(env, FateAt(T), T, p, k);
    IdsAreTruthful(env, t, n);
    ResultTruthful(T, p, k);
    IsPositive(env, T, c);
    PartReports(T.sys, T.sys.execs[p].results[k], at, c);
  }

  lemma ResultTruthful(T: Tree, p: int, k: string)
    requires TruthfulTree(T) && p in T.sys.execs && k in T.sys.execs[p].results
    ensures Truthful(T.sys, T.sys.execs[p].results[k])
  {
    hide Truthful;
    assert TruthfulRun(T.sys, p);
  }

  lemma IsPositive(env: Env, T: Tree, c: int)
    requires Sound(env, T) && c in T.sites
    ensures c > 0
  {
    hide Kept, Ended, Born, PathsDiffer;
    assert SoundRun(env, T, c);
  }

  /** With a run, all the runs below it are done, whoever was cancelled. */
  lemma {:induction false} WholeTreeDone(env: Env, t: TreeTrace, n: nat, id: int, i: int)
    requires IsTreeTrace(env, t) && n < |t.trees| && id in t.trees[n].sites && i in t.trees[n].sites
    requires t.trees[n].sites[id].path <= t.trees[n].sites[i].path && IsDone(t.trees[n], id)
    ensures IsDone(t.trees[n], i)
    decreases |t.trees[n].sites[i].path|
  {
    hide IsTreeTrace, SoundRun, Born, Right, FateAt, IsDone, Names, StartedFrom;
    var T := t.trees[n];
    RightAt(env, t, n);
    if i != id {
      assert T.sites[id].path < T.sites[i].path by {
        assert T.sites[id].path != T.sites[i].path;
      }
      var p, k, at := ParentOf(env, FateAt(T), T, id, i);
      InSites(env, T, i, p, k, at);
      WholeTreeDone(env, t, n, id, p);
      ChildReported(env, t, n, i, p, k, at);
    }
  }

  lemma InSites(env: Env, T: Tree, i: int, p: int, k: string, at: seq<nat>)
    requires StartedFrom(env, T, i, p, k, at)
    ensures i in T.sites && p in T.sites
  {
  }

  /** A child run that ended FAILED fails its parent, through loops too, unless that is cancelled. */
  lemma {:induction false} FailedChildFailsRun(env: Env, t: TreeTrace, n: nat, c: int, p: int, k: string, at: seq<nat>)
    requires IsTreeTrace(env, t) && n < |t.trees| && env.attached && StartedFrom(env, t.trees[n], c, p, k, at)
    requires IsDone(t.trees[n], p) && !IsCanceled(t.trees[n].sys.runs, p)
    requires c in t.trees[n].sys.runs && t.trees[n].sys.runs[c].resultState == Failed
    ensures p in t.trees[n].sys.runs && t.trees[n].sys.runs[p].resultState == Failed
  {
    hide IsTreeTrace, Sound, Right, FateAt, Fine, IsChild, Started, IsCanceled, Names;
    var T, fate := t.trees[n], FateAt(t.trees[n]);
    RightAt(env, t, n);
    ChildReported(env, t, n, c, p, k, at);
    TaskFails(env, fate, T, p, k, at, c);
    FineHere(env, fate, T, p);
    ResultsHere(env, fate, T, p);
    StateHere(env, fate, T, p);
  }

  lemma {:induction false} TaskFails(env: Env, fate: Fate, T: Tree, p: int, k: string, at: seq<nat>, c: int)
    requires Sound(env, T) && Right(env, fate, T) && p in T.bodies && k in T.bodies[p] && IsDone(T, p)
    requires p in T.sys.execs && k in T.sys.execs[p].results && Names(T.sys.execs[p].results[k], at, c)
    requires PartAt(T.sys.execs[p].results[k], at, c).resultState == Failed
    ensures T.sys.execs[p].results[k].resultState == Failed
  {
    hide Sound, AllFine, Protocol, Names, PartAt, TaskOutcome, IsDone, GraphOf, Strip;
    BodyReturned(env, fate, T, p, k);
    assert BodyRight(env, fate, T, p, k);
    var n := T.sites[p];
    PartFails(env, fate, TaskOf(T, p, k), n.depth, TaskPath(n, k), T.sys.execs[p].results[k], at, c);
  }

  /** So a run that ended FAILED fails every run it lies below that is done, unless that run or one in
      between is cancelled. */
  lemma {:induction false} FailureClimbs(env: Env, t: TreeTrace, n: nat, id: int, c: int)
    requires IsTreeTrace(env, t) && n < |t.trees| && env.attached && id in t.trees[n].sites && c in t.trees[n].sites
    requires t.trees[n].sites[id].path < t.trees[n].sites[c].path && IsDone(t.trees[n], id)
    requires c in t.trees[n].sys.runs && t.trees[n].sys.runs[c].resultState == Failed
    requires forall i | i in t.trees[n].sites &&
      t.trees[n].sites[id].path <= t.trees[n].sites[i].path < t.trees[n].sites[c].path ::
        !IsCanceled(t.trees[n].sys.runs, i)
    ensures id in t.trees[n].sys.runs && t.trees[n].sys.runs[id].resultState == Failed
    decreases |t.trees[n].sites[c].path|
  {
    hide IsTreeTrace, Sound, Right, FateAt, IsCanceled, IsDone, StartedFrom;
    var T := t.trees[n];
    RightAt(env, t, n);
    var p, k, at := ParentOf(env, FateAt(T), T, id, c);
    InSites(env, T, c, p, k, at);
    WholeTreeDone(env, t, n, id, p);
    FailedChildFailsRun(env, t, n, c, p, k, at);
    if p != id {
      FailureClimbs(env, t, n, id, p);
    }
  }
}
