// In a tree of runs no loop has more iterations in flight than it may.
module TreeLoops {
  import opened JobModel
  import opened Scheduler
  import opened NestedRuns
  import opened Outcomes
  import opened RunProtocol
  import opened RunTree
  import opened TreeOutcomes
  import opened TreeProgress
  import opened TreeBounds

  /** Every loop running in the body keeps its limit. */
  ghost predicate WithinLimit(t: Task, b: Body)
    decreases b
  {
    b.Looping? ==>
      && t.forEach.Some? && |b.parts| == |t.forEach.value.inputs|
      && InFlight(b.parts) <= BodyLimit(t.forEach.value.concurrency, |b.parts|)
      && forall i | 0 <= i < |b.parts| :: WithinLimit(Iteration(t, i), b.parts[i])
  }

  predicate Counts(b: Body) { !b.Idle? && !b.Finished? }

  lemma {:induction false} InFlightChanged(parts: seq<Body>, i: nat, b: Body)
    requires i < |parts|
    ensures InFlight(parts[i := b]) + (if Counts(parts[i]) then 1 else 0) ==
      InFlight(parts) + if Counts(b) then 1 else 0
    decreases |parts|
  {
    var n := |parts| - 1;
    if i == n {
      assert parts[i := b][..n] == parts[..n];
    } else {
      InFlightChanged(parts[..n], i, b);
      assert parts[i := b][..n] == parts[..n][i := b];
    }
  }

  lemma InFlightCounts(b: Body, at: seq<nat>)
    requires BodyAt(b, at).Some? && Counts(BodyAt(b, at).value)
    ensures Counts(b)
  {
  }

  /** A running body may be replaced by any that keeps its limits. */
  lemma {:induction false} PutWithinLimit(t: Task, b: Body, at: seq<nat>, c: Body)
    requires WithinLimit(t, b) && BodyAt(b, at).Some? && Counts(BodyAt(b, at).value) && WithinLimit(TaskAt(t, at), c)
    ensures WithinLimit(t, Put(b, at, c))
    decreases |at|
  {
    hide SubstituteInput, InFlight, BodyLimit;
    if at != [] {
      var i := at[0];
      PutWithinLimit(Iteration(t, i), b.parts[i], at[1..], c);
      InFlightCounts(b.parts[i], at[1..]);
      InFlightChanged(b.parts, i, Put(b.parts[i], at[1..], c));
    }
  }

  lemma {:induction false} PartWithinLimit(t: Task, b: Body, at: seq<nat>)
    requires WithinLimit(t, b) && BodyAt(b, at).Some?
    ensures WithinLimit(TaskAt(t, at), BodyAt(b, at).value)
    decreases |at|
  {
    hide SubstituteInput, InFlight, BodyLimit;
    if at != [] {
      PartWithinLimit(Iteration(t, at[0]), b.parts[at[0]], at[1..]);
    }
  }

  lemma {:induction false} SpawnWithinLimit(t: Task, parts: seq<Body>, i: nat)
    requires WithinLimit(t, Looping(parts)) && i < |parts| && parts[i].Idle?
    requires InFlight(parts) < BodyLimit(t.forEach.value.concurrency, |parts|)
    ensures WithinLimit(t, Looping(parts[i := Ready]))
  {
    hide SubstituteInput, InFlight, BodyLimit, Iteration;
    InFlightChanged(parts, i, Ready);
  }

  lemma LoopBeginsWithinLimit(t: Task)
    requires t.forEach.Some?
    ensures WithinLimit(t, Looping(seq(|t.forEach.value.inputs|, _ => Idle)))
  {
    hide InFlight, Iteration;
    NoneInFlight(seq(|t.forEach.value.inputs|, _ => Idle));
  }

  lemma {:induction false} NextWithinLimit(env: Env, sys: System, t: Task, depth: nat, path: Path, b: Body)
    requires WithinLimit(t, b) && NextBody(env, sys, t, depth, path, b).Some?
    ensures WithinLimit(t, NextBody(env, sys, t, depth, path, b).value) && Counts(b)
  {
    hide SubstituteInput, InFlight, BodyLimit, Iteration, Launches, Loops, Alone, LoopRun, RunsOf, ReportOf,
      AllFinished;
    match b
    case Ready =>
      if !Launches(env, t, depth, path) && Loops(env, t, path) {
        LoopHasTask(env, t, path);
        LoopBeginsWithinLimit(t);
      }
    case Looping(parts) =>
      if !AllFinished(parts) {
        SpawnWithinLimit(t, parts, NextIdle(parts));
      }
    case _ =>
  }

  ghost predicate RunWithinLimits(T: Tree, id: int, k: string)
  {
    id in T.sites && k in ByKey(T.sites[id].job.tasks) && id in T.bodies && k in T.bodies[id] &&
    WithinLimit(ByKey(T.sites[id].job.tasks)[k], T.bodies[id][k])
  }

  ghost predicate LoopsWithinLimits(T: Tree)
  {
    forall id, k | id in T.bodies && k in T.bodies[id] :: RunWithinLimits(T, id, k)
  }

  lemma StaysWithin(T: Tree, T': Tree, id: int, k: string)
    requires RunWithinLimits(T, id, k) && PlacesStay(T, T') && id in T'.bodies && k in T'.bodies[id]
    requires T'.bodies[id][k] == T.bodies[id][k]
    ensures RunWithinLimits(T', id, k)
  {
    hide WithinLimit, ByKey;
  }

  lemma SpawnedWithin(env: Env, T: Tree, id: int, k: string)
    requires Sound(env, T) && id in T.bodies && k in T.bodies[id] && T.bodies[id][k] == Ready
    ensures RunWithinLimits(T, id, k)
  {
    hide Sound, ByKey;
    SoundHasBody(env, T, id, k);
  }

  lemma {:induction false} AdvancedWithin(env: Env, T: Tree, id: int, k: string, at: seq<nat>)
    requires Sound(env, T) && RunWithinLimits(T, id, k) && Can(env, T, Advance(id, k, at))
    ensures WithinLimit(ByKey(T.sites[id].job.tasks)[k], Moved(env, T, id, k, at))
  {
    hide Sound, WithinLimit, NextBody, BodyAt, Put, TaskAt, PathOf, GraphOf, ByKey;
    SoundHasBody(env, T, id, k);
    var t, b := TaskOf(T, id, k), T.bodies[id][k];
    PartWithinLimit(t, b, at);
    NextWithinLimit(env, T.sys, TaskAt(t, at), T.sites[id].depth, PathOf(T.sites[id], k, at), BodyAt(b, at).value);
    PutWithinLimit(t, b, at, Advanced(env, T, id, k, at).value);
  }

  lemma {:induction false} FlowWithin(env: Env, T: Tree, a: Action, id: int, k: string)
    requires Sound(env, T) && LoopsWithinLimits(T) && Can(env, T, Flow(a)) && Sound(env, After(env, T, Flow(a)))
    requires id in After(env, T, Flow(a)).bodies && k in After(env, T, Flow(a)).bodies[id]
    ensures RunWithinLimits(After(env, T, Flow(a)), id, k)
  {
    hide Sound, RunWithinLimits, Enabled, Step;
    var T' := After(env, T, Flow(a));
    FlowGrows(env, T, a);
    if id in T.bodies && k in T.bodies[id] && T'.bodies[id][k] == T.bodies[id][k] {
      StaysWithin(T, T', id, k);
    } else {
      SpawnedWithin(env, T', id, k);
    }
  }

  lemma {:induction false} AdvanceWithin(env: Env, T: Tree, m: Move, id: int, k: string)
    requires Sound(env, T) && LoopsWithinLimits(T) && m.Advance? && Can(env, T, m)
    requires id in After(env, T, m).bodies && k in After(env, T, m).bodies[id]
    ensures RunWithinLimits(After(env, T, m), id, k)
  {
    hide Sound, RunWithinLimits, After, NextBody, BodyAt, Put, PathOf, TaskAt, GraphOf;
    if id == m.id && k == m.k {
      AdvancedHas(env, T, m);
      assert RunWithinLimits(T, id, k);
      AdvancedWithin(env, T, id, k, m.at);
      MovedWithin(env, T, m);
    } else {
      AdvanceBodies(env, T, m.id, m.k, m.at, id, k);
      StaysWithin(T, After(env, T, m), id, k);
    }
  }

  lemma MovedWithin(env: Env, T: Tree, m: Move)
    requires Sound(env, T) && m.Advance? && Can(env, T, m) && RunWithinLimits(T, m.id, m.k)
    requires WithinLimit(ByKey(T.sites[m.id].job.tasks)[m.k], Moved(env, T, m.id, m.k, m.at))
    ensures RunWithinLimits(After(env, T, m), m.id, m.k)
  {
    hide Sound, WithinLimit, NextBody, BodyAt, Put, PathOf, TaskAt, GraphOf, Step, ByKey, Launches, PlanAt;
    NotTheNewOne(env, T, m.id);
  }

  lemma {:induction false} BodyKeepsLimits(env: Env, T: Tree, m: Move, id: int, k: string)
    requires Sound(env, T) && LoopsWithinLimits(T) && Can(env, T, m) && Sound(env, After(env, T, m))
    requires id in After(env, T, m).bodies && k in After(env, T, m).bodies[id]
    ensures RunWithinLimits(After(env, T, m), id, k)
  {
    hide Sound, RunWithinLimits;
    match m
    case RunNow(jobID) => LaunchWithin(env, T, TopNode(env, T, jobID), id, k);
    case Flow(a) => FlowWithin(env, T, a, id, k);
    case Return(_, _) => StaysWithin(T, After(env, T, m), id, k);
    case Advance(_, _, _) => AdvanceWithin(env, T, m, id, k);
  }

  lemma LaunchWithin(env: Env, T: Tree, n: Node, id: int, k: string)
    requires Sound(env, T) && LoopsWithinLimits(T)
    requires id in Launched(env, T, n).bodies && k in Launched(env, T, n).bodies[id]
    ensures RunWithinLimits(Launched(env, T, n), id, k)
  {
    hide Sound, RunWithinLimits, Launched;
    NewHasNone(env, T, n, id);
    LaunchGrows(env, T, n);
    StaysWithin(T, Launched(env, T, n), id, k);
  }

  lemma {:induction false} MoveKeepsLimits(env: Env, T: Tree, m: Move)
    requires Sound(env, T) && LoopsWithinLimits(T) && Can(env, T, m)
    ensures LoopsWithinLimits(After(env, T, m))
  {
    hide Sound, RunWithinLimits, Can, After;
    MoveSound(env, T, m);
    var T' := After(env, T, m);
    forall id, k | id in T'.bodies && k in T'.bodies[id] ensures RunWithinLimits(T', id, k) {
      BodyKeepsLimits(env, T, m, id, k);
    }
  }

  /** In every state of every tree each loop, however deep, has at most its limit of iterations in flight. */
  lemma {:induction false} LoopsKeepTheirLimits(env: Env, t: TreeTrace, n: nat)
    requires IsTreeTrace(env, t) && n < |t.trees|
    ensures LoopsWithinLimits(t.trees[n])
  {
    hide Can, After, Sound, RunWithinLimits;
    if n > 0 {
      LoopsKeepTheirLimits(env, t, n - 1);
      AlwaysSound(env, t, n - 1);
      MoveKeepsLimits(env, t.trees[n - 1], t.moves[n - 1]);
      assert t.trees[n - 1 + 1] == After(env, t.trees[n - 1], t.moves[n - 1]);
    }
  }
}
