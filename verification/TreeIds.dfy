// The ids by which a caller finds the child runs of a run.
module TreeIds {
  import opened JobModel
  import opened Scheduler
  import opened NestedRuns
  import opened Outcomes
  import opened RunStore
  import opened ChildIds
  import opened RunProtocol
  import opened RunTree
  import opened TreeOutcomes
  import Decimal

  // -------------------------------------------------------------- what child run ids promise

  /** Every child run id in the result, its iterations' included, names a run that is done, and the
      result carries what that run's record shows. */
  predicate Truthful(s: System, tr: TaskRun)
  {
    && (tr.childRunID != 0 ==>
          && tr.childRunID in s.execs && tr.childRunID in s.runs
          && s.execs[tr.childRunID].phase == Done && ReportsRun(tr, s.runs[tr.childRunID]))
    && forall r | r in tr.iterations :: Truthful(s, r)
  }

  predicate TruthfulBody(s: System, b: Body)
  {
    (b.Finished? ==> Truthful(s, b.run)) && (b.Looping? ==> forall p | p in b.parts :: TruthfulBody(s, p))
  }

  ghost predicate TruthfulRun(s: System, id: int)
    requires id in s.execs && id in s.runs
  {
    && (forall k | k in s.execs[id].results :: Truthful(s, s.execs[id].results[k]))
    && forall tr | tr in s.runs[id].tasks :: Truthful(s, tr)
  }

  ghost predicate TruthfulTree(T: Tree)
  {
    && T.sys.runs.Keys == T.sys.execs.Keys
    && (forall id | id in T.sys.execs :: TruthfulRun(T.sys, id))
    && forall id, k | id in T.bodies && k in T.bodies[id] :: TruthfulBody(T.sys, T.bodies[id][k])
  }

  /** Done runs stay done and keep their records. */
  ghost predicate DoneStays(s: System, s': System)
  {
    forall c | c in s.execs && c in s.runs && s.execs[c].phase == Done ::
      c in s'.execs && c in s'.runs && s'.execs[c].phase == Done && s'.runs[c] == s.runs[c]
  }

  lemma {:induction false} TruthStays(s: System, s': System, tr: TaskRun)
    requires Truthful(s, tr) && DoneStays(s, s')
    ensures Truthful(s', tr)
    decreases tr
  {
    forall r | r in tr.iterations ensures Truthful(s', r) {
      TruthStays(s, s', r);
    }
  }

  lemma {:induction false} BodyTruthStays(s: System, s': System, b: Body)
    requires TruthfulBody(s, b) && DoneStays(s, s')
    ensures TruthfulBody(s', b)
    decreases b
  {
    hide Truthful, DoneStays;
    if b.Finished? {
      TruthStays(s, s', b.run);
    } else if b.Looping? {
      forall p | p in b.parts ensures TruthfulBody(s', p) {
        BodyTruthStays(s, s', p);
      }
    }
  }

  lemma {:induction false} PartTruthful(s: System, b: Body, at: seq<nat>)
    requires TruthfulBody(s, b) && BodyAt(b, at).Some?
    ensures TruthfulBody(s, BodyAt(b, at).value)
    decreases |at|
  {
    hide Truthful;
    if at != [] {
      PartTruthful(s, b.parts[at[0]], at[1..]);
    }
  }

  lemma {:induction false} PutTruthful(s: System, b: Body, at: seq<nat>, c: Body)
    requires TruthfulBody(s, b) && BodyAt(b, at).Some? && TruthfulBody(s, c)
    ensures TruthfulBody(s, Put(b, at, c))
    decreases |at|
  {
    hide Truthful;
    if at != [] {
      PutTruthful(s, b.parts[at[0]], at[1..], c);
      var parts := b.parts[at[0] := Put(b.parts[at[0]], at[1..], c)];
      forall p | p in parts ensures TruthfulBody(s, p) {
        assert p == Put(b.parts[at[0]], at[1..], c) || p in b.parts;
      }
    }
  }

  lemma PlainTruthful(s: System, tr: TaskRun)
    requires tr.childRunID == 0 && tr.iterations == []
    ensures Truthful(s, tr)
  {
  }

  lemma LoopTruthful(s: System, key: string, parts: seq<Body>)
    requires AllFinished(parts) && forall p | p in parts :: TruthfulBody(s, p)
    ensures Truthful(s, LoopRun(key, RunsOf(parts)))
  {
    hide Decimal.Format, Stdouts, Stderrs, Unsuccessful;
    forall r | r in RunsOf(parts) ensures Truthful(s, r) {
      var i :| 0 <= i < |parts| && parts[i].run == r;
      assert parts[i] in parts;
    }
  }

  lemma ReportTruthful(s: System, key: string, c: int)
    requires c in s.execs && c in s.runs && s.execs[c].phase == Done
    ensures Truthful(s, ReportOf(key, c, s.runs[c]))
  {
  }

  lemma {:induction false} NextTruthful(env: Env, s: System, t: Task, depth: nat, path: Path, b: Body)
    requires TruthfulBody(s, b) && NextBody(env, s, t, depth, path, b).Some?
    ensures TruthfulBody(s, NextBody(env, s, t, depth, path, b).value)
  {
    hide Launches, Loops, Alone, LoopRun, RunsOf, ReportOf, Truthful, AllFinished, InFlight;
    match b
    case Ready =>
      if !Launches(env, t, depth, path) && !Loops(env, t, path) {
        AlonePlain(env, t, depth, path);
        PlainTruthful(s, Alone(env, t, depth, path));
      }
    case Awaiting(c) => ReportTruthful(s, t.key, c);
    case Looping(parts) =>
      if AllFinished(parts) {
        LoopTruthful(s, t.key, parts);
      }
    case _ =>
  }

  lemma {:induction false} MovesKeepDone(env: Env, T: Tree, m: Move)
    requires Sound(env, T) && Can(env, T, m)
    ensures DoneStays(T.sys, After(env, T, m).sys)
  {
    hide SoundRun, Born, PathsDiffer, Can, After, IsCanceled;
    forall c | c in T.sys.execs && c in T.sys.runs && T.sys.execs[c].phase == Done
      ensures IsDone(After(env, T, m), c) && After(env, T, m).sys.runs[c] == T.sys.runs[c]
    {
      MoveKeeps(env, T, m, c);
    }
  }

  lemma {:induction false} RunTruthStays(s: System, s': System, id: int)
    requires id in s.execs && id in s.runs && TruthfulRun(s, id) && DoneStays(s, s')
    requires id in s'.execs && id in s'.runs && s'.execs[id].results == s.execs[id].results
    requires s'.runs[id].tasks == s.runs[id].tasks
    ensures TruthfulRun(s', id)
  {
    hide Truthful, DoneStays;
    forall k | k in s.execs[id].results ensures Truthful(s', s.execs[id].results[k]) {
      TruthStays(s, s', s.execs[id].results[k]);
    }
    forall tr | tr in s.runs[id].tasks ensures Truthful(s', tr) {
      TruthStays(s, s', tr);
    }
  }

  /** An executor's own step adds plain results only, and publishes the results it has. */
  lemma {:induction false} FlowTruthful(s: System, a: Action, id: int)
    requires Enabled(s, a) && !a.Launch? && !a.Complete? && id == Owner(s, a) && id in s.execs && id in s.runs
    requires TruthfulRun(s, id) && DoneStays(s, Step(s, a)) && id in Step(s, a).execs && id in Step(s, a).runs
    ensures TruthfulRun(Step(s, a), id)
  {
    hide Truthful, DoneStays, Enabled, Step;
    var s' := Step(s, a);
    forall k | k in s'.execs[id].results ensures Truthful(s', s'.execs[id].results[k]) {
      FlowResult(s, a, id, k);
      if k in s.execs[id].results && s'.execs[id].results[k] == s.execs[id].results[k] {
        TruthStays(s, s', s.execs[id].results[k]);
      } else {
        PlainTruthful(s', s'.execs[id].results[k]);
      }
    }
    forall tr | tr in s'.runs[id].tasks ensures Truthful(s', tr) {
      FlowTask(s, a, id, tr);
      TruthStays(s, s', tr);
    }
  }

  lemma FlowResult(s: System, a: Action, id: int, k: string)
    requires Enabled(s, a) && !a.Launch? && !a.Complete? && id == Owner(s, a) && id in s.execs
    requires id in Step(s, a).execs && k in Step(s, a).execs[id].results
    ensures
      var tr := Step(s, a).execs[id].results[k];
      (k in s.execs[id].results && tr == s.execs[id].results[k]) || (tr.childRunID == 0 && tr.iterations == [])
  {
    hide ReadyKeys, DepsSatisfied, ShouldRun, GraphOf, Conclude, Publish, Cancel, RunningRecord, RefusedRecord,
      ClosedRecord, EvalCondition;
  }

  lemma FlowTask(s: System, a: Action, id: int, tr: TaskRun)
    requires Enabled(s, a) && !a.Launch? && !a.Complete? && id == Owner(s, a) && id in s.execs && id in s.runs
    requires id in Step(s, a).runs && tr in Step(s, a).runs[id].tasks
    ensures tr in s.runs[id].tasks || exists k | k in s.execs[id].results :: s.execs[id].results[k] == tr
  {
    hide ReadyKeys, DepsSatisfied, ShouldRun, AfterCheck, AfterDispatch, GraphOf, Stdouts, Stderrs, AnyFailed;
  }

  lemma {:induction false} FlowKeepsTruth(env: Env, T: Tree, a: Action)
    requires Sound(env, T) && TruthfulTree(T) && Can(env, T, Flow(a))
    ensures TruthfulTree(After(env, T, Flow(a)))
  {
    hide SoundRun, Born, PathsDiffer, TruthfulRun, Truthful, DoneStays, Enabled, Step;
    var T' := After(env, T, Flow(a));
    MovesKeepDone(env, T, Flow(a));
    FlowKeys(T.sys, a);
    forall id | id in T'.sys.execs ensures TruthfulRun(T'.sys, id) {
      if id == Owner(T.sys, a) {
        FlowTruthful(T.sys, a, id);
      } else {
        assert SoundRun(env, T, id);
        TooNew(env, T, id);
        FlowOthers(T.sys, a, id);
        RunTruthStays(T.sys, T'.sys, id);
      }
    }
    forall id, k | id in T'.bodies && k in T'.bodies[id] ensures TruthfulBody(T'.sys, T'.bodies[id][k]) {
      if id in T.bodies && k in T.bodies[id] && T'.bodies[id][k] == T.bodies[id][k] {
        BodyTruthStays(T.sys, T'.sys, T.bodies[id][k]);
      }
    }
  }

  lemma {:induction false} ReturnTruthful(T: Tree, s': System, id: int, k: string, i: int)
    requires i in T.sys.execs && i in T.sys.runs && TruthfulRun(T.sys, i) && DoneStays(T.sys, s')
    requires i in s'.execs && s'.runs == T.sys.runs && HasBody(T, id, k) && T.bodies[id][k].Finished?
    requires TruthfulBody(T.sys, T.bodies[id][k])
    requires s'.execs[i].results == if i == id then T.sys.execs[i].results[k := T.bodies[id][k].run]
      else T.sys.execs[i].results
    ensures TruthfulRun(s', i)
  {
    hide Truthful, DoneStays, HasBody;
    forall j | j in s'.execs[i].results ensures Truthful(s', s'.execs[i].results[j]) {
      TruthStays(T.sys, s', s'.execs[i].results[j]);
    }
    forall tr | tr in s'.runs[i].tasks ensures Truthful(s', tr) {
      TruthStays(T.sys, s', tr);
    }
  }

  lemma {:induction false} ReturnKeepsTruth(env: Env, T: Tree, id: int, k: string)
    requires Sound(env, T) && TruthfulTree(T) && Can(env, T, Return(id, k))
    ensures TruthfulTree(After(env, T, Return(id, k)))
  {
    hide Sound, TruthfulRun, TruthfulBody, DoneStays, GraphOf, MayComplete;
    var T' := After(env, T, Return(id, k));
    MovesKeepDone(env, T, Return(id, k));
    assert T'.sys.execs.Keys == T.sys.execs.Keys;
    forall i | i in T'.sys.execs ensures TruthfulRun(T'.sys, i) {
      ReturnTruthful(T, T'.sys, id, k, i);
    }
    forall i, j | i in T'.bodies && j in T'.bodies[i] ensures TruthfulBody(T'.sys, T'.bodies[i][j]) {
      BodyTruthStays(T.sys, T'.sys, T.bodies[i][j]);
    }
  }

  lemma {:induction false} LaunchKeepsTruth(env: Env, T: Tree, n: Node)
    requires Sound(env, T) && TruthfulTree(T)
    ensures TruthfulTree(Launched(env, T, n))
  {
    hide TruthfulRun, TruthfulBody, DoneStays, Step, Enabled, SoundRun, Born, PathsDiffer, PlanAt;
    var T', id := Launched(env, T, n), T.sys.nextID + 1;
    LaunchKeepsDone(env, T, n);
    LaunchEnabled(T.sys, PlanAt(env, n));
    StepKeys(T.sys, Launch(PlanAt(env, n)));
    forall i | i in T'.sys.execs ensures TruthfulRun(T'.sys, i) {
      if i == id {
        LaunchedTruthful(env, T.sys, n);
      } else {
        assert SoundRun(env, T, i);
        TooNew(env, T, i);
        OthersUntouched(T.sys, Launch(PlanAt(env, n)), i);
        RunTruthStays(T.sys, T'.sys, i);
      }
    }
    forall i, j | i in T'.bodies && j in T'.bodies[i] ensures TruthfulBody(T'.sys, T'.bodies[i][j]) {
      BodyTruthStays(T.sys, T'.sys, T.bodies[i][j]);
    }
  }

  lemma LaunchedTruthful(env: Env, s: System, n: Node)
    ensures
      var s', id := Step(s, Launch(PlanAt(env, n))), s.nextID + 1;
      id in s'.execs && id in s'.runs && TruthfulRun(s', id)
  {
    hide Truthful;
  }

  lemma LaunchKeepsDone(env: Env, T: Tree, n: Node)
    requires Sound(env, T)
    ensures DoneStays(T.sys, Launched(env, T, n).sys)
  {
    hide Born, PathsDiffer, Kept, Ended, PlanAt, NewExec;
    assert forall c | c in T.sys.execs :: SoundRun(env, T, c);
  }

  lemma {:induction false} WithBodyKeepsTruth(env: Env, T: Tree, id: int, k: string, at: seq<nat>)
    requires TruthfulTree(T) && Can(env, T, Advance(id, k, at))
    ensures TruthfulTree(WithBody(T, id, k, Put(T.bodies[id][k], at, Advanced(env, T, id, k, at).value)))
  {
    hide TruthfulRun, TruthfulBody, NextBody, Put, BodyAt, TaskAt, PathOf, GraphOf;
    var b := T.bodies[id][k];
    PartTruthful(T.sys, b, at);
    NextTruthful(env, T.sys, TaskAt(TaskOf(T, id, k), at), T.sites[id].depth, PathOf(T.sites[id], k, at),
      BodyAt(b, at).value);
    PutTruthful(T.sys, b, at, Advanced(env, T, id, k, at).value);
  }

  lemma {:induction false} MoveKeepsTruth(env: Env, T: Tree, m: Move)
    requires Sound(env, T) && TruthfulTree(T) && Can(env, T, m)
    ensures TruthfulTree(After(env, T, m))
  {
    hide Sound, TruthfulTree, Launched, Put, BodyAt, NextBody, GraphOf, TaskAt, PathOf;
    match m
    case RunNow(jobID) => LaunchKeepsTruth(env, T, TopNode(env, T, jobID));
    case Flow(a) => FlowKeepsTruth(env, T, a);
    case Return(id, k) => ReturnKeepsTruth(env, T, id, k);
    case Advance(id, k, at) =>
      WithBodyKeepsTruth(env, T, id, k, at);
      if ChildOf(env, T, m).Some? {
        AdvanceFurthers(env, T, id, k, at);
        StillRunning(env, T, id, k, at);
        BodySound(env, T, id, k, Put(T.bodies[id][k], at, Advanced(env, T, id, k, at).value));
        var T' := WithBody(T, id, k, Put(T.bodies[id][k], at, Advanced(env, T, id, k, at).value));
        LaunchKeepsTruth(env, T', ChildOf(env, T, m).value);
      }
  }

  /** In every state every child run id, in a record's task results or an iteration of them, names a
      done run whose record the result reports. */
  lemma {:induction false} IdsAreTruthful(env: Env, t: TreeTrace, n: nat)
    requires IsTreeTrace(env, t) && n < |t.trees|
    ensures TruthfulTree(t.trees[n])
  {
    hide Sound, TruthfulRun, TruthfulBody, Can, After;
    if n > 0 {
      IdsAreTruthful(env, t, n - 1);
      AlwaysSound(env, t, n - 1);
      MoveKeepsTruth(env, t.trees[n - 1], t.moves[n - 1]);
      assert t.trees[n - 1 + 1] == After(env, t.trees[n - 1], t.moves[n - 1]);
    }
  }

  /** Every child run stands where its parent's task started it, and the parent's result for the
      task, once there is one, names it, in the iteration that started it. */
  lemma {:induction false} ChildrenAreNamed(env: Env, t: TreeTrace, n: nat, c: int)
      returns (p: int, k: string, at: seq<nat>)
    requires IsTreeTrace(env, t) && n < |t.trees| && c in t.trees[n].sites && t.trees[n].sites[c].path != [ToRun(c)]
    ensures
      var T := t.trees[n];
      && StartedFrom(env, T, c, p, k, at) && c != 0 && p in T.sys.execs
      && (k in T.sys.execs[p].results ==> Names(T.sys.execs[p].results[k], at, c))
  {
    hide IsTreeTrace, Started, IsChild, Ended, PathsDiffer, PlanAt, GraphOf;
    var T := t.trees[n];
    AlwaysSound(env, t, n);
    assert SoundRun(env, T, c) && Born(env, T, c);
    p, k, at :| StartedFrom(env, T, c, p, k, at);
    assert SoundRun(env, T, p);
    FinishedNames(T.bodies[p][k], at, c);
  }

  lemma FinishedNames(b: Body, at: seq<nat>, c: int)
    requires Started(b, at, c)
    ensures b.Finished? ==> Names(b.run, at, c)
  {
  }
}
