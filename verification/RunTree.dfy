// Whole trees of runs executing concurrently. A dispatched task is a body with steps of its own: a
// run_job task waits for the executor of its child run, which is a run like any other, and a loop
// runs bodies inside it. Steps of every run, and cancels of any of them, interleave.
module RunTree {
  import opened Basics
  import opened JobModel
  import opened Scheduler
  import opened NestedRuns
  import opened Outcomes
  import opened RunStore
  import opened RunProtocol

  /** Where a dispatched task stands: an iteration its loop has not spawned; spawned; waiting for a
      child run; running iterations; returned. */
  datatype Body = Idle | Ready | Awaiting(child: int) | Looping(parts: seq<Body>) | Finished(run: TaskRun)

  /** The store and the executors, each run's place in its tree, and the bodies of its tasks. */
  datatype Tree = Tree(sys: System, sites: map<int, Node>, bodies: map<int, map<string, Body>>)

  datatype Move =
    | RunNow(jobID: int)
    | Flow(a: Action)
    | Return(id: int, k: string)
    | Advance(id: int, k: string, at: seq<nat>)

  // ------------------------------------------------------------------ a body's steps

  /** The body at an address: the loop indices that lead to it. */
  function BodyAt(b: Body, at: seq<nat>): Option<Body>
  {
    if at == [] then Some(b)
    else if b.Looping? && at[0] < |b.parts| then BodyAt(b.parts[at[0]], at[1..])
    else None
  }

  function Put(b: Body, at: seq<nat>, c: Body): Body
    requires BodyAt(b, at).Some?
  {
    if at == [] then c else Looping(b.parts[at[0] := Put(b.parts[at[0]], at[1..], c)])
  }

  /** The task an address leads to, each loop's input substituted on the way. */
  function TaskAt(t: Task, at: seq<nat>): Task
    decreases |at|
  {
    if at == [] || t.forEach.None? || at[0] >= |t.forEach.value.inputs| then t
    else TaskAt(SubstituteInput(t.forEach.value.task, t.key, t.forEach.value.inputs[at[0]]), at[1..])
  }

  function Inputs(at: seq<nat>): Path { seq(|at|, i requires 0 <= i < |at| => ToInput(at[i])) }

  predicate AllFinished(parts: seq<Body>) { forall i | 0 <= i < |parts| :: parts[i].Finished? }

  function RunsOf(parts: seq<Body>): seq<TaskRun>
    requires AllFinished(parts)
  {
    seq(|parts|, i requires 0 <= i < |parts| => parts[i].run)
  }

  /** The iterations spawned and not yet returned. */
  function InFlight(parts: seq<Body>): nat
  {
    if parts == [] then 0
    else InFlight(parts[..|parts| - 1]) + if parts[|parts| - 1].Idle? || parts[|parts| - 1].Finished? then 0 else 1
  }

  /** The next iteration to spawn: they are spawned in input order. */
  function NextIdle(parts: seq<Body>): (i: nat)
    ensures i <= |parts| && (i < |parts| ==> parts[i].Idle?) && forall j | 0 <= j < i :: !parts[j].Idle?
  {
    if parts == [] || parts[0].Idle? then 0 else 1 + NextIdle(parts[1..])
  }

  /** What a run_job task reports of its child run, whose id it carries. */
  function ReportOf(key: string, id: int, r: Record): TaskRun
  {
    Bare(key, r.resultState).(childRunID := id, stdout := r.stdout, stderr := r.stderr)
  }

  /** A body's next step, if it can take one. */
  function NextBody(env: Env, sys: System, t: Task, depth: nat, path: Path, b: Body): Option<Body>
  {
    match b
    case Idle => None
    case Finished(_) => None
    case Ready =>
      Some(if Launches(env, t, depth, path) then Awaiting(sys.nextID + 1)
           else if Loops(env, t, path) then Looping(seq(|t.forEach.value.inputs|, _ => Idle))
           else Finished(Alone(env, t, depth, path)))
    case Awaiting(c) =>
      if c in sys.execs && c in sys.runs && sys.execs[c].phase == Done
        then Some(Finished(ReportOf(t.key, c, sys.runs[c])))
      else None
    case Looping(parts) =>
      if AllFinished(parts) then Some(Finished(LoopRun(t.key, RunsOf(parts))))
      else if t.forEach.Some? && NextIdle(parts) < |parts| &&
              InFlight(parts) < BodyLimit(t.forEach.value.concurrency, |parts|)
        then Some(Looping(parts[NextIdle(parts) := Ready]))
      else None
  }

  // ----------------------------------------------------------------- the tree's moves

  // Executors here never ask their plan for results: the bodies give them.
  const NO_WORK: Work := (t: Task) => Bare(t.key, NoResult)

  function PlanAt(env: Env, n: Node): Plan { Plan(n.job.id, n.job.tasks, NO_WORK, env.attached) }

  predicate HasBody(T: Tree, id: int, k: string)
  {
    && id in T.sys.execs && id in T.sites && id in T.bodies && k in T.bodies[id]
    && k in GraphOf(T.sys.execs[id].plan)
  }

  function TaskOf(T: Tree, id: int, k: string): Task
    requires HasBody(T, id, k)
  {
    GraphOf(T.sys.execs[id].plan)[k]
  }

  function PathOf(n: Node, k: string, at: seq<nat>): Path { n.path + [ToTask(k)] + Inputs(at) }

  /** The body a move advances, after it. */
  function Advanced(env: Env, T: Tree, id: int, k: string, at: seq<nat>): Option<Body>
    requires HasBody(T, id, k)
  {
    var b := BodyAt(T.bodies[id][k], at);
    if b.None? then None
    else NextBody(env, T.sys, TaskAt(TaskOf(T, id, k), at), T.sites[id].depth, PathOf(T.sites[id], k, at), b.value)
  }

  predicate Can(env: Env, T: Tree, m: Move)
  {
    match m
    case RunNow(jobID) => jobID in env.jobs
    case Flow(a) => !a.Launch? && !a.Complete? && Enabled(T.sys, a)
    case Return(id, k) => HasBody(T, id, k) && MayComplete(T.sys.execs[id], k) && T.bodies[id][k].Finished?
    case Advance(id, k, at) => HasBody(T, id, k) && Advanced(env, T, id, k, at).Some?
  }

  /** The task's whole body after the move. */
  function Moved(env: Env, T: Tree, id: int, k: string, at: seq<nat>): Body
    requires Can(env, T, Advance(id, k, at))
  {
    Put(T.bodies[id][k], at, Advanced(env, T, id, k, at).value)
  }

  /** A new run: its record and executor, its place, and no bodies yet. */
  function Launched(env: Env, T: Tree, n: Node): Tree
  {
    var id := T.sys.nextID + 1;
    Tree(Step(T.sys, Launch(PlanAt(env, n))), T.sites[id := n], T.bodies[id := map[]])
  }

  function TopNode(env: Env, T: Tree, jobID: int): Node
    requires jobID in env.jobs
  {
    Node(env.jobs[jobID], 0, [ToRun(T.sys.nextID + 1)])
  }

  function WithBody(T: Tree, id: int, k: string, b: Body): Tree
    requires id in T.bodies
  {
    T.(bodies := T.bodies[id := T.bodies[id][k := b]])
  }

  function Returned(e: Exec, k: string, tr: TaskRun): Exec
  {
    e.(inflight := e.inflight - {k}, results := e.results[k := tr])
  }

  /** The child run a move starts, if it does. */
  function ChildOf(env: Env, T: Tree, m: Move): Option<Node>
    requires Can(env, T, m)
  {
    if !m.Advance? then None
    else
      var t, path := TaskAt(TaskOf(T, m.id, m.k), m.at), PathOf(T.sites[m.id], m.k, m.at);
      var depth := T.sites[m.id].depth;
      if BodyAt(T.bodies[m.id][m.k], m.at).value.Ready? && Launches(env, t, depth, path)
      then Some(Node(env.jobs[t.runJob.value], depth + 1, path))
      else None
  }

  function After(env: Env, T: Tree, m: Move): Tree
    requires Can(env, T, m)
  {
    match m
    case RunNow(jobID) => Launched(env, T, TopNode(env, T, jobID))
    case Flow(a) =>
      var T' := T.(sys := Step(T.sys, a));
      if a.Dispatch? && a.id in T.bodies && a.k in T'.sys.execs[a.id].inflight then WithBody(T', a.id, a.k, Ready)
      else T'
    case Return(id, k) =>
      T.(sys := T.sys.(execs := T.sys.execs[id := Returned(T.sys.execs[id], k, T.bodies[id][k].run)]))
    case Advance(id, k, at) =>
      var T' := WithBody(T, id, k, Put(T.bodies[id][k], at, Advanced(env, T, id, k, at).value));
      var child := ChildOf(env, T, m);
      if child.Some? then Launched(env, T', child.value) else T'
  }

  const NO_TREE := Tree(INITIAL, map[], map[])

  datatype TreeTrace = TreeTrace(trees: seq<Tree>, moves: seq<Move>)

  ghost predicate IsTreeTrace(env: Env, t: TreeTrace)
  {
    && |t.trees| == |t.moves| + 1 && t.trees[0] == NO_TREE
    && forall i | 0 <= i < |t.moves| ::
         Can(env, t.trees[i], t.moves[i]) && t.trees[i + 1] == After(env, t.trees[i], t.moves[i])
  }

  // --------------------------------------------------------------- places and addresses

  /** The result at the address names the run. */
  predicate Names(tr: TaskRun, at: seq<nat>, id: int)
    decreases |at|
  {
    if at == [] then tr.childRunID == id else at[0] < |tr.iterations| && Names(tr.iterations[at[0]], at[1..], id)
  }

  /** The body at the address started the run: it waits for it, or the result names it. */
  predicate Started(b: Body, at: seq<nat>, id: int)
    decreases |at|
  {
    match b
    case Idle => false
    case Ready => false
    case Awaiting(c) => at == [] && c == id
    case Finished(tr) => Names(tr, at, id)
    case Looping(parts) => at != [] && at[0] < |parts| && Started(parts[at[0]], at[1..], id)
  }

  ghost predicate Furthers(b: Body, c: Body) { forall at, id :: Started(b, at, id) ==> Started(c, at, id) }

  lemma {:induction false} PutStarted(b: Body, at: seq<nat>, c: Body, bt: seq<nat>, id: int)
    requires BodyAt(b, at).Some? && Furthers(BodyAt(b, at).value, c) && Started(b, bt, id)
    ensures Started(Put(b, at, c), bt, id)
    decreases |at|
  {
    hide Names;
    if at != [] && at[0] == bt[0] {
      PutStarted(b.parts[at[0]], at[1..], c, bt[1..], id);
    }
  }

  lemma {:induction false} ReadyStartedNone(b: Body, at: seq<nat>, id: int)
    requires BodyAt(b, at) == Some(Ready)
    ensures !Started(b, at, id)
    decreases |at|
  {
    if at != [] {
      ReadyStartedNone(b.parts[at[0]], at[1..], id);
    }
  }

  lemma {:induction false} WaitingStarted(b: Body, at: seq<nat>, child: int)
    requires BodyAt(b, at).Some?
    ensures Started(Put(b, at, Awaiting(child)), at, child)
    decreases |at|
  {
    if at != [] {
      WaitingStarted(b.parts[at[0]], at[1..], child);
    }
  }

  lemma NextFurthers(env: Env, sys: System, t: Task, depth: nat, path: Path, b: Body)
    requires NextBody(env, sys, t, depth, path, b).Some?
    ensures Furthers(b, NextBody(env, sys, t, depth, path, b).value)
    ensures !NextBody(env, sys, t, depth, path, b).value.Idle?
  {
    hide Launches, Loops, Alone, InFlight;
    var c := NextBody(env, sys, t, depth, path, b).value;
    forall at, id | Started(b, at, id) ensures Started(c, at, id) {
      if b.Looping? {
        assert Started(b.parts[at[0]], at[1..], id);
        if c.Looping? {
          assert NextIdle(b.parts) < |b.parts| && c == Looping(b.parts[NextIdle(b.parts) := Ready]);
        } else {
          assert c.run.iterations[at[0]] == b.parts[at[0]].run;
        }
      }
    }
  }

  lemma InputsSnoc(at: seq<nat>)
    requires at != []
    ensures Inputs(at) == Inputs(at[..|at| - 1]) + [ToInput(at[|at| - 1])]
  {
  }

  lemma SameEnds(p: Path, a: Hop, q: Path, b: Hop)
    requires p + [a] == q + [b]
    ensures p == q && a == b
  {
    assert p == (p + [a])[..|p|] && q == (q + [b])[..|q|];
    assert (p + [a])[|p|] == a && (q + [b])[|q|] == b;
  }

  /** An address in the tree names one run, one task and one iteration. */
  lemma {:induction false} PathParts(p: Path, k: string, at: seq<nat>, q: Path, l: string, bt: seq<nat>)
    requires p + [ToTask(k)] + Inputs(at) == q + [ToTask(l)] + Inputs(bt)
    ensures p == q && k == l && at == bt
    decreases |at|
  {
    hide Inputs;
    var x, y := p + [ToTask(k)], q + [ToTask(l)];
    EndsInTask(x, at);
    EndsInTask(y, bt);
    if at == [] || bt == [] {
      SameEnds(p, ToTask(k), q, ToTask(l));
    } else {
      var n, m := |at| - 1, |bt| - 1;
      InputsSnoc(at);
      InputsSnoc(bt);
      assert x + Inputs(at) == (x + Inputs(at[..n])) + [ToInput(at[n])];
      assert y + Inputs(bt) == (y + Inputs(bt[..m])) + [ToInput(bt[m])];
      SameEnds(x + Inputs(at[..n]), ToInput(at[n]), y + Inputs(bt[..m]), ToInput(bt[m]));
      PathParts(p, k, at[..n], q, l, bt[..m]);
      assert at == at[..n] + [at[n]] && bt == bt[..m] + [bt[m]];
    }
  }

  lemma EndsInTask(x: Path, at: seq<nat>)
    requires x != []
    ensures at == [] ==> x + Inputs(at) == x
    ensures at != [] ==> (x + Inputs(at))[|x + Inputs(at)| - 1] == ToInput(at[|at| - 1])
  {
  }

  lemma LastTask(p: Path, k: string, at: seq<nat>)
    ensures
      var x := p + [ToTask(k)] + Inputs(at);
      && x[|x| - |at| - 1] == ToTask(k)
      && forall i | |x| - |at| <= i < |x| :: x[i] == ToInput(at[i - (|x| - |at|)])
  {
  }

  /** The task's body started the run, at the place the task and the loops around it lead to. */
  ghost predicate StartedFrom(env: Env, T: Tree, id: int, p: int, k: string, at: seq<nat>)
  {
    && id in T.sites && p in T.sites && p in T.bodies && k in T.bodies[p] && Started(T.bodies[p][k], at, id)
    && IsChild(env, T.sites[p], k, at, T.sites[id])
  }

  /** What the task at the address starts when it gets that far. */
  ghost predicate IsChild(env: Env, parent: Node, k: string, at: seq<nat>, child: Node)
  {
    && k in ByKey(parent.job.tasks)
    && var t := TaskAt(ByKey(parent.job.tasks)[k], at);
       && Launches(env, t, parent.depth, PathOf(parent, k, at))
       && child == Node(env.jobs[t.runJob.value], parent.depth + 1, PathOf(parent, k, at))
  }

  ghost predicate Born(env: Env, T: Tree, id: int)
  {
    id in T.sites &&
    (T.sites[id].path == [ToRun(id)] || exists p, k, at :: StartedFrom(env, T, id, p, k, at))
  }

  ghost predicate PathsDiffer(sites: map<int, Node>)
  {
    forall a, b | a in sites && b in sites && sites[a].path == sites[b].path :: a == b
  }

  /** Bodies belong to the tasks dispatched: in flight, or decided by what their body returned. */
  ghost predicate Kept(e: Exec, bodies: map<string, Body>)
  {
    && e.todo <= e.remaining && bodies.Keys !! e.remaining && e.inflight <= bodies.Keys
    && (e.phase in {Closing, Done} || e.remaining !! e.results.Keys)
    && bodies.Keys <= GraphOf(e.plan).Keys && bodies.Keys <= e.started && bodies.Keys <= e.inflight + e.results.Keys
    && (forall k | k in bodies :: GraphOf(e.plan)[k].condition.None? && !bodies[k].Idle?)
    && (forall k | k in bodies && k in e.results :: bodies[k] == Finished(e.results[k]))
    && (forall k | k in e.started && k in GraphOf(e.plan) && GraphOf(e.plan)[k].condition.None? :: k in bodies)
    && (!e.plan.attached ==> bodies == map[] && e.phase in {Starting, Refusing, Done})
  }

  ghost predicate Ended(e: Exec, r: Record)
  {
    (r.resultState == Canceled ==> r.lifeCycle == Terminated) && (e.phase == Done ==> r.lifeCycle == Terminated)
  }

  ghost predicate SoundRun(env: Env, T: Tree, id: int)
  {
    && id in T.sys.execs && id in T.sys.runs && id in T.sites && id in T.bodies && 0 < id <= T.sys.nextID
    && T.sys.execs[id].plan == PlanAt(env, T.sites[id])
    && Kept(T.sys.execs[id], T.bodies[id]) && Ended(T.sys.execs[id], T.sys.runs[id])
  }

  ghost predicate Sound(env: Env, T: Tree)
  {
    && T.sys.nextID >= 0
    && T.sys.execs.Keys == T.sites.Keys && T.sys.runs.Keys == T.sites.Keys && T.bodies.Keys == T.sites.Keys
    && (forall id | id in T.sites :: SoundRun(env, T, id) && Born(env, T, id))
    && PathsDiffer(T.sites)
  }

  /** Places stay, and bodies only go on. */
  ghost predicate Grows(T: Tree, T': Tree)
  {
    && (forall id | id in T.sites :: id in T'.sites && T'.sites[id] == T.sites[id])
    && forall p, k | p in T.bodies && k in T.bodies[p] ::
         p in T'.bodies && k in T'.bodies[p] && Furthers(T.bodies[p][k], T'.bodies[p][k])
  }

  lemma {:induction false} BornStays(env: Env, T: Tree, T': Tree, id: int)
    requires Born(env, T, id) && Grows(T, T')
    ensures Born(env, T', id)
  {
    hide Started, IsChild;
    if T.sites[id].path != [ToRun(id)] {
      var p, k, at :| StartedFrom(env, T, id, p, k, at);
      assert Furthers(T.bodies[p][k], T'.bodies[p][k]);
      assert StartedFrom(env, T', id, p, k, at);
    }
  }

  // -------------------------------------------------------------------- flow

  lemma CheckKept(e: Exec, canceled: bool, bodies: map<string, Body>)
    requires Kept(e, bodies) && e.phase == AtTop
    ensures Kept(AfterCheck(e, canceled), bodies) && AfterCheck(e, canceled).plan == e.plan
  {
    hide GraphOf, DepsSatisfied, SkippedRun;
  }

  lemma DispatchKept(e: Exec, k: string, bodies: map<string, Body>)
    requires Kept(e, bodies) && MayDispatch(e, k)
    ensures
      var e' := AfterDispatch(e, k);
      && e'.plan == e.plan
      && if k in e'.inflight then k !in bodies && Kept(e', bodies[k := Ready]) else Kept(e', bodies)
  {
    hide GraphOf, DepsSatisfied, ShouldRun, SkippedRun, ConditionRun;
  }

  lemma {:induction false} FlowKept(s: System, a: Action, id: int, bodies: map<string, Body>)
    requires Enabled(s, a) && id in s.execs && !a.Launch? && !a.Complete? && id == Owner(s, a)
    requires Kept(s.execs[id], bodies)
    ensures
      var e' := Step(s, a).execs[id];
      && e'.plan == s.execs[id].plan
      && if a.Dispatch? && a.k in e'.inflight then a.k !in bodies && Kept(e', bodies[a.k := Ready])
         else Kept(e', bodies)
  {
    hide GraphOf, AfterCheck, AfterDispatch, MayDispatch, Publish, Cancel, RunningRecord, RefusedRecord, ClosedRecord;
    match a
    case Check(_) => CheckKept(s.execs[id], IsCanceled(s.runs, id), bodies);
    case Dispatch(_, k) => DispatchKept(s.execs[id], k, bodies);
    case _ =>
  }

  lemma {:induction false} FlowEnded(s: System, a: Action, id: int)
    requires Enabled(s, a) && id in s.execs && id in s.runs && !a.Launch? && !a.Complete? && id == Owner(s, a)
    requires Ended(s.execs[id], s.runs[id])
    ensures id in Step(s, a).execs && id in Step(s, a).runs && Ended(Step(s, a).execs[id], Step(s, a).runs[id])
  {
    hide GraphOf, ReadyKeys, MayDispatch, Stdouts, Stderrs, AnyFailed, AfterDispatch;
    if a.Dispatch? {
      DispatchMoves(s.execs[id], a.k);
    }
  }

  // ----------------------------------------------- every move keeps the tree sound

  lemma FlowOthers(s: System, a: Action, id: int)
    requires Enabled(s, a) && !a.Launch? && !a.Complete? && id in s.execs && id in s.runs && id <= s.nextID
    requires id != Owner(s, a)
    ensures
      var s' := Step(s, a);
      id in s'.execs && id in s'.runs && s'.execs[id] == s.execs[id] && s'.runs[id] == s.runs[id]
  {
    hide Enabled, Step;
    OthersUntouched(s, a, id);
  }

  lemma FlowKeys(s: System, a: Action)
    requires Enabled(s, a) && !a.Launch? && !a.Complete? && s.runs.Keys == s.execs.Keys
    ensures Step(s, a).runs.Keys == Step(s, a).execs.Keys == s.execs.Keys && Step(s, a).nextID == s.nextID
  {
    hide AfterCheck, AfterDispatch, MayDispatch, Conclude, InTaskOrder;
    StepKeys(s, a);
  }

  lemma {:induction false} FlowSound(env: Env, T: Tree, a: Action)
    requires Sound(env, T) && Can(env, T, Flow(a))
    ensures Sound(env, After(env, T, Flow(a)))
  {
    hide Step, Enabled, Kept, Ended, Born, PathsDiffer, PlanAt;
    var T' := After(env, T, Flow(a));
    FlowKeys(T.sys, a);
    FlowGrows(env, T, a);
    forall id | id in T'.sites ensures SoundRun(env, T', id) && Born(env, T', id) {
      assert SoundRun(env, T, id) && Born(env, T, id);
      BornStays(env, T, T', id);
      if id == Owner(T.sys, a) {
        FlowKept(T.sys, a, id, T.bodies[id]);
        FlowEnded(T.sys, a, id);
        FlowOwner(a, id, T.sys);
      } else {
        FlowOthers(T.sys, a, id);
      }
    }
  }

  lemma FlowOwner(a: Action, id: int, s: System)
    requires id == Owner(s, a)
    ensures a.Dispatch? ==> a.id == id
  {
  }

  lemma {:induction false} FlowGrows(env: Env, T: Tree, a: Action)
    requires Sound(env, T) && Can(env, T, Flow(a))
    ensures Grows(T, After(env, T, Flow(a)))
    ensures After(env, T, Flow(a)).sites == T.sites && After(env, T, Flow(a)).bodies.Keys == T.bodies.Keys
  {
    hide Step, Enabled, Kept, Ended, Born, PathsDiffer, PlanAt, Started;
    if a.Dispatch? && a.id in T.bodies {
      assert SoundRun(env, T, a.id);
      FlowKept(T.sys, a, a.id, T.bodies[a.id]);
    } else {
      SameBodies(T, After(env, T, Flow(a)));
    }
  }

  lemma ReturnKept(e: Exec, r: Record, bodies: map<string, Body>, k: string)
    requires Kept(e, bodies) && Ended(e, r) && MayComplete(e, k) && bodies[k].Finished?
    ensures Kept(Returned(e, k, bodies[k].run), bodies) && Ended(Returned(e, k, bodies[k].run), r)
    ensures Returned(e, k, bodies[k].run).plan == e.plan
  {
    hide GraphOf;
  }

  lemma SameBodies(T: Tree, T': Tree)
    requires T'.sites == T.sites && T'.bodies == T.bodies
    ensures Grows(T, T')
  {
    hide Started;
  }

  lemma {:induction false} ReturnSound(env: Env, T: Tree, id: int, k: string)
    requires Sound(env, T) && Can(env, T, Return(id, k))
    ensures Sound(env, After(env, T, Return(id, k)))
  {
    hide Born, PathsDiffer, PlanAt, GraphOf, Kept, Ended, MayComplete, Returned, Grows;
    var T' := After(env, T, Return(id, k));
    assert T'.sys.execs.Keys == T.sys.execs.Keys;
    SameBodies(T, T');
    assert SoundRun(env, T, id);
    ReturnKept(T.sys.execs[id], T.sys.runs[id], T.bodies[id], k);
    forall i | i in T'.sites ensures SoundRun(env, T', i) && Born(env, T', i) {
      assert SoundRun(env, T, i) && Born(env, T, i);
      BornStays(env, T, T', i);
    }
  }

  lemma BodyKept(e: Exec, bodies: map<string, Body>, k: string, b: Body)
    requires Kept(e, bodies) && k in bodies && k !in e.results && !b.Idle?
    ensures Kept(e, bodies[k := b])
  {
    hide GraphOf;
    assert bodies[k := b].Keys == bodies.Keys;
  }

  /** With nothing in flight every body has returned its task's result. */
  lemma KeptResult(e: Exec, bodies: map<string, Body>, k: string)
    requires Kept(e, bodies) && k in bodies && e.inflight == {}
    ensures k in e.results && bodies[k] == Finished(e.results[k]) && k in e.started
    ensures k in GraphOf(e.plan) && GraphOf(e.plan)[k].condition.None?
  {
    hide GraphOf;
  }

  /** A body may go on. */
  lemma {:induction false} BodySound(env: Env, T: Tree, id: int, k: string, b: Body)
    requires Sound(env, T) && HasBody(T, id, k) && k !in T.sys.execs[id].results
    requires Furthers(T.bodies[id][k], b) && !b.Idle?
    ensures Sound(env, WithBody(T, id, k, b)) && Grows(T, WithBody(T, id, k, b))
  {
    hide Born, PathsDiffer, PlanAt, GraphOf, Started, Ended, Kept;
    var T' := WithBody(T, id, k, b);
    assert T'.bodies.Keys == T.bodies.Keys;
    forall i | i in T'.sites ensures SoundRun(env, T', i) && Born(env, T', i) {
      assert SoundRun(env, T, i) && Born(env, T, i);
      BornStays(env, T, T', i);
      if i == id {
        BodyKept(T.sys.execs[id], T.bodies[id], k, b);
      }
    }
  }

  /** The next run may start here: on its own, or from a body that has just started it. */
  ghost predicate Open(env: Env, T: Tree, n: Node)
  {
    || n.path == [ToRun(T.sys.nextID + 1)]
    || exists p, k, at :: OpensFor(env, T, n, p, k, at)
  }

  ghost predicate OpensFor(env: Env, T: Tree, n: Node, p: int, k: string, at: seq<nat>)
  {
    HasBody(T, p, k) && IsChild(env, T.sites[p], k, at, n) && Started(T.bodies[p][k], at, T.sys.nextID + 1)
  }

  lemma LaunchGrows(env: Env, T: Tree, n: Node)
    requires Sound(env, T)
    ensures Grows(T, Launched(env, T, n)) && T.sys.nextID + 1 !in T.sites
  {
    hide Kept, Ended, Started, Born, PathsDiffer, PlanAt, Step;
    assert forall id | id in T.sites :: SoundRun(env, T, id);
  }

  lemma {:induction false} LaunchBorn(env: Env, T: Tree, n: Node)
    requires Grows(T, Launched(env, T, n)) && Open(env, T, n) && T.sys.nextID + 1 !in T.sites
    ensures Born(env, Launched(env, T, n), T.sys.nextID + 1)
  {
    hide Started, IsChild, GraphOf, Step, PlanAt;
    var T', id := Launched(env, T, n), T.sys.nextID + 1;
    if n.path != [ToRun(id)] {
      var p, k, at :| OpensFor(env, T, n, p, k, at);
      assert Furthers(T.bodies[p][k], T'.bodies[p][k]);
      assert StartedFrom(env, T', id, p, k, at);
    }
  }

  lemma LaunchSoundRun(env: Env, T: Tree, n: Node, i: int)
    requires T.sys.nextID >= 0 && if i == T.sys.nextID + 1 then i !in T.sites else SoundRun(env, T, i)
    ensures SoundRun(env, Launched(env, T, n), i)
  {
    hide Kept, Ended, PlanAt, Step;
    LaunchNext(env, n, T.sys);
    if i == T.sys.nextID + 1 {
      LaunchedKept(env, n, T.sys);
    } else {
      OthersUntouched(T.sys, Launch(PlanAt(env, n)), i);
    }
  }

  lemma LaunchNext(env: Env, n: Node, s: System)
    ensures
      var s', id := Step(s, Launch(PlanAt(env, n))), s.nextID + 1;
      s'.nextID == id && id in s'.execs && id in s'.runs
  {
    hide PlanAt, NewExec, PendingRecord;
  }

  lemma PlaceAdded(sites: map<int, Node>, id: int, n: Node)
    requires PathsDiffer(sites) && forall i | i in sites :: sites[i].path != n.path
    ensures PathsDiffer(sites[id := n])
  {
  }

  lemma KeyAdded<V>(m: map<int, V>, id: int, v: V)
    ensures m[id := v].Keys == m.Keys + {id}
  {
  }

  lemma LaunchKeys(env: Env, T: Tree, n: Node)
    requires Sound(env, T) && forall id | id in T.sites :: T.sites[id].path != n.path
    ensures
      var T' := Launched(env, T, n);
      && T'.sys.nextID >= 0 && T'.sites.Keys == T.sites.Keys + {T.sys.nextID + 1} && PathsDiffer(T'.sites)
      && T'.sys.execs.Keys == T'.sites.Keys && T'.sys.runs.Keys == T'.sites.Keys && T'.bodies.Keys == T'.sites.Keys
  {
    hide SoundRun, Born, PathsDiffer, PlanAt, NewExec, PendingRecord;
    var id := T.sys.nextID + 1;
    PlaceAdded(T.sites, id, n);
    KeyAdded(T.sites, id, n);
    KeyAdded(T.bodies, id, map[]);
    KeyAdded(T.sys.execs, id, NewExec(PlanAt(env, n)));
    KeyAdded(T.sys.runs, id, PendingRecord(id, n.job.id));
  }

  /** A run may be started at an open place that no run has. */
  lemma {:induction false} LaunchSound(env: Env, T: Tree, n: Node)
    requires Sound(env, T) && Open(env, T, n) && forall id | id in T.sites :: T.sites[id].path != n.path
    ensures Sound(env, Launched(env, T, n))
  {
    hide SoundRun, Born, Open, Grows, Launched, PathsDiffer;
    var T', id := Launched(env, T, n), T.sys.nextID + 1;
    LaunchGrows(env, T, n);
    LaunchBorn(env, T, n);
    LaunchKeys(env, T, n);
    forall i | i in T'.sites ensures SoundRun(env, T', i) && Born(env, T', i) {
      LaunchSoundRun(env, T, n, i);
      if i != id {
        BornStays(env, T, T', i);
      }
    }
  }

  lemma LaunchedKept(env: Env, n: Node, s: System)
    ensures
      var s', id := Step(s, Launch(PlanAt(env, n))), s.nextID + 1;
      && s'.execs[id].plan == PlanAt(env, n) && Kept(s'.execs[id], map[]) && Ended(s'.execs[id], s'.runs[id])
  {
  }

  /** A body that is only spawned has started no run yet: its place is free. */
  lemma {:induction false} PlaceIsFree(env: Env, T: Tree, id: int, k: string, at: seq<nat>, c: int)
    requires Sound(env, T) && HasBody(T, id, k) && BodyAt(T.bodies[id][k], at) == Some(Ready) && c in T.sites
    ensures T.sites[c].path != PathOf(T.sites[id], k, at)
  {
    hide Started, SoundRun, BodyAt;
    if T.sites[c].path == PathOf(T.sites[id], k, at) {
      assert Born(env, T, c);
      LastTask(T.sites[id].path, k, at);
      var x := T.sites[c].path;
      assert x[|x| - |at| - 1] == ToTask(k);
      assert at != [] ==> x[|x| - 1] == ToInput(at[|at| - 1]);
      var p, l, bt :| StartedFrom(env, T, c, p, l, bt);
      PathParts(T.sites[id].path, k, at, T.sites[p].path, l, bt);
      ReadyStartedNone(T.bodies[id][k], at, c);
    }
  }

  lemma {:induction false} AdvanceFurthers(env: Env, T: Tree, id: int, k: string, at: seq<nat>)
    requires Can(env, T, Advance(id, k, at))
    ensures Furthers(T.bodies[id][k], Put(T.bodies[id][k], at, Advanced(env, T, id, k, at).value))
    ensures !Put(T.bodies[id][k], at, Advanced(env, T, id, k, at).value).Idle?
  {
    hide NextBody, Started, GraphOf, PathOf, TaskAt, BodyAt;
    var b, c := T.bodies[id][k], Advanced(env, T, id, k, at).value;
    NextFurthers(env, T.sys, TaskAt(TaskOf(T, id, k), at), T.sites[id].depth, PathOf(T.sites[id], k, at),
      BodyAt(b, at).value);
    forall bt, i | Started(b, bt, i) ensures Started(Put(b, at, c), bt, i) {
      PutStarted(b, at, c, bt, i);
    }
  }

  lemma SoundHasBody(env: Env, T: Tree, id: int, k: string)
    requires Sound(env, T) && id in T.bodies && k in T.bodies[id]
    ensures HasBody(T, id, k) && k in ByKey(T.sites[id].job.tasks)
    ensures TaskOf(T, id, k) == ByKey(T.sites[id].job.tasks)[k]
  {
    hide Born, PathsDiffer, Ended, ByKey;
    assert SoundRun(env, T, id);
  }

  lemma {:induction false} ChildIsOpen(env: Env, T: Tree, id: int, k: string, at: seq<nat>)
    requires Sound(env, T) && Can(env, T, Advance(id, k, at)) && ChildOf(env, T, Advance(id, k, at)).Some?
    ensures
      var T' := WithBody(T, id, k, Put(T.bodies[id][k], at, Advanced(env, T, id, k, at).value));
      var n := ChildOf(env, T, Advance(id, k, at)).value;
      n.path == PathOf(T.sites[id], k, at) && Open(env, T', n) && forall i | i in T'.sites :: T'.sites[i].path != n.path
  {
    hide Sound, Started, GraphOf, PathOf, TaskAt, Launches, Put, BodyAt, NextBody, ByKey;
    var b, c := T.bodies[id][k], Advanced(env, T, id, k, at).value;
    var path := PathOf(T.sites[id], k, at);
    ReadyLaunches(env, T.sys, TaskAt(TaskOf(T, id, k), at), T.sites[id].depth, path);
    WaitingStarted(b, at, T.sys.nextID + 1);
    var T' := WithBody(T, id, k, Put(b, at, c));
    forall i | i in T'.sites ensures T'.sites[i].path != path {
      PlaceIsFree(env, T, id, k, at, i);
    }
    SoundHasBody(env, T, id, k);
    assert OpensFor(env, T', ChildOf(env, T, Advance(id, k, at)).value, id, k, at);
  }

  /** A body that can still go on has not returned. */
  lemma StillRunning(env: Env, T: Tree, id: int, k: string, at: seq<nat>)
    requires Sound(env, T) && Can(env, T, Advance(id, k, at))
    ensures k !in T.sys.execs[id].results
  {
    hide Born, PathsDiffer, Ended, GraphOf, TaskAt, PathOf, PlanAt, Launches, Loops, Alone;
    assert SoundRun(env, T, id);
  }

  lemma {:induction false} AdvanceSound(env: Env, T: Tree, id: int, k: string, at: seq<nat>)
    requires Sound(env, T) && Can(env, T, Advance(id, k, at))
    ensures Sound(env, After(env, T, Advance(id, k, at)))
  {
    hide Sound, Open, Put, Launched, BodyAt, NextBody, WithBody, Furthers, ChildOf, GraphOf, TaskAt, PathOf;
    var b := Put(T.bodies[id][k], at, Advanced(env, T, id, k, at).value);
    AdvanceFurthers(env, T, id, k, at);
    StillRunning(env, T, id, k, at);
    BodySound(env, T, id, k, b);
    var child := ChildOf(env, T, Advance(id, k, at));
    if child.Some? {
      ChildIsOpen(env, T, id, k, at);
      LaunchSound(env, WithBody(T, id, k, b), child.value);
    }
  }

  lemma ReadyLaunches(env: Env, sys: System, t: Task, depth: nat, path: Path)
    requires Launches(env, t, depth, path)
    ensures NextBody(env, sys, t, depth, path, Ready) == Some(Awaiting(sys.nextID + 1))
  {
    hide Launches;
  }

  lemma {:induction false} RunNowSound(env: Env, T: Tree, jobID: int)
    requires Sound(env, T) && jobID in env.jobs
    ensures Sound(env, After(env, T, RunNow(jobID)))
  {
    hide SoundRun, Started, Launched;
    var top := [ToRun(T.sys.nextID + 1)];
    forall i | i in T.sites ensures T.sites[i].path != top {
      assert Born(env, T, i);
      NewTop(env, T, i);
    }
    assert Open(env, T, TopNode(env, T, jobID));
    LaunchSound(env, T, TopNode(env, T, jobID));
  }

  lemma NewTop(env: Env, T: Tree, i: int)
    requires Sound(env, T) && i in T.sites
    ensures T.sites[i].path != [ToRun(T.sys.nextID + 1)]
  {
    hide Started, Kept, Ended, PathsDiffer;
    assert SoundRun(env, T, i) && Born(env, T, i);
    if T.sites[i].path != [ToRun(i)] {
      var p, k, at :| StartedFrom(env, T, i, p, k, at);
      assert T.sites[i].path[|T.sites[p].path|] == ToTask(k);
    }
  }

  lemma {:induction false} MoveSound(env: Env, T: Tree, m: Move)
    requires Sound(env, T) && Can(env, T, m)
    ensures Sound(env, After(env, T, m))
  {
    hide Sound, After, Can;
    match m
    case RunNow(jobID) => assert jobID in env.jobs by { CanRun(env, T, jobID); } RunNowSound(env, T, jobID);
    case Flow(a) => FlowSound(env, T, a);
    case Return(id, k) => ReturnSound(env, T, id, k);
    case Advance(id, k, at) => AdvanceSound(env, T, id, k, at);
  }

  lemma CanRun(env: Env, T: Tree, jobID: int)
    requires Can(env, T, RunNow(jobID))
    ensures jobID in env.jobs
  {
  }

  lemma {:induction false} AlwaysSound(env: Env, t: TreeTrace, i: nat)
    requires IsTreeTrace(env, t) && i < |t.trees|
    ensures Sound(env, t.trees[i])
  {
    hide Can, After, SoundRun, Born;
    if i > 0 {
      AlwaysSound(env, t, i - 1);
      MoveSound(env, t.trees[i - 1], t.moves[i - 1]);
      assert t.trees[i - 1 + 1] == After(env, t.trees[i - 1], t.moves[i - 1]);
    }
  }

  // ------------------------------------------------------------------- what is settled stays

  /** The run's place stays; a cancelled run stays cancelled; a done run keeps its record. */
  ghost predicate Keeps(T: Tree, T': Tree, id: int)
  {
    && id in T.sites && id in T'.sites && T'.sites[id] == T.sites[id]
    && (IsCanceled(T.sys.runs, id) ==> IsCanceled(T'.sys.runs, id))
    && (IsDone(T, id) ==> IsDone(T', id) && T'.sys.runs[id] == T.sys.runs[id])
  }

  predicate IsDone(T: Tree, id: int) { id in T.sys.execs && id in T.sys.runs && T.sys.execs[id].phase == Done }

  lemma {:induction false} FlowKeeps(s: System, a: Action, id: int)
    requires Enabled(s, a) && !a.Launch? && !a.Complete? && id in s.execs && id in s.runs && id <= s.nextID
    requires Ended(s.execs[id], s.runs[id])
    ensures id in Step(s, a).execs && id in Step(s, a).runs
    ensures IsCanceled(s.runs, id) ==> IsCanceled(Step(s, a).runs, id)
    ensures s.execs[id].phase == Done ==> Step(s, a).execs[id].phase == Done && Step(s, a).runs[id] == s.runs[id]
  {
    hide AfterCheck, AfterDispatch, GraphOf, DepsSatisfied, Conclude, InTaskOrder;
    if id != Owner(s, a) {
      FlowOthers(s, a, id);
    }
  }

  lemma {:induction false} MoveKeeps(env: Env, T: Tree, m: Move, id: int)
    requires Sound(env, T) && Can(env, T, m) && id in T.sites
    ensures Keeps(T, After(env, T, m), id)
  {
    hide Step, Enabled, Kept, Ended, Born, PathsDiffer, PlanAt, NextBody, BodyAt, ChildOf, Put, PathOf, GraphOf,
      IsCanceled,
      MayComplete;
    assert SoundRun(env, T, id);
    match m
    case RunNow(jobID) => LaunchedKeeps(env, T, TopNode(env, T, jobID), id);
    case Flow(a) => FlowKeeps(T.sys, a, id);
    case Return(i, k) => ReturnNotDone(T, i, k);
    case Advance(i, k, at) =>
      var T' := WithBody(T, i, k, Put(T.bodies[i][k], at, Advanced(env, T, i, k, at).value));
      if ChildOf(env, T, m).Some? {
        LaunchedKeeps(env, T', ChildOf(env, T, m).value, id);
      }
  }

  lemma ReturnNotDone(T: Tree, id: int, k: string)
    requires id in T.sys.execs && MayComplete(T.sys.execs[id], k)
    ensures T.sys.execs[id].phase != Done
  {
  }

  lemma LaunchedKeeps(env: Env, T: Tree, n: Node, id: int)
    requires id in T.sites && id in T.sys.execs && id in T.sys.runs && id <= T.sys.nextID
    ensures Keeps(T, Launched(env, T, n), id)
  {
    hide Step, PlanAt;
    OthersUntouched(T.sys, Launch(PlanAt(env, n)), id);
  }

  lemma {:induction false} TraceKeeps(env: Env, t: TreeTrace, i: nat, j: nat, id: int)
    requires IsTreeTrace(env, t) && i <= j < |t.trees| && id in t.trees[i].sites
    ensures Keeps(t.trees[i], t.trees[j], id)
    decreases j - i
  {
    hide Can, After, Sound, IsDone;
    if i < j {
      AlwaysSound(env, t, i);
      assert t.trees[i + 1] == After(env, t.trees[i], t.moves[i]);
      MoveKeeps(env, t.trees[i], t.moves[i], id);
      TraceKeeps(env, t, i + 1, j, id);
    }
  }

  /** The runs recorded CANCELED, by their places. */
  ghost function FateAt(T: Tree): Fate
  {
    (p: Path) => exists id | id in T.sites :: T.sites[id].path == p && IsCanceled(T.sys.runs, id)
  }

  /** The fate tells of every done run whether it was cancelled. */
  ghost predicate Foretells(fate: Fate, T: Tree)
  {
    forall id | id in T.sites && IsDone(T, id) :: fate(T.sites[id].path) <==> IsCanceled(T.sys.runs, id)
  }

  /** What is cancelled in the end foretells every state before. */
  lemma {:induction false} EndForetells(env: Env, t: TreeTrace, i: nat, n: nat)
    requires IsTreeTrace(env, t) && i <= n < |t.trees|
    ensures Foretells(FateAt(t.trees[n]), t.trees[i])
  {
    hide IsTreeTrace, IsCanceled, SoundRun, Born;
    var T, E := t.trees[i], t.trees[n];
    forall id | id in T.sites && IsDone(T, id)
      ensures FateAt(E)(T.sites[id].path) <==> IsCanceled(T.sys.runs, id)
    {
      TraceKeeps(env, t, i, n, id);
      AlwaysSound(env, t, n);
      if FateAt(E)(T.sites[id].path) {
        var other :| other in E.sites && E.sites[other].path == T.sites[id].path && IsCanceled(E.sys.runs, other);
        assert other == id;
        SameRecord(T, E, id);
      }
    }
  }

  lemma SameRecord(T: Tree, E: Tree, id: int)
    requires IsDone(T, id) && IsDone(E, id) && E.sys.runs[id] == T.sys.runs[id]
    ensures IsCanceled(T.sys.runs, id) == IsCanceled(E.sys.runs, id)
  {
  }
}
