// How many runs a tree has in which nobody cancels anything: exactly as many as its run starts.
module TreeCounts {
  import opened Basics
  import opened JobModel
  import opened Scheduler
  import opened NestedRuns
  import opened Outcomes
  import opened RunStore
  import opened RunProtocol
  import opened RunTree
  import opened TreeOutcomes
  import opened TreeProgress
  import opened TreeBounds
  import opened TreeFailures

  // ------------------------------------------------------------------ sets in parts

  /** The parts at the keys make up the whole, without overlap. */
  ghost predicate Parts<K, X>(whole: set<X>, keys: set<K>, at: K -> set<X>)
  {
    && (forall x | x in whole :: exists k | k in keys :: x in at(k))
    && (forall k | k in keys :: at(k) <= whole)
    && (forall k, l | k in keys && l in keys && k != l :: at(k) !! at(l))
  }

  lemma {:induction false} PartsAddUp<K, X>(whole: set<X>, keys: set<K>, at: K -> set<X>, size: K -> nat)
    requires Parts(whole, keys, at) && forall k | k in keys :: |at(k)| == size(k)
    ensures |whole| == Sum(keys, size)
    decreases |keys|
  {
    hide Parts;
    if keys == {} {
      NoParts(whole, keys, at);
    } else {
      var k :| k in keys;
      SumSplit(keys, size, k);
      PartOut(whole, keys, at, k);
      PartsAddUp(whole - at(k), keys - {k}, at, size);
    }
  }

  lemma NoParts<K, X>(whole: set<X>, keys: set<K>, at: K -> set<X>)
    requires Parts(whole, keys, at) && keys == {}
    ensures |whole| == 0
  {
    assert whole == {};
  }

  lemma PartOut<K, X>(whole: set<X>, keys: set<K>, at: K -> set<X>, k: K)
    requires Parts(whole, keys, at) && k in keys
    ensures Parts(whole - at(k), keys - {k}, at) && |whole| == |whole - at(k)| + |at(k)|
  {
    assert whole == (whole - at(k)) + at(k);
    forall x | x in whole - at(k) ensures exists l | l in keys - {k} :: x in at(l) {
      var l :| l in keys && x in at(l);
      assert l in keys - {k};
    }
  }

  // ------------------------------------------------------------------ the runs at a place

  /** The runs at the place and below it. */
  ghost function From(T: Tree, path: Path): set<int> { set i | i in T.sites && path <= T.sites[i].path }

  /** They all stand at places of the task's. */
  ghost predicate Confined(env: Env, T: Tree, t: Task, depth: nat, path: Path)
  {
    forall i | i in From(T, path) :: T.sites[i].path in TaskPlaces(env, t, depth, path)
  }

  /** They are done, and nobody cancelled them. */
  ghost predicate Undisturbed(T: Tree, ids: set<int>)
  {
    forall i | i in ids :: i in T.sites && IsDone(T, i) && !IsCanceled(T.sys.runs, i)
  }

  lemma {:induction false} PlacesStartHere(env: Env, t: Task, depth: nat, path: Path, p: Path)
    requires p in TaskPlaces(env, t, depth, path)
    ensures path <= p
    decreases Remaining(depth), 0, 1 + Nesting(t)
  {
    hide Loops, SubstituteInput;
    if Launches(env, t, depth, path) {
      if p != path {
        JobPlacesStartBelow(env, env.jobs[t.runJob.value], depth + 1, path, p);
      }
    } else if Loops(env, t, path) {
      LoopHasTask(env, t, path);
      var i :| 0 <= i < |t.forEach.value.inputs| && p in TaskPlaces(env, Iteration(t, i), depth, path + [ToInput(i)]);
      PlacesStartHere(env, Iteration(t, i), depth, path + [ToInput(i)], p);
    }
  }

  lemma {:induction false} JobPlacesStartBelow(env: Env, job: Job, depth: nat, path: Path, p: Path)
    requires p in JobPlaces(env, job, depth, path)
    ensures path < p
    decreases Remaining(depth), 1, 0
  {
    hide TaskPlaces;
    var g := ByKey(job.tasks);
    var k :| k in g && p in TaskPlaces(env, g[k], depth, path + [ToTask(k)]);
    PlacesStartHere(env, g[k], depth, path + [ToTask(k)], p);
  }

  lemma OneHop(path: Path, a: Hop, b: Hop, p: Path)
    requires path + [a] <= p && path + [b] <= p
    ensures a == b
  {
    assert (path + [a])[|path|] == p[|path|] == (path + [b])[|path|];
  }

  ghost function FromInput(T: Tree, path: Path): nat -> set<int> { (i: nat) => From(T, path + [ToInput(i)]) }

  ghost function FromKey(T: Tree, path: Path): string -> set<int> { (k: string) => From(T, path + [ToTask(k)]) }

  lemma HopApart(T: Tree, path: Path, a: Hop, b: Hop)
    requires a != b
    ensures From(T, path + [a]) !! From(T, path + [b])
  {
    forall i | i in From(T, path + [a]) && i in From(T, path + [b]) ensures false {
      OneHop(path, a, b, T.sites[i].path);
    }
  }

  lemma HopInside(T: Tree, path: Path, hop: Hop)
    ensures From(T, path + [hop]) <= From(T, path)
  {
    forall i | i in From(T, path + [hop]) ensures path <= T.sites[i].path {
      assert path <= path + [hop];
    }
  }

  // ------------------------------------------------------------------------ counting

  /** Confined to a loop's places, the runs are confined to its iterations'. */
  lemma {:induction false} LoopConfined(env: Env, T: Tree, t: Task, depth: nat, path: Path, i: int) returns (j: nat)
    requires Loops(env, t, path) && !Launches(env, t, depth, path) && t.forEach.Some?
    requires Confined(env, T, t, depth, path) && i in From(T, path)
    ensures j < |t.forEach.value.inputs| && i in From(T, path + [ToInput(j)])
    ensures T.sites[i].path in TaskPlaces(env, Iteration(t, j), depth, path + [ToInput(j)])
  {
    hide Launches, Loops, SubstituteInput, JobPlaces;
    var p := T.sites[i].path;
    assert p in TaskPlaces(env, t, depth, path);
    j :| 0 <= j < |t.forEach.value.inputs| && p in TaskPlaces(env, Iteration(t, j), depth, path + [ToInput(j)]);
    PlacesStartHere(env, Iteration(t, j), depth, path + [ToInput(j)], p);
  }

  lemma {:induction false} IterationConfined(env: Env, T: Tree, t: Task, depth: nat, path: Path, j: nat)
    requires Loops(env, t, path) && !Launches(env, t, depth, path) && t.forEach.Some?
    requires Confined(env, T, t, depth, path) && j < |t.forEach.value.inputs|
    ensures Confined(env, T, Iteration(t, j), depth, path + [ToInput(j)])
  {
    hide Launches, Loops, SubstituteInput, JobPlaces, TaskPlaces;
    HopInside(T, path, ToInput(j));
    forall i | i in From(T, path + [ToInput(j)])
      ensures T.sites[i].path in TaskPlaces(env, Iteration(t, j), depth, path + [ToInput(j)])
    {
      var l := LoopConfined(env, T, t, depth, path, i);
      OneHop(path, ToInput(j), ToInput(l), T.sites[i].path);
    }
  }

  lemma {:induction false} LoopParts(env: Env, T: Tree, t: Task, depth: nat, path: Path)
    requires Loops(env, t, path) && !Launches(env, t, depth, path) && t.forEach.Some?
    requires Confined(env, T, t, depth, path)
    ensures Parts(From(T, path), Indices(|t.forEach.value.inputs|), FromInput(T, path))
  {
    hide Launches, Loops, SubstituteInput, JobPlaces, TaskPlaces, Confined, From;
    var n, at := |t.forEach.value.inputs|, FromInput(T, path);
    forall i | i in From(T, path) ensures exists j | j in Indices(n) :: i in at(j) {
      var j := LoopConfined(env, T, t, depth, path, i);
      InIndices(n, j);
      assert j in Indices(n) && i in at(j);
    }
    forall j | j in Indices(n) ensures at(j) <= From(T, path) {
      HopInside(T, path, ToInput(j));
    }
    forall j, l | j in Indices(n) && l in Indices(n) && j != l ensures at(j) !! at(l) {
      HopApart(T, path, ToInput(j), ToInput(l));
    }
  }

  /** What a returned task started, where nobody cancelled anything. */
  ghost predicate Countable(env: Env, T: Tree, t: Task, depth: nat, path: Path)
  {
    Spawned(env, T.sites, t, depth, path) && Confined(env, T, t, depth, path) && Undisturbed(T, From(T, path))
  }

  lemma {:induction false} TaskCount(env: Env, h: TreeTrace, n: nat, t: Task, depth: nat, path: Path)
    requires IsTreeTrace(env, h) && n < |h.trees| && Countable(env, h.trees[n], t, depth, path)
    ensures |From(h.trees[n], path)| == StartedByTask(env, t, depth, path)
    decreases Remaining(depth), 0, 1 + Nesting(t)
  {
    hide IsTreeTrace, SubstituteInput, Undisturbed, Confined, RunsStarted, SumTo;
    var T := h.trees[n];
    if Launches(env, t, depth, path) {
      var c :| c in T.sites && T.sites[c] == Node(env.jobs[t.runJob.value], depth + 1, path);
      OneAtPlace(env, h, n, c);
      BelowIsUndisturbed(T, c, path);
      RunCount(env, h, n, c);
    } else if Loops(env, t, path) {
      LoopHasTask(env, t, path);
      forall j | j in Indices(|t.forEach.value.inputs|)
        ensures |FromInput(T, path)(j)| == StartedByIteration(env, t.forEach.value, t.key, depth, path)(j)
      {
        InIndices(|t.forEach.value.inputs|, j);
        IterationCountable(env, T, t, depth, path, j);
        TaskCount(env, h, n, Iteration(t, j), depth, path + [ToInput(j)]);
      }
      LoopParts(env, T, t, depth, path);
      PartsAddUp(From(T, path), Indices(|t.forEach.value.inputs|), FromInput(T, path),
        StartedByIteration(env, t.forEach.value, t.key, depth, path));
      SumOverIndices(|t.forEach.value.inputs|, StartedByIteration(env, t.forEach.value, t.key, depth, path));
    } else {
      NowhereToGo(env, T, t, depth, path);
    }
  }

  lemma NoElements<X>(s: set<X>)
    requires forall x :: x !in s
    ensures |s| == 0
  {
    assert s == {};
  }

  lemma NowhereToGo(env: Env, T: Tree, t: Task, depth: nat, path: Path)
    requires Confined(env, T, t, depth, path) && !Launches(env, t, depth, path) && !Loops(env, t, path)
    ensures |From(T, path)| == 0
  {
    hide Launches, Loops, From;
    assert TaskPlaces(env, t, depth, path) == {};
    forall i ensures i !in From(T, path) {
    }
    NoElements(From(T, path));
  }

  lemma IterationCountable(env: Env, T: Tree, t: Task, depth: nat, path: Path, j: nat)
    requires Loops(env, t, path) && !Launches(env, t, depth, path) && t.forEach.Some?
    requires Countable(env, T, t, depth, path) && j < |t.forEach.value.inputs|
    ensures Countable(env, T, Iteration(t, j), depth, path + [ToInput(j)])
  {
    hide Launches, Loops, SubstituteInput, Confined, From, IsDone, IsCanceled;
    IterationConfined(env, T, t, depth, path, j);
    HopInside(T, path, ToInput(j));
  }

  /** A run and the runs below it are the runs from its place on. */
  lemma OneAtPlace(env: Env, h: TreeTrace, n: nat, c: int)
    requires IsTreeTrace(env, h) && n < |h.trees| && c in h.trees[n].sites
    ensures
      var T := h.trees[n];
      From(T, T.sites[c].path) == {c} + Below(T, c) && c !in Below(T, c)
  {
    hide IsTreeTrace, SoundRun, Born;
    AlwaysSound(env, h, n);
    var T := h.trees[n];
    forall i | i in From(T, T.sites[c].path) && i != c ensures i in Below(T, c) {
      assert T.sites[i].path != T.sites[c].path;
    }
  }

  lemma BelowIsUndisturbed(T: Tree, c: int, path: Path)
    requires c in T.sites && T.sites[c].path == path && Undisturbed(T, From(T, path))
    ensures Undisturbed(T, {c} + Below(T, c))
  {
    hide IsDone, IsCanceled;
    forall i | i in {c} + Below(T, c) ensures i in From(T, path) {
    }
  }

  /** The task by which a run lies below another. */
  lemma {:induction false} FirstHop(env: Env, fate: Fate, T: Tree, id: int, i: int) returns (k: string)
    requires Sound(env, T) && Right(env, fate, T) && id in T.sites && i in T.sites
    requires T.sites[id].path < T.sites[i].path
    ensures id in T.bodies && k in T.bodies[id] && i in FromKey(T, T.sites[id].path)(k)
    decreases |T.sites[i].path|
  {
    hide Sound, Right, Started, IsChild;
    var p, l, at := ParentOf(env, fate, T, id, i);
    if p == id {
      k := l;
      ChildFrom(env, T, i, id, k, at);
    } else {
      InSites(env, T, i, p, l, at);
      k := FirstHop(env, fate, T, id, p);
    }
  }

  lemma ChildFrom(env: Env, T: Tree, i: int, p: int, k: string, at: seq<nat>)
    requires StartedFrom(env, T, i, p, k, at)
    ensures i in FromKey(T, T.sites[p].path)(k)
  {
    hide Started, Launches;
  }

  /** What a done, undisturbed run has dispatched: exactly what its meaning says. */
  lemma {:induction false} BodiesAreDispatched(env: Env, fate: Fate, T: Tree, id: int)
    requires Sound(env, T) && Right(env, fate, T) && id in T.sites && env.attached && Spared(fate, T.sites[id].path)
    requires IsDone(T, id) && !IsCanceled(T.sys.runs, id)
    ensures
      var n := T.sites[id];
      id in T.bodies && T.bodies[id].Keys == Dispatched(ByKey(n.job.tasks), WorkAt(env, n.depth, n.path))
  {
    hide Born, PathsDiffer, Ended, BodyRight, WorkOutcome, WorkAt, Executes, Kept, ByKey, ExecOk, StripResults,
      IsCanceled, Agrees, Protocol;
    var n, e := T.sites[id], T.sys.execs[id];
    assert SoundRun(env, T, id);
    FineHere(env, fate, T, id);
    ExecutesAsMeant(env, fate, n);
    DoneExecuted(env, fate, T, id);
    forall k | k in T.bodies[id] ensures k in Dispatched(ByKey(n.job.tasks), WorkAt(env, n.depth, n.path)) {
      KeptResult(e, T.bodies[id], k);
    }
    forall k | k in Dispatched(ByKey(n.job.tasks), WorkAt(env, n.depth, n.path)) ensures k in T.bodies[id] {
      StartedHasBody(e, T.bodies[id], k);
    }
  }

  lemma StartedHasBody(e: Exec, bodies: map<string, Body>, k: string)
    requires Kept(e, bodies) && k in e.started && k in GraphOf(e.plan) && GraphOf(e.plan)[k].condition.None?
    ensures k in bodies
  {
    hide GraphOf;
  }

  lemma {:induction false} DoneExecuted(env: Env, fate: Fate, T: Tree, id: int)
    requires Sound(env, T) && id in T.sites && Fine(Protocol(env, fate, T), id) && env.attached
    requires IsDone(T, id) && !IsCanceled(T.sys.runs, id)
    ensures
      var n, e := T.sites[id], T.sys.execs[id];
      && e.inflight == {} && GraphOf(e.plan) == ByKey(n.job.tasks)
      && forall k | k in ByKey(n.job.tasks) ::
           k in e.results &&
           (k in e.started <==> Executes(ByKey(n.job.tasks), WorkOutcome(env, fate, n.depth, n.path), k))
  {
    hide Sound, PlanOf, FinalResults, OutcomesOf, ExecOk, Executes, StripResults, ByKey, Agrees;
    StrippedKeys(T.sys.execs[id].results);
    ExecHere(env, fate, T, id);
    PlanHere(env, T, id);
    PlanAnswers(env, fate, T.sites[id]);
    ExecutedHere(ExecOf(env, fate, T.sites[id], T.sys.execs[id]));
    ResultsHere(env, fate, T, id);
    OutcomeKeys(env, fate, T.sites[id]);
  }

  lemma OutcomeKeys(env: Env, fate: Fate, n: Node)
    ensures OutcomesOf(env, fate, n.job, n.depth, n.path).Keys == ByKey(n.job.tasks).Keys
  {
    hide WorkOutcome, ByKey, Final;
  }

  lemma {:induction false} ExecutesAsMeant(env: Env, fate: Fate, n: Node)
    requires Spared(fate, n.path)
    ensures forall k :: Executes(ByKey(n.job.tasks), WorkOutcome(env, fate, n.depth, n.path), k) ==
                        Executes(ByKey(n.job.tasks), WorkAt(env, n.depth, n.path), k)
  {
    hide FinalResults, TaskOutcome, TaskMeaning, ByKey, Stuck, DepsSatisfied, ShouldRun;
    var g := ByKey(n.job.tasks);
    forall k | k in g ensures WorkOutcome(env, fate, n.depth, n.path)(g[k]) == WorkAt(env, n.depth, n.path)(g[k]) {
      SparedBelow(fate, n.path, ToTask(g[k].key));
      SparedTask(env, fate, g[k], n.depth, n.path + [ToTask(g[k].key)]);
    }
    FinalSame(g, WorkOutcome(env, fate, n.depth, n.path), WorkAt(env, n.depth, n.path));
  }

  lemma {:induction false} UndisturbedIsSpared(T: Tree, id: int)
    requires id in T.sites && Undisturbed(T, From(T, T.sites[id].path))
    ensures Spared(FateAt(T), T.sites[id].path)
  {
    hide IsDone, IsCanceled;
    forall i | i in T.sites && T.sites[id].path <= T.sites[i].path ensures !IsCanceled(T.sys.runs, i) {
      assert i in From(T, T.sites[id].path);
    }
  }

  /** The places a task's part of the tree is confined to are the task's. */
  lemma {:induction false} KeyConfined(env: Env, fate: Fate, T: Tree, id: int, k: string)
    requires Sound(env, T) && Right(env, fate, T) && id in T.sites && k in ByKey(T.sites[id].job.tasks)
    ensures
      var n := T.sites[id];
      Confined(env, T, ByKey(n.job.tasks)[k], n.depth, n.path + [ToTask(k)])
  {
    hide Sound, Right, TaskPlaces, ByKey;
    var n, g := T.sites[id], ByKey(T.sites[id].job.tasks);
    forall i | i in From(T, n.path + [ToTask(k)])
      ensures T.sites[i].path in TaskPlaces(env, g[k], n.depth, n.path + [ToTask(k)])
    {
      var p := T.sites[i].path;
      assert n.path < p;
      BelowIsPlace(env, fate, T, id, i);
      var l :| l in g && p in TaskPlaces(env, g[l], n.depth, n.path + [ToTask(l)]);
      PlacesStartHere(env, g[l], n.depth, n.path + [ToTask(l)], p);
      OneHop(n.path, ToTask(k), ToTask(l), p);
    }
  }

  lemma {:induction false} BodyCountable(env: Env, fate: Fate, T: Tree, id: int, k: string)
    requires Sound(env, T) && Right(env, fate, T) && id in T.sites && id in T.bodies && k in T.bodies[id]
    requires IsDone(T, id)
    requires Undisturbed(T, From(T, T.sites[id].path))
    ensures
      var n := T.sites[id];
      k in ByKey(n.job.tasks) && Countable(env, T, ByKey(n.job.tasks)[k], n.depth, n.path + [ToTask(k)])
  {
    hide Sound, AllFine, Protocol, TaskOutcome, IsDone, IsCanceled, GraphOf, Confined, From, Spawned, ByKey;
    BodyReturned(env, fate, T, id, k);
    assert BodyRight(env, fate, T, id, k);
    SoundHasBody(env, T, id, k);
    KeyConfined(env, fate, T, id, k);
    HopInside(T, T.sites[id].path, ToTask(k));
  }

  lemma {:induction false} RunParts(env: Env, fate: Fate, T: Tree, id: int)
    requires Sound(env, T) && Right(env, fate, T) && id in T.sites
    ensures id in T.bodies
    ensures Parts(Below(T, id), T.bodies[id].Keys, FromKey(T, T.sites[id].path))
  {
    hide SoundRun, Born, PathsDiffer, Right;
    var path, at := T.sites[id].path, FromKey(T, T.sites[id].path);
    forall i | i in Below(T, id) ensures exists k | k in T.bodies[id].Keys :: i in at(k) {
      var k := FirstHop(env, fate, T, id, i);
      assert k in T.bodies[id].Keys && i in at(k);
    }
    forall k | k in T.bodies[id].Keys ensures at(k) <= Below(T, id) {
      forall i | i in at(k) ensures path < T.sites[i].path {
        assert path + [ToTask(k)] <= T.sites[i].path;
      }
    }
    forall k, l | k in T.bodies[id].Keys && l in T.bodies[id].Keys && k != l ensures at(k) !! at(l) {
      HopApart(T, path, ToTask(k), ToTask(l));
    }
  }

  lemma NoBodies(env: Env, T: Tree, id: int)
    requires Sound(env, T) && id in T.sites && !env.attached
    ensures id in T.bodies && T.bodies[id].Keys == {}
  {
    hide Born, PathsDiffer, Ended, GraphOf;
    assert SoundRun(env, T, id);
  }

  /** A done run, when neither it nor any run below it was cancelled, has below it exactly as many runs
      as its meaning counts, however they interleaved. */
  lemma {:induction false} RunCount(env: Env, h: TreeTrace, n: nat, id: int)
    requires IsTreeTrace(env, h) && n < |h.trees| && id in h.trees[n].sites
    requires Undisturbed(h.trees[n], {id} + Below(h.trees[n], id))
    ensures
      var site := h.trees[n].sites[id];
      |Below(h.trees[n], id)| == RunsStarted(env, site.job, site.depth, site.path)
    decreases Remaining(h.trees[n].sites[id].depth), 1, 0
  {
    hide IsTreeTrace, Sound, Right, FateAt, Spared, Undisturbed, From, Below, StartedByTask, Dispatched, Countable,
      IsDone, IsCanceled, ByKey, Parts;
    var T, site := h.trees[n], h.trees[n].sites[id];
    RightAt(env, h, n);
    OneAtPlace(env, h, n, id);
    RunParts(env, FateAt(T), T, id);
    if env.attached {
      var g, work := ByKey(site.job.tasks), WorkAt(env, site.depth, site.path);
      UndisturbedIsSpared(T, id);
      HereUndisturbed(T, id);
      BodiesAreDispatched(env, FateAt(T), T, id);
      forall k | k in T.bodies[id].Keys
        ensures |FromKey(T, site.path)(k)| == StartedAt(env, g, site.depth, site.path)(k)
      {
        BodyCountable(env, FateAt(T), T, id, k);
        TaskCount(env, h, n, g[k], site.depth, site.path + [ToTask(k)]);
      }
      PartsAddUp(Below(T, id), T.bodies[id].Keys, FromKey(T, site.path), StartedAt(env, g, site.depth, site.path));
    } else {
      NoBodies(env, T, id);
      NoParts(Below(T, id), T.bodies[id].Keys, FromKey(T, site.path));
    }
  }

  lemma HereUndisturbed(T: Tree, id: int)
    requires id in T.sites && Undisturbed(T, From(T, T.sites[id].path))
    ensures IsDone(T, id) && !IsCanceled(T.sys.runs, id)
  {
    hide IsDone, IsCanceled;
    assert id in From(T, T.sites[id].path);
  }

  /** The same, asking only that the run itself is done: so is all that lies below it. */
  lemma {:induction false} UncancelledTreesCount(env: Env, h: TreeTrace, n: nat, id: int)
    requires IsTreeTrace(env, h) && n < |h.trees| && id in h.trees[n].sites && IsDone(h.trees[n], id)
    requires forall i | i in h.trees[n].sites && h.trees[n].sites[id].path <= h.trees[n].sites[i].path ::
               !IsCanceled(h.trees[n].sys.runs, i)
    ensures
      var site := h.trees[n].sites[id];
      |Below(h.trees[n], id)| == RunsStarted(env, site.job, site.depth, site.path)
  {
    hide IsTreeTrace, IsDone, IsCanceled, RunsStarted;
    forall i | i in {id} + Below(h.trees[n], id)
      ensures i in h.trees[n].sites && IsDone(h.trees[n], i) && !IsCanceled(h.trees[n].sys.runs, i)
    {
      WholeTreeDone(env, h, n, id, i);
    }
    RunCount(env, h, n, id);
  }

  /** A job that runs itself, run from the top: five runs below it, and FAILED. */
  lemma {:induction false} SelfRunTree(env: Env, h: TreeTrace, n: nat, id: int)
    requires IsTreeTrace(env, h) && n < |h.trees| && id in h.trees[n].sites && IsDone(h.trees[n], id) && env.attached
    requires RunsItself(env, h.trees[n].sites[id].job) && h.trees[n].sites[id].depth == 0
    requires forall i | i in h.trees[n].sites && h.trees[n].sites[id].path <= h.trees[n].sites[i].path ::
               !IsCanceled(h.trees[n].sys.runs, i)
    ensures |Below(h.trees[n], id)| == 5 && h.trees[n].sys.runs[id].resultState == Failed
  {
    hide IsTreeTrace, IsCanceled, RunsStarted, RunMeaning, RunsItself, Below;
    var site := h.trees[n].sites[id];
    UncancelledTreesCount(env, h, n, id);
    UncancelledTreesMeanTheRun(env, h, n, id);
    SelfRunFailsAfterFive(env, site.job, site.path);
  }
}
