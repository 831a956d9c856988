// How many runs can lie below a run, whoever cancels what: each stands at a place its jobs allow,
// and those are bounded.
module TreeBounds {
  import opened Basics
  import opened JobModel
  import opened Scheduler
  import opened NestedRuns
  import opened Outcomes
  import opened ChildIds
  import opened RunProtocol
  import opened RunTree
  import opened TreeOutcomes
  import opened TreeProgress

  // ------------------------------------------------------------- where runs can be started

  /** The places below a run at which its jobs allow child runs to be started. */
  ghost function JobPlaces(env: Env, job: Job, depth: nat, path: Path): set<Path>
    decreases Remaining(depth), 1, 0
  {
    var g := ByKey(job.tasks);
    set k, p | k in g && p in TaskPlaces(env, g[k], depth, path + [ToTask(k)]) :: p
  }

  ghost function TaskPlaces(env: Env, t: Task, depth: nat, path: Path): set<Path>
    decreases Remaining(depth), 0, 1 + Nesting(t)
  {
    if Launches(env, t, depth, path) then {path} + JobPlaces(env, env.jobs[t.runJob.value], depth + 1, path)
    else if Loops(env, t, path) then
      set i, p | 0 <= i < |t.forEach.value.inputs| &&
                 p in TaskPlaces(env, Iteration(t, i), depth, path + [ToInput(i)]) :: p
    else {}
  }

  /** The task of a loop's iteration. */
  function Iteration(t: Task, i: nat): (nested: Task)
    requires t.forEach.Some? && i < |t.forEach.value.inputs|
    ensures Nesting(nested) < Nesting(t)
  {
    SubstituteInput(t.forEach.value.task, t.key, t.forEach.value.inputs[i])
  }

  /** The places inside a task, once reached, are among the task's. */
  lemma {:induction false} PlacesInside(env: Env, t: Task, depth: nat, path: Path, at: seq<nat>)
    requires Reaches(env, t, at, path)
    ensures TaskPlaces(env, TaskAt(t, at), depth, path + Inputs(at)) <= TaskPlaces(env, t, depth, path)
    decreases |at|
  {
    hide JobPlaces, SubstituteInput, Launches, Loops;
    if at == [] {
      assert path + Inputs(at) == path;
    } else {
      LoopIsNoLaunch(env, t, depth, path);
      InputsSplit(path, at);
      PlacesInside(env, Iteration(t, at[0]), depth, path + [ToInput(at[0])], at[1..]);
    }
  }

  /** Every task on the way to the address is a loop that has the input. */
  ghost predicate Reaches(env: Env, t: Task, at: seq<nat>, path: Path)
    decreases |at|
  {
    at == [] ||
    (Loops(env, t, path) && at[0] < |t.forEach.value.inputs| &&
     Reaches(env, Iteration(t, at[0]), at[1..], path + [ToInput(at[0])]))
  }

  lemma {:induction false} ReachesLoops(env: Env, t: Task, at: seq<nat>, path: Path, m: nat)
    requires Reaches(env, t, at, path) && m < |at|
    ensures Loops(env, TaskAt(t, at[..m]), path + Inputs(at[..m]))
    decreases |at|
  {
    hide SubstituteInput, Loops;
    LoopsHere(env, t, at, path);
    if m == 0 {
      assert at[..m] == [] && path + Inputs(at[..m]) == path;
    } else {
      assert at[..m][0] == at[0] && at[..m][1..] == at[1..][..m - 1];
      InputsSplit(path, at[..m]);
      ReachesLoops(env, Iteration(t, at[0]), at[1..], path + [ToInput(at[0])], m - 1);
    }
  }

  lemma LoopsHere(env: Env, t: Task, at: seq<nat>, path: Path)
    requires Reaches(env, t, at, path) && at != []
    ensures Loops(env, t, path) && t.forEach.Some? && at[0] < |t.forEach.value.inputs|
    ensures Reaches(env, Iteration(t, at[0]), at[1..], path + [ToInput(at[0])])
  {
  }

  /** A body that started a run did so at an address it could reach. */
  lemma {:induction false} StartedReaches(
      env: Env, fate: Fate, sites: map<int, Node>, t: Task, depth: nat, path: Path, b: Body, at: seq<nat>, id: int)
    requires OnItsWay(env, fate, sites, t, depth, path, b) && Started(b, at, id)
    ensures Reaches(env, t, at, path)
    decreases |at|
  {
    hide TaskOutcome, SubstituteInput, Launches, Strip, Names;
    match b
    case Awaiting(_) =>
    case Finished(tr) => NamesReaches(env, fate, t, depth, path, tr, at, id);
    case Looping(parts) =>
      StartedReaches(env, fate, sites, Iteration(t, at[0]), depth, path + [ToInput(at[0])], parts[at[0]], at[1..], id);
  }

  lemma {:induction false} NamesReaches(
      env: Env, fate: Fate, t: Task, depth: nat, path: Path, tr: TaskRun, at: seq<nat>, id: int)
    requires Strip(tr) == TaskOutcome(env, fate, t, depth, path) && Names(tr, at, id)
    ensures Reaches(env, t, at, path)
    decreases |at|
  {
    hide TaskOutcome, SubstituteInput, Loops;
    if at != [] {
      assert Strip(tr).iterations[at[0]] == Strip(tr.iterations[at[0]]);
      OnlyLoopsIterate(env, fate, t, depth, path, at[0]);
      NamesReaches(env, fate, Iteration(t, at[0]), depth, path + [ToInput(at[0])], tr.iterations[at[0]], at[1..], id);
    }
  }

  lemma OnlyLoopsIterate(env: Env, fate: Fate, t: Task, depth: nat, path: Path, i: nat)
    requires i < |TaskOutcome(env, fate, t, depth, path).iterations|
    ensures Loops(env, t, path) && t.forEach.Some? && i < |t.forEach.value.inputs|
    ensures TaskOutcome(env, fate, t, depth, path).iterations[i] ==
      TaskOutcome(env, fate, Iteration(t, i), depth, path + [ToInput(i)])
  {
    hide RunOutcome, SubstituteInput;
    if !Launches(env, t, depth, path) && !Loops(env, t, path) {
      AlonePlain(env, t, depth, path);
    } else if Loops(env, t, path) {
      LoopIsNoLaunch(env, t, depth, path);
    }
  }

  // ------------------------------------------------------- every run is at one of the places

  ghost function PlacesBelow(env: Env, n: Node): set<Path> { JobPlaces(env, n.job, n.depth, n.path) }

  /** A child run is at a place of its parent's, and so is everything below it. */
  lemma {:induction false} ChildPlaces(env: Env, n: Node, k: string, at: seq<nat>, child: Node)
    requires IsChild(env, n, k, at, child) && Reaches(env, ByKey(n.job.tasks)[k], at, n.path + [ToTask(k)])
    ensures child.path in PlacesBelow(env, n) && PlacesBelow(env, child) <= PlacesBelow(env, n)
  {
    hide Launches, Reaches, TaskPlaces;
    var g, t := ByKey(n.job.tasks), TaskAt(ByKey(n.job.tasks)[k], at);
    PlacesInside(env, g[k], n.depth, n.path + [ToTask(k)], at);
    LaunchPlaces(env, t, n.depth, child.path);
    forall p | p in TaskPlaces(env, g[k], n.depth, n.path + [ToTask(k)]) ensures p in PlacesBelow(env, n) {
    }
  }

  lemma LaunchPlaces(env: Env, t: Task, depth: nat, path: Path)
    requires Launches(env, t, depth, path)
    ensures TaskPlaces(env, t, depth, path) == {path} + JobPlaces(env, env.jobs[t.runJob.value], depth + 1, path)
  {
  }

  /** A child run's start is reached. */
  lemma {:induction false} ChildReached(env: Env, fate: Fate, T: Tree, i: int, p: int, k: string, at: seq<nat>)
    requires Sound(env, T) && Right(env, fate, T) && StartedFrom(env, T, i, p, k, at)
    ensures k in ByKey(T.sites[p].job.tasks)
    ensures Reaches(env, ByKey(T.sites[p].job.tasks)[k], at, T.sites[p].path + [ToTask(k)])
  {
    hide Sound, AllFine, Protocol, OnItsWay, Reaches, IsChild, Started;
    assert BodyRight(env, fate, T, p, k);
    SoundHasBody(env, T, p, k);
    var n := T.sites[p];
    StartedReaches(env, fate, T.sites, TaskOf(T, p, k), n.depth, TaskPath(n, k), T.bodies[p][k], at, i);
  }

  lemma HasPath(env: Env, T: Tree, i: int)
    requires Born(env, T, i)
    ensures i in T.sites && T.sites[i].path != []
  {
    hide Started;
  }

  /** No run's place is between a run's and its child's. */
  lemma {:induction false} NoneBetween(env: Env, fate: Fate, T: Tree, i: int, p: int, k: string, at: seq<nat>, id: int)
    requires Sound(env, T) && Right(env, fate, T) && StartedFrom(env, T, i, p, k, at) && id in T.sites
    requires T.sites[p].path <= T.sites[id].path < T.sites[i].path
    ensures id == p
  {
    hide Right, Reaches, SoundRun, Started, Loops, Launches, ByKey, TaskAt;
    var n := T.sites[p];
    assert Born(env, T, id) && Born(env, T, p);
    if n.path != T.sites[id].path {
      HasPath(env, T, p);
      var m := |T.sites[id].path| - |n.path| - 1;
      CutInputs(n.path, k, at, T.sites[id].path, m);
      assert T.sites[id].path != [ToRun(id)];
      var q, l, bt :| StartedFrom(env, T, id, q, l, bt);
      PathParts(n.path, k, at[..m], T.sites[q].path, l, bt);
      assert q == p;
      ChildReached(env, fate, T, i, p, k, at);
      var t := ByKey(n.job.tasks)[k];
      ReachesLoops(env, t, at, n.path + [ToTask(k)], m);
      LoopIsNoLaunch(env, TaskAt(t, bt), n.depth, PathOf(n, k, bt));
    }
  }

  lemma CutInputs(path: Path, k: string, at: seq<nat>, q: Path, m: nat)
    requires path < q < path + [ToTask(k)] + Inputs(at) && m == |q| - |path| - 1
    ensures m < |at| && q == path + [ToTask(k)] + Inputs(at[..m])
  {
    var whole := path + [ToTask(k)] + Inputs(at);
    assert q == whole[..|q|];
    assert Inputs(at)[..m] == Inputs(at[..m]);
  }

  /** A run that lies below another was started by that one or by a run in between. */
  lemma {:induction false} ParentOf(env: Env, fate: Fate, T: Tree, id: int, i: int)
      returns (p: int, k: string, at: seq<nat>)
    requires Sound(env, T) && Right(env, fate, T) && id in T.sites && i in T.sites
    requires T.sites[id].path < T.sites[i].path
    ensures StartedFrom(env, T, i, p, k, at) && (p == id || T.sites[id].path < T.sites[p].path)
    ensures T.sites[p].path < T.sites[i].path
  {
    hide Right, SoundRun, Started, IsChild, Reaches, ByKey;
    assert Born(env, T, i) && Born(env, T, id);
    HasPath(env, T, id);
    assert T.sites[i].path != [ToRun(i)];
    p, k, at :| StartedFrom(env, T, i, p, k, at);
    ParentIsShorter(env, T, i, p, k, at);
    if T.sites[p].path <= T.sites[id].path {
      NoneBetween(env, fate, T, i, p, k, at, id);
    } else {
      PrefixesCompare(T.sites[p].path, T.sites[id].path, T.sites[i].path);
    }
  }

  /** It is at one of the other's places. */
  lemma {:induction false} BelowIsPlace(env: Env, fate: Fate, T: Tree, id: int, i: int)
    requires Sound(env, T) && Right(env, fate, T) && id in T.sites && i in T.sites
    requires T.sites[id].path < T.sites[i].path
    ensures T.sites[i].path in PlacesBelow(env, T.sites[id])
    ensures PlacesBelow(env, T.sites[i]) <= PlacesBelow(env, T.sites[id])
    decreases |T.sites[i].path|
  {
    hide Right, Sound, Started, IsChild, PlacesBelow, Reaches, ByKey;
    var p, k, at := ParentOf(env, fate, T, id, i);
    ChildReached(env, fate, T, i, p, k, at);
    ChildPlaces(env, T.sites[p], k, at, T.sites[i]);
    if p != id {
      BelowIsPlace(env, fate, T, id, p);
    }
  }

  lemma ParentIsShorter(env: Env, T: Tree, i: int, p: int, k: string, at: seq<nat>)
    requires StartedFrom(env, T, i, p, k, at)
    ensures T.sites[p].path < T.sites[i].path
  {
    hide Started, Launches;
  }

  lemma PrefixesCompare(a: Path, b: Path, c: Path)
    requires a <= c && b <= c
    ensures a <= b || b < a
  {
    assert a == c[..|a|] && b == c[..|b|];
  }

  // ------------------------------------------------------------------------ how many there are

  ghost predicate Covered<K>(u: set<Path>, keys: set<K>, at: K -> set<Path>)
  {
    forall p | p in u :: exists k | k in keys :: p in at(k)
  }

  lemma {:induction false} UnionSize<K>(u: set<Path>, keys: set<K>, at: K -> set<Path>, size: K -> nat, c: nat)
    requires Covered(u, keys, at) && forall k | k in keys :: |at(k)| <= size(k) * c
    ensures |u| <= Sum(keys, size) * c
    decreases |keys|
  {
    hide Covered;
    if keys == {} {
      NothingCovered(u, keys, at);
    } else {
      var k :| k in keys;
      SumSplit(keys, size, k);
      CoveredLess(u, keys, at, k);
      UnionSize(u - at(k), keys - {k}, at, size, c);
      SplitProduct(size(k), Sum(keys - {k}, size), c);
    }
  }

  lemma NothingCovered<K>(u: set<Path>, keys: set<K>, at: K -> set<Path>)
    requires Covered(u, keys, at) && keys == {}
    ensures |u| == 0
  {
    assert u == {};
  }

  lemma CoveredLess<K>(u: set<Path>, keys: set<K>, at: K -> set<Path>, k: K)
    requires Covered(u, keys, at) && k in keys
    ensures Covered(u - at(k), keys - {k}, at) && |u| <= |u - at(k)| + |at(k)|
  {
    assert u == (u - at(k)) + (u * at(k)) && u * at(k) <= at(k);
    SubsetSize(u * at(k), at(k));
  }

  lemma SplitProduct(a: nat, b: nat, c: nat)
    ensures (a + b) * c == a * c + b * c
  {
  }

  lemma {:induction false} SumOfEqual<K>(keys: set<K>, f: K -> nat, c: nat)
    requires forall k | k in keys :: f(k) == c
    ensures Sum(keys, f) == |keys| * c
    decreases |keys|
  {
    if keys != {} {
      var k :| k in keys;
      SumSplit(keys, f, k);
      SumOfEqual(keys - {k}, f, c);
      SplitProduct(1, |keys - {k}|, c);
    }
  }

  ghost function IterationPlaces(env: Env, t: Task, depth: nat, path: Path): nat -> set<Path>
  {
    (i: nat) =>
      if t.forEach.Some? && i < |t.forEach.value.inputs|
      then TaskPlaces(env, Iteration(t, i), depth, path + [ToInput(i)])
      else {}
  }

  ghost function KeyPlaces(env: Env, g: Graph, depth: nat, path: Path): string -> set<Path>
  {
    (k: string) => if k in g then TaskPlaces(env, g[k], depth, path + [ToTask(k)]) else {}
  }

  lemma {:induction false} LoopPlacesAtMost(env: Env, t: Task, depth: nat, path: Path, b: nat)
    requires Loops(env, t, path) && !Launches(env, t, depth, path)
    requires forall i: nat | i < |t.forEach.value.inputs| ::
      |TaskPlaces(env, Iteration(t, i), depth, path + [ToInput(i)])| <= Slots(t.forEach.value.task) * PerSlot(b, depth)
    ensures |TaskPlaces(env, t, depth, path)| <= Slots(t) * PerSlot(b, depth)
  {
    hide JobPlaces, Launches, Iteration, PerSlot, Indices;
    var n, each := |t.forEach.value.inputs|, Slots(t.forEach.value.task);
    var size := (i: nat) => each;
    var u, at := TaskPlaces(env, t, depth, path), IterationPlaces(env, t, depth, path);
    forall p | p in u ensures exists i | i in Indices(n) :: p in at(i) {
      var i :| 0 <= i < n && p in TaskPlaces(env, Iteration(t, i), depth, path + [ToInput(i)]);
      InIndices(n, i);
      assert i in Indices(n) && p in at(i);
    }
    forall i | i in Indices(n) ensures i < n {
      InIndices(n, i);
    }
    CountIndices(n);
    UnionSize(u, Indices(n), at, size, PerSlot(b, depth));
    SumOfEqual(Indices(n), size, each);
  }

  lemma {:induction false} TaskPlacesAtMost(env: Env, t: Task, depth: nat, path: Path, b: nat)
    requires SlotsBounded(env, b)
    ensures |TaskPlaces(env, t, depth, path)| <= Slots(t) * PerSlot(b, depth)
    decreases Remaining(depth), 0, 1 + Nesting(t)
  {
    hide SlotsBounded, Cap, Slots, Loops, JobPlaces, PerSlot, Iteration, SubstituteInput;
    if Launches(env, t, depth, path) {
      SlotsOfJob(env, t.runJob.value, b);
      JobPlacesAtMost(env, env.jobs[t.runJob.value], depth + 1, path, b);
      OneSlot(env, t, depth, path, b);
    } else if Loops(env, t, path) {
      LoopHasTask(env, t, path);
      forall i: nat | i < |t.forEach.value.inputs|
        ensures |TaskPlaces(env, Iteration(t, i), depth, path + [ToInput(i)])| <=
                  Slots(t.forEach.value.task) * PerSlot(b, depth)
      {
        TaskPlacesAtMost(env, Iteration(t, i), depth, path + [ToInput(i)], b);
        IterationSlots(t, i);
      }
      LoopPlacesAtMost(env, t, depth, path, b);
    }
  }

  lemma IterationSlots(t: Task, i: nat)
    requires t.forEach.Some? && i < |t.forEach.value.inputs|
    ensures Slots(Iteration(t, i)) == Slots(t.forEach.value.task)
  {
    hide Slots, SubstituteInput;
    SlotsOfIteration(t.forEach.value.task, t.key, t.forEach.value.inputs[i]);
  }

  lemma OneSlot(env: Env, t: Task, depth: nat, path: Path, b: nat)
    requires Launches(env, t, depth, path)
    requires |JobPlaces(env, env.jobs[t.runJob.value], depth + 1, path)| <= Cap(b, depth + 1)
    ensures |TaskPlaces(env, t, depth, path)| <= Slots(t) * PerSlot(b, depth)
  {
    hide JobPlaces, Cap;
  }

  lemma {:induction false} JobPlacesAtMost(env: Env, job: Job, depth: nat, path: Path, b: nat)
    requires SlotsBounded(env, b) && JobSlots(job) <= b
    ensures |JobPlaces(env, job, depth, path)| <= Cap(b, depth)
    decreases Remaining(depth), 1, 0
  {
    hide SlotsBounded, Cap, Slots, TaskPlaces;
    var g := ByKey(job.tasks);
    var u, at := JobPlaces(env, job, depth, path), KeyPlaces(env, g, depth, path);
    forall k | k in g ensures |at(k)| <= SlotAt(g)(k) * PerSlot(b, depth) {
      TaskPlacesAtMost(env, g[k], depth, path + [ToTask(k)], b);
    }
    forall p | p in u ensures exists k | k in g.Keys :: p in at(k) {
      var k :| k in g && p in TaskPlaces(env, g[k], depth, path + [ToTask(k)]);
      assert k in g.Keys && p in at(k);
    }
    UnionSize(u, g.Keys, at, SlotAt(g), PerSlot(b, depth));
    MulMonotone(Sum(g.Keys, SlotAt(g)), b, PerSlot(b, depth));
    CapSteps(b, depth);
  }

  lemma CapSteps(b: nat, d: nat)
    ensures b * PerSlot(b, d) == Cap(b, d)
  {
  }

  /** The runs below a run's place. */
  ghost function Below(T: Tree, id: int): set<int>
    requires id in T.sites
  {
    set i | i in T.sites && T.sites[id].path < T.sites[i].path
  }

  ghost predicate Injective<K>(ids: set<K>, place: K -> Path)
  {
    forall i, j | i in ids && j in ids && place(i) == place(j) :: i == j
  }

  ghost predicate AllAt<K>(ids: set<K>, place: K -> Path, places: set<Path>)
  {
    forall i | i in ids :: place(i) in places
  }

  lemma {:induction false} DifferentPlaces<K>(ids: set<K>, place: K -> Path, places: set<Path>)
    requires AllAt(ids, place, places) && Injective(ids, place)
    ensures |ids| <= |places|
    decreases |ids|
  {
    if ids != {} {
      var i :| i in ids;
      DifferentPlaces(ids - {i}, place, places - {place(i)});
    }
  }

  function PlaceIn(sites: map<int, Node>): int -> Path { (i: int) => if i in sites then sites[i].path else [] }

  lemma PlacesDiffer(env: Env, T: Tree, ids: set<int>)
    requires Sound(env, T) && ids <= T.sites.Keys
    ensures Injective(ids, PlaceIn(T.sites))
  {
    hide SoundRun, Born;
    forall i, j | i in ids && j in ids && PlaceIn(T.sites)(i) == PlaceIn(T.sites)(j) ensures i == j {
      assert i in T.sites && j in T.sites;
    }
  }

  /** With at most b run_job slots in every job, no more than Cap(b, depth) runs ever lie below a
      run, whatever is cancelled and whoever else runs what: b + b^2 + ... + b^5 below a run from the
      top (CapAtTop). */
  lemma {:induction false} TreesAreBounded(env: Env, t: TreeTrace, n: nat, id: int, b: nat)
    requires IsTreeTrace(env, t) && n < |t.trees| && id in t.trees[n].sites
    requires SlotsBounded(env, b) && JobSlots(t.trees[n].sites[id].job) <= b
    ensures |Below(t.trees[n], id)| <= Cap(b, t.trees[n].sites[id].depth)
  {
    hide IsTreeTrace, Right, FateAt, SoundRun, Born, PathsDiffer, JobPlaces, SlotsBounded, JobSlots, Cap;
    var T := t.trees[n];
    var site := T.sites[id];
    RightAt(env, t, n);
    forall i | i in Below(T, id) ensures T.sites[i].path in PlacesBelow(env, site) {
      BelowIsPlace(env, FateAt(T), T, id, i);
    }
    PlacesDiffer(env, T, Below(T, id));
    DifferentPlaces(Below(T, id), PlaceIn(T.sites), PlacesBelow(env, site));
    JobPlacesAtMost(env, site.job, site.depth, site.path, b);
  }
}
