// The runner itself: waves of tasks dispatched and completed in any order, child runs and
// loops, publishing into the run store. Whatever the order, a run ends as NestedRuns says.
module Executor {
  import opened Basics
  import opened JobModel
  import opened Scheduler
  import opened NestedRuns
  import opened RunStore
  import opened ChildIds
  import Decimal

  // ---------------------------------------------------------------- how the store grows

  /** The store's run records and the counter their ids come from. */
  datatype Shelf = Shelf(nextID: int, runs: Records)

  ghost function ShelfOf(store: Store): Shelf
    reads store
  {
    Shelf(store.nextID, store.contents)
  }

  predicate Issued(s: Shelf) { s.nextID >= 0 && forall id | id in s.runs :: id <= s.nextID }

  predicate Finished(r: Record) { r.lifeCycle == Terminated && r.resultState in {Success, Failed} }

  /** From s to s', n runs were started, under fresh ids, and all of them finished; no other
      record changed. */
  predicate Grew(s: Shelf, s': Shelf, n: nat)
  {
    && s'.nextID == s.nextID + n
    && (forall id | id in s.runs :: id in s'.runs && s'.runs[id] == s.runs[id])
    && (forall id | id in s'.runs && id !in s.runs :: s.nextID < id <= s'.nextID && Finished(s'.runs[id]))
  }

  /** The same, but for the record of one run, which its executor publishes. */
  predicate GrewBut(s: Shelf, s': Shelf, own: int, n: nat)
  {
    && own in s.runs && own in s'.runs
    && Grew(s, s'.(runs := s'.runs[own := s.runs[own]]), n)
  }

  lemma GrewTwice(a: Shelf, b: Shelf, c: Shelf, m: nat, n: nat)
    requires Grew(a, b, m) && Grew(b, c, n)
    ensures Grew(a, c, m + n)
  {
  }

  lemma GrewButMore(a: Shelf, b: Shelf, c: Shelf, own: int, m: nat, n: nat)
    requires GrewBut(a, b, own, m) && Grew(b, c, n)
    ensures GrewBut(a, c, own, m + n) && c.runs[own] == b.runs[own]
  {
    assert forall id | id in b.runs :: id in c.runs && c.runs[id] == b.runs[id];
  }

  lemma GrewButPublished(a: Shelf, b: Shelf, own: int, n: nat, r: Record)
    requires GrewBut(a, b, own, n) && r.id == own && !IsCanceled(b.runs, own)
    ensures GrewBut(a, b.(runs := Publish(b.runs, r)), own, n)
  {
    var c := b.(runs := Publish(b.runs, r));
    assert c.runs[own := a.runs[own]] == b.runs[own := a.runs[own]];
  }

  lemma GrewByChild(a: Shelf, b: Shelf, c: Shelf, r: Record, n: nat)
    requires b == Shelf(a.nextID + 1, a.runs[a.nextID + 1 := r]) && Issued(a)
    requires GrewBut(b, c, a.nextID + 1, n) && Finished(c.runs[a.nextID + 1])
    ensures Grew(a, c, 1 + n)
  {
    var own := a.nextID + 1;
    var d := c.(runs := c.runs[own := r]);
    assert Grew(b, d, n);
    forall id | id in a.runs ensures id in c.runs && c.runs[id] == a.runs[id] {
      assert id in b.runs && id != own;
    }
    forall id | id in c.runs && id !in a.runs ensures a.nextID < id <= c.nextID && Finished(c.runs[id]) {
      if id != own { assert id in d.runs && id !in b.runs; }
    }
  }

  /** The record of a run that ended as given. */
  predicate EndedAs(r: Record, e: Ending)
  {
    && r.lifeCycle == Terminated && r.resultState == e.state && r.stateMessage == e.message
    && StripAll(r.tasks) == e.tasks && r.stdout == e.stdout && r.stderr == e.stderr
  }

  // ------------------------------------------------------------------------ one wave

  ghost predicate Right(g: Graph, work: Work, results: Results)
  {
    forall k | k in results :: k in g && !Stuck(g, k) && Strip(results[k]) == Final(g, work, k)
  }

  lemma RightMeansSignals(g: Graph, work: Work, results: Results)
    requires Right(g, work, results)
    ensures Signals(g, work, results)
  {
    hide Final, Stuck;
  }

  lemma RightMore(g: Graph, work: Work, results: Results, k: string, tr: TaskRun)
    requires Right(g, work, results) && k in g && !Stuck(g, k) && Strip(tr) == Final(g, work, k)
    ensures Right(g, work, results[k := tr])
  {
    hide Final, Stuck, Strip;
  }

  /** How many child runs the completed tasks among the keys started. */
  ghost function StartedBy(env: Env, g: Graph, depth: nat, path: Path, keys: set<string>): nat
  {
    Sum(Dispatched(g, WorkAt(env, depth, path)) * keys, StartedAt(env, g, depth, path))
  }

  lemma StartedByOneMore(env: Env, g: Graph, depth: nat, path: Path, keys: set<string>, k: string)
    requires k !in keys
    ensures StartedBy(env, g, depth, path, keys + {k}) == StartedBy(env, g, depth, path, keys) +
      if k in Dispatched(g, WorkAt(env, depth, path)) then StartedAt(env, g, depth, path)(k) else 0
  {
    hide Dispatched, StartedAt;
    var all := Dispatched(g, WorkAt(env, depth, path));
    if k in all {
      assert all * (keys + {k}) == all * keys + {k};
      SumAdd(all * keys, StartedAt(env, g, depth, path), k);
    } else {
      assert all * (keys + {k}) == all * keys;
    }
  }

  /** The state of one wave: what is decided so far is right, and the store grew by the child
      runs of the dispatched tasks that completed. */
  ghost predicate WaveState(env: Env, g: Graph, depth: nat, path: Path, before: Shelf, now: Shelf, results: Results)
  {
    && Right(g, WorkAt(env, depth, path), results)
    && Grew(before, now, StartedBy(env, g, depth, path, results.Keys))
  }

  /** Deciding one more ready task, without the engine. */
  lemma {:induction false} DecideHere(env: Env, g: Graph, depth: nat, path: Path, before: Shelf, now: Shelf,
                                      results: Results, k: string)
    requires WaveState(env, g, depth, path, before, now, results)
    requires k in g && k !in results && DepsSatisfied(g[k], results)
    requires !ShouldRun(g[k], results) || g[k].condition.Some?
    ensures var tr := if !ShouldRun(g[k], results) then SkippedRun(g[k].key) else ConditionRun(g[k]);
            WaveState(env, g, depth, path, before, now, results[k := tr])
  {
    hide Final, Stuck, ShouldRun, StartedBy, Grew, Right, DepsSatisfied, Executes, EvalCondition;
    var work := WorkAt(env, depth, path);
    RightMeansSignals(g, work, results);
    DecidesRight(g, work, results, k);
    var tr := if !ShouldRun(g[k], results) then SkippedRun(g[k].key) else ConditionRun(g[k]);
    StripPlain(tr);
    RightMore(g, work, results, k, tr);
    StartedByOneMore(env, g, depth, path, results.Keys, k);
    assert results[k := tr].Keys == results.Keys + {k};
  }

  /** Completing one dispatched task with the result the meaning gives it. */
  lemma {:induction false} CompleteHere(env: Env, g: Graph, depth: nat, path: Path, before: Shelf, now: Shelf,
                                        later: Shelf, results: Results, k: string, tr: TaskRun)
    requires WaveState(env, g, depth, path, before, now, results)
    requires k in g && g[k].key == k && k !in results && DepsSatisfied(g[k], results)
    requires ShouldRun(g[k], results) && g[k].condition.None?
    requires Strip(tr) == TaskMeaning(env, g[k], depth, path + [ToTask(k)])
    requires Grew(now, later, StartedByTask(env, g[k], depth, path + [ToTask(k)]))
    ensures WaveState(env, g, depth, path, before, later, results[k := tr])
  {
    hide Final, Stuck, ShouldRun, StartedBy, Grew, Right, DepsSatisfied, Executes, EvalCondition,
      TaskMeaning, StartedByTask, Strip;
    var work := WorkAt(env, depth, path);
    RightMeansSignals(g, work, results);
    DecidesRight(g, work, results, k);
    RightMore(g, work, results, k, tr);
    StartedByOneMore(env, g, depth, path, results.Keys, k);
    assert results[k := tr].Keys == results.Keys + {k};
    GrewTwice(before, now, later, StartedBy(env, g, depth, path, results.Keys), StartedAt(env, g, depth, path)(k));
  }

  // ------------------------------------------------------------------------ waves

  /** The tasks whose dependencies all have results, found in any order. */
  method ReadyTasks(remaining: Graph, results: Results) returns (ready: set<string>)
    ensures ready <= remaining.Keys
    ensures forall k | k in remaining :: k in ready <==> DepsSatisfied(remaining[k], results)
  {
    ready := {};
    var todo := remaining.Keys;
    while todo != {}
      invariant todo <= remaining.Keys && ready <= remaining.Keys
      invariant forall k | k in remaining && k !in todo :: k in ready <==> DepsSatisfied(remaining[k], results)
      invariant ready !! todo
    {
      var k := Pick(todo);
      todo := todo - {k};
      if DepsSatisfied(remaining[k], results) {
        ready := ready + {k};
      }
    }
  }

  ghost function SkipAll(results: Results, keys: set<string>): Results
  {
    results + map k | k in keys :: SkippedRun(k)
  }

  /** The stuck tasks of a run are skipped, in any order. */
  method SkipRest(remaining: Graph, results: Results) returns (results': Results)
    requires Keyed(remaining) && remaining.Keys !! results.Keys
    ensures results' == SkipAll(results, remaining.Keys)
  {
    hide SkipAll, SkippedRun;
    results' := results;
    var todo := remaining.Keys;
    SkipOneMore(results, {}, "");
    assert remaining.Keys - todo == {};
    while todo != {}
      invariant todo <= remaining.Keys && results' == SkipAll(results, remaining.Keys - todo)
    {
      var k := Pick(todo);
      SkipOneMore(results, remaining.Keys - todo, k);
      assert remaining.Keys - (todo - {k}) == remaining.Keys - todo + {k};
      todo := todo - {k};
      results' := results'[remaining[k].key := SkippedRun(remaining[k].key)];
    }
    assert remaining.Keys - {} == remaining.Keys;
  }

  lemma SkipOneMore(results: Results, keys: set<string>, k: string)
    ensures SkipAll(results, keys)[k := SkippedRun(k)] == SkipAll(results, keys + {k})
    ensures SkipAll(results, {}) == results
  {
    hide SkippedRun;
  }

  /** Where a wave stands: which of its ready tasks still wait, which are in flight, and that the
      rest are decided; nothing decided before the wave changes. */
  ghost predicate Underway(g: Graph, ready: set<string>, remaining0: Graph, results0: Results,
                           todo: set<string>, inflight: set<string>, remaining: Graph, results: Results)
  {
    && ready <= remaining0.Keys && remaining0.Keys !! results0.Keys
    && (forall k | k in remaining0 :: k in g && remaining0[k] == g[k])
    && (forall k | k in ready :: DepsSatisfied(g[k], results0))
    && todo <= ready && inflight <= ready && todo !! inflight
    && remaining == remaining0 - (ready - todo)
    && results.Keys == results0.Keys + (ready - todo - inflight)
    && (forall k | k in results0 :: results[k] == results0[k])
    && (forall k | k in inflight :: ShouldRun(g[k], results0) && g[k].condition.None?)
  }

  lemma Waiting(g: Graph, ready: set<string>, remaining0: Graph, results0: Results,
                todo: set<string>, inflight: set<string>, remaining: Graph, results: Results, k: string)
    requires Underway(g, ready, remaining0, results0, todo, inflight, remaining, results) && k in todo + inflight
    ensures k in g && k !in results && DepsSatisfied(g[k], results)
    ensures k in todo ==> k in remaining && remaining[k] == g[k]
    ensures k in inflight ==> ShouldRun(g[k], results) && g[k].condition.None?
  {
    hide ShouldRun, DepsSatisfied;
    DepsStay(g[k], results0, results);
  }

  lemma Decided(g: Graph, ready: set<string>, remaining0: Graph, results0: Results,
                todo: set<string>, inflight: set<string>, remaining: Graph, results: Results, k: string, tr: TaskRun)
    requires Underway(g, ready, remaining0, results0, todo, inflight, remaining, results) && k in todo + inflight
    ensures Underway(g, ready, remaining0, results0, todo - {k}, inflight - {k}, remaining - {k}, results[k := tr])
    ensures k in inflight ==> remaining - {k} == remaining
  {
    hide ShouldRun, DepsSatisfied;
  }

  lemma Started(g: Graph, ready: set<string>, remaining0: Graph, results0: Results,
                todo: set<string>, inflight: set<string>, remaining: Graph, results: Results, k: string)
    requires Underway(g, ready, remaining0, results0, todo, inflight, remaining, results) && k in todo
    requires k in g && DepsSatisfied(g[k], results) && ShouldRun(g[k], results) && g[k].condition.None?
    ensures Underway(g, ready, remaining0, results0, todo - {k}, inflight + {k}, remaining - {k}, results)
  {
    hide ShouldRun, DepsSatisfied;
    DepsStay(g[k], results0, results);
  }

  /** One wave: its tasks are dispatched in any order, and each dispatched task completes at any
      later moment of the wave, before or after other tasks are dispatched. */
  method RunWave(env: Env, store: Store, g: Graph, ready: set<string>, remaining: Graph, results: Results,
                 depth: nat, path: Path, ghost before: Shelf)
      returns (remaining': Graph, results': Results)
    requires store.Valid() && Issued(ShelfOf(store)) && Keyed(g)
    requires Underway(g, ready, remaining, results, ready, {}, remaining, results)
    requires WaveState(env, g, depth, path, before, ShelfOf(store), results)
    modifies store, store.Repr
    ensures store.Valid() && Issued(ShelfOf(store)) && fresh(store.Repr - old(store.Repr))
    ensures remaining' == remaining - ready && results'.Keys == results.Keys + ready
    ensures WaveState(env, g, depth, path, before, ShelfOf(store), results')
    decreases Remaining(depth), 1, 0
  {
    hide WaveState, ShouldRun, DepsSatisfied, TaskMeaning, StartedByTask, Grew, Store.Valid, Issued, Underway;
    remaining', results' := remaining, results;
    var todo, inflight := ready, {};
    while todo != {} || inflight != {}
      invariant store.Valid() && Issued(ShelfOf(store)) && fresh(store.Repr - old(store.Repr))
      invariant Underway(g, ready, remaining, results, todo, inflight, remaining', results')
      invariant WaveState(env, g, depth, path, before, ShelfOf(store), results')
      decreases todo, inflight
    {
      var dispatch := *;
      if todo != {} && (inflight == {} || dispatch) {
        var k := Pick(todo);
        Waiting(g, ready, remaining, results, todo, inflight, remaining', results', k);
        var t := remaining'[k];
        var run := DecideShouldRun(t, results');
        if !run || t.condition.Some? {
          var tr := if !run then SkippedRun(t.key) else ConditionRun(t);
          DecideHere(env, g, depth, path, before, ShelfOf(store), results', k);
          Decided(g, ready, remaining, results, todo, inflight, remaining', results', k, tr);
          assert inflight - {k} == inflight;
          results' := results'[k := tr];
        } else {
          Started(g, ready, remaining, results, todo, inflight, remaining', results', k);
          inflight := inflight + {k};
        }
        todo, remaining' := todo - {k}, remaining' - {k};
      } else {
        var k := Pick(inflight);
        Waiting(g, ready, remaining, results, todo, inflight, remaining', results', k);
        ghost var now := ShelfOf(store);
        var tr := RunTask(env, store, g[k], depth, path + [ToTask(k)]);
        CompleteHere(env, g, depth, path, before, now, ShelfOf(store), results', k, tr);
        Decided(g, ready, remaining, results, todo, inflight, remaining', results', k, tr);
        assert todo - {k} == todo;
        inflight, results' := inflight - {k}, results'[k := tr];
      }
    }
    WaveOver(g, ready, remaining, results, remaining', results');
  }

  lemma WaveOver(g: Graph, ready: set<string>, remaining0: Graph, results0: Results, remaining: Graph, results: Results)
    requires Underway(g, ready, remaining0, results0, {}, {}, remaining, results)
    ensures remaining == remaining0 - ready && results.Keys == results0.Keys + ready
  {
    hide ShouldRun, DepsSatisfied;
    assert ready - {} == ready && ready - {} - {} == ready;
  }

  lemma DepsStay(t: Task, results: Results, later: Results)
    requires DepsSatisfied(t, results)
    requires forall k | k in results :: k in later && later[k] == results[k]
    ensures DepsSatisfied(t, later) && ShouldRun(t, later) == ShouldRun(t, results)
  {
    ShouldRunIsLocal(t, results, later);
  }

  /** What the finished waves leave: every task's result is its meaning, and the store grew by
      exactly the child runs that means. */
  ghost predicate AllDecided(env: Env, g: Graph, depth: nat, path: Path, before: Shelf, now: Shelf, results: Results)
  {
    var work := WorkAt(env, depth, path);
    && results.Keys == g.Keys
    && (forall k | k in g :: Strip(results[k]) == Final(g, work, k))
    && Grew(before, now, Sum(Dispatched(g, work), StartedAt(env, g, depth, path)))
  }

  lemma {:induction false} StuckAreSkipped(g: Graph, work: Work, results: Results, k: string)
    requires Right(g, work, results) && k in g
    requires forall k | k in g && k !in results :: !DepsSatisfied(g[k], results)
    ensures k !in results ==> k !in Dispatched(g, work) && Strip(SkippedRun(k)) == Final(g, work, k)
  {
    hide WorkAt, Strip;
    RightMeansSignals(g, work, results);
    LeftOversAreStuck(g, work, results);
    StripPlain(SkippedRun(k));
  }

  lemma {:induction false} WavesDone(env: Env, g: Graph, depth: nat, path: Path, before: Shelf, now: Shelf,
      results: Results)
    requires WaveState(env, g, depth, path, before, now, results)
    requires forall k | k in g && k !in results :: !DepsSatisfied(g[k], results)
    ensures AllDecided(env, g, depth, path, before, now, SkipAll(results, g.Keys - results.Keys))
  {
    hide Grew, StartedAt, WorkAt, Strip, Final, Dispatched, DepsSatisfied, Stuck, SkippedRun;
    var work := WorkAt(env, depth, path);
    forall k | k in g && k !in results
      ensures k !in Dispatched(g, work) && Strip(SkippedRun(k)) == Final(g, work, k)
    {
      StuckAreSkipped(g, work, results, k);
    }
    DispatchedAreDefined(g, work);
    assert Dispatched(g, work) * results.Keys == Dispatched(g, work);
  }

  lemma DispatchedAreDefined(g: Graph, work: Work)
    ensures Dispatched(g, work) <= g.Keys
  {
  }

  /** The executor's own record is not touched by its waves. */
  lemma OwnRecordStays(env: Env, g: Graph, depth: nat, path: Path, before: Shelf, now: Shelf, results: Results, id: int)
    requires WaveState(env, g, depth, path, before, now, results) && id in before.runs
    ensures id in now.runs && now.runs[id] == before.runs[id]
  {
    hide Right, StartedBy;
  }

  /** Between waves: every task of the job is either still waiting or decided. */
  ghost predicate Between(g: Graph, remaining: Graph, results: Results)
  {
    && results.Keys <= g.Keys && remaining.Keys == g.Keys - results.Keys
    && (forall k | k in remaining :: remaining[k] == g[k])
  }

  lemma WaveBegins(g: Graph, ready: set<string>, remaining: Graph, results: Results)
    requires Between(g, remaining, results) && ready <= remaining.Keys
    requires forall k | k in ready :: DepsSatisfied(remaining[k], results)
    ensures Underway(g, ready, remaining, results, ready, {}, remaining, results)
  {
    hide DepsSatisfied;
    assert remaining - (ready - ready) == remaining;
  }

  lemma FewerLeft(all: set<string>, ready: set<string>)
    requires ready <= all && ready != {}
    ensures all - ready < all && |all - ready| < |all|
  {
    var k :| k in ready;
    assert k in all && k !in all - ready;
    SubsetSize(all - ready, all);
  }

  lemma WaveEnds(g: Graph, ready: set<string>, remaining: Graph, results: Results, remaining': Graph, results': Results)
    requires Between(g, remaining, results) && ready <= remaining.Keys && ready != {}
    requires remaining' == remaining - ready && results'.Keys == results.Keys + ready
    ensures Between(g, remaining', results')
    ensures remaining'.Keys == remaining.Keys - ready
  {
  }

  lemma NothingReady(g: Graph, remaining: Graph, results: Results, k: string)
    requires Between(g, remaining, results)
    requires forall k | k in remaining :: !DepsSatisfied(remaining[k], results)
    ensures remaining.Keys == g.Keys - results.Keys
    ensures k in g && k !in results ==> !DepsSatisfied(g[k], results)
  {
    hide DepsSatisfied;
  }

  /** Finds the ready tasks and runs them as a wave; reports when there are none. */
  method NextWave(env: Env, store: Store, g: Graph, remaining: Graph, results: Results, depth: nat, path: Path,
                  ghost before: Shelf)
      returns (stuck: bool, remaining': Graph, results': Results)
    requires store.Valid() && Issued(ShelfOf(store)) && Keyed(g) && Between(g, remaining, results)
    requires WaveState(env, g, depth, path, before, ShelfOf(store), results)
    modifies store, store.Repr
    ensures store.Valid() && Issued(ShelfOf(store)) && fresh(store.Repr - old(store.Repr))
    ensures WaveState(env, g, depth, path, before, ShelfOf(store), results')
    ensures Between(g, remaining', results')
    ensures stuck ==> ShelfOf(store) == old(ShelfOf(store)) && results' == results && remaining' == remaining
    ensures stuck ==> forall k | k in remaining :: !DepsSatisfied(remaining[k], results)
    ensures !stuck ==> remaining'.Keys < remaining.Keys && |remaining'.Keys| < |remaining.Keys|
    ensures !stuck ==> forall k | k in remaining :: k !in remaining' <==> DepsSatisfied(remaining[k], results)
    decreases Remaining(depth), 1, 1
  {
    hide TaskMeaning, StartedByTask, Store.Valid, Issued, WaveState, Between, DepsSatisfied, Underway;
    var ready := ReadyTasks(remaining, results);
    if ready == {} {
      return true, remaining, results;
    }
    WaveBegins(g, ready, remaining, results);
    stuck := false;
    remaining', results' := RunWave(env, store, g, ready, remaining, results, depth, path, before);
    WaveEnds(g, ready, remaining, results, remaining', results');
    FewerLeft(remaining.Keys, ready);
  }

  /** The waves of a graph: each decides the tasks that all waves before it made ready, none is empty,
      and together they decide every task that is not stuck. */
  ghost predicate WavesOf(g: Graph, waves: seq<set<string>>)
  {
    Levels(g, waves) && Level(g, |waves|) == set k | k in g && !Stuck(g, k)
  }

  ghost predicate Levels(g: Graph, waves: seq<set<string>>)
  {
    forall n | 0 <= n < |waves| :: waves[n] == Level(g, n + 1) - Level(g, n) && waves[n] != {}
  }

  /** The next wave is the next level. */
  lemma {:induction false} NextLevel(g: Graph, remaining: Graph, results: Results, wave: set<string>, n: nat)
    requires Between(g, remaining, results) && results.Keys == Level(g, n)
    requires wave <= remaining.Keys && forall k | k in remaining :: k in wave <==> DepsSatisfied(remaining[k], results)
    ensures wave == Level(g, n + 1) - Level(g, n) && results.Keys + wave == Level(g, n + 1)
  {
    forall k | k in g && Grounded(g, k, n) ensures Grounded(g, k, n + 1) {
      GroundedMore(g, k, n, n + 1);
    }
    forall k | k in remaining ensures k in wave <==> Grounded(g, k, n + 1) {
      assert DepsSatisfied(remaining[k], results) <==> forall d | d in DepKeys(g[k]) :: d in Level(g, n);
      forall d | d in DepKeys(g[k]) ensures d in Level(g, n) <==> Grounded(g, d, n) {
      }
    }
  }

  lemma {:induction false} LastLevel(g: Graph, n: nat)
    requires Level(g, n + 1) == Level(g, n)
    ensures Level(g, n) == set k | k in g && !Stuck(g, k)
  {
    forall k | k in g ensures k in Level(g, n) <==> !Stuck(g, k) {
      LevelsRepeat(g, n, n + |g|);
      if Grounded(g, k, n) {
        EnoughWaves(g, k, n);
      } else if Grounded(g, k, |g|) {
        GroundedMore(g, k, |g|, n + |g|);
        assert k in Level(g, n + |g|);
      }
    }
  }

  /** The wave loop. A cancelled run stops before its first wave; any other run decides every
      task, in the waves of its graph, which are at most as many as there are keys. */
  method RunWaves(env: Env, store: Store, runID: int, g: Graph, depth: nat, path: Path)
      returns (stopped: bool, results: Results, ghost waves: seq<set<string>>)
    requires store.Valid() && Issued(ShelfOf(store)) && Keyed(g) && runID in store.contents
    modifies store, store.Repr
    ensures store.Valid() && Issued(ShelfOf(store)) && fresh(store.Repr - old(store.Repr))
    ensures IsCanceled(old(store.contents), runID) ==> ShelfOf(store) == old(ShelfOf(store)) && waves == []
    ensures stopped ==> IsCanceled(old(store.contents), runID)
    ensures !stopped ==> AllDecided(env, g, depth, path, old(ShelfOf(store)), ShelfOf(store), results)
    ensures !stopped && !IsCanceled(old(store.contents), runID) ==> WavesOf(g, waves) && |waves| <= |g|
    decreases Remaining(depth), 1, 2
  {
    hide TaskMeaning, StartedByTask, Store.Valid, Issued, WaveState, AllDecided, SkipAll, Between, DepsSatisfied,
      LevelsSoFar, WavesOf;
    ghost var before := ShelfOf(store);
    var remaining := g;
    results, stopped, waves := map[], false, [];
    NothingYet(env, g, depth, path, before);
    while remaining.Keys != {}
      invariant store.Valid() && Issued(ShelfOf(store)) && fresh(store.Repr - old(store.Repr))
      invariant IsCanceled(before.runs, runID) ==> ShelfOf(store) == before && waves == []
      invariant runID in store.contents && store.contents[runID] == before.runs[runID]
      invariant Between(g, remaining, results)
      invariant WaveState(env, g, depth, path, before, ShelfOf(store), results)
      invariant LevelsSoFar(g, waves, results) && |waves| + |remaining.Keys| <= |g|
      decreases remaining.Keys
    {
      stopped := AskedToStop(store, runID);
      if stopped {
        return;
      }
      var none, remaining', results' := NextWave(env, store, g, remaining, results, depth, path, before);
      if none {
        break;
      }
      WaveIsLevel(g, remaining, results, remaining', results', waves);
      waves := waves + [remaining.Keys - remaining'.Keys];
      remaining, results := remaining', results';
      OwnRecordStays(env, g, depth, path, before, ShelfOf(store), results, runID);
    }
    NoMoreWaves(g, remaining, results, waves);
    results := SkipStuck(env, g, remaining, results, depth, path, before, ShelfOf(store));
  }

  /** Looks the run up, as each wave does before it begins. */
  method AskedToStop(store: Store, runID: int) returns (stop: bool)
    requires store.Valid()
    ensures stop <==> IsCanceled(store.contents, runID)
  {
    hide Store.Valid;
    var snapshot := store.GetRun(runID);
    stop := snapshot != null && snapshot.resultState == Canceled;
    assert stop ==> snapshot.Value().resultState == Canceled;
  }

  ghost predicate LevelsSoFar(g: Graph, waves: seq<set<string>>, results: Results)
  {
    Levels(g, waves) && results.Keys == Level(g, |waves|)
  }

  lemma WaveIsLevel(g: Graph, remaining: Graph, results: Results, remaining': Graph, results': Results,
      waves: seq<set<string>>)
    requires Between(g, remaining, results) && LevelsSoFar(g, waves, results) && Between(g, remaining', results')
    requires remaining'.Keys < remaining.Keys
    requires forall k | k in remaining :: k !in remaining' <==> DepsSatisfied(remaining[k], results)
    ensures LevelsSoFar(g, waves + [remaining.Keys - remaining'.Keys], results')
  {
    hide DepsSatisfied, Level;
    NextLevel(g, remaining, results, remaining.Keys - remaining'.Keys, |waves|);
    assert results'.Keys == results.Keys + (remaining.Keys - remaining'.Keys);
  }

  lemma NoMoreWaves(g: Graph, remaining: Graph, results: Results, waves: seq<set<string>>)
    requires Between(g, remaining, results) && LevelsSoFar(g, waves, results)
    requires forall k | k in remaining :: !DepsSatisfied(remaining[k], results)
    ensures WavesOf(g, waves)
  {
    hide DepsSatisfied, Level, Stuck;
    NextLevel(g, remaining, results, {}, |waves|);
    LastLevel(g, |waves|);
  }

  method SkipStuck(env: Env, g: Graph, remaining: Graph, results: Results, depth: nat, path: Path,
                   ghost before: Shelf, ghost now: Shelf)
      returns (results': Results)
    requires Keyed(g) && Between(g, remaining, results) && WaveState(env, g, depth, path, before, now, results)
    requires forall k | k in remaining :: !DepsSatisfied(remaining[k], results)
    ensures AllDecided(env, g, depth, path, before, now, results')
  {
    hide WaveState, AllDecided, SkipAll, DepsSatisfied;
    forall k | k in g && k !in results ensures !DepsSatisfied(g[k], results) {
      NothingReady(g, remaining, results, k);
    }
    WavesDone(env, g, depth, path, before, now, results);
    results' := SkipRest(remaining, results);
  }

  lemma NothingYet(env: Env, g: Graph, depth: nat, path: Path, before: Shelf)
    ensures WaveState(env, g, depth, path, before, before, map[]) && Between(g, g, map[])
    ensures LevelsSoFar(g, [], map[])
  {
    assert StartedBy(env, g, depth, path, {}) == 0;
  }

  // ------------------------------------------------------------------- one task

  /** One dispatched task: secrets first, then dbt, a child run, a loop, or the engine. */
  method RunTask(env: Env, store: Store, t: Task, depth: nat, path: Path) returns (tr: TaskRun)
    requires store.Valid() && Issued(ShelfOf(store))
    modifies store, store.Repr
    ensures store.Valid() && Issued(ShelfOf(store)) && fresh(store.Repr - old(store.Repr))
    ensures Strip(tr) == TaskMeaning(env, t, depth, path)
    ensures Grew(old(ShelfOf(store)), ShelfOf(store), StartedByTask(env, t, depth, path))
    decreases Remaining(depth), 0, 2 * Nesting(t) + 1
  {
    hide Store.Valid, Issued, LoopRun, RunMeaning, RunsStarted, StartedByChild, StartedByLoop;
    var secretError := env.secretError(path, t);
    if secretError.Some? {
      tr := FailedRun(t.key, secretError.value);
      StripPlain(tr);
    } else if t.isDbt {
      tr := DbtRun(t.key, env.dbt(path, t));
      StripPlain(tr);
    } else if t.runJob.Some? {
      tr := RunJobTask(env, store, t.key, t.runJob.value, depth, path);
      ChildCount(env, t, depth, path);
    } else if t.forEach.Some? {
      tr := RunForEachTask(env, store, t.key, t.forEach.value, depth, path);
      LoopMeaning(env, t, depth, path);
    } else {
      tr := LeafRun(env, t, path);
      StripPlain(tr);
    }
  }

  ghost function StartedByChild(env: Env, jobID: int, depth: nat, path: Path): nat
  {
    if jobID !in env.jobs || depth + 1 > MAX_RUN_JOB_DEPTH then 0
    else 1 + RunsStarted(env, env.jobs[jobID], depth + 1, path)
  }

  lemma ChildCount(env: Env, t: Task, depth: nat, path: Path)
    requires env.secretError(path, t).None? && !t.isDbt && t.runJob.Some?
    ensures StartedByTask(env, t, depth, path) == StartedByChild(env, t.runJob.value, depth, path)
  {
    hide RunsStarted;
  }

  /** Runs the named job and reports its run's ending, with the run's id. */
  method RunJobTask(env: Env, store: Store, key: string, jobID: int, depth: nat, path: Path) returns (tr: TaskRun)
    requires store.Valid() && Issued(ShelfOf(store))
    modifies store, store.Repr
    ensures store.Valid() && Issued(ShelfOf(store)) && fresh(store.Repr - old(store.Repr))
    ensures Strip(tr) == ChildMeaning(env, key, jobID, depth, path)
    ensures Grew(old(ShelfOf(store)), ShelfOf(store), StartedByChild(env, jobID, depth, path))
    ensures tr.childRunID != 0 <==> jobID in env.jobs && depth + 1 <= MAX_RUN_JOB_DEPTH
    ensures tr.childRunID != 0 ==>
      && tr.childRunID !in old(store.contents) && tr.childRunID in store.contents
      && ReportsRun(tr, store.contents[tr.childRunID])
    decreases Remaining(depth), 0, 0
  {
    hide RunMeaning, RunsStarted, Grew;
    ghost var before := ShelfOf(store);
    if jobID !in env.jobs {
      tr := MissingJob(key, jobID);
      StripPlain(tr);
      GrewNot(before);
    } else if depth + 1 > MAX_RUN_JOB_DEPTH {
      tr := NestedTooDeep(key);
      StripPlain(tr);
      GrewNot(before);
    } else {
      tr := RunChild(env, store, key, env.jobs[jobID], depth + 1, path);
    }
  }

  lemma GrewNot(s: Shelf)
    ensures Grew(s, s, 0)
  {
  }

  method RunChild(env: Env, store: Store, key: string, child: Job, depth: nat, path: Path) returns (tr: TaskRun)
    requires store.Valid() && Issued(ShelfOf(store)) && depth <= MAX_RUN_JOB_DEPTH
    modifies store, store.Repr
    ensures store.Valid() && Issued(ShelfOf(store)) && fresh(store.Repr - old(store.Repr))
    ensures Strip(tr) == ChildRun(key, RunMeaning(env, child, depth, path))
    ensures Grew(old(ShelfOf(store)), ShelfOf(store), 1 + RunsStarted(env, child, depth, path))
    ensures tr.childRunID > 0 && tr.childRunID !in old(store.contents) && tr.childRunID in store.contents
    ensures ReportsRun(tr, store.contents[tr.childRunID])
    decreases Remaining(depth), 3, 0
  {
    hide RunMeaning, RunsStarted, Store.Valid, Grew, GrewBut;
    ghost var before := ShelfOf(store);
    var run := store.NewRun(child.id);
    ghost var started := ShelfOf(store);
    NewIsIssued(before, started, run.Value());
    var id := run.id;
    var _ := ExecuteRun(env, store, child, run, depth, path);
    EndsOneWay(env, child, depth, path);
    GrewByChild(before, started, ShelfOf(store), started.runs[id], RunsStarted(env, child, depth, path));
    var done := store.GetRun(id);
    tr := Bare(key, done.resultState).(childRunID := id, stdout := done.stdout, stderr := done.stderr);
    StripPlain(tr.(childRunID := 0));
    assert Strip(tr) == Strip(tr.(childRunID := 0));
  }

  lemma EndsOneWay(env: Env, job: Job, depth: nat, path: Path)
    ensures RunMeaning(env, job, depth, path).state in {Success, Failed}
  {
    hide FinalResults;
  }

  lemma NewIsIssued(before: Shelf, after: Shelf, r: Record)
    requires Issued(before) && after == Shelf(before.nextID + 1, before.runs[before.nextID + 1 := r])
    ensures Issued(after) && before.nextID + 1 !in before.runs
  {
  }

  // -------------------------------------------------------------------------- loops

  /** The iterations' results, as they mean. */
  ghost function Iterations(env: Env, loop: ForEach, key: string, depth: nat, path: Path): seq<TaskRun>
  {
    seq(|loop.inputs|, i requires 0 <= i < |loop.inputs| => IterationMeaning(env, loop, key, depth, path, i))
  }

  ghost function IterationMeaning(env: Env, loop: ForEach, key: string, depth: nat, path: Path, i: nat): TaskRun
    requires i < |loop.inputs|
  {
    TaskMeaning(env, SubstituteInput(loop.task, key, loop.inputs[i]), depth, path + [ToInput(i)])
  }

  ghost function StartedByLoop(env: Env, loop: ForEach, key: string, depth: nat, path: Path): nat
  {
    Sum<nat>(Indices(|loop.inputs|), StartedByIteration(env, loop, key, depth, path))
  }

  lemma LoopMeaning(env: Env, t: Task, depth: nat, path: Path)
    requires env.secretError(path, t).None? && !t.isDbt && t.runJob.None? && t.forEach.Some?
    ensures TaskMeaning(env, t, depth, path) == LoopRun(t.key, Iterations(env, t.forEach.value, t.key, depth, path))
    ensures StartedByTask(env, t, depth, path) == StartedByLoop(env, t.forEach.value, t.key, depth, path)
  {
    hide LoopRun;
    var loop := t.forEach.value;
    SumOverIndices(|loop.inputs|, StartedByIteration(env, loop, t.key, depth, path));
    assert TaskMeaning(env, t, depth, path) == LoopRun(t.key, seq(|loop.inputs|, i requires 0 <= i < |loop.inputs| =>
        TaskMeaning(env, SubstituteInput(loop.task, t.key, loop.inputs[i]), depth, path + [ToInput(i)])));
    assert Iterations(env, loop, t.key, depth, path) == seq(|loop.inputs|, i requires 0 <= i < |loop.inputs| =>
        TaskMeaning(env, SubstituteInput(loop.task, t.key, loop.inputs[i]), depth, path + [ToInput(i)]));
  }

  /** Which iterations of a loop have completed, and that their results are right. */
  ghost predicate LoopState(env: Env, loop: ForEach, key: string, depth: nat, path: Path,
                            before: Shelf, now: Shelf, done: set<nat>, results: seq<TaskRun>)
  {
    && |results| == |loop.inputs|
    && (forall i | i in done :: i < |results| && Strip(results[i]) == IterationMeaning(env, loop, key, depth, path, i))
    && Grew(before, now, Sum<nat>(done, StartedByIteration(env, loop, key, depth, path)))
  }

  lemma LoopBegins(env: Env, loop: ForEach, key: string, depth: nat, path: Path, before: Shelf, results: seq<TaskRun>)
    requires |results| == |loop.inputs|
    ensures LoopState(env, loop, key, depth, path, before, before, {}, results)
  {
  }

  lemma {:induction false} IterationDone(env: Env, loop: ForEach, key: string, depth: nat, path: Path,
      before: Shelf, now: Shelf, later: Shelf, done: set<nat>, results: seq<TaskRun>, i: nat, tr: TaskRun)
    requires LoopState(env, loop, key, depth, path, before, now, done, results)
    requires i < |loop.inputs| && i !in done && Strip(tr) == IterationMeaning(env, loop, key, depth, path, i)
    requires Grew(now, later, StartedByIteration(env, loop, key, depth, path)(i))
    ensures LoopState(env, loop, key, depth, path, before, later, done + {i}, results[i := tr])
  {
    hide IterationMeaning, Strip, StartedByIteration, Grew;
    var f := StartedByIteration(env, loop, key, depth, path);
    SumAdd<nat>(done, f, i);
    GrewTwice(before, now, later, Sum<nat>(done, f), f(i));
  }

  lemma {:induction false} LoopDone(env: Env, loop: ForEach, key: string, depth: nat, path: Path,
                                    before: Shelf, now: Shelf, results: seq<TaskRun>)
    requires LoopState(env, loop, key, depth, path, before, now, Indices(|loop.inputs|), results)
    ensures StripAll(results) == Iterations(env, loop, key, depth, path)
    ensures Grew(before, now, StartedByLoop(env, loop, key, depth, path))
  {
    hide IterationMeaning, Strip, Grew, StartedByIteration, Indices;
    forall i | 0 <= i < |results| ensures i in Indices(|loop.inputs|) {
      InIndices(|loop.inputs|, i);
    }
  }

  /** How many bodies may run at once. */
  function Limit(loop: ForEach): nat
  {
    BodyLimit(loop.concurrency, |loop.inputs|)
  }

  lemma LimitIs(loop: ForEach, limit: int)
    requires var asked := if loop.concurrency <= 0 then 1 else loop.concurrency;
      limit == if asked > |loop.inputs| then |loop.inputs| else asked
    ensures limit == Limit(loop) && (|loop.inputs| > 0 ==> limit > 0)
  {
  }

  /** One iteration's body, which stores its result at its own index. */
  method RunIteration(env: Env, store: Store, key: string, loop: ForEach, depth: nat, path: Path, i: nat,
                      results: array<TaskRun>, ghost before: Shelf, ghost done: set<nat>)
    requires store.Valid() && Issued(ShelfOf(store)) && results !in store.Repr
    requires i < |loop.inputs| == results.Length && i !in done
    requires LoopState(env, loop, key, depth, path, before, ShelfOf(store), done, results[..])
    modifies store, store.Repr, results
    ensures store.Valid() && Issued(ShelfOf(store)) && fresh(store.Repr - old(store.Repr)) && results !in store.Repr
    ensures LoopState(env, loop, key, depth, path, before, ShelfOf(store), done + {i}, results[..])
    decreases Remaining(depth), 0, 2 * Nesting(loop.task) + 2, 0
  {
    hide LoopState, Grew, Store.Valid, Issued, IterationMeaning, StartedByIteration, StartedByTask, TaskMeaning,
      Strip, SubstituteInput;
    ghost var now, was := ShelfOf(store), results[..];
    var tr := RunTask(env, store, SubstituteInput(loop.task, key, loop.inputs[i]), depth, path + [ToInput(i)]);
    IterationFacts(env, loop, key, depth, path, i);
    IterationDone(env, loop, key, depth, path, before, now, ShelfOf(store), done, was, i, tr);
    results[i] := tr;
    assert results[..] == was[i := tr];
  }

  /** Runs the iterations, never more than the limit at once, completing in any order; results
      are stored by input index. The loop ends, so no choice of completions can block it. */
  method RunIterations(env: Env, store: Store, key: string, loop: ForEach, depth: nat, path: Path)
      returns (results: array<TaskRun>, ghost flights: seq<set<nat>>)
    requires store.Valid() && Issued(ShelfOf(store))
    modifies store, store.Repr
    ensures store.Valid() && Issued(ShelfOf(store)) && fresh(store.Repr - old(store.Repr))
    ensures fresh(results) && results.Length == |loop.inputs|
    ensures Paced(flights, |loop.inputs|, Limit(loop), {})
    ensures StripAll(results[..]) == Iterations(env, loop, key, depth, path)
    ensures Grew(old(ShelfOf(store)), ShelfOf(store), StartedByLoop(env, loop, key, depth, path))
    decreases Remaining(depth), 0, 2 * Nesting(loop.task) + 2, 1
  {
    hide *;
    ghost var before := ShelfOf(store);
    var n := |loop.inputs|;
    var limit := if loop.concurrency <= 0 then 1 else loop.concurrency;
    if limit > n {
      limit := n;
    }
    LimitIs(loop, limit);
    results := new TaskRun[n](_ => Bare("", NoResult));
    var next: nat := 0;
    var inflight: set<nat> := {};
    flights := [{}];
    ghost var done: set<nat> := {};
    LoopBegins(env, loop, key, depth, path, before, results[..]);
    NoneStarted(limit);
    while next < n || inflight != {}
      invariant store.Valid() && Issued(ShelfOf(store)) && fresh(store.Repr - old(store.Repr))
      invariant fresh(results) && results !in store.Repr && results.Length == n
      invariant next <= n && Spread(next, inflight, done) && |inflight| <= limit
      invariant Paced(flights, next, limit, inflight)
      invariant LoopState(env, loop, key, depth, path, before, ShelfOf(store), done, results[..])
      decreases n - next, inflight
    {
      var spawn := *;
      if next < n && |inflight| < limit && (inflight == {} || spawn) {
        SpawnNext(next, inflight, done);
        SpawnPaced(flights, next, limit, inflight);
        inflight := inflight + {next};
        next := next + 1;
        flights := flights + [inflight];
      } else {
        var i := Pick(inflight);
        FinishOne(next, inflight, done, i);
        ReturnPaced(flights, next, limit, inflight, i);
        RunIteration(env, store, key, loop, depth, path, i, results, before, done);
        inflight, done := inflight - {i}, done + {i};
        flights := flights + [inflight];
      }
    }
    AllFinished(n, done);
    LoopDone(env, loop, key, depth, path, before, ShelfOf(store), results[..]);
  }

  /** The iterations in flight, from before the first spawn on: at each step the next one in input
      order is spawned, or one returns, n have been spawned, and never more than the limit are in
      flight. */
  ghost predicate Flown(flights: seq<set<nat>>, n: nat, limit: nat)
    decreases |flights|
  {
    if |flights| <= 1 then flights == [{}] && n == 0
    else
      var before, a, b := flights[..|flights| - 1], flights[|flights| - 2], flights[|flights| - 1];
      && |b| <= limit
      && ((n > 0 && n - 1 !in a && b == a + {n - 1} && Flown(before, n - 1, limit)) ||
          ((exists i :: i in a && b == a - {i}) && Flown(before, n, limit)))
  }

  ghost predicate Paced(flights: seq<set<nat>>, n: nat, limit: nat, inflight: set<nat>)
  {
    flights != [] && Flown(flights, n, limit) && flights[|flights| - 1] == inflight
  }

  lemma SpawnPaced(flights: seq<set<nat>>, n: nat, limit: nat, inflight: set<nat>)
    requires Paced(flights, n, limit, inflight) && n !in inflight && |inflight + {n}| <= limit
    ensures Paced(flights + [inflight + {n}], n + 1, limit, inflight + {n})
  {
    assert (flights + [inflight + {n}])[..|flights|] == flights;
  }

  lemma ReturnPaced(flights: seq<set<nat>>, n: nat, limit: nat, inflight: set<nat>, i: nat)
    requires Paced(flights, n, limit, inflight) && i in inflight && |inflight| <= limit
    ensures Paced(flights + [inflight - {i}], n, limit, inflight - {i})
  {
    assert (flights + [inflight - {i}])[..|flights|] == flights;
  }

  /** The iterations started so far are in flight or done, none both. */
  ghost predicate Spread(next: nat, inflight: set<nat>, done: set<nat>)
  {
    inflight + done == Indices(next) && inflight !! done
  }

  lemma NoneStarted(limit: nat)
    ensures Spread(0, {}, {}) && Paced([{}], 0, limit, {})
  {
  }

  lemma SpawnNext(next: nat, inflight: set<nat>, done: set<nat>)
    requires Spread(next, inflight, done)
    ensures Spread(next + 1, inflight + {next}, done)
    ensures |inflight + {next}| == |inflight| + 1 && next !in inflight
  {
    InIndices(next, next);
    assert Indices(next + 1) == Indices(next) + {next};
  }

  lemma FinishOne(next: nat, inflight: set<nat>, done: set<nat>, i: nat)
    requires Spread(next, inflight, done) && i in inflight
    ensures Spread(next, inflight - {i}, done + {i}) && i !in done && i < next
    ensures |inflight - {i}| < |inflight| && inflight - {i} < inflight
  {
    InIndices(next, i);
    assert i in Indices(next);
  }

  lemma AllFinished(next: nat, done: set<nat>)
    requires Spread(next, {}, done)
    ensures done == Indices(next)
  {
  }

  lemma IterationFacts(env: Env, loop: ForEach, key: string, depth: nat, path: Path, i: nat)
    requires i < |loop.inputs|
    ensures var t := SubstituteInput(loop.task, key, loop.inputs[i]);
            && IterationMeaning(env, loop, key, depth, path, i) == TaskMeaning(env, t, depth, path + [ToInput(i)])
            && StartedByIteration(env, loop, key, depth, path)(i) == StartedByTask(env, t, depth, path + [ToInput(i)])
  {
    hide TaskMeaning, StartedByTask;
  }

  /** A loop's output, gathered in input order whatever order the iterations completed in. */
  method Collect(key: string, results: array<TaskRun>) returns (tr: TaskRun)
    ensures tr == LoopRun(key, results[..])
  {
    var stdout, stderr, failed: nat := "", "", 0;
    for i := 0 to results.Length
      invariant stdout == Stdouts(results[..i]) && stderr == Stderrs(results[..i])
      invariant failed == Unsuccessful(results[..i])
    {
      assert results[..i + 1] == results[..i] + [results[i]];
      stdout, stderr := stdout + results[i].stdout, stderr + results[i].stderr;
      if results[i].resultState != Success {
        failed := failed + 1;
      }
    }
    assert results[..results.Length] == results[..];
    tr := Bare(key, Success).(iterations := results[..], stdout := stdout, stderr := stderr);
    if failed > 0 {
      tr := tr.(resultState := Failed,
                stderr := Decimal.Format(failed) + " of " + Decimal.Format(results.Length) +
                  " iterations failed\n" + stderr);
    }
  }

  method RunForEachTask(env: Env, store: Store, key: string, loop: ForEach, depth: nat, path: Path)
      returns (tr: TaskRun)
    requires store.Valid() && Issued(ShelfOf(store))
    modifies store, store.Repr
    ensures store.Valid() && Issued(ShelfOf(store)) && fresh(store.Repr - old(store.Repr))
    ensures Strip(tr) == LoopRun(key, Iterations(env, loop, key, depth, path))
    ensures Grew(old(ShelfOf(store)), ShelfOf(store), StartedByLoop(env, loop, key, depth, path))
    decreases Remaining(depth), 0, 2 * Nesting(loop.task) + 2, 2
  {
    hide Grew, Store.Valid, Issued, Iterations, StartedByLoop, LoopRun;
    var results, _ := RunIterations(env, store, key, loop, depth, path);
    tr := Collect(key, results);
    StripLoop(key, results[..]);
  }

  // ------------------------------------------------------------------------ one run

  /** The results in the job's task order, their outputs joined, and whether any failed. */
  method Gather(tasks: seq<Task>, results: Results)
      returns (list: seq<TaskRun>, stdout: string, stderr: string, failed: bool)
    requires forall t | t in tasks :: t.key in results
    ensures list == InTaskOrder(tasks, results)
    ensures stdout == Stdouts(list) && stderr == Stderrs(list) && failed == AnyFailed(list)
  {
    list, stdout, stderr, failed := [], "", "", false;
    ghost var runs := InTaskOrder(tasks, results);
    for i := 0 to |tasks|
      invariant list == runs[..i] && stdout == Stdouts(list) && stderr == Stderrs(list)
      invariant failed <==> AnyFailed(list)
    {
      var tr := results[tasks[i].key];
      assert (list + [tr])[..i] == list;
      list := list + [tr];
      stdout, stderr := stdout + tr.stdout, stderr + tr.stderr;
      if tr.resultState == Failed {
        failed := true;
      }
    }
  }

  /** Fills in the closing record. */
  method Report(run: Run, tasks: seq<Task>, results: Results)
    requires forall t | t in tasks :: t.key in results
    modifies run
    ensures run.tasks == null || fresh(run.tasks)
    ensures
      var e := Conclude(tasks, results);
      run.Value() == old(run.Value()).(lifeCycle := Terminated, resultState := e.state, tasks := e.tasks,
                                       stdout := e.stdout, stderr := e.stderr)
  {
    hide Stdouts, Stderrs, AnyFailed;
    var list, stdout, stderr, failed := Gather(tasks, results);
    run.tasks := new TaskRun[|list|](i requires 0 <= i < |list| => list[i]);
    assert run.TaskList() == list;
    run.stdout, run.stderr, run.lifeCycle := stdout, stderr, Terminated;
    run.resultState := if failed then Failed else Success;
  }

  /** The closing publish of a run whose waves decided everything carries the run's meaning. */
  lemma {:induction false} ConcludesAsMeant(
      env: Env, job: Job, depth: nat, path: Path, before: Shelf, now: Shelf, results: Results, r: Record)
    requires env.attached && AllDecided(env, ByKey(job.tasks), depth, path, before, now, results)
    requires r.lifeCycle == Terminated && r.stateMessage == "" && (forall t | t in job.tasks :: t.key in results)
    requires
      var e := Conclude(job.tasks, results);
      r.resultState == e.state && r.tasks == e.tasks && r.stdout == e.stdout && r.stderr == e.stderr
    ensures EndedAs(r, RunMeaning(env, job, depth, path))
    ensures Grew(before, now, RunsStarted(env, job, depth, path))
  {
    hide Grew, Final, Strip, StripAll, StartedAt, WorkAt, Dispatched, InTaskOrder, Stdouts, Stderrs, AnyFailed;
    var meant := FinalResults(ByKey(job.tasks), WorkAt(env, depth, path));
    ConcludesAlike(job.tasks, results, meant);
    assert Conclude(job.tasks, meant) == RunMeaning(env, job, depth, path);
    assert Conclude(job.tasks, results).message == "";
  }

  /** Tasks by key, collected in list order so that a later task replaces an earlier one. */
  method CollectByKey(tasks: seq<Task>) returns (remaining: Graph)
    ensures remaining == ByKey(tasks)
  {
    remaining := map[];
    for i := 0 to |tasks|
      invariant remaining == ByKey(tasks[..i])
    {
      assert tasks[..i + 1][..i] == tasks[..i];
      remaining := remaining[tasks[i].key := tasks[i]];
    }
    assert tasks[..|tasks|] == tasks;
  }

  /** What a publish of the executor's record does: nothing to a cancelled run, otherwise its
      record is replaced and nothing else. */
  lemma Published(s: Shelf, s': Shelf, r: Record)
    requires Issued(s) && r.id in s.runs && s' == s.(runs := Publish(s.runs, r))
    ensures Issued(s') && r.id in s'.runs
    ensures IsCanceled(s.runs, r.id) ==> s' == s
    ensures !IsCanceled(s.runs, r.id) ==> s'.runs[r.id] == r && GrewBut(s, s', r.id, 0)
  {
  }

  lemma ClosedWith(s0: Shelf, s1: Shelf, s2: Shelf, s3: Shelf, r: Record, n: nat)
    requires GrewBut(s0, s1, r.id, 0) && Grew(s1, s2, n) && !IsCanceled(s1.runs, r.id) && Issued(s2)
    requires s3 == s2.(runs := Publish(s2.runs, r))
    ensures GrewBut(s0, s3, r.id, n) && r.id in s3.runs && s3.runs[r.id] == r && Issued(s3)
  {
    GrewButMore(s0, s1, s2, r.id, 0, n);
    GrewButPublished(s0, s2, r.id, n, r);
  }

  /** The run with its engine: the waves, and the closing publish. */
  method RunAttached(env: Env, store: Store, job: Job, run: Run, depth: nat, path: Path, ghost s0: Shelf)
      returns (ghost waves: seq<set<string>>)
    requires store.Valid() && Issued(ShelfOf(store)) && env.attached
    requires run !in store.Repr && run.id in store.contents && run.tasks == null && run.stateMessage == ""
    requires !IsCanceled(store.contents, run.id) ==> GrewBut(s0, ShelfOf(store), run.id, 0)
    modifies store, store.Repr, run
    ensures store.Valid() && Issued(ShelfOf(store)) && fresh(store.Repr - old(store.Repr))
    ensures run.id == old(run.id) && run.id in store.contents
    ensures IsCanceled(old(store.contents), run.id) ==> ShelfOf(store) == old(ShelfOf(store)) && waves == []
    ensures !IsCanceled(old(store.contents), run.id) ==>
      && GrewBut(s0, ShelfOf(store), run.id, RunsStarted(env, job, depth, path))
      && store.contents[run.id].jobID == old(run.jobID)
      && EndedAs(store.contents[run.id], RunMeaning(env, job, depth, path))
      && WavesOf(ByKey(job.tasks), waves) && |waves| <= |ByKey(job.tasks)|
    decreases Remaining(depth), 1, 3
  {
    hide Store.Valid, Grew, GrewBut, AllDecided, RunMeaning, RunsStarted, EndedAs, Conclude, WavesOf;
    ghost var s1 := ShelfOf(store);
    var id := run.id;
    var g := CollectByKey(job.tasks);
    var stopped, results;
    stopped, results, waves := RunWaves(env, store, id, g, depth, path);
    if stopped {
      return;
    }
    ghost var s2 := ShelfOf(store);
    DecidedAll(env, job, depth, path, s1, s2, results);
    Report(run, job.tasks, results);
    store.UpdateRun(run);
    ConcludesAsMeant(env, job, depth, path, s1, s2, results, run.Value());
    if !IsCanceled(s1.runs, id) {
      ClosedWith(s0, s1, s2, ShelfOf(store), run.Value(), RunsStarted(env, job, depth, path));
    } else {
      Published(s2, ShelfOf(store), run.Value());
    }
  }

  lemma DecidedAll(env: Env, job: Job, depth: nat, path: Path, before: Shelf, now: Shelf, results: Results)
    requires AllDecided(env, ByKey(job.tasks), depth, path, before, now, results)
    ensures forall t | t in job.tasks :: t.key in results
  {
  }

  /** The run without an engine: it fails before any of its tasks is looked at. */
  method RefuseRun(env: Env, store: Store, job: Job, run: Run, depth: nat, path: Path, ghost s0: Shelf)
    requires store.Valid() && Issued(ShelfOf(store)) && !env.attached
    requires run !in store.Repr && run.id in store.contents && run.tasks == null && run.stdout == "" && run.stderr == ""
    requires !IsCanceled(store.contents, run.id) ==> GrewBut(s0, ShelfOf(store), run.id, 0)
    modifies store, store.Repr, run
    ensures store.Valid() && Issued(ShelfOf(store)) && fresh(store.Repr - old(store.Repr))
    ensures run.id == old(run.id) && run.id in store.contents
    ensures IsCanceled(old(store.contents), run.id) ==> ShelfOf(store) == old(ShelfOf(store))
    ensures !IsCanceled(old(store.contents), run.id) ==>
      && GrewBut(s0, ShelfOf(store), run.id, RunsStarted(env, job, depth, path))
      && store.contents[run.id].jobID == old(run.jobID)
      && EndedAs(store.contents[run.id], RunMeaning(env, job, depth, path))
  {
    hide Store.Valid, Grew, GrewBut, RunMeaning, RunsStarted, EndedAs, Issued;
    ghost var s1 := ShelfOf(store);
    run.lifeCycle, run.resultState, run.stateMessage := Terminated, Failed, NoEngine().message;
    store.UpdateRun(run);
    Published(s1, ShelfOf(store), run.Value());
    RefusedRun(env, job, depth, path, s0, s1, ShelfOf(store), run.Value());
  }

  /** One run from PENDING to its closing publish. A run cancelled beforehand dispatches nothing
      and publishes nothing; any other run ends as it means, its child runs finished before it. */
  method ExecuteRun(env: Env, store: Store, job: Job, run: Run, depth: nat, path: Path)
      returns (ghost waves: seq<set<string>>)
    requires store.Valid() && Issued(ShelfOf(store))
    requires run !in store.Repr && run.id in store.contents
    requires run.Value() == PendingRecord(run.id, job.id) && run.tasks == null
    modifies store, store.Repr, run
    ensures store.Valid() && Issued(ShelfOf(store)) && fresh(store.Repr - old(store.Repr))
    ensures run.id == old(run.id) && run.id in store.contents
    ensures IsCanceled(old(store.contents), run.id) ==> ShelfOf(store) == old(ShelfOf(store)) && waves == []
    ensures !IsCanceled(old(store.contents), run.id) ==>
      && GrewBut(old(ShelfOf(store)), ShelfOf(store), run.id, RunsStarted(env, job, depth, path))
      && store.contents[run.id].jobID == job.id
      && EndedAs(store.contents[run.id], RunMeaning(env, job, depth, path))
      && if env.attached then WavesOf(ByKey(job.tasks), waves) && |waves| <= |ByKey(job.tasks)| else waves == []
    decreases Remaining(depth), 2, 0
  {
    hide Store.Valid, Grew, GrewBut, RunMeaning, RunsStarted, EndedAs, Issued, ByKey, WavesOf;
    ghost var s0 := ShelfOf(store);
    run.lifeCycle, run.executedBy := Running, EXECUTED_BY;
    store.UpdateRun(run);
    ghost var s1 := ShelfOf(store);
    Published(s0, s1, run.Value());
    if env.attached {
      waves := RunAttached(env, store, job, run, depth, path, s0);
    } else {
      RefuseRun(env, store, job, run, depth, path, s0);
      waves := [];
    }
  }

  lemma RefusedRun(env: Env, job: Job, depth: nat, path: Path, s0: Shelf, s1: Shelf, s2: Shelf, r: Record)
    requires !env.attached && r.lifeCycle == Terminated && r.resultState == Failed && r.tasks == []
    requires r.stateMessage == NoEngine().message && r.stdout == "" && r.stderr == ""
    ensures EndedAs(r, RunMeaning(env, job, depth, path))
    ensures GrewBut(s0, s1, r.id, 0) && !IsCanceled(s1.runs, r.id) && s2 == s1.(runs := Publish(s1.runs, r)) ==>
      GrewBut(s0, s2, r.id, RunsStarted(env, job, depth, path))
  {
    if GrewBut(s0, s1, r.id, 0) && !IsCanceled(s1.runs, r.id) && s2 == s1.(runs := Publish(s1.runs, r)) {
      GrewButPublished(s0, s1, r.id, 0, r);
    }
    assert StripAll([]) == [];
  }
}
