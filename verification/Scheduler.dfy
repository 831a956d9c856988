// The wave scheduler of one run: when a task is ready, whether it then runs, and what the
// whole run therefore means.
module Scheduler {
  import opened Basics
  import opened JobModel

  // ---------------------------------------------------------------- conditions

  /** IEEE ordering: a NaN operand is neither less, equal nor greater. */
  predicate Less(a: Number, b: Number)
  {
    match (a, b)
    case (NaN, _) => false
    case (_, NaN) => false
    case (NegInf, NegInf) => false
    case (NegInf, _) => true
    case (_, PosInf) => a != PosInf
    case (Finite(x), Finite(y)) => x < y
    case _ => false
  }

  predicate Comparable(a: Number, b: Number) { a != NaN && b != NaN }

  function Arm(b: bool): Outcome { if b then OnTrue else OnFalse }

  function EvalCondition(c: Condition): Outcome
  {
    if c.op == EqualTo || c.op == NotEqual then
      Arm((c.op == EqualTo) == (c.left.text == c.right.text))
    else if c.left.number.None? || c.right.number.None? then
      OnFalse
    else
      var l, r := c.left.number.value, c.right.number.value;
      match c.op
      case GreaterThan => Arm(Less(r, l))
      case GreaterThanOrEqual => Arm(Comparable(l, r) && !Less(l, r))
      case LessThan => Arm(Less(l, r))
      case LessThanOrEqual => Arm(Comparable(l, r) && !Less(r, l))
      case _ => OnFalse
  }

  /** The two operator families: text decides (in)equality whatever the numbers say; and a
      comparison and its converse take opposite arms exactly when both operands are numbers. */
  lemma ConditionFamilies(l: Operand, r: Operand)
    ensures EvalCondition(Condition(EqualTo, l, r)) == OnTrue <==> l.text == r.text
    ensures EvalCondition(Condition(NotEqual, l, r)) != EvalCondition(Condition(EqualTo, l, r))
    ensures
      (EvalCondition(Condition(LessThan, l, r)) != EvalCondition(Condition(GreaterThanOrEqual, l, r)))
      <==> l.number.Some? && r.number.Some? && Comparable(l.number.value, r.number.value)
    ensures
      (EvalCondition(Condition(GreaterThan, l, r)) != EvalCondition(Condition(LessThanOrEqual, l, r)))
      <==> l.number.Some? && r.number.Some? && Comparable(l.number.value, r.number.value)
    ensures EvalCondition(Condition(LessThan, l, r)) == EvalCondition(Condition(GreaterThan, r, l))
  {
  }

  /** Two finite operands are compared as the numbers they are. */
  lemma NumbersCompare(l: Operand, r: Operand, x: real, y: real)
    requires l.number == Some(Finite(x)) && r.number == Some(Finite(y))
    ensures EvalCondition(Condition(LessThan, l, r)) == OnTrue <==> x < y
    ensures EvalCondition(Condition(LessThanOrEqual, l, r)) == OnTrue <==> x <= y
    ensures EvalCondition(Condition(GreaterThan, l, r)) == OnTrue <==> x > y
    ensures EvalCondition(Condition(GreaterThanOrEqual, l, r)) == OnTrue <==> x >= y
  {
  }

  /** The infinities stand below and above every number, and are as great as themselves. */
  lemma InfinitiesCompare(l: Operand, r: Operand)
    requires l.number.Some? && r.number.Some? && l.number != Some(NaN) && r.number != Some(NaN)
    ensures l.number != r.number && (l.number == Some(NegInf) || r.number == Some(PosInf)) ==>
      && EvalCondition(Condition(LessThan, l, r)) == EvalCondition(Condition(LessThanOrEqual, l, r)) == OnTrue
      && EvalCondition(Condition(GreaterThan, l, r)) == EvalCondition(Condition(GreaterThanOrEqual, l, r)) == OnFalse
    ensures l.number != r.number && (l.number == Some(PosInf) || r.number == Some(NegInf)) ==>
      && EvalCondition(Condition(LessThan, l, r)) == EvalCondition(Condition(LessThanOrEqual, l, r)) == OnFalse
      && EvalCondition(Condition(GreaterThan, l, r)) == EvalCondition(Condition(GreaterThanOrEqual, l, r)) == OnTrue
    ensures l.number == r.number ==>
      && EvalCondition(Condition(LessThan, l, r)) == EvalCondition(Condition(GreaterThan, l, r)) == OnFalse
      && EvalCondition(Condition(LessThanOrEqual, l, r)) == OnTrue
      && EvalCondition(Condition(GreaterThanOrEqual, l, r)) == OnTrue
  {
  }

  /** An ordering against anything that is no number, or a NaN, is false either way round. */
  lemma OthersDoNotCompare(op: ConditionOp, l: Operand, r: Operand)
    requires op != EqualTo && op != NotEqual
    requires l.number in {None, Some(NaN)} || r.number in {None, Some(NaN)}
    ensures EvalCondition(Condition(op, l, r)) == EvalCondition(Condition(op, r, l)) == OnFalse
  {
  }

  // ------------------------------------------------------------- one task's fate

  type Results = map<string, TaskRun>

  function DepKeys(t: Task): (keys: set<string>)
  {
    set d | d in t.dependsOn :: d.key
  }

  predicate DepsSatisfied(t: Task, done: Results)
  {
    DepKeys(t) <= done.Keys
  }

  predicate ArmsTaken(t: Task, done: Results)
    requires DepsSatisfied(t, done)
  {
    forall d | d in t.dependsOn && d.outcome != NoOutcome :: done[d.key].conditionOutcome == d.outcome
  }

  predicate AllDeps(t: Task, done: Results, state: ResultState)
    requires DepsSatisfied(t, done)
  {
    forall d | d in t.dependsOn :: done[d.key].resultState == state
  }

  predicate SomeDep(t: Task, done: Results, state: ResultState)
    requires DepsSatisfied(t, done)
  {
    exists d | d in t.dependsOn :: done[d.key].resultState == state
  }

  /** What run_if promises, quantified over the dependencies' results. */
  predicate RunIfHolds(t: Task, done: Results)
    requires DepsSatisfied(t, done)
  {
    match t.runIf
    case AllDone => true
    case AtLeastOneSuccess => SomeDep(t, done, Success)
    case AllFailed => AllDeps(t, done, Failed)
    case AtLeastOneFailed => SomeDep(t, done, Failed)
    case NoneFailed => !SomeDep(t, done, Failed)
    case AllSuccess => AllDeps(t, done, Success)
  }

  predicate ShouldRun(t: Task, done: Results)
    requires DepsSatisfied(t, done)
  {
    t.dependsOn == [] || (ArmsTaken(t, done) && RunIfHolds(t, done))
  }

  /** What each run_if makes of a task with dependencies and no labelled edges, by whether any of them
      succeeded, failed, or did neither (was skipped or cancelled). */
  lemma RunIfTable(t: Task, done: Results, success: bool, failed: bool, other: bool)
    requires DepsSatisfied(t, done) && t.dependsOn != [] && forall d | d in t.dependsOn :: d.outcome == NoOutcome
    requires success <==> exists i | 0 <= i < |t.dependsOn| :: StateAt(t, done, i) == Success
    requires failed <==> exists i | 0 <= i < |t.dependsOn| :: StateAt(t, done, i) == Failed
    requires other <==> exists i | 0 <= i < |t.dependsOn| :: StateAt(t, done, i) !in {Success, Failed}
    ensures success || failed || other
    ensures t.runIf == AllSuccess ==> (ShouldRun(t, done) <==> !failed && !other)
    ensures t.runIf == AllFailed ==> (ShouldRun(t, done) <==> !success && !other)
    ensures t.runIf == NoneFailed ==> (ShouldRun(t, done) <==> !failed)
    ensures t.runIf == AtLeastOneSuccess ==> (ShouldRun(t, done) <==> success)
    ensures t.runIf == AtLeastOneFailed ==> (ShouldRun(t, done) <==> failed)
    ensures t.runIf == AllDone ==> ShouldRun(t, done)
  {
    assert StateAt(t, done, 0) == Success || StateAt(t, done, 0) == Failed || StateAt(t, done, 0) !in {Success, Failed};
    forall s: ResultState
      ensures SomeDep(t, done, s) <==> exists i | 0 <= i < |t.dependsOn| :: StateAt(t, done, i) == s
    {
      SomeDepAt(t, done, s);
    }
    forall s: ResultState
      ensures AllDeps(t, done, s) <==> forall i | 0 <= i < |t.dependsOn| :: StateAt(t, done, i) == s
    {
      AllDepsAt(t, done, s);
    }
  }

  lemma SomeDepAt(t: Task, done: Results, state: ResultState)
    requires DepsSatisfied(t, done)
    ensures SomeDep(t, done, state) <==> exists i | 0 <= i < |t.dependsOn| :: StateAt(t, done, i) == state
  {
    if SomeDep(t, done, state) {
      var d :| d in t.dependsOn && done[d.key].resultState == state;
      var i :| 0 <= i < |t.dependsOn| && t.dependsOn[i] == d;
      assert StateAt(t, done, i) == state;
    }
    if i :| 0 <= i < |t.dependsOn| && StateAt(t, done, i) == state {
      assert t.dependsOn[i] in t.dependsOn;
    }
  }

  lemma AllDepsAt(t: Task, done: Results, state: ResultState)
    requires DepsSatisfied(t, done)
    ensures AllDeps(t, done, state) <==> forall i | 0 <= i < |t.dependsOn| :: StateAt(t, done, i) == state
  {
    if forall i | 0 <= i < |t.dependsOn| :: StateAt(t, done, i) == state {
      forall d | d in t.dependsOn ensures done[d.key].resultState == state {
        var i :| 0 <= i < |t.dependsOn| && t.dependsOn[i] == d;
        assert StateAt(t, done, i) == state;
      }
    } else {
      var i :| 0 <= i < |t.dependsOn| && StateAt(t, done, i) != state;
      assert t.dependsOn[i] in t.dependsOn;
    }
  }

  /** A task without dependencies runs; one with an edge whose label is not the condition's outcome does
      not, whatever its run_if. */
  lemma LabelsComeFirst(t: Task, done: Results)
    requires DepsSatisfied(t, done)
    ensures t.dependsOn == [] ==> ShouldRun(t, done)
    ensures (exists i | 0 <= i < |t.dependsOn| ::
               t.dependsOn[i].outcome != NoOutcome && OutcomeAt(t, done, i) != t.dependsOn[i].outcome) ==>
      !ShouldRun(t, done)
  {
    if i :| 0 <= i < |t.dependsOn| && t.dependsOn[i].outcome != NoOutcome &&
            OutcomeAt(t, done, i) != t.dependsOn[i].outcome {
      assert t.dependsOn[i] in t.dependsOn;
    }
  }

  /** How many dependencies ended SUCCESS and FAILED, as far as run_if can tell: none, some or all. */
  method CountStates(t: Task, done: Results) returns (success: nat, failed: nat)
    requires DepsSatisfied(t, done)
    ensures success == |t.dependsOn| <==> AllDeps(t, done, Success)
    ensures success >= 1 <==> SomeDep(t, done, Success)
    ensures failed == |t.dependsOn| <==> AllDeps(t, done, Failed)
    ensures failed >= 1 <==> SomeDep(t, done, Failed)
  {
    success, failed := 0, 0;
    for i := 0 to |t.dependsOn|
      invariant success <= i && failed <= i
      invariant success == i <==> forall j | 0 <= j < i :: StateAt(t, done, j) == Success
      invariant success == 0 <==> forall j | 0 <= j < i :: StateAt(t, done, j) != Success
      invariant failed == i <==> forall j | 0 <= j < i :: StateAt(t, done, j) == Failed
      invariant failed == 0 <==> forall j | 0 <= j < i :: StateAt(t, done, j) != Failed
    {
      match StateAt(t, done, i)
      case Success => success := success + 1;
      case Failed => failed := failed + 1;
      case _ =>
    }
    assert forall j | 0 <= j < |t.dependsOn| :: StateAt(t, done, j) == done[t.dependsOn[j].key].resultState;
  }

  /** The counting loops decide exactly the quantified run_if rules, branch selection first. */
  method DecideShouldRun(t: Task, done: Results) returns (run: bool)
    requires DepsSatisfied(t, done)
    ensures run == ShouldRun(t, done)
  {
    if |t.dependsOn| == 0 {
      return true;
    }
    for i := 0 to |t.dependsOn|
      invariant forall j | 0 <= j < i && t.dependsOn[j].outcome != NoOutcome ::
          OutcomeAt(t, done, j) == t.dependsOn[j].outcome
    {
      if t.dependsOn[i].outcome != NoOutcome && OutcomeAt(t, done, i) != t.dependsOn[i].outcome {
        assert t.dependsOn[i] in t.dependsOn;
        return false;
      }
    }
    assert ArmsTaken(t, done) by {
      forall d | d in t.dependsOn && d.outcome != NoOutcome ensures done[d.key].conditionOutcome == d.outcome {
        var j :| 0 <= j < |t.dependsOn| && t.dependsOn[j] == d;
        assert OutcomeAt(t, done, j) == d.outcome;
      }
    }
    var finished := |t.dependsOn|;
    var success, failed := CountStates(t, done);
    match t.runIf
    case AllDone => run := true;
    case AtLeastOneSuccess => run := success >= 1;
    case AllFailed => run := failed == finished;
    case AtLeastOneFailed => run := failed >= 1;
    case NoneFailed => run := failed == 0;
    case AllSuccess => run := success == finished;
  }

  function OutcomeAt(t: Task, done: Results, i: nat): Outcome
    requires i < |t.dependsOn| && DepsSatisfied(t, done)
  {
    assert t.dependsOn[i].key in DepKeys(t);
    done[t.dependsOn[i].key].conditionOutcome
  }

  function StateAt(t: Task, done: Results, i: nat): ResultState
    requires i < |t.dependsOn| && DepsSatisfied(t, done)
  {
    assert t.dependsOn[i].key in DepKeys(t);
    done[t.dependsOn[i].key].resultState
  }

  /** A dependency's Skipped result: neither SUCCESS nor FAILED. */
  function SkippedRun(key: string): TaskRun { Bare(key, Skipped) }

  function ConditionRun(t: Task): TaskRun
    requires t.condition.Some?
  {
    Bare(t.key, Success).(conditionOutcome := EvalCondition(t.condition.value))
  }

  /** What runs the tasks that need running: an arbitrary result per task. */
  type Work = Task -> TaskRun

  /** The result of a ready task, from its dependencies' results alone. */
  function Settle(t: Task, done: Results, work: Work): TaskRun
    requires DepsSatisfied(t, done)
  {
    if !ShouldRun(t, done) then SkippedRun(t.key)
    else if t.condition.Some? then ConditionRun(t)
    else work(t)
  }

  ghost predicate AgreeOn(keys: set<string>, a: Results, b: Results)
  {
    forall k | k in keys :: k in a && k in b && SameSignal(a[k], b[k])
  }

  /** Whether a task runs depends on nothing but the signals of its own dependencies. */
  lemma ShouldRunIsLocal(t: Task, a: Results, b: Results)
    requires AgreeOn(DepKeys(t), a, b)
    ensures DepsSatisfied(t, a) && DepsSatisfied(t, b)
    ensures ShouldRun(t, a) == ShouldRun(t, b)
  {
    assert forall d | d in t.dependsOn :: d.key in DepKeys(t);
    assert ArmsTaken(t, a) == ArmsTaken(t, b);
    assert SomeDep(t, a, Success) == SomeDep(t, b, Success);
    assert SomeDep(t, a, Failed) == SomeDep(t, b, Failed);
  }

  lemma SettleIsLocal(t: Task, a: Results, b: Results, work: Work)
    requires AgreeOn(DepKeys(t), a, b)
    ensures DepsSatisfied(t, a) && DepsSatisfied(t, b)
    ensures Settle(t, a, work) == Settle(t, b, work)
  {
    ShouldRunIsLocal(t, a, b);
  }

  // --------------------------------------------------------- the meaning of a run

  type Graph = map<string, Task>

  predicate Keyed(g: Graph) { forall k | k in g :: g[k].key == k }

  /** Tasks by key; of two tasks with one key the later wins. */
  function ByKey(tasks: seq<Task>): (g: Graph)
    ensures Keyed(g)
    ensures forall t | t in tasks :: t.key in g
    ensures forall k | k in g :: g[k] in tasks
  {
    if tasks == [] then map[]
    else
      var last := tasks[|tasks| - 1];
      ByKey(tasks[..|tasks| - 1])[last.key := last]
  }

  lemma {:induction false} LaterTaskWins(tasks: seq<Task>, i: nat)
    requires i < |tasks| && forall j | i < j < |tasks| :: tasks[j].key != tasks[i].key
    ensures ByKey(tasks)[tasks[i].key] == tasks[i]
  {
    if i < |tasks| - 1 {
      LaterTaskWins(tasks[..|tasks| - 1], i);
    }
  }

  /** k can be decided within n waves: it is defined and every dependency is decided sooner. */
  ghost predicate Grounded(g: Graph, k: string, n: nat)
    decreases n
  {
    n > 0 && k in g && forall d | d in DepKeys(g[k]) :: Grounded(g, d, n - 1)
  }

  /** The recursive meaning of a decided task: settled from its dependencies' meanings. */
  ghost function Meaning(g: Graph, work: Work, k: string, n: nat): TaskRun
    requires Grounded(g, k, n)
    decreases n, 0
  {
    Settle(g[k], Meanings(g, work, DepKeys(g[k]), n - 1), work)
  }

  ghost function Meanings(g: Graph, work: Work, keys: set<string>, n: nat): Results
    requires forall d | d in keys :: Grounded(g, d, n)
    decreases n, 1
  {
    map d | d in keys :: Meaning(g, work, d, n)
  }

  ghost predicate Stuck(g: Graph, k: string) { !Grounded(g, k, |g|) }

  /** The result every task of an uncancelled run ends with. */
  ghost function Final(g: Graph, work: Work, k: string): TaskRun
  {
    if Stuck(g, k) then SkippedRun(k) else Meaning(g, work, k, |g|)
  }

  ghost function FinalResults(g: Graph, work: Work): Results
  {
    map k | k in g :: Final(g, work, k)
  }

  lemma {:induction false} GroundedMore(g: Graph, k: string, m: nat, n: nat)
    requires Grounded(g, k, m) && m <= n
    ensures Grounded(g, k, n)
    decreases m
  {
    forall d | d in DepKeys(g[k]) ensures Grounded(g, d, n - 1) {
      GroundedMore(g, d, m - 1, n - 1);
    }
  }

  lemma {:induction false} MeaningMore(g: Graph, work: Work, k: string, m: nat, n: nat)
    requires Grounded(g, k, m) && m <= n && Grounded(g, k, n)
    ensures Meaning(g, work, k, n) == Meaning(g, work, k, m)
    decreases m, 0
  {
    MeaningsMore(g, work, DepKeys(g[k]), m - 1, n - 1);
  }

  lemma {:induction false} MeaningsMore(g: Graph, work: Work, keys: set<string>, m: nat, n: nat)
    requires forall d | d in keys :: Grounded(g, d, m) && Grounded(g, d, n)
    requires m <= n
    ensures Meanings(g, work, keys, n) == Meanings(g, work, keys, m)
    decreases m, 1
  {
    forall d | d in keys ensures Meaning(g, work, d, n) == Meaning(g, work, d, m) {
      MeaningMore(g, work, d, m, n);
    }
  }

  /** The keys decided within n waves. */
  ghost function Level(g: Graph, n: nat): set<string> { set k | k in g && Grounded(g, k, n) }

  lemma {:induction false} LevelsRepeat(g: Graph, m: nat, n: nat)
    requires m <= n && Level(g, m) == Level(g, m + 1)
    ensures Level(g, n) == Level(g, m)
    decreases n
  {
    if n > m {
      LevelsRepeat(g, m, n - 1);
      forall k | k in g
        ensures Grounded(g, k, n) == Grounded(g, k, m + 1)
      {
        forall d | d in DepKeys(g[k])
          ensures Grounded(g, d, n - 1) == Grounded(g, d, m)
        {
          assert d in Level(g, n - 1) <==> d in Level(g, m);
          assert Grounded(g, d, n - 1) ==> d in g;
          assert Grounded(g, d, m) ==> d in g;
        }
      }
    }
  }

  lemma {:induction false} LevelsGrow(g: Graph, n: nat)
    ensures |Level(g, n)| >= n || exists m | 0 <= m < n :: Level(g, m) == Level(g, m + 1)
  {
    if n > 0 {
      LevelsGrow(g, n - 1);
      if forall m | 0 <= m < n :: Level(g, m) != Level(g, m + 1) {
        forall k | k in Level(g, n - 1) ensures k in Level(g, n) {
          GroundedMore(g, k, n - 1, n);
        }
        assert Level(g, n - 1) != Level(g, n - 1 + 1);
        SubsetSize(Level(g, n - 1), Level(g, n));
      }
    }
  }

  /** As many waves as keys are enough: whatever is ever decided is decided by then. */
  lemma {:induction false} EnoughWaves(g: Graph, k: string, n: nat)
    requires Grounded(g, k, n)
    ensures Grounded(g, k, |g|)
  {
    if n <= |g| {
      GroundedMore(g, k, n, |g|);
    } else {
      LevelsGrow(g, |g| + 1);
      assert Level(g, |g| + 1) <= g.Keys;
      SubsetSize(Level(g, |g| + 1), g.Keys);
      var m: nat :| m < |g| + 1 && Level(g, m) == Level(g, m + 1);
      LevelsRepeat(g, m, n);
      assert k in Level(g, n);
      GroundedMore(g, k, m, |g|);
    }
  }

  /** A task is stuck exactly when it is undefined or one of its dependencies is stuck. */
  lemma {:induction false} StuckStep(g: Graph, k: string)
    ensures Stuck(g, k) <==> k !in g || exists d | d in DepKeys(g[k]) :: Stuck(g, d)
  {
    if k in g && forall d | d in DepKeys(g[k]) :: !Stuck(g, d) {
      assert Grounded(g, k, |g| + 1);
      EnoughWaves(g, k, |g| + 1);
    } else if !Stuck(g, k) {
      forall d | d in DepKeys(g[k]) ensures !Stuck(g, d) {
        GroundedMore(g, d, |g| - 1, |g|);
      }
    }
  }

  /** The unbounded recursive equation: a decided task's result is settled from its
      dependencies' results. With StuckStep this determines Final completely. */
  lemma {:induction false} FinalEquation(g: Graph, work: Work, k: string)
    requires !Stuck(g, k)
    ensures k in g && DepsSatisfied(g[k], FinalResults(g, work))
    ensures Final(g, work, k) == Settle(g[k], FinalResults(g, work), work)
  {
    var sooner := Meanings(g, work, DepKeys(g[k]), |g| - 1);
    forall d | d in DepKeys(g[k])
      ensures d in FinalResults(g, work) && FinalResults(g, work)[d] == sooner[d]
    {
      GroundedMore(g, d, |g| - 1, |g|);
      MeaningMore(g, work, d, |g| - 1, |g|);
    }
    SettleIsLocal(g[k], sooner, FinalResults(g, work), work);
  }

  /** Results decided so far are right: each is its task's final result, up to what scheduling
      does not look at. */
  ghost predicate Signals(g: Graph, work: Work, done: Results)
  {
    forall k | k in done :: k in g && !Stuck(g, k) && SameSignal(done[k], Final(g, work, k))
  }

  /** Deciding a ready task from right results decides it right, in whatever order. */
  lemma {:induction false} DecidesRight(g: Graph, work: Work, done: Results, k: string)
    requires Signals(g, work, done) && k in g && DepsSatisfied(g[k], done)
    ensures !Stuck(g, k) && ShouldRun(g[k], done) == Executes(g, work, k)
    ensures Final(g, work, k) ==
      if !ShouldRun(g[k], done) then SkippedRun(g[k].key)
      else if g[k].condition.Some? then ConditionRun(g[k])
      else work(g[k])
  {
    StuckStep(g, k);
    FinalEquation(g, work, k);
    ShouldRunIsLocal(g[k], done, FinalResults(g, work));
  }

  lemma {:induction false} NeverReady(g: Graph, waiting: set<string>, k: string, n: nat)
    requires forall w | w in waiting :: w in g && exists d | d in DepKeys(g[w]) :: d !in g || d in waiting
    requires k in waiting
    ensures !Grounded(g, k, n)
    decreases n
  {
    if n > 0 {
      var d :| d in DepKeys(g[k]) && (d !in g || d in waiting);
      if d in waiting {
        NeverReady(g, waiting, d, n - 1);
      }
    }
  }

  /** When a wave finds nothing ready, the tasks left over are exactly the stuck ones. */
  lemma {:induction false} LeftOversAreStuck(g: Graph, work: Work, done: Results)
    requires Signals(g, work, done)
    requires forall k | k in g && k !in done :: !DepsSatisfied(g[k], done)
    ensures forall k | k in g :: Stuck(g, k) <==> k !in done
  {
    var waiting := g.Keys - done.Keys;
    forall w | w in waiting ensures exists d | d in DepKeys(g[w]) :: d !in g || d in waiting {
      var d :| d in DepKeys(g[w]) && d !in done;
    }
    forall k | k in waiting ensures Stuck(g, k) {
      NeverReady(g, waiting, k, |g|);
    }
  }

  // ------------------------------------------------------------------ stuck tasks

  predicate Edge(g: Graph, a: string, b: string) { a in g && b in DepKeys(g[a]) }

  predicate IsPath(g: Graph, p: seq<string>)
  {
    |p| > 0 && forall i | 0 <= i < |p| - 1 :: Edge(g, p[i], p[i + 1])
  }

  /** The last key of the path is undefined, or already occurred on the path (a cycle). */
  predicate DeadEnd(g: Graph, p: seq<string>)
    requires |p| > 0
  {
    var last := p[|p| - 1];
    last !in g || last in p[..|p| - 1]
  }

  lemma {:induction false} GroundedAlong(g: Graph, p: seq<string>, i: nat, n: nat)
    requires IsPath(g, p) && i < |p| && Grounded(g, p[0], n)
    ensures i < n && Grounded(g, p[i], n - i)
  {
    if i > 0 {
      GroundedAlong(g, p, i - 1, n);
      assert Edge(g, p[i - 1], p[i - 1 + 1]);
    }
  }

  lemma {:induction false} NoGroundedCycle(g: Graph, p: seq<string>, n: nat)
    requires IsPath(g, p) && |p| > 1 && p[0] == p[|p| - 1]
    ensures !Grounded(g, p[0], n)
    decreases n
  {
    if Grounded(g, p[0], n) {
      GroundedAlong(g, p, |p| - 1, n);
      NoGroundedCycle(g, p, n - (|p| - 1));
    }
  }

  lemma {:induction false} DeadEndIsStuck(g: Graph, p: seq<string>)
    requires IsPath(g, p) && DeadEnd(g, p)
    ensures Stuck(g, p[0])
  {
    if !Stuck(g, p[0]) {
      GroundedAlong(g, p, |p| - 1, |g|);
      var i :| 0 <= i < |p| - 1 && p[i] == p[|p| - 1];
      GroundedAlong(g, p, i, |g|);
      var cycle := p[i..];
      forall j | 0 <= j < |cycle| - 1 ensures Edge(g, cycle[j], cycle[j + 1]) {
        assert Edge(g, p[i + j], p[i + j + 1]);
      }
      NoGroundedCycle(g, cycle, |g| - i);
    }
  }

  /** A duplicate-free walk through stuck tasks can be prolonged until it dead-ends. */
  lemma {:induction false} WalkToDeadEnd(g: Graph, p: seq<string>) returns (q: seq<string>)
    requires IsPath(g, p) && Stuck(g, p[|p| - 1])
    requires forall i, j | 0 <= i < j < |p| :: p[i] != p[j]
    requires forall i | 0 <= i < |p| - 1 :: p[i] in g
    ensures IsPath(g, q) && DeadEnd(g, q) && q[0] == p[0]
    decreases |g| + 1 - |p|
  {
    var last := p[|p| - 1];
    if last !in g {
      return p;
    }
    DistinctWithin(p, g.Keys);
    StuckStep(g, last);
    var d :| d in DepKeys(g[last]) && Stuck(g, d);
    q := p + [d];
    assert q[..|q| - 1] == p;
    forall i | 0 <= i < |q| - 1 ensures Edge(g, q[i], q[i + 1]) {
      if i < |p| - 1 { assert Edge(g, p[i], p[i + 1]); }
    }
    if d !in p {
      q := WalkToDeadEnd(g, q);
    }
  }

  lemma {:induction false} DistinctWithin(p: seq<string>, s: set<string>)
    requires forall i, j | 0 <= i < j < |p| :: p[i] != p[j]
    requires forall i | 0 <= i < |p| :: p[i] in s
    ensures |p| <= |s|
    decreases |p|
  {
    if p != [] {
      DistinctWithin(p[1..], s - {p[0]});
    }
  }

  /** Stuck tasks are exactly those from which depends_on edges reach an undefined key or a cycle. */
  lemma {:induction false} StuckIffDeadEnd(g: Graph, k: string)
    ensures Stuck(g, k) <==> exists p :: IsPath(g, p) && p[0] == k && DeadEnd(g, p)
  {
    if Stuck(g, k) {
      var p := WalkToDeadEnd(g, [k]);
    }
    forall p | IsPath(g, p) && p[0] == k && DeadEnd(g, p) ensures Stuck(g, k) {
      DeadEndIsStuck(g, p);
    }
  }

  // ------------------------------------------------------------- if/else branches

  /** The task runs: it is decided and neither its branch nor its run_if holds it back. */
  ghost predicate Executes(g: Graph, work: Work, k: string)
  {
    !Stuck(g, k) && k in g && DepsSatisfied(g[k], FinalResults(g, work)) && ShouldRun(g[k], FinalResults(g, work))
  }

  /** What a task comes to: SKIPPED and nothing else unless it runs; a condition that runs succeeds and says
      which arm it chose; anything else that runs is what the engine's side makes of it. */
  lemma {:induction false} ComesTo(g: Graph, work: Work, k: string)
    requires k in g && g[k].key == k
    ensures !Executes(g, work, k) ==>
      Final(g, work, k).resultState == Skipped && Final(g, work, k).conditionOutcome == NoOutcome
    ensures Executes(g, work, k) && g[k].condition.Some? ==>
      && Final(g, work, k).resultState == Success
      && Final(g, work, k).conditionOutcome == EvalCondition(g[k].condition.value) != NoOutcome
    ensures Executes(g, work, k) && g[k].condition.None? ==> Final(g, work, k) == work(g[k])
    ensures !Executes(g, work, k) || g[k].condition.Some? ==>
      && Final(g, work, k).key == k && Final(g, work, k).lifeCycle == Terminated
      && Final(g, work, k).stdout == Final(g, work, k).stderr == "" && Final(g, work, k).iterations == []
  {
    hide ShouldRun, Meaning;
    if !Stuck(g, k) {
      FinalEquation(g, work, k);
    }
  }

  /** k's ancestors: the ends of the non-trivial dependency paths from k. */
  ghost predicate Ancestor(g: Graph, k: string, a: string)
  {
    exists p :: AncestorVia(g, k, a, p)
  }

  ghost predicate AncestorVia(g: Graph, k: string, a: string, p: seq<string>)
  {
    IsPath(g, p) && |p| > 1 && p[0] == k && p[|p| - 1] == a
  }

  /** Every outcome-labelled edge out of u leads to a condition that chose that outcome. */
  ghost predicate ArmsMatch(g: Graph, work: Work, u: string)
  {
    u in g ==> forall d | d in g[u].dependsOn && d.outcome != NoOutcome ::
        Final(g, work, d.key).conditionOutcome == d.outcome
  }

  predicate AllSuccessRules(g: Graph) { forall k | k in g :: g[k].runIf == AllSuccess }

  /** All of k's history: its ancestors ended SUCCESS, and on it and them every arm was taken. */
  ghost predicate CleanHistory(g: Graph, work: Work, k: string)
  {
    && ArmsMatch(g, work, k)
    && forall a | Ancestor(g, k, a) ::
         a in g && Final(g, work, a).resultState == Success && ArmsMatch(g, work, a)
  }

  lemma {:induction false} SuccessMeansRan(g: Graph, work: Work, k: string)
    requires Final(g, work, k).resultState == Success
    ensures Executes(g, work, k)
  {
    FinalEquation(g, work, k);
  }

  lemma {:induction false} RanMeansDepsSucceeded(g: Graph, work: Work, k: string, d: string)
    requires AllSuccessRules(g) && Executes(g, work, k) && d in DepKeys(g[k])
    ensures d in g && Final(g, work, d).resultState == Success && Executes(g, work, d)
    ensures ArmsMatch(g, work, k)
  {
    var dep :| dep in g[k].dependsOn && dep.key == d;
    assert forall e | e in g[k].dependsOn :: e.key in DepKeys(g[k]) && e.key in FinalResults(g, work);
    SuccessMeansRan(g, work, d);
  }

  lemma {:induction false} RanMeansPathSucceeded(g: Graph, work: Work, p: seq<string>, i: nat)
    requires AllSuccessRules(g) && IsPath(g, p) && Executes(g, work, p[0]) && i < |p|
    ensures Executes(g, work, p[i]) && ArmsMatch(g, work, p[i])
    ensures i > 0 ==> Final(g, work, p[i]).resultState == Success
  {
    if i > 0 {
      RanMeansPathSucceeded(g, work, p, i - 1);
      assert Edge(g, p[i - 1], p[i - 1 + 1]);
      RanMeansDepsSucceeded(g, work, p[i - 1], p[i]);
    }
    if g[p[i]].dependsOn != [] {
      assert g[p[i]].dependsOn[0].key in DepKeys(g[p[i]]);
      RanMeansDepsSucceeded(g, work, p[i], g[p[i]].dependsOn[0].key);
    }
  }

  /** Under ALL_SUCCESS a task runs exactly when its whole history succeeded along taken arms. */
  lemma {:induction false} RunsIffCleanHistory(g: Graph, work: Work, k: string)
    requires AllSuccessRules(g) && k in g
    ensures Executes(g, work, k) <==> CleanHistory(g, work, k)
  {
    if Executes(g, work, k) {
      RanMeansPathSucceeded(g, work, [k], 0);
      forall a | Ancestor(g, k, a)
        ensures a in g && Final(g, work, a).resultState == Success && ArmsMatch(g, work, a)
      {
        var p :| AncestorVia(g, k, a, p);
        RanMeansPathSucceeded(g, work, p, |p| - 1);
      }
    }
    if CleanHistory(g, work, k) {
      StuckStep(g, k);
      forall d | d in DepKeys(g[k]) ensures d in g && !Stuck(g, d) && Final(g, work, d).resultState == Success {
        assert Edge(g, k, d);
        assert AncestorVia(g, k, d, [k, d]);
      }
      FinalEquation(g, work, k);
      assert forall d | d in g[k].dependsOn :: d.key in DepKeys(g[k]);
    }
  }

  /** k is u or descends from it through depends_on edges. */
  ghost predicate DownstreamOf(g: Graph, k: string, u: string) { k == u || Ancestor(g, k, u) }

  /** u is on the given arm of condition c. */
  predicate OnArm(g: Graph, u: string, c: string, arm: Outcome)
  {
    u in g && Dependency(c, arm) in g[u].dependsOn
  }

  /** Nothing on or downstream of an arm the condition did not take runs; so no two tasks
      from the two arms of one condition both run. */
  lemma {:induction false} OnlyTheTakenArm(g: Graph, work: Work, k: string, u: string, c: string, arm: Outcome)
    requires AllSuccessRules(g) && k in g && OnArm(g, u, c, arm) && arm != NoOutcome
    requires DownstreamOf(g, k, u) && Executes(g, work, k)
    ensures Final(g, work, c).conditionOutcome == arm
  {
    RunsIffCleanHistory(g, work, k);
    assert ArmsMatch(g, work, u);
  }

  lemma {:induction false} NeverBothArms(
      g: Graph, work: Work, k1: string, u1: string, k2: string, u2: string, c: string)
    requires AllSuccessRules(g) && k1 in g && k2 in g
    requires OnArm(g, u1, c, OnTrue) && DownstreamOf(g, k1, u1)
    requires OnArm(g, u2, c, OnFalse) && DownstreamOf(g, k2, u2)
    ensures !(Executes(g, work, k1) && Executes(g, work, k2))
  {
    if Executes(g, work, k1) && Executes(g, work, k2) {
      OnlyTheTakenArm(g, work, k1, u1, c, OnTrue);
      OnlyTheTakenArm(g, work, k2, u2, c, OnFalse);
    }
  }
}
