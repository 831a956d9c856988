// Runs executing concurrently: one executor per run, its tasks completing on their own
// goroutines, cancels and reads arriving from anywhere. Every interleaving is a trace.
module RunProtocol {
  import opened Basics
  import opened JobModel
  import opened Scheduler
  import opened NestedRuns
  import opened RunStore

  /** What a run executes: its task list, and an arbitrary result for every task dispatched. */
  datatype Plan = Plan(jobID: int, tasks: seq<Task>, work: Work, attached: bool)

  datatype Phase = Starting | Refusing | AtTop | InWave | Closing | Done

  /** An executor: where it is, and the variables of its wave loop. started is a history of the
      tasks that ran (dispatched, or conditions evaluated); wave counts the waves begun. */
  datatype Exec = Exec(
    plan: Plan,
    phase: Phase,
    remaining: set<string>,
    todo: set<string>,
    inflight: set<string>,
    results: Results,
    wave: nat,
    started: set<string>)

  datatype System = System(nextID: int, runs: Records, execs: map<int, Exec>)

  datatype Action =
    | Launch(plan: Plan)
    | Begin(id: int)
    | Refuse(id: int)
    | Check(id: int)
    | Dispatch(id: int, k: string)
    | Complete(id: int, k: string)
    | EndWave(id: int)
    | Close(id: int)
    | CancelRequest(id: int)
    | Read(id: int)

  function GraphOf(p: Plan): Graph { ByKey(p.tasks) }

  function RunningRecord(id: int, p: Plan): Record
  {
    PendingRecord(id, p.jobID).(lifeCycle := Running, executedBy := EXECUTED_BY)
  }

  function RefusedRecord(id: int, p: Plan): Record
  {
    RunningRecord(id, p).(lifeCycle := Terminated, resultState := Failed, stateMessage := NoEngine().message)
  }

  function ClosedRecord(id: int, p: Plan, results: Results): Record
    requires forall t | t in p.tasks :: t.key in results
  {
    var e := Conclude(p.tasks, results);
    RunningRecord(id, p).(lifeCycle := Terminated, resultState := e.state, tasks := e.tasks,
                          stdout := e.stdout, stderr := e.stderr)
  }

  // ------------------------------------------------------------------ an executor's steps

  function NewExec(p: Plan): Exec { Exec(p, Starting, GraphOf(p).Keys, {}, {}, map[], 0, {}) }

  function ReadyKeys(e: Exec): set<string>
  {
    set k | k in e.remaining && k in GraphOf(e.plan) && DepsSatisfied(GraphOf(e.plan)[k], e.results)
  }

  /** The top of the wave loop: leave when nothing remains, stop when cancelled, otherwise begin
      the next wave or, when nothing is ready, skip the rest. */
  function AfterCheck(e: Exec, canceled: bool): Exec
  {
    if e.remaining == {} then e.(phase := Closing)
    else if canceled then e.(phase := Done)
    else if ReadyKeys(e) == {} then
      e.(phase := Closing, results := e.results + map k | k in e.remaining :: SkippedRun(k))
    else e.(phase := InWave, todo := ReadyKeys(e), wave := e.wave + 1)
  }

  predicate MayDispatch(e: Exec, k: string)
  {
    e.phase == InWave && k in e.todo && k in GraphOf(e.plan) && DepsSatisfied(GraphOf(e.plan)[k], e.results)
  }

  function AfterDispatch(e: Exec, k: string): Exec
    requires MayDispatch(e, k)
  {
    var t := GraphOf(e.plan)[k];
    var e1 := e.(remaining := e.remaining - {k}, todo := e.todo - {k});
    if !ShouldRun(t, e.results) then e1.(results := e.results[k := SkippedRun(k)])
    else if t.condition.Some? then e1.(results := e.results[k := ConditionRun(t)], started := e.started + {k})
    else e1.(inflight := e.inflight + {k}, started := e.started + {k})
  }

  predicate MayComplete(e: Exec, k: string) { e.phase == InWave && k in e.inflight && k in GraphOf(e.plan) }

  function AfterComplete(e: Exec, k: string): Exec
    requires MayComplete(e, k)
  {
    e.(inflight := e.inflight - {k}, results := e.results[k := e.plan.work(GraphOf(e.plan)[k])])
  }

  predicate MayClose(e: Exec) { e.phase == Closing && forall t | t in e.plan.tasks :: t.key in e.results }

  predicate Enabled(s: System, a: Action)
  {
    match a
    case Launch(_) => true
    case CancelRequest(_) => true
    case Read(_) => true
    case Begin(id) => id in s.execs && s.execs[id].phase == Starting
    case Refuse(id) => id in s.execs && s.execs[id].phase == Refusing
    case Check(id) => id in s.execs && s.execs[id].phase == AtTop
    case Dispatch(id, k) => id in s.execs && MayDispatch(s.execs[id], k)
    case Complete(id, k) => id in s.execs && MayComplete(s.execs[id], k)
    case EndWave(id) =>
      id in s.execs && s.execs[id].phase == InWave && s.execs[id].todo == {} && s.execs[id].inflight == {}
    case Close(id) => id in s.execs && MayClose(s.execs[id])
  }

  function Step(s: System, a: Action): System
    requires Enabled(s, a)
  {
    match a
    case Launch(p) =>
      var id := s.nextID + 1;
      System(id, s.runs[id := PendingRecord(id, p.jobID)], s.execs[id := NewExec(p)])
    case CancelRequest(id) => s.(runs := Cancel(s.runs, id))
    case Read(_) => s
    case Begin(id) =>
      var e := s.execs[id];
      s.(runs := Publish(s.runs, RunningRecord(id, e.plan)),
         execs := s.execs[id := e.(phase := if e.plan.attached then AtTop else Refusing)])
    case Refuse(id) =>
      var e := s.execs[id];
      s.(runs := Publish(s.runs, RefusedRecord(id, e.plan)), execs := s.execs[id := e.(phase := Done)])
    case Check(id) => s.(execs := s.execs[id := AfterCheck(s.execs[id], IsCanceled(s.runs, id))])
    case Dispatch(id, k) => s.(execs := s.execs[id := AfterDispatch(s.execs[id], k)])
    case Complete(id, k) => s.(execs := s.execs[id := AfterComplete(s.execs[id], k)])
    case EndWave(id) => s.(execs := s.execs[id := s.execs[id].(phase := AtTop)])
    case Close(id) =>
      var e := s.execs[id];
      s.(runs := Publish(s.runs, ClosedRecord(id, e.plan, e.results)), execs := s.execs[id := e.(phase := Done)])
  }

  const INITIAL := System(0, map[], map[])

  /** A history: states and the actions between them. */
  datatype Trace = Trace(states: seq<System>, actions: seq<Action>)

  ghost predicate IsTrace(t: Trace)
  {
    && |t.states| == |t.actions| + 1 && t.states[0] == INITIAL
    && forall i | 0 <= i < |t.actions| ::
         Enabled(t.states[i], t.actions[i]) && t.states[i + 1] == Step(t.states[i], t.actions[i])
  }

  // ------------------------------------------------------------------- the invariant

  /** Keys: what remains, is in flight and is decided make up the job's tasks, without overlap. */
  ghost predicate Accounted(e: Exec)
  {
    var g := GraphOf(e.plan);
    && e.todo <= e.remaining && (e.phase != InWave ==> e.todo == {} && e.inflight == {})
    && e.inflight !! e.remaining && e.inflight !! e.results.Keys
    && e.remaining + e.inflight + e.results.Keys == g.Keys
    && (e.phase in {Closing, Done} || e.remaining !! e.results.Keys)
    && (e.phase == Closing ==> e.results.Keys == g.Keys)
    && (forall k | k in e.todo + e.inflight :: DepsSatisfied(g[k], e.results))
  }

  /** Everything decided is right, before the stuck tasks are skipped as well as after. */
  ghost predicate DecidedRight(e: Exec)
  {
    var g := GraphOf(e.plan);
    && (forall k | k in e.results :: k in g && e.results[k] == Final(g, e.plan.work, k))
    && (e.phase !in {Closing, Done} ==> forall k | k in e.results :: !Stuck(g, k))
    && (forall k | k in e.inflight :: k in g && g[k].condition.None?)
    && (forall k | k in e.results.Keys + e.inflight :: k in e.started <==> Executes(g, e.plan.work, k))
    && e.inflight <= e.started <= e.results.Keys + e.inflight
  }

  /** A wave begun leaves fewer keys for later waves. */
  ghost predicate WavesBounded(e: Exec) { e.wave + |e.remaining - e.todo| <= |GraphOf(e.plan)| }

  /** What the store shows of a run agrees with where its executor is. */
  ghost predicate Agrees(id: int, e: Exec, r: Record)
  {
    && r.id == id
    && if r.resultState == Canceled then r.lifeCycle == Terminated && r.tasks == [] && r.stdout == "" && r.stderr == ""
       else match e.phase
         case Starting => r == PendingRecord(id, e.plan.jobID)
         case Refusing => r == RunningRecord(id, e.plan) && !e.plan.attached
         case Done =>
           if e.plan.attached then
             && e.results == FinalResults(GraphOf(e.plan), e.plan.work)
             && (forall t | t in e.plan.tasks :: t.key in e.results)
             && r == ClosedRecord(id, e.plan, e.results)
           else r == RefusedRecord(id, e.plan)
         case _ => r == RunningRecord(id, e.plan) && e.plan.attached
  }

  ghost predicate ExecOk(e: Exec) { Accounted(e) && DecidedRight(e) && WavesBounded(e) }

  lemma NewExecOk(p: Plan)
    ensures ExecOk(NewExec(p))
  {
    assert NewExec(p).remaining - {} == GraphOf(p).Keys;
  }

  /** Deciding k right, and recording whether it ran, keeps every decision right. */
  lemma DecideKeepsRight(e: Exec, k: string, e': Exec)
    requires DecidedRight(e) && e'.plan == e.plan && e.phase == InWave && e'.phase == InWave
    requires k in GraphOf(e.plan) && !Stuck(GraphOf(e.plan), k) && k !in e.results
    requires e'.results == e.results[k := Final(GraphOf(e.plan), e.plan.work, k)]
    requires e'.inflight == e.inflight - {k}
    requires e'.started == if Executes(GraphOf(e.plan), e.plan.work, k) then e.started + {k} else e.started
    ensures DecidedRight(e')
  {
    hide Final, Stuck, Executes, GraphOf;
  }

  lemma {:induction false} SkippingAccounted(e: Exec)
    requires Accounted(e) && e.phase == AtTop
    ensures Accounted(e.(phase := Closing, results := e.results + map k | k in e.remaining :: SkippedRun(k)))
  {
    hide DepsSatisfied, GraphOf;
  }

  lemma {:induction false} SkippingRight(e: Exec)
    requires Accounted(e) && DecidedRight(e) && e.phase == AtTop && ReadyKeys(e) == {}
    ensures DecidedRight(e.(phase := Closing, results := e.results + map k | k in e.remaining :: SkippedRun(k)))
  {
    hide Final, Executes, DepsSatisfied, ShouldRun, Stuck, GraphOf, SkippedRun;
    forall k | k in e.remaining
      ensures Final(GraphOf(e.plan), e.plan.work, k) == SkippedRun(k) && !Executes(GraphOf(e.plan), e.plan.work, k)
    {
      LeftOverIsSkipped(e, k);
    }
  }

  lemma {:induction false} LeftOverIsSkipped(e: Exec, k: string)
    requires Accounted(e) && DecidedRight(e) && e.phase == AtTop && ReadyKeys(e) == {} && k in e.remaining
    ensures Final(GraphOf(e.plan), e.plan.work, k) == SkippedRun(k) && !Executes(GraphOf(e.plan), e.plan.work, k)
  {
    hide Final, Executes, DepsSatisfied, ShouldRun, Stuck, GraphOf, SkippedRun;
    var g, work := GraphOf(e.plan), e.plan.work;
    forall k | k in g && k !in e.results ensures !DepsSatisfied(g[k], e.results) {
      assert k in e.remaining && k !in ReadyKeys(e);
    }
    SignalsOf(e);
    LeftOversAreStuck(g, work, e.results);
    StuckIsSkipped(g, work, k);
  }

  lemma SignalsOf(e: Exec)
    requires DecidedRight(e) && e.phase !in {Closing, Done}
    ensures Signals(GraphOf(e.plan), e.plan.work, e.results)
  {
    hide Final, Executes, Stuck, GraphOf;
  }

  lemma StuckIsSkipped(g: Graph, work: Work, k: string)
    requires Stuck(g, k)
    ensures Final(g, work, k) == SkippedRun(k) && !Executes(g, work, k)
  {
  }

  /** Decisions do not depend on where the loop stands, while stuck tasks are undecided. */
  lemma MoveKeepsRight(e: Exec, e': Exec)
    requires DecidedRight(e) && e.phase !in {Closing, Done}
    requires e' == e.(phase := e'.phase, todo := e'.todo, wave := e'.wave)
    ensures DecidedRight(e')
  {
    hide Final, Stuck, Executes, GraphOf;
  }

  lemma WaveBeginsAccounted(e: Exec)
    requires Accounted(e) && e.phase == AtTop
    ensures Accounted(e.(phase := InWave, todo := ReadyKeys(e), wave := e.wave + 1))
  {
    hide DepsSatisfied, GraphOf;
  }

  lemma WaveBeginsBounded(e: Exec)
    requires WavesBounded(e) && e.todo == {} && ReadyKeys(e) != {}
    ensures WavesBounded(e.(phase := InWave, todo := ReadyKeys(e), wave := e.wave + 1))
  {
    hide DepsSatisfied, GraphOf;
    var ready := ReadyKeys(e);
    var k :| k in ready;
    assert e.remaining - {} == e.remaining;
    assert k in e.remaining && k !in e.remaining - ready;
    SubsetSize(e.remaining - ready, e.remaining);
  }

  lemma WaveBeginsOk(e: Exec)
    requires ExecOk(e) && e.phase == AtTop && ReadyKeys(e) != {}
    ensures ExecOk(e.(phase := InWave, todo := ReadyKeys(e), wave := e.wave + 1))
  {
    hide DecidedRight, WavesBounded, DepsSatisfied, GraphOf, ReadyKeys;
    MoveKeepsRight(e, e.(phase := InWave, todo := ReadyKeys(e), wave := e.wave + 1));
    WaveBeginsAccounted(e);
    WaveBeginsBounded(e);
  }

  /** With nothing waiting and nothing in flight the executor may move on; to close, nothing may
      remain. */
  lemma MoveOk(e: Exec, phase: Phase)
    requires ExecOk(e) && e.phase !in {Closing, Done} && e.todo == {} && e.inflight == {}
    requires phase in {AtTop, Refusing, Done} || (phase == Closing && e.remaining == {})
    ensures ExecOk(e.(phase := phase))
  {
    hide DecidedRight, DepsSatisfied, GraphOf;
    MoveKeepsRight(e, e.(phase := phase));
  }

  lemma {:induction false} CheckOk(e: Exec, canceled: bool)
    requires ExecOk(e) && e.phase == AtTop
    ensures ExecOk(AfterCheck(e, canceled))
  {
    hide ExecOk, GraphOf, ReadyKeys, SkippedRun;
    NothingInFlight(e);
    if e.remaining == {} {
      MoveOk(e, Closing);
    } else if canceled {
      MoveOk(e, Done);
    } else if ReadyKeys(e) == {} {
      SkippingOk(e);
    } else {
      WaveBeginsOk(e);
    }
  }

  lemma NothingInFlight(e: Exec)
    requires ExecOk(e) && e.phase != InWave
    ensures e.todo == {} && e.inflight == {}
  {
    hide DecidedRight, WavesBounded, GraphOf;
  }

  lemma SkippingOk(e: Exec)
    requires ExecOk(e) && e.phase == AtTop && ReadyKeys(e) == {}
    ensures ExecOk(e.(phase := Closing, results := e.results + map k | k in e.remaining :: SkippedRun(k)))
  {
    hide Accounted, DecidedRight, ReadyKeys, GraphOf;
    SkippingAccounted(e);
    SkippingRight(e);
  }

  lemma StillSatisfied(t: Task, done: Results, later: Results)
    requires DepsSatisfied(t, done) && done.Keys <= later.Keys
    ensures DepsSatisfied(t, later)
  {
  }

  lemma {:induction false} DispatchAccounted(e: Exec, k: string)
    requires Accounted(e) && MayDispatch(e, k)
    ensures Accounted(AfterDispatch(e, k))
  {
    hide DepsSatisfied, ShouldRun, GraphOf;
    var g, e' := GraphOf(e.plan), AfterDispatch(e, k);
    assert e'.remaining + e'.inflight + e'.results.Keys == e.remaining + e.inflight + e.results.Keys;
    forall d | d in e'.todo + e'.inflight ensures DepsSatisfied(g[d], e'.results) {
      StillSatisfied(g[d], e.results, e'.results);
    }
  }

  lemma {:induction false} DispatchRight(e: Exec, k: string)
    requires Accounted(e) && DecidedRight(e) && MayDispatch(e, k)
    ensures DecidedRight(AfterDispatch(e, k))
  {
    hide DepsSatisfied, ShouldRun, GraphOf, Final, Stuck, Executes, SkippedRun, ConditionRun;
    var g, work, e' := GraphOf(e.plan), e.plan.work, AfterDispatch(e, k);
    KeyOf(e.plan, k);
    SignalsOf(e);
    DecidesRight(g, work, e.results, k);
    if k in e'.inflight {
      assert e'.inflight == e.inflight + {k};
    } else {
      DecideKeepsRight(e, k, e');
    }
  }

  lemma KeyOf(p: Plan, k: string)
    requires k in GraphOf(p)
    ensures GraphOf(p)[k].key == k
  {
  }

  lemma {:induction false} DispatchOk(e: Exec, k: string)
    requires ExecOk(e) && MayDispatch(e, k)
    ensures ExecOk(AfterDispatch(e, k))
  {
    hide Final, Stuck, Executes, DepsSatisfied, ShouldRun, Accounted, DecidedRight, GraphOf;
    DispatchAccounted(e, k);
    DispatchRight(e, k);
    var e' := AfterDispatch(e, k);
    assert e'.remaining - e'.todo == e.remaining - e.todo by {
      assert e'.remaining == e.remaining - {k} && e'.todo == e.todo - {k} && k in e.todo;
    }
  }

  lemma {:induction false} CompleteAccounted(e: Exec, k: string)
    requires Accounted(e) && MayComplete(e, k)
    ensures Accounted(AfterComplete(e, k))
  {
    hide DepsSatisfied, ShouldRun, GraphOf;
    var g, e' := GraphOf(e.plan), AfterComplete(e, k);
    assert e'.remaining + e'.inflight + e'.results.Keys == e.remaining + e.inflight + e.results.Keys;
    forall d | d in e'.todo + e'.inflight ensures DepsSatisfied(g[d], e'.results) {
      StillSatisfied(g[d], e.results, e'.results);
    }
  }

  lemma {:induction false} CompleteRight(e: Exec, k: string)
    requires Accounted(e) && DecidedRight(e) && MayComplete(e, k)
    ensures DecidedRight(AfterComplete(e, k))
  {
    hide DepsSatisfied, ShouldRun, GraphOf, Final, Stuck, Executes, SkippedRun, ConditionRun;
    var g, work, e' := GraphOf(e.plan), e.plan.work, AfterComplete(e, k);
    SignalsOf(e);
    DecidesRight(g, work, e.results, k);
    assert e.started + {k} == e.started;
    DecideKeepsRight(e, k, e');
  }

  lemma {:induction false} CompleteOk(e: Exec, k: string)
    requires ExecOk(e) && MayComplete(e, k)
    ensures ExecOk(AfterComplete(e, k))
  {
    hide Accounted, DecidedRight, GraphOf;
    CompleteAccounted(e, k);
    CompleteRight(e, k);
  }

  // ------------------------------------------------------------- every step keeps it

  /** The steps that only move the executor leave the store's view of the run as it was. */
  lemma MovedAgrees(id: int, e: Exec, e': Exec, r: Record)
    requires Agrees(id, e, r) && e'.plan == e.plan
    requires e.phase in {AtTop, InWave, Closing} && e'.phase in {AtTop, InWave, Closing}
    ensures Agrees(id, e', r)
  {
  }

  lemma ClosingIsFinal(e: Exec)
    requires ExecOk(e) && e.phase == Closing
    ensures e.results == FinalResults(GraphOf(e.plan), e.plan.work)
    ensures forall t | t in e.plan.tasks :: t.key in e.results
  {
    hide Final, Executes, Stuck, DepsSatisfied, WavesBounded;
    AllFinal(GraphOf(e.plan), e.plan.work, e.results);
  }

  lemma AllFinal(g: Graph, work: Work, results: Results)
    requires results.Keys == g.Keys && forall k | k in results :: results[k] == Final(g, work, k)
    ensures results == FinalResults(g, work)
  {
    hide Final;
  }

  lemma {:induction false} PublishAgrees(id: int, e: Exec, e': Exec, runs: Records, r: Record)
    requires id in runs && Agrees(id, e, runs[id]) && r.id == id
    requires runs[id].resultState != Canceled ==> Agrees(id, e', r)
    ensures id in Publish(runs, r) && Agrees(id, e', Publish(runs, r)[id])
  {
  }

  lemma {:induction false} CancelAgrees(id: int, e: Exec, runs: Records, target: int)
    requires id in runs && Agrees(id, e, runs[id])
    ensures id in Cancel(runs, target) && Agrees(id, e, Cancel(runs, target)[id])
  {
  }

  ghost predicate Fine(s: System, id: int)
  {
    id in s.execs && id in s.runs && id <= s.nextID && ExecOk(s.execs[id]) && Agrees(id, s.execs[id], s.runs[id])
  }

  /** The run an action concerns. */
  function Owner(s: System, a: Action): int
  {
    match a
    case Launch(_) => s.nextID + 1
    case CancelRequest(i) => i
    case Read(i) => i
    case Begin(i) => i
    case Refuse(i) => i
    case Check(i) => i
    case Dispatch(i, _) => i
    case Complete(i, _) => i
    case EndWave(i) => i
    case Close(i) => i
  }

  /** An action does not concern the runs it does not name. */
  lemma OthersUntouched(s: System, a: Action, id: int)
    requires Enabled(s, a) && id in s.execs && id in s.runs && id <= s.nextID && id != Owner(s, a)
    ensures
      var s' := Step(s, a);
      && id in s'.execs && id in s'.runs && s'.execs[id] == s.execs[id] && s'.runs[id] == s.runs[id]
      && s.nextID <= s'.nextID
  {
    hide AfterCheck, AfterDispatch, AfterComplete, NewExec, Conclude;
  }

  /** The executor of the run the action names, afterwards. */
  lemma {:induction false} OwnExecOk(s: System, a: Action, id: int)
    requires Enabled(s, a) && Fine(s, id) && id == Owner(s, a) && !a.Launch?
    ensures var s' := Step(s, a); id in s'.execs && ExecOk(s'.execs[id])
  {
    hide ExecOk, AfterCheck, AfterDispatch, AfterComplete, NewExec, Agrees, Publish, RunningRecord, RefusedRecord,
      ClosedRecord, PendingRecord, Cancel, GraphOf;
    var e := s.execs[id];
    match a
    case Begin(_) => NothingInFlight(e); MoveOk(e, if e.plan.attached then AtTop else Refusing);
    case Refuse(_) => NothingInFlight(e); MoveOk(e, Done);
    case Check(_) => CheckOk(e, IsCanceled(s.runs, id));
    case Dispatch(_, k) => DispatchOk(e, k);
    case Complete(_, k) => CompleteOk(e, k);
    case EndWave(_) => MoveOk(e, AtTop);
    case Close(_) => ClosedOk(e);
    case CancelRequest(_) =>
    case Read(_) =>
  }

  lemma ClosedOk(e: Exec)
    requires ExecOk(e) && e.phase == Closing
    ensures ExecOk(e.(phase := Done))
  {
    hide Final, Stuck, Executes, DepsSatisfied, GraphOf;
  }

  lemma {:induction false} OwnAgrees(s: System, a: Action, id: int)
    requires Enabled(s, a) && Fine(s, id) && id == Owner(s, a) && !a.Launch?
    ensures var s' := Step(s, a); id in s'.execs && id in s'.runs && Agrees(id, s'.execs[id], s'.runs[id])
  {
    hide ExecOk, AfterCheck, AfterDispatch, AfterComplete, NewExec, Conclude, FinalResults, ReadyKeys, MayDispatch,
      MayComplete, Agrees, RunningRecord, RefusedRecord, ClosedRecord, Publish, Cancel;
    var e, e' := s.execs[id], Step(s, a).execs[id];
    match a
    case Begin(_) => BeginAgrees(id, e, s.runs);
    case Refuse(_) => RefuseAgrees(id, e, s.runs);
    case Close(_) => CloseAgrees(id, e, s.runs);
    case CancelRequest(_) => CancelAgrees(id, e, s.runs, id);
    case Dispatch(_, k) => DispatchMoves(e, k); MovedAgrees(id, e, e', s.runs[id]);
    case Complete(_, k) => CompleteMoves(e, k); MovedAgrees(id, e, e', s.runs[id]);
    case Check(_) => CheckAgrees(id, e, s.runs);
    case EndWave(_) => MovedAgrees(id, e, e', s.runs[id]);
    case Read(_) =>
  }

  lemma BeginAgrees(id: int, e: Exec, runs: Records)
    requires id in runs && Agrees(id, e, runs[id]) && e.phase == Starting
    ensures
      var runs' := Publish(runs, RunningRecord(id, e.plan));
      id in runs' && Agrees(id, e.(phase := if e.plan.attached then AtTop else Refusing), runs'[id])
  {
    PublishAgrees(id, e, e.(phase := if e.plan.attached then AtTop else Refusing), runs, RunningRecord(id, e.plan));
  }

  lemma RefuseAgrees(id: int, e: Exec, runs: Records)
    requires id in runs && Agrees(id, e, runs[id]) && e.phase == Refusing
    ensures
      var runs' := Publish(runs, RefusedRecord(id, e.plan));
      id in runs' && Agrees(id, e.(phase := Done), runs'[id])
  {
    PublishAgrees(id, e, e.(phase := Done), runs, RefusedRecord(id, e.plan));
  }

  lemma CloseAgrees(id: int, e: Exec, runs: Records)
    requires id in runs && Agrees(id, e, runs[id]) && ExecOk(e) && MayClose(e)
    ensures
      var runs' := Publish(runs, ClosedRecord(id, e.plan, e.results));
      id in runs' && Agrees(id, e.(phase := Done), runs'[id])
  {
    hide ExecOk, FinalResults, Conclude, GraphOf, IsCanceled;
    ClosingIsFinal(e);
    ConcludesOneWay(e.plan.tasks, e.results);
    PublishAgrees(id, e, e.(phase := Done), runs, ClosedRecord(id, e.plan, e.results));
  }

  lemma ConcludesOneWay(tasks: seq<Task>, results: Results)
    requires forall t | t in tasks :: t.key in results
    ensures Conclude(tasks, results).state in {Success, Failed}
  {
    hide Stdouts, Stderrs, AnyFailed;
  }

  lemma CheckAgrees(id: int, e: Exec, runs: Records)
    requires id in runs && Agrees(id, e, runs[id]) && e.phase == AtTop
    ensures Agrees(id, AfterCheck(e, IsCanceled(runs, id)), runs[id])
  {
    hide ReadyKeys, FinalResults, Conclude, RunningRecord, SkippedRun;
  }

  lemma DispatchMoves(e: Exec, k: string)
    requires MayDispatch(e, k)
    ensures e.phase == InWave && AfterDispatch(e, k).phase == InWave && AfterDispatch(e, k).plan == e.plan
  {
  }

  lemma CompleteMoves(e: Exec, k: string)
    requires MayComplete(e, k)
    ensures e.phase == InWave && AfterComplete(e, k).phase == InWave && AfterComplete(e, k).plan == e.plan
  {
  }

  lemma {:induction false} StepKeepsFine(s: System, a: Action, id: int)
    requires Enabled(s, a) && Fine(s, id)
    ensures Fine(Step(s, a), id)
  {
    hide ExecOk, Agrees, AfterCheck, AfterDispatch, AfterComplete, NewExec, Conclude;
    if id == Owner(s, a) {
      OwnExecOk(s, a, id);
      OwnAgrees(s, a, id);
    } else {
      OthersUntouched(s, a, id);
    }
  }

  ghost predicate AllFine(s: System)
  {
    s.runs.Keys == s.execs.Keys && forall id | id in s.execs :: Fine(s, id)
  }

  lemma {:induction false} StepKeepsAllFine(s: System, a: Action)
    requires Enabled(s, a) && AllFine(s)
    ensures AllFine(Step(s, a))
  {
    hide Fine, Step, Enabled;
    var s' := Step(s, a);
    StepKeys(s, a);
    forall id | id in s'.execs ensures Fine(s', id) {
      if id in s.execs {
        StepKeepsFine(s, a, id);
      } else {
        LaunchedIsFine(s, a.plan);
      }
    }
  }

  lemma StepKeys(s: System, a: Action)
    requires Enabled(s, a) && s.runs.Keys == s.execs.Keys
    ensures Step(s, a).runs.Keys == Step(s, a).execs.Keys == s.execs.Keys + if a.Launch? then {s.nextID + 1} else {}
  {
    hide AfterCheck, AfterDispatch, AfterComplete, NewExec, MayDispatch, MayComplete, Conclude, InTaskOrder;
  }

  lemma LaunchedIsFine(s: System, p: Plan)
    ensures Fine(Step(s, Launch(p)), s.nextID + 1)
  {
    hide ExecOk;
    NewExecOk(p);
  }

  /** The invariant holds in every state of every trace. */
  lemma {:induction false} Always(t: Trace, i: nat)
    requires IsTrace(t) && i < |t.states|
    ensures AllFine(t.states[i])
  {
    hide Fine, Step, Enabled;
    if i > 0 {
      Always(t, i - 1);
      StepKeepsAllFine(t.states[i - 1], t.actions[i - 1]);
      assert t.states[i - 1 + 1] == Step(t.states[i - 1], t.actions[i - 1]);
    }
  }

  // -------------------------------------------------------------- what a caller observes

  function LifeRank(l: LifeCycle): nat
  {
    match l
    case Unset => 0
    case Pending => 1
    case Running => 2
    case Terminated => 3
  }

  lemma {:induction false} StepMovesForward(s: System, a: Action, id: int)
    requires Enabled(s, a) && Fine(s, id)
    ensures
      var s' := Step(s, a);
      && id in s'.runs
      && LifeRank(s.runs[id].lifeCycle) <= LifeRank(s'.runs[id].lifeCycle)
      && (s.runs[id].lifeCycle == Terminated ==> s'.runs[id] == s.runs[id])
  {
    hide ExecOk, AfterCheck, AfterDispatch, AfterComplete, NewExec, Conclude, FinalResults;
    if id != Owner(s, a) {
      OthersUntouched(s, a, id);
    }
  }

  /** Whatever interleaves, a run's life cycle only moves forward from PENDING through RUNNING to
      TERMINATED, and a terminated run's record (a cancelled one's above all) never changes. */
  lemma {:induction false} LifeCycleMovesForward(t: Trace, id: int, i: nat, j: nat)
    requires IsTrace(t) && i <= j < |t.states| && id in t.states[i].runs
    ensures id in t.states[j].runs
    ensures LifeRank(t.states[i].runs[id].lifeCycle) <= LifeRank(t.states[j].runs[id].lifeCycle)
    ensures t.states[i].runs[id].lifeCycle == Terminated ==> t.states[j].runs[id] == t.states[i].runs[id]
    ensures t.states[i].runs[id].lifeCycle in {Pending, Running, Terminated}
    decreases j - i
  {
    hide Step, Enabled, ExecOk;
    FineAt(t, id, i);
    KnownLifeCycle(t.states[i], id);
    if i < j {
      assert t.states[i + 1] == Step(t.states[i], t.actions[i]);
      StepMovesForward(t.states[i], t.actions[i], id);
      LifeCycleMovesForward(t, id, i + 1, j);
    }
  }

  lemma FineAt(t: Trace, id: int, i: nat)
    requires IsTrace(t) && i < |t.states| && id in t.states[i].runs
    ensures Fine(t.states[i], id)
    ensures i < |t.actions| ==> Enabled(t.states[i], t.actions[i])
  {
    hide Fine, Step, Enabled;
    Always(t, i);
  }

  lemma KnownLifeCycle(s: System, id: int)
    requires Fine(s, id)
    ensures s.runs[id].lifeCycle in {Pending, Running, Terminated}
    ensures s.runs[id].resultState == Canceled ==> s.runs[id].lifeCycle == Terminated
  {
    hide ExecOk, Conclude, FinalResults;
  }

  /** Once CANCELED, always CANCELED, with the record the cancel left. */
  lemma {:induction false} CanceledStaysCanceled(t: Trace, id: int, i: nat, j: nat)
    requires IsTrace(t) && i <= j < |t.states| && IsCanceled(t.states[i].runs, id)
    ensures IsCanceled(t.states[j].runs, id) && t.states[j].runs[id] == t.states[i].runs[id]
  {
    FineAt(t, id, i);
    KnownLifeCycle(t.states[i], id);
    LifeCycleMovesForward(t, id, i, j);
  }

  /** A cancel that reaches a run which has not terminated marks it, and changes nothing else. */
  lemma CancelStep(s: System, id: int)
    requires id in s.runs && s.runs[id].lifeCycle != Terminated
    ensures
      var s', r, r' := Step(s, CancelRequest(id)), s.runs[id], Step(s, CancelRequest(id)).runs[id];
      && IsCanceled(s'.runs, id) && r'.lifeCycle == Terminated
      && r'.(lifeCycle := r.lifeCycle, resultState := r.resultState) == r
      && s'.runs.Keys == s.runs.Keys && s'.execs == s.execs && s'.nextID == s.nextID
      && forall i | i in s.runs && i != id :: s'.runs[i] == s.runs[i]
  {
  }

  /** The action cancels the run: it is a request to, and the run has not terminated. */
  predicate Cancels(s: System, a: Action, id: int)
  {
    a == CancelRequest(id) && id in s.runs && s.runs[id].lifeCycle != Terminated
  }

  lemma {:induction false} OnlyCancelsCancel(s: System, a: Action, id: int)
    requires Enabled(s, a) && AllFine(s)
    ensures IsCanceled(Step(s, a).runs, id) <==> IsCanceled(s.runs, id) || Cancels(s, a, id)
  {
    hide ExecOk, Agrees, Conclude, GraphOf, AfterCheck, AfterDispatch, AfterComplete, MayDispatch, MayComplete;
    assert id in s.runs ==> Fine(s, id);
    if a.Close? {
      ConcludesOneWay(s.execs[a.id].plan.tasks, s.execs[a.id].results);
    }
  }

  /** In every history a run shows CANCELED exactly when a cancel reached it before it terminated. */
  lemma {:induction false} CanceledIff(t: Trace, id: int, n: nat)
    requires IsTrace(t) && n < |t.states|
    ensures IsCanceled(t.states[n].runs, id) <==> exists i | 0 <= i < n :: Cancels(t.states[i], t.actions[i], id)
  {
    hide Step, Enabled, Fine, Cancels, IsCanceled;
    if n > 0 {
      CanceledIff(t, id, n - 1);
      var s, a := t.states[n - 1], t.actions[n - 1];
      assert Enabled(s, a) && t.states[n - 1 + 1] == Step(s, a);
      Always(t, n - 1);
      OnlyCancelsCancel(s, a, id);
    } else {
      NothingCanceled(id);
    }
  }

  lemma NothingCanceled(id: int)
    ensures !IsCanceled(INITIAL.runs, id)
  {
  }

  /** What a caller sees of a run nobody cancelled tells where its executor is: PENDING until it begins,
      then RUNNING with no result, under the executor's name, and TERMINATED when it is done. */
  lemma {:induction false} ObservedIsWhereItStands(t: Trace, id: int, i: nat)
    requires IsTrace(t) && i < |t.states| && id in t.states[i].runs && !IsCanceled(t.states[i].runs, id)
    ensures id in t.states[i].execs
    ensures
      var r, e := t.states[i].runs[id], t.states[i].execs[id];
      && r.id == id && r.jobID == e.plan.jobID
      && (r.lifeCycle == Pending <==> e.phase == Starting) && (r.lifeCycle == Terminated <==> e.phase == Done)
      && (r.lifeCycle == Running <==> e.phase !in {Starting, Done})
      && (r.executedBy == "" <==> e.phase == Starting)
      && (r.resultState == NoResult <==> e.phase != Done)
      && (e.phase != Done ==> r.tasks == [] && r.stdout == r.stderr == r.stateMessage == "")
  {
    hide IsTrace, ExecOk, FinalResults, GraphOf, InTaskOrder, Stdouts, Stderrs, AnyFailed;
    FineAt(t, id, i);
  }

  lemma {:induction false} CanceledOpensNoWave(s: System, a: Action, id: int)
    requires Enabled(s, a) && Fine(s, id) && IsCanceled(s.runs, id)
    ensures
      var s' := Step(s, a);
      id in s'.execs && s'.execs[id].wave == s.execs[id].wave && s'.execs[id].todo <= s.execs[id].todo
  {
    hide ExecOk, Conclude, FinalResults, ReadyKeys, ShouldRun, Agrees, GraphOf, Publish, Cancel, RunningRecord,
      RefusedRecord, ClosedRecord;
    if id != Owner(s, a) {
      OthersUntouched(s, a, id);
    }
  }

  /** After a cancel no further wave begins: a task dispatched later was already waiting in the
      wave whose cancel check had passed when the cancel came. */
  lemma {:induction false} DispatchAfterCancel(t: Trace, id: int, i: nat, j: nat)
    requires IsTrace(t) && i <= j < |t.states| && IsCanceled(t.states[i].runs, id)
    ensures id in t.states[i].execs && id in t.states[j].execs
    ensures t.states[j].execs[id].wave == t.states[i].execs[id].wave
    ensures t.states[j].execs[id].todo <= t.states[i].execs[id].todo
    ensures forall k | j < |t.actions| && t.actions[j] == Dispatch(id, k) :: k in t.states[i].execs[id].todo
    decreases j - i
  {
    hide Step, ExecOk, Agrees;
    FineAt(t, id, i);
    if i < j {
      assert t.states[i + 1] == Step(t.states[i], t.actions[i]);
      CanceledOpensNoWave(t.states[i], t.actions[i], id);
      CanceledStaysCanceled(t, id, i, i + 1);
      DispatchAfterCancel(t, id, i + 1, j);
    }
  }

  // ------------------------------------------------------------------- confluence

  /** However its waves interleave, an uncancelled run that is done shows the record its plan
      means: every task's result decided from its dependencies' results alone. */
  lemma {:induction false} DoneMeansMeant(t: Trace, id: int, i: nat)
    requires IsTrace(t) && i < |t.states| && id in t.states[i].execs
    requires t.states[i].execs[id].phase == Done && !IsCanceled(t.states[i].runs, id)
    ensures
      var e := t.states[i].execs[id];
      && id in t.states[i].runs
      && (!e.plan.attached ==> t.states[i].runs[id] == RefusedRecord(id, e.plan))
      && (e.plan.attached ==>
           var results := FinalResults(GraphOf(e.plan), e.plan.work);
           && e.results == results && (forall t | t in e.plan.tasks :: t.key in results)
           && t.states[i].runs[id] == ClosedRecord(id, e.plan, results))
  {
    hide Step, Enabled, ExecOk, Conclude, FinalResults, GraphOf, ClosedRecord, RefusedRecord, RunningRecord;
    Always(t, i);
    assert Fine(t.states[i], id);
  }

  /** Two executions of one plan, in any two histories, end with the same record. */
  lemma {:induction false} Confluence(t1: Trace, id1: int, i1: nat, t2: Trace, id2: int, i2: nat)
    requires IsTrace(t1) && i1 < |t1.states| && id1 in t1.states[i1].execs
    requires IsTrace(t2) && i2 < |t2.states| && id2 in t2.states[i2].execs
    requires t1.states[i1].execs[id1].phase == Done && !IsCanceled(t1.states[i1].runs, id1)
    requires t2.states[i2].execs[id2].phase == Done && !IsCanceled(t2.states[i2].runs, id2)
    requires t1.states[i1].execs[id1].plan == t2.states[i2].execs[id2].plan
    ensures id1 in t1.states[i1].runs && id2 in t2.states[i2].runs
    ensures t1.states[i1].runs[id1].(id := 0) == t2.states[i2].runs[id2].(id := 0)
    ensures t1.states[i1].execs[id1].plan.attached ==>
      t1.states[i1].execs[id1].results == t2.states[i2].execs[id2].results
  {
    hide IsTrace, Conclude, FinalResults, GraphOf, IsCanceled;
    DoneMeansMeant(t1, id1, i1);
    DoneMeansMeant(t2, id2, i2);
  }

  /** The record shows the given ending. */
  predicate Shows(r: Record, e: Ending)
  {
    && r.lifeCycle == Terminated && r.resultState == e.state && r.stateMessage == e.message
    && r.tasks == e.tasks && r.stdout == e.stdout && r.stderr == e.stderr
  }

  lemma ClosedShows(id: int, p: Plan, results: Results)
    requires forall t | t in p.tasks :: t.key in results
    ensures Shows(ClosedRecord(id, p, results), Conclude(p.tasks, results))
  {
    hide InTaskOrder, Stdouts, Stderrs, AnyFailed;
  }

  lemma RefusedShows(id: int, p: Plan)
    ensures Shows(RefusedRecord(id, p), NoEngine())
  {
  }

  /** A job's run whose tasks answer as the recursive meaning says, done and not cancelled, shows
      that meaning, with or without an engine. (RunTree lets its child runs interleave too.) */
  lemma {:induction false} DoneShowsMeaning(t: Trace, id: int, i: nat, env: Env, job: Job, depth: nat, path: Path)
    requires IsTrace(t) && i < |t.states| && id in t.states[i].execs
    requires t.states[i].execs[id].phase == Done && !IsCanceled(t.states[i].runs, id)
    requires t.states[i].execs[id].plan == Plan(job.id, job.tasks, WorkAt(env, depth, path), env.attached)
    ensures id in t.states[i].runs && Shows(t.states[i].runs[id], RunMeaning(env, job, depth, path))
  {
    hide IsTrace, FinalResults, Conclude, WorkAt, ByKey, IsCanceled, Shows, ClosedRecord, RefusedRecord;
    DoneMeansMeant(t, id, i);
    RefusedShows(id, t.states[i].execs[id].plan);
    if env.attached {
      ClosedShows(id, t.states[i].execs[id].plan, t.states[i].execs[id].results);
    }
  }

  /** In every reachable state, of cancelled runs too, what is decided is right, and what has run
      is among the tasks that execute. */
  lemma {:induction false} NothingWrongEver(t: Trace, id: int, i: nat, k: string)
    requires IsTrace(t) && i < |t.states| && id in t.states[i].execs
    ensures
      var e := t.states[i].execs[id];
      && (k in e.results ==> e.results[k] == Final(GraphOf(e.plan), e.plan.work, k))
      && (k in e.started ==> k in GraphOf(e.plan) && Executes(GraphOf(e.plan), e.plan.work, k))
  {
    hide Step, Enabled, Final, Executes, Stuck, Agrees;
    Always(t, i);
    assert Fine(t.states[i], id);
  }

  /** No reachable state has run tasks on or below both arms of one condition. */
  lemma {:induction false} NoStateRunsBothArms(
      t: Trace, id: int, i: nat, k1: string, u1: string, k2: string, u2: string, c: string)
    requires IsTrace(t) && i < |t.states| && id in t.states[i].execs
    ensures
      var e := t.states[i].execs[id];
      var g := GraphOf(e.plan);
      AllSuccessRules(g) && OnArm(g, u1, c, OnTrue) && DownstreamOf(g, k1, u1) &&
      OnArm(g, u2, c, OnFalse) && DownstreamOf(g, k2, u2) ==>
        !(k1 in e.started && k2 in e.started)
  {
    hide IsTrace, Executes, DownstreamOf, OnArm, AllSuccessRules;
    NothingWrongEver(t, id, i, k1);
    NothingWrongEver(t, id, i, k2);
    var e := t.states[i].execs[id];
    var g := GraphOf(e.plan);
    if AllSuccessRules(g) && OnArm(g, u1, c, OnTrue) && DownstreamOf(g, k1, u1) &&
       OnArm(g, u2, c, OnFalse) && DownstreamOf(g, k2, u2) && k1 in e.started && k2 in e.started {
      NeverBothArms(g, e.plan.work, k1, u1, k2, u2, c);
    }
  }

  /** The task has its result, or is running for it. */
  predicate Settled(e: Exec, k: string) { k in e.results || k in e.inflight }

  /** Its dependencies have results, or it is stuck. */
  ghost predicate MaySettle(e: Exec, k: string)
  {
    k in GraphOf(e.plan) && (DepsSatisfied(GraphOf(e.plan)[k], e.results) || Stuck(GraphOf(e.plan), k))
  }

  lemma CheckSettles(e: Exec, canceled: bool, k: string)
    requires ExecOk(e) && e.phase == AtTop && !Settled(e, k) && Settled(AfterCheck(e, canceled), k)
    ensures MaySettle(e, k)
  {
    hide ExecOk, GraphOf, ReadyKeys, SkippedRun, DepsSatisfied, Stuck;
    SkippedIsStuck(e, k);
  }

  lemma DispatchSettles(e: Exec, d: string, k: string)
    requires MayDispatch(e, d) && !Settled(e, k) && Settled(AfterDispatch(e, d), k)
    ensures MaySettle(e, k)
  {
    hide GraphOf, ShouldRun, DepsSatisfied, Stuck, SkippedRun, ConditionRun;
  }

  lemma CompleteSettles(e: Exec, d: string, k: string)
    requires MayComplete(e, d) && !Settled(e, k)
    ensures !Settled(AfterComplete(e, d), k)
  {
  }

  lemma {:induction false} SettlesAfterDependencies(s: System, a: Action, id: int, k: string)
    requires Enabled(s, a) && Fine(s, id) && !Settled(s.execs[id], k)
    requires id in Step(s, a).execs && Settled(Step(s, a).execs[id], k)
    ensures MaySettle(s.execs[id], k)
  {
    hide Agrees, ExecOk, AfterCheck, AfterDispatch, AfterComplete, NewExec, MayDispatch, MayComplete, MaySettle,
      Publish, Cancel, RunningRecord, RefusedRecord, ClosedRecord;
    var e := s.execs[id];
    if id != Owner(s, a) {
      OthersUntouched(s, a, id);
    } else {
      match a
      case Check(_) => CheckSettles(e, IsCanceled(s.runs, id), k);
      case Dispatch(_, d) => DispatchSettles(e, d, k);
      case Complete(_, d) => CompleteSettles(e, d, k);
      case _ =>
    }
  }

  /** A task is decided, or sent to the engine, only after all its dependencies have results;
      only a stuck task gets its result otherwise. */
  lemma {:induction false} DependenciesFirst(t: Trace, id: int, i: nat, k: string)
    requires IsTrace(t) && i < |t.actions| && id in t.states[i].execs && id in t.states[i + 1].execs
    requires !Settled(t.states[i].execs[id], k) && Settled(t.states[i + 1].execs[id], k)
    ensures MaySettle(t.states[i].execs[id], k)
  {
    hide Fine, Step, Enabled, Settled, MaySettle;
    Always(t, i);
    assert t.states[i + 1] == Step(t.states[i], t.actions[i]);
    SettlesAfterDependencies(t.states[i], t.actions[i], id, k);
  }

  lemma SkippedIsStuck(e: Exec, k: string)
    requires ExecOk(e) && e.phase == AtTop && ReadyKeys(e) == {} && k in e.remaining
    ensures k in GraphOf(e.plan) && Stuck(GraphOf(e.plan), k)
  {
    hide Final, Executes, DepsSatisfied, Stuck, GraphOf;
    var g, work := GraphOf(e.plan), e.plan.work;
    forall k | k in g && k !in e.results ensures !DepsSatisfied(g[k], e.results) {
      assert k in e.remaining && k !in ReadyKeys(e);
    }
    SignalsOf(e);
    LeftOversAreStuck(g, work, e.results);
  }

  // ------------------------------------------------------------------- progress

  /** What an executor still has to do. Every step of its own uses some of it up. */
  function Work2Do(e: Exec): nat
  {
    4 * |e.remaining| + |e.inflight| +
    match e.phase
    case Starting => 6
    case Refusing => 1
    case AtTop => 2
    case InWave => if e.todo == {} then 3 else 1
    case Closing => 1
    case Done => 0
  }

  predicate OwnMove(s: System, a: Action, id: int)
  {
    Owner(s, a) == id && !a.Launch? && !a.CancelRequest? && !a.Read?
  }

  /** The executor has a step of its own to take. */
  ghost predicate CanMove(s: System, id: int) { exists a :: Enabled(s, a) && OwnMove(s, a, id) }

  lemma Moves(s: System, id: int, a: Action)
    requires Enabled(s, a) && OwnMove(s, a, id)
    ensures CanMove(s, id)
  {
    hide Enabled, OwnMove;
  }

  lemma WaitingMayGo(e: Exec, k: string)
    requires ExecOk(e) && e.phase == InWave
    ensures k in e.todo ==> MayDispatch(e, k)
    ensures k in e.inflight ==> MayComplete(e, k)
  {
    hide DecidedRight, WavesBounded, DepsSatisfied, GraphOf;
    assert k in e.todo ==> k in e.remaining;
  }

  lemma MayCloseThen(e: Exec)
    requires ExecOk(e) && e.phase == Closing
    ensures MayClose(e)
  {
    hide ExecOk;
    ClosingIsFinal(e);
  }

  /** An executor that is not done always has a step of its own to take: none ever blocks. */
  lemma {:induction false} CannotBlock(s: System, id: int)
    requires Fine(s, id) && s.execs[id].phase != Done
    ensures CanMove(s, id)
  {
    hide ExecOk, Agrees, MayDispatch, MayComplete, MayClose, CanMove;
    var e := s.execs[id];
    if e.phase == Starting {
      Moves(s, id, Begin(id));
    } else if e.phase == Refusing {
      Moves(s, id, Refuse(id));
    } else if e.phase == AtTop {
      Moves(s, id, Check(id));
    } else if e.phase == Closing {
      MayCloseThen(e);
      Moves(s, id, Close(id));
    } else if e.todo != {} {
      var k :| k in e.todo;
      WaitingMayGo(e, k);
      Moves(s, id, Dispatch(id, k));
    } else if e.inflight != {} {
      var k :| k in e.inflight;
      WaitingMayGo(e, k);
      Moves(s, id, Complete(id, k));
    } else {
      Moves(s, id, EndWave(id));
    }
  }

  lemma {:induction false} CheckUsesUp(e: Exec, canceled: bool)
    requires e.phase == AtTop
    ensures Work2Do(AfterCheck(e, canceled)) < Work2Do(e) && AfterCheck(e, canceled).plan == e.plan
  {
    hide ReadyKeys, SkippedRun;
  }

  lemma DispatchSizes(e: Exec, k: string)
    requires MayDispatch(e, k) && e.todo <= e.remaining
    ensures
      var e' := AfterDispatch(e, k);
      && |e'.remaining| == |e.remaining| - 1 && |e'.inflight| <= |e.inflight| + 1
      && e'.phase == InWave && e'.plan == e.plan
  {
    hide DepsSatisfied, ShouldRun, GraphOf, SkippedRun, ConditionRun;
    assert k in e.remaining;
  }

  lemma DispatchUsesUp(e: Exec, k: string)
    requires MayDispatch(e, k) && e.todo <= e.remaining
    ensures Work2Do(AfterDispatch(e, k)) < Work2Do(e)
  {
    hide AfterDispatch, DepsSatisfied, GraphOf;
    DispatchSizes(e, k);
  }

  lemma CompleteUsesUp(e: Exec, k: string)
    requires MayComplete(e, k)
    ensures Work2Do(AfterComplete(e, k)) < Work2Do(e)
  {
    hide GraphOf;
    assert |e.inflight - {k}| == |e.inflight| - 1;
  }

  lemma TodoRemains(e: Exec)
    requires ExecOk(e)
    ensures e.todo <= e.remaining && (e.phase != InWave ==> e.inflight == {} && e.todo == {})
  {
    hide DepsSatisfied, DecidedRight, WavesBounded, GraphOf;
  }

  /** Every step an executor takes uses up some of its work; other actions leave it alone. */
  lemma {:induction false} MovesUseUpWork(s: System, a: Action, id: int)
    requires Enabled(s, a) && Fine(s, id)
    ensures id in Step(s, a).execs && Step(s, a).execs[id].plan == s.execs[id].plan
    ensures Work2Do(Step(s, a).execs[id]) + (if OwnMove(s, a, id) then 1 else 0) <= Work2Do(s.execs[id])
  {
    hide Agrees, Conclude, ReadyKeys, ExecOk, AfterDispatch, AfterComplete, AfterCheck, MayDispatch, MayComplete,
      Publish, RunningRecord, RefusedRecord, ClosedRecord;
    var e := s.execs[id];
    TodoRemains(e);
    if id != Owner(s, a) {
      OthersUntouched(s, a, id);
    } else {
      match a
      case Check(_) => CheckUsesUp(e, IsCanceled(s.runs, id));
      case Dispatch(_, k) => DispatchUsesUp(e, k); DispatchMoves(e, k);
      case Complete(_, k) => CompleteUsesUp(e, k); CompleteMoves(e, k);
      case _ =>
    }
  }

  /** How many steps the executor of a run took in the first n actions. */
  ghost function MovesIn(t: Trace, id: int, n: nat): nat
    requires n <= |t.actions| && n <= |t.states|
  {
    if n == 0 then 0 else MovesIn(t, id, n - 1) + if OwnMove(t.states[n - 1], t.actions[n - 1], id) then 1 else 0
  }

  /** A run's executor takes at most four steps per task and six more, in any interleaving, and
      begins at most one wave per task: no run goes on for ever. */
  lemma {:induction false} RunsEnd(t: Trace, id: int, n: nat)
    requires IsTrace(t) && n < |t.states| && id in t.states[n].execs
    ensures
      var e := t.states[n].execs[id];
      && MovesIn(t, id, n) + Work2Do(e) <= 4 * |GraphOf(e.plan)| + 6
      && e.wave <= |GraphOf(e.plan)|
  {
    hide Step, Fine, Work2Do, OwnMove, GraphOf, Enabled;
    Always(t, n);
    WavesAtMostKeys(t.states[n], id);
    if n > 0 {
      var s, a := t.states[n - 1], t.actions[n - 1];
      assert Enabled(s, a) && t.states[n - 1 + 1] == Step(s, a);
      Always(t, n - 1);
      if id in s.execs {
        RunsEnd(t, id, n - 1);
        MovesUseUpWork(s, a, id);
      } else {
        JustLaunched(t, id, n);
      }
    }
  }

  lemma WavesAtMostKeys(s: System, id: int)
    requires Fine(s, id)
    ensures s.execs[id].wave <= |GraphOf(s.execs[id].plan)|
  {
    hide Accounted, DecidedRight, Agrees, GraphOf;
  }

  lemma {:induction false} NoMovesBefore(t: Trace, id: int, n: nat)
    requires IsTrace(t) && n < |t.states| && id !in t.states[n].execs
    ensures MovesIn(t, id, n) == 0
  {
    hide Fine, Agrees, ExecOk, AfterCheck, AfterDispatch, AfterComplete, Conclude;
    if n > 0 {
      var s, a := t.states[n - 1], t.actions[n - 1];
      assert Enabled(s, a) && t.states[n - 1 + 1] == Step(s, a);
      assert id !in s.execs;
      NoMovesBefore(t, id, n - 1);
    }
  }

  lemma {:induction false} JustLaunched(t: Trace, id: int, n: nat)
    requires IsTrace(t) && 0 < n < |t.states| && id in t.states[n].execs && id !in t.states[n - 1].execs
    ensures MovesIn(t, id, n) + Work2Do(t.states[n].execs[id]) == 4 * |GraphOf(t.states[n].execs[id].plan)| + 6
  {
    hide Fine, Agrees, ExecOk, AfterCheck, AfterDispatch, AfterComplete, GraphOf, MayDispatch, MayComplete, MayClose,
      Publish, Cancel, RunningRecord, RefusedRecord, ClosedRecord;
    var s, a := t.states[n - 1], t.actions[n - 1];
    assert Enabled(s, a) && t.states[n - 1 + 1] == Step(s, a);
    NoMovesBefore(t, id, n - 1);
    assert a.Launch?;
  }
}
