// Child run ids: what task results say when they are forgotten, and what the ids promise.
module ChildIds {
  import opened JobModel
  import opened Scheduler
  import opened NestedRuns
  import opened RunStore

  /** The result with every child run id forgotten. */
  function Strip(tr: TaskRun): TaskRun
  {
    tr.(childRunID := 0,
        iterations := seq(|tr.iterations|, i requires 0 <= i < |tr.iterations| => Strip(tr.iterations[i])))
  }

  /** Nothing else is forgotten, in the result or in its iterations. */
  lemma {:induction false} StripForgetsIdsOnly(tr: TaskRun)
    ensures Strip(tr).childRunID == 0 && |Strip(tr).iterations| == |tr.iterations|
    ensures Strip(tr).(childRunID := tr.childRunID, iterations := tr.iterations) == tr
    ensures forall i | 0 <= i < |tr.iterations| :: Strip(tr).iterations[i] == Strip(tr.iterations[i])
    ensures Strip(Strip(tr)) == Strip(tr)
  {
    forall i | 0 <= i < |tr.iterations| ensures Strip(Strip(tr).iterations[i]) == Strip(tr).iterations[i] {
      StripForgetsIdsOnly(tr.iterations[i]);
    }
    assert Strip(Strip(tr)).iterations == Strip(tr).iterations;
  }

  function StripAll(runs: seq<TaskRun>): seq<TaskRun>
  {
    seq(|runs|, i requires 0 <= i < |runs| => Strip(runs[i]))
  }

  predicate SameOutput(a: TaskRun, b: TaskRun)
  {
    a.stdout == b.stdout && a.stderr == b.stderr && a.resultState == b.resultState
  }

  lemma {:induction false} OutputsAgree(a: seq<TaskRun>, b: seq<TaskRun>)
    requires |a| == |b| && forall i | 0 <= i < |a| :: SameOutput(a[i], b[i])
    ensures Stdouts(a) == Stdouts(b) && Stderrs(a) == Stderrs(b) && Unsuccessful(a) == Unsuccessful(b)
    ensures AnyFailed(a) == AnyFailed(b)
    decreases |a|
  {
    if a != [] {
      OutputsAgree(a[..|a| - 1], b[..|b| - 1]);
      assert SameOutput(a[|a| - 1], b[|b| - 1]);
    }
    assert AnyFailed(a) <==> exists i | 0 <= i < |a| :: a[i].resultState == Failed;
    assert AnyFailed(b) <==> exists i | 0 <= i < |b| :: b[i].resultState == Failed;
  }

  lemma StripLoop(key: string, runs: seq<TaskRun>)
    ensures Strip(LoopRun(key, runs)) == LoopRun(key, StripAll(runs))
  {
    OutputsAgree(runs, StripAll(runs));
  }

  lemma StripPlain(tr: TaskRun)
    requires tr.iterations == [] && tr.childRunID == 0
    ensures Strip(tr) == tr
  {
    assert Strip(tr).iterations == [];
  }

  lemma StripAgrees(runs: seq<TaskRun>)
    ensures |StripAll(runs)| == |runs| && forall i | 0 <= i < |runs| :: SameOutput(runs[i], StripAll(runs)[i])
  {
  }

  lemma {:induction false} ConcludesAlike(tasks: seq<Task>, results: Results, meant: Results)
    requires (forall t | t in tasks :: t.key in results) && (forall t | t in tasks :: t.key in meant)
    requires forall t | t in tasks :: Strip(results[t.key]) == meant[t.key]
    ensures
      var e, m := Conclude(tasks, results), Conclude(tasks, meant);
      && e.state == m.state && e.message == m.message && StripAll(e.tasks) == m.tasks
      && e.stdout == m.stdout && e.stderr == m.stderr
  {
    hide Strip, SameOutput, Stdouts, Stderrs, AnyFailed;
    var listed, wanted := InTaskOrder(tasks, results), InTaskOrder(tasks, meant);
    assert StripAll(listed) == wanted;
    StripAgrees(listed);
    OutputsAgree(listed, wanted);
  }

  /** The task result carries the run's ending. */
  predicate ReportsRun(tr: TaskRun, r: Record)
  {
    tr.resultState == r.resultState && tr.stdout == r.stdout && tr.stderr == r.stderr
  }
}
