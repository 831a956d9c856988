// The run store: run records behind a lock, handed out and taken in as copies.
module RunStore {
  import opened Basics
  import opened JobModel

  /** A run record as a value: what a reader of a Run object sees. */
  datatype Record = Record(
    id: int,
    jobID: int,
    lifeCycle: LifeCycle,
    resultState: ResultState,
    stateMessage: string,
    executedBy: string,
    tasks: seq<TaskRun>,
    stdout: string,
    stderr: string)

  type Records = map<int, Record>

  // ------------------------------------------------- the store's operations on values

  const EXECUTED_BY := "the emulator's Spark engine, not a Databricks cluster"

  function PendingRecord(id: int, jobID: int): Record
  {
    Record(id, jobID, Pending, NoResult, "", "", [], "", "")
  }

  predicate IsCanceled(runs: Records, id: int) { id in runs && runs[id].resultState == Canceled }

  /** Publishing stores the record, unless the run was cancelled: a cancelled run is final. */
  function Publish(runs: Records, r: Record): Records
  {
    if IsCanceled(runs, r.id) then runs else runs[r.id := r]
  }

  function Cancel(runs: Records, id: int): Records
  {
    if id !in runs || runs[id].lifeCycle == Terminated then runs
    else runs[id := runs[id].(lifeCycle := Terminated, resultState := Canceled)]
  }

  // ------------------------------------------------------------------- run objects

  class Run {
    var id: int
    var jobID: int
    var lifeCycle: LifeCycle
    var resultState: ResultState
    var stateMessage: string
    var executedBy: string
    var tasks: array?<TaskRun>
    var stdout: string
    var stderr: string

    constructor (id: int, jobID: int)
      ensures fresh(this) && tasks == null && TaskList() == [] && this.id == id
      ensures Value() == PendingRecord(id, jobID)
    {
      this.id, this.jobID := id, jobID;
      lifeCycle, resultState := Pending, NoResult;
      stateMessage, executedBy, stdout, stderr := "", "", "", "";
      tasks := null;
    }

    ghost function TaskList(): seq<TaskRun>
      reads this, tasks
    {
      if tasks == null then [] else tasks[..]
    }

    ghost function Value(): Record
      reads this, tasks
    {
      Record(id, jobID, lifeCycle, resultState, stateMessage, executedBy, TaskList(), stdout, stderr)
    }

    lemma Fields()
      ensures Value().id == id && Value().jobID == jobID
      ensures Value().lifeCycle == lifeCycle && Value().resultState == resultState
    {
    }

    /** What a reader sees of the object. */
    lemma AllFields()
      ensures
        var r := Value();
        && r.id == id && r.jobID == jobID && r.lifeCycle == lifeCycle && r.resultState == resultState
        && r.stateMessage == stateMessage && r.executedBy == executedBy && r.stdout == stdout && r.stderr == stderr
        && r.tasks == if tasks == null then [] else tasks[..]
    {
    }

    /** A copy that shares neither the run object nor the task array. */
    method Clone() returns (copy: Run)
      ensures fresh(copy) && (copy.tasks == null || fresh(copy.tasks))
      ensures copy.Value() == Value()
      ensures copy.id == id && (copy.tasks == null <==> TaskList() == [])
    {
      copy := new Run(id, jobID);
      copy.lifeCycle, copy.resultState := lifeCycle, resultState;
      copy.stateMessage, copy.executedBy := stateMessage, executedBy;
      copy.stdout, copy.stderr := stdout, stderr;
      if tasks != null && tasks.Length > 0 {
        var from := tasks;
        copy.tasks := new TaskRun[from.Length](i requires 0 <= i < from.Length reads from => from[i]);
        assert copy.tasks[..] == tasks[..];
      }
    }

    /** A holder of a run changing every field, the task list in place where it can. */
    method Overwrite(r: Record)
      modifies this, tasks
      ensures Value() == r
      ensures tasks == old(tasks) || tasks == null || fresh(tasks)
    {
      id, jobID, lifeCycle, resultState := r.id, r.jobID, r.lifeCycle, r.resultState;
      stateMessage, executedBy, stdout, stderr := r.stateMessage, r.executedBy, r.stdout, r.stderr;
      if tasks != null && tasks.Length == |r.tasks| {
        forall i | 0 <= i < tasks.Length {
          tasks[i] := r.tasks[i];
        }
      } else {
        tasks := new TaskRun[|r.tasks|](i requires 0 <= i < |r.tasks| => r.tasks[i]);
      }
      assert TaskList() == r.tasks;
    }

    method MarkCanceled()
      modifies this
      ensures tasks == old(tasks) && id == old(id)
      ensures Value() == old(Value()).(lifeCycle := Terminated, resultState := Canceled)
    {
      lifeCycle := Terminated;
      resultState := Canceled;
    }
  }

  /** Different runs, sharing no task array. */
  ghost predicate Apart(a: Run, b: Run)
    reads a, b
  {
    a.id != b.id && (a.tasks == null || a.tasks != b.tasks)
  }

  ghost predicate AllApart(snapshots: seq<Run>)
    reads snapshots
  {
    forall i, j | 0 <= i < j < |snapshots| :: Apart(snapshots[i], snapshots[j])
  }

  lemma NonePaired()
    ensures AllApart([])
  {
  }

  // --------------------------------------------------------------------- the store

  class Store {
    ghost var contents: Records     // what the store holds, as values
    ghost var Repr: set<object>     // the objects it holds it in

    var nextID: int
    var runs: map<int, Run>

    ghost predicate Valid()
      reads this, Repr
    {
      && this in Repr
      && runs.Keys == contents.Keys
      && (forall id | id in runs :: runs[id] in Repr && (runs[id].tasks != null ==> runs[id].tasks in Repr))
      && (forall id | id in runs :: runs[id].Value() == contents[id])
      && (forall id | id in runs :: runs[id].id == id)
    }

    constructor ()
      ensures Valid() && fresh(Repr) && nextID == 0 && contents == map[]
    {
      nextID := 0;
      runs := map[];
      contents := map[];
      Repr := {this};
    }

    /** Records a PENDING run under a fresh id and returns a snapshot of it. */
    method NewRun(jobID: int) returns (snapshot: Run)
      requires Valid()
      modifies this
      ensures Valid() && fresh(Repr - old(Repr))
      ensures nextID == old(nextID) + 1
      ensures contents == old(contents)[nextID := PendingRecord(nextID, jobID)]
      ensures fresh(snapshot) && snapshot !in Repr && snapshot.tasks == null
      ensures snapshot.id == nextID && snapshot.Value() == PendingRecord(nextID, jobID)
    {
      hide Run.Value, Run.TaskList;
      nextID := nextID + 1;
      var run := new Run(nextID, jobID);
      run.Fields();
      Put(run);
      snapshot := run.Clone();
    }

    /** Stores a run object the store alone will hold. */
    method Put(run: Run)
      requires Valid()
      modifies this
      ensures Valid() && nextID == old(nextID)
      ensures Repr == old(Repr) + {run} + if run.tasks == null then {} else {run.tasks}
      ensures contents == old(contents)[run.id := run.Value()]
    {
      hide Run.Value, Run.TaskList;
      runs := runs[run.id := run];
      contents := contents[run.id := run.Value()];
      Repr := Repr + {run} + if run.tasks == null then {} else {run.tasks};
    }

    lemma StoredState(id: int)
      requires Valid()
      ensures id in runs <==> id in contents
      ensures id in runs ==>
        runs[id].resultState == contents[id].resultState && runs[id].lifeCycle == contents[id].lifeCycle
    {
    }

    /** Returns a snapshot, or null for an unknown id. */
    method GetRun(id: int) returns (snapshot: Run?)
      requires Valid()
      ensures snapshot != null <==> id in contents
      ensures snapshot != null ==> fresh(snapshot) && (snapshot.tasks == null || fresh(snapshot.tasks))
      ensures snapshot != null ==> snapshot.Value() == contents[id]
    {
      hide Run.Value, Run.TaskList;
      if id in runs {
        snapshot := runs[id].Clone();
      } else {
        snapshot := null;
      }
    }

    ghost predicate Selects(jobID: int, id: int)
      reads this
    {
      id in contents && (jobID == 0 || contents[id].jobID == jobID)
    }

    /** Returns one snapshot of every run, or of every run of one job. */
    method ListRuns(jobID: int) returns (snapshots: seq<Run>)
      requires Valid()
      ensures forall i | 0 <= i < |snapshots| :: fresh(snapshots[i])
      ensures forall i | 0 <= i < |snapshots| :: snapshots[i].tasks == null || fresh(snapshots[i].tasks)
      ensures AllApart(snapshots)
      ensures forall i | 0 <= i < |snapshots| ::
                snapshots[i].id in contents && snapshots[i].Value() == contents[snapshots[i].id]
      ensures forall id :: Selects(jobID, id) <==> exists i | 0 <= i < |snapshots| :: snapshots[i].id == id
    {
      hide Run.Value, Run.TaskList, AllApart, Apart;
      NonePaired();
      snapshots := [];
      var todo := runs.Keys;
      ghost var ids: seq<int> := [];
      while todo != {}
        invariant todo <= runs.Keys
        invariant forall i | 0 <= i < |ids| :: ids[i] in runs && Selects(jobID, ids[i]) && ids[i] !in todo
        invariant forall id | Selects(jobID, id) && id !in todo :: id in ids
        invariant |snapshots| == |ids| && forall i | 0 <= i < |ids| :: IsCopy(snapshots[i], ids[i])
        invariant forall i | 0 <= i < |ids| :: fresh(snapshots[i])
        invariant forall i | 0 <= i < |ids| :: snapshots[i].tasks == null || fresh(snapshots[i].tasks)
        invariant AllApart(snapshots)
      {
        var id := Pick(todo);
        todo := todo - {id};
        runs[id].Fields();
        if jobID == 0 || runs[id].jobID == jobID {
          snapshots := AppendCopy(snapshots, runs[id]);
          ids := ids + [id];
        }
      }
    }

    /** The object is a copy of the stored run. */
    ghost predicate IsCopy(copy: Run, id: int)
      reads this, copy, copy.tasks
    {
      copy.id == id && id in contents && copy.Value() == contents[id]
    }

    method AppendCopy(snapshots: seq<Run>, run: Run) returns (longer: seq<Run>)
      requires AllApart(snapshots) && forall i | 0 <= i < |snapshots| :: snapshots[i].id != run.id
      ensures |longer| == |snapshots| + 1 && forall i | 0 <= i < |snapshots| :: longer[i] == snapshots[i]
      ensures var copy := longer[|snapshots|];
              && fresh(copy) && (copy.tasks == null || fresh(copy.tasks))
              && copy.id == run.id && copy.Value() == run.Value()
      ensures AllApart(longer)
    {
      var copy := run.Clone();
      longer := snapshots + [copy];
    }

    /** Stores a copy of the run, unless the stored run was cancelled. */
    method UpdateRun(run: Run?)
      requires Valid()
      modifies this
      ensures Valid() && fresh(Repr - old(Repr)) && nextID == old(nextID)
      ensures contents == if run == null then old(contents) else Publish(old(contents), run.Value())
    {
      hide Run.Value, Run.TaskList, Valid;
      if run == null {
        return;
      }
      run.Fields();
      StoredState(run.id);
      if run.id in runs && runs[run.id].resultState == Canceled {
        return;
      }
      var copy := run.Clone();
      Put(copy);
    }

    /** Marks a run cancelled, in place, unless it already terminated. */
    method CancelRun(id: int) returns (ok: bool)
      requires Valid()
      modifies Repr
      ensures Valid() && Repr == old(Repr) && nextID == old(nextID)
      ensures ok == (id in old(contents))
      ensures contents == Cancel(old(contents), id)
    {
      hide Run.Value, Run.TaskList;
      ok := id in runs;
      if !ok {
        return;
      }
      StoredState(id);
      if runs[id].lifeCycle != Terminated {
        MarkStored(id);
      }
    }

    method MarkStored(id: int)
      requires Valid() && id in runs
      modifies Repr
      ensures Valid() && Repr == old(Repr) && nextID == old(nextID)
      ensures contents == old(contents)[id := old(contents)[id].(lifeCycle := Terminated, resultState := Canceled)]
    {
      hide Run.Value, Run.TaskList;
      assert forall k | k in runs && k != id :: runs[k] != runs[id];
      runs[id].MarkCanceled();
      contents := contents[id := contents[id].(lifeCycle := Terminated, resultState := Canceled)];
    }
  }

  // ------------------------------------------- callers and the store, over whole runs

  datatype Call =
    | CreateRun(jobID: int)
    | ReadRun(id: int)
    | ReadRuns(jobID: int)
    | PublishHeld(i: nat)
    | CancelStored(id: int)
    | MutateHeld(i: nat, r: Record)

  /** The store and everything its callers hold, all as plain values. */
  datatype World = World(nextID: int, runs: Records, held: seq<Record>)

  /** One record each of the runs of the job, or of all runs when no job is named, in any order. */
  ghost predicate Lists(runs: Records, jobID: int, listed: seq<Record>)
  {
    && (forall i | 0 <= i < |listed| :: listed[i].id in runs && listed[i] == runs[listed[i].id])
    && (forall i, j | 0 <= i < j < |listed| :: listed[i].id != listed[j].id)
    && forall id :: id in runs && (jobID == 0 || runs[id].jobID == jobID) <==>
         exists i | 0 <= i < |listed| :: listed[i].id == id
  }

  /** The value semantics of one call: what callers hold is theirs alone. */
  ghost predicate Next(w: World, c: Call, w': World)
  {
    match c
    case CreateRun(jobID) =>
      var r := PendingRecord(w.nextID + 1, jobID);
      w' == World(w.nextID + 1, w.runs[r.id := r], w.held + [r])
    case ReadRun(id) =>
      w' == w.(held := if id in w.runs then w.held + [w.runs[id]] else w.held)
    case ReadRuns(jobID) =>
      w.held <= w'.held && w' == w.(held := w'.held) && Lists(w.runs, jobID, w'.held[|w.held|..])
    case PublishHeld(i) =>
      w' == if i < |w.held| then w.(runs := Publish(w.runs, w.held[i])) else w
    case CancelStored(id) =>
      w' == w.(runs := Cancel(w.runs, id))
    case MutateHeld(i, r) =>
      w' == if i < |w.held| then w.(held := w.held[i := r]) else w
  }

  ghost function Arrays(held: seq<Run>): set<object>
    reads held
  {
    set i | 0 <= i < |held| && held[i].tasks != null :: held[i].tasks as object
  }

  /** Every object callers can reach through the runs they hold. */
  ghost function Reachable(held: seq<Run>): set<object>
    reads held
  {
    (set i | 0 <= i < |held| :: held[i] as object) + Arrays(held)
  }

  /** Callers hold runs with the given values; no object is held twice or owned by the store. */
  ghost predicate Holding(store: Store, held: seq<Run>, values: seq<Record>)
    reads store, store.Repr, held, Arrays(held)
  {
    && store.Valid()
    && |held| == |values|
    && (forall i | 0 <= i < |held| :: held[i].Value() == values[i])
    && (forall i | 0 <= i < |held| ::
          held[i] !in store.Repr && (held[i].tasks != null ==> held[i].tasks !in store.Repr))
    && (forall i, j | 0 <= i < j < |held| :: held[i] != held[j])
    && (forall i, j | 0 <= i < j < |held| :: held[i].tasks != null ==> held[i].tasks != held[j].tasks)
  }

  ghost function WorldOf(store: Store, values: seq<Record>): World
    reads store
  {
    World(store.nextID, store.contents, values)
  }

  method ServeCreate(store: Store, held: seq<Run>, ghost values: seq<Record>, jobID: int)
      returns (held': seq<Run>, ghost values': seq<Record>)
    requires Holding(store, held, values)
    modifies store
    ensures Holding(store, held', values') && fresh(store.Repr - old(store.Repr))
    ensures Next(old(WorldOf(store, values)), CreateRun(jobID), WorldOf(store, values'))
    ensures fresh(Reachable(held') - old(Reachable(held)))
  {
    var run := store.NewRun(jobID);
    held', values' := held + [run], values + [run.Value()];
  }

  method ServeRead(store: Store, held: seq<Run>, ghost values: seq<Record>, id: int)
      returns (held': seq<Run>, ghost values': seq<Record>)
    requires Holding(store, held, values)
    ensures Holding(store, held', values')
    ensures Next(WorldOf(store, values), ReadRun(id), WorldOf(store, values'))
    ensures fresh(Reachable(held') - old(Reachable(held)))
  {
    var run := store.GetRun(id);
    held', values' := held, values;
    if run != null {
      held', values' := held + [run], values + [run.Value()];
    }
  }

  lemma ListedHere(store: Store, jobID: int, more: seq<Run>, listed: seq<Record>)
    requires |listed| == |more|
    requires forall i | 0 <= i < |more| :: listed[i] == more[i].Value() && listed[i].id == more[i].id
    requires AllApart(more)
    requires forall i | 0 <= i < |more| :: more[i].id in store.contents && more[i].Value() == store.contents[more[i].id]
    requires forall id :: store.Selects(jobID, id) <==> exists i | 0 <= i < |more| :: more[i].id == id
    ensures Lists(store.contents, jobID, listed)
  {
    hide Run.Value, Run.TaskList;
    forall i, j | 0 <= i < j < |listed| ensures listed[i].id != listed[j].id {
      assert Apart(more[i], more[j]);
    }
    forall id ensures id in store.contents && (jobID == 0 || store.contents[id].jobID == jobID) <==>
      exists i | 0 <= i < |listed| :: listed[i].id == id
    {
      assert store.Selects(jobID, id) <==> exists i | 0 <= i < |more| :: more[i].id == id;
      if i :| 0 <= i < |more| && more[i].id == id {
        assert listed[i].id == id;
      }
      if i :| 0 <= i < |listed| && listed[i].id == id {
        assert more[i].id == id;
      }
    }
  }

  method ServeList(store: Store, held: seq<Run>, ghost values: seq<Record>, jobID: int)
      returns (held': seq<Run>, ghost values': seq<Record>)
    requires Holding(store, held, values)
    ensures Holding(store, held', values')
    ensures Next(WorldOf(store, values), ReadRuns(jobID), WorldOf(store, values'))
    ensures fresh(Reachable(held') - old(Reachable(held)))
  {
    hide Run.Value, Run.TaskList, Store.Valid, Lists;
    var more;
    ghost var listed;
    more, listed := ListValues(store, jobID);
    held', values' := held + more, values + listed;
    assert values'[|values|..] == listed;
  }

  /** The list, with what its records read. */
  method ListValues(store: Store, jobID: int) returns (more: seq<Run>, ghost listed: seq<Record>)
    requires store.Valid()
    ensures AllApart(more) && |listed| == |more| && Lists(store.contents, jobID, listed)
    ensures forall i | 0 <= i < |more| :: fresh(more[i]) && listed[i] == more[i].Value()
    ensures forall i | 0 <= i < |more| :: more[i].tasks == null || fresh(more[i].tasks)
  {
    hide Run.Value, Run.TaskList, Store.Valid, Lists, AllApart;
    more := store.ListRuns(jobID);
    listed := seq(|more|, i requires 0 <= i < |more| reads more, Arrays(more) => more[i].Value());
    forall i | 0 <= i < |more| ensures listed[i].id == more[i].id {
      more[i].Fields();
    }
    ListedHere(store, jobID, more, listed);
  }

  method ServeMutate(store: Store, held: seq<Run>, ghost values: seq<Record>, i: nat, r: Record)
      returns (ghost values': seq<Record>)
    requires Holding(store, held, values)
    modifies Reachable(held)
    ensures Holding(store, held, values')
    ensures Next(old(WorldOf(store, values)), MutateHeld(i, r), WorldOf(store, values'))
    ensures fresh(Reachable(held) - old(Reachable(held)))
  {
    values' := values;
    if i < |held| {
      held[i].Overwrite(r);
      values' := values[i := r];
    }
  }

  /** Any call behaves as on plain values: the heap never lets an update of the store reach
      a snapshot, nor a mutation of a snapshot reach the store. */
  method Serve(store: Store, held: seq<Run>, ghost values: seq<Record>, c: Call)
      returns (held': seq<Run>, ghost values': seq<Record>)
    requires Holding(store, held, values)
    modifies store, store.Repr, Reachable(held)
    ensures Holding(store, held', values')
    ensures Next(old(WorldOf(store, values)), c, WorldOf(store, values'))
    ensures fresh(store.Repr - old(store.Repr))
    ensures fresh(Reachable(held') - old(Reachable(held)))
  {
    held', values' := held, values;
    match c
    case CreateRun(jobID) =>
      held', values' := ServeCreate(store, held, values, jobID);
    case ReadRun(id) =>
      held', values' := ServeRead(store, held, values, id);
    case ReadRuns(jobID) =>
      held', values' := ServeList(store, held, values, jobID);
    case PublishHeld(i) =>
      if i < |held| { store.UpdateRun(held[i]); }
    case CancelStored(id) =>
      var _ := store.CancelRun(id);
    case MutateHeld(i, r) =>
      values' := ServeMutate(store, held, values, i, r);
  }

  ghost predicate Execution(worlds: seq<World>, script: seq<Call>)
  {
    |worlds| == |script| + 1 && forall i | 0 <= i < |script| :: Next(worlds[i], script[i], worlds[i + 1])
  }

  lemma HoldingNothing(store: Store)
    requires store.Valid()
    ensures Holding(store, [], [])
  {
  }

  /** Every script of calls on a store nobody holds snapshots of runs as on plain values. */
  method ServeAll(store: Store, script: seq<Call>) returns (held: seq<Run>, ghost worlds: seq<World>)
    requires store.Valid()
    modifies store, store.Repr
    ensures Execution(worlds, script) && worlds[0] == old(WorldOf(store, []))
    ensures Holding(store, held, worlds[|script|].held)
    ensures WorldOf(store, worlds[|script|].held) == worlds[|script|]
  {
    hide Next, Holding;
    HoldingNothing(store);
    held := [];
    ghost var values: seq<Record> := [];
    worlds := [WorldOf(store, [])];
    for n := 0 to |script|
      invariant Holding(store, held, values) && fresh(store.Repr - old(store.Repr))
      invariant fresh(Reachable(held))
      invariant |worlds| == n + 1 && worlds[0] == old(WorldOf(store, []))
      invariant worlds[n] == WorldOf(store, values)
      invariant forall i | 0 <= i < n :: Next(worlds[i], script[i], worlds[i + 1])
    {
      held, values := Serve(store, held, values, script[n]);
      worlds := worlds + [WorldOf(store, values)];
    }
  }

  /** Whatever is published or cancelled meanwhile, a snapshot changes only by its holder. */
  lemma {:induction false} SnapshotsAreStable(worlds: seq<World>, script: seq<Call>, h: nat, i: nat, j: nat)
    requires Execution(worlds, script) && i <= j <= |script| && h < |worlds[i].held|
    requires forall n, r | i <= n < j :: script[n] != MutateHeld(h, r)
    ensures h < |worlds[j].held| && worlds[j].held[h] == worlds[i].held[h]
    decreases j - i
  {
    if i < j {
      assert Next(worlds[i], script[i], worlds[i + 1]);
      SnapshotsAreStable(worlds, script, h, i + 1, j);
    }
  }

  /** Reading runs and mutating snapshots, however often, leaves the store as it was. */
  lemma {:induction false} HoldersCannotReachTheStore(worlds: seq<World>, script: seq<Call>, i: nat, j: nat)
    requires Execution(worlds, script) && i <= j <= |script|
    requires forall n | i <= n < j :: script[n].ReadRun? || script[n].ReadRuns? || script[n].MutateHeld?
    ensures worlds[j].runs == worlds[i].runs && worlds[j].nextID == worlds[i].nextID
    decreases j - i
  {
    if i < j {
      assert Next(worlds[i], script[i], worlds[i + 1]);
      HoldersCannotReachTheStore(worlds, script, i + 1, j);
    }
  }

  /** A new run is PENDING and blank under a number no run has, and its caller holds it; a reader holds what
      is stored; a publish stores what is held, unless the run was cancelled; and nothing else changes. */
  lemma CallsDo(w: World, c: Call, w': World)
    requires Next(w, c, w') && forall id | id in w.runs :: id <= w.nextID
    ensures c.CreateRun? ==>
      var r := w'.runs[w'.nextID];
      && w'.nextID !in w.runs && w'.runs == w.runs[w'.nextID := r] && w'.held == w.held + [r]
      && r.id == w'.nextID && r.jobID == c.jobID && r.lifeCycle == Pending && r.resultState == NoResult && r.tasks == []
      && r.stateMessage == r.executedBy == r.stdout == r.stderr == ""
    ensures c.ReadRun? || c.ReadRuns? ==> w'.runs == w.runs && w.held <= w'.held
    ensures c.ReadRun? ==> w'.held == if c.id in w.runs then w.held + [w.runs[c.id]] else w.held
    ensures c.PublishHeld? && c.i < |w.held| && !IsCanceled(w.runs, w.held[c.i].id) ==>
      w'.runs == w.runs[w.held[c.i].id := w.held[c.i]]
    ensures c.PublishHeld? || c.CancelStored? ==> w'.held == w.held
    ensures c.MutateHeld? ==> w'.runs == w.runs && |w'.held| == |w.held|
    ensures c.MutateHeld? ==> forall i | 0 <= i < |w.held| :: w'.held[i] == if i == c.i then c.r else w.held[i]
    ensures !c.CreateRun? ==> w'.nextID == w.nextID
  {
  }

  /** A cancel marks a run that has not terminated, changing its state and nothing else; it does nothing
      to a terminated or an unknown one. */
  lemma CancelMarks(w: World, id: int, w': World)
    requires Next(w, CancelStored(id), w')
    ensures w'.nextID == w.nextID && w'.held == w.held && w'.runs.Keys == w.runs.Keys
    ensures forall k | k in w.runs && k != id :: w'.runs[k] == w.runs[k]
    ensures id in w.runs && w.runs[id].lifeCycle == Terminated ==> w'.runs[id] == w.runs[id]
    ensures id in w.runs && w.runs[id].lifeCycle != Terminated ==>
      && IsCanceled(w'.runs, id) && w'.runs[id].lifeCycle == Terminated
      && w'.runs[id].(lifeCycle := w.runs[id].lifeCycle, resultState := w.runs[id].resultState) == w.runs[id]
  {
  }

  /** So from then on every reader finds it CANCELED, whatever is published. */
  lemma {:induction false} CancelTakes(worlds: seq<World>, script: seq<Call>, id: int, i: nat, j: nat)
    requires Execution(worlds, script) && i < j <= |script| && script[i] == CancelStored(id)
    requires id in worlds[i].runs && worlds[i].runs[id].lifeCycle != Terminated && id <= worlds[i].nextID
    ensures IsCanceled(worlds[j].runs, id) && worlds[j].runs[id].lifeCycle == Terminated
  {
    hide Next;
    assert Next(worlds[i], script[i], worlds[i + 1]);
    CancelMarks(worlds[i], id, worlds[i + 1]);
    CanceledIsFinal(worlds, script, id, i + 1, j);
  }

  /** Over any script, a cancelled run's record never changes again: later publishes are
      refused and later cancels find it terminated. */
  lemma {:induction false} CanceledIsFinal(worlds: seq<World>, script: seq<Call>, id: int, i: nat, j: nat)
    requires Execution(worlds, script) && i <= j <= |script|
    requires IsCanceled(worlds[i].runs, id) && worlds[i].runs[id].lifeCycle == Terminated && id <= worlds[i].nextID
    ensures id in worlds[j].runs && worlds[j].runs[id] == worlds[i].runs[id]
    decreases j - i
  {
    if i < j {
      assert Next(worlds[i], script[i], worlds[i + 1]);
      CanceledIsFinal(worlds, script, id, i + 1, j);
    }
  }
}
