// Jobs, tasks and run records, as the Jobs API stores them.
module JobModel {
  import opened Basics

  datatype LifeCycle = Unset | Pending | Running | Terminated
  datatype ResultState = NoResult | Success | Failed | Skipped | Canceled

  // The branch of an if/else condition: on an edge it names the arm the edge follows,
  // on a task's result it says which arm the condition chose.
  datatype Outcome = NoOutcome | OnTrue | OnFalse

  datatype Dependency = Dependency(key: string, outcome: Outcome)

  // AllSuccess is also the meaning of every run_if the scheduler does not recognise.
  datatype RunIf = AllSuccess | AllDone | AtLeastOneSuccess | AllFailed | AtLeastOneFailed | NoneFailed

  datatype ConditionOp = EqualTo | NotEqual | GreaterThan | GreaterThanOrEqual | LessThan | LessThanOrEqual

  // What parsing an operand as a 64-bit float yields, when it parses at all.
  datatype Number = NaN | NegInf | Finite(r: real) | PosInf

  // An operand as written, and the number its trimmed text parses to, if any.
  datatype Operand = Operand(text: string, number: Option<Number>)

  datatype Condition = Condition(op: ConditionOp, left: Operand, right: Operand)

  /** How many bodies of a loop may run at once. */
  function BodyLimit(concurrency: int, inputs: nat): nat
  {
    Min(if concurrency <= 0 then 1 else concurrency, inputs)
  }

  datatype ForEach = ForEach(inputs: seq<string>, concurrency: int, task: Task)

  datatype Task = Task(
    key: string,
    dependsOn: seq<Dependency>,
    runIf: RunIf,
    notebookParams: map<string, string>,
    pythonParams: seq<string>,
    condition: Option<Condition>,
    isDbt: bool,
    runJob: Option<int>,
    forEach: Option<ForEach>)

  datatype Job = Job(id: int, tasks: seq<Task>)

  datatype TaskRun = TaskRun(
    key: string,
    lifeCycle: LifeCycle,
    resultState: ResultState,
    conditionOutcome: Outcome,
    childRunID: int,
    iterations: seq<TaskRun>,
    stdout: string,
    stderr: string,
    artifacts: map<string, string>)

  /** A terminated task result carrying nothing but a key and a state. */
  function Bare(key: string, state: ResultState): TaskRun
  {
    TaskRun(key, Terminated, state, NoOutcome, 0, [], "", "", map[])
  }

  /** Result states and condition outcomes are all that scheduling reads of a result. */
  predicate SameSignal(a: TaskRun, b: TaskRun)
  {
    a.resultState == b.resultState && a.conditionOutcome == b.conditionOutcome
  }
}
