// The experiment tracking store and model registry: what every operation keeps, and why saving the
// state and loading it back loses nothing.
module Registry {
  import opened Basics
  import opened Text
  import Decimal

  datatype Tag = Tag(key: string, value: string)
  datatype Metric = Metric(key: string, value: real, timestamp: int, step: int)

  datatype Experiment = Experiment(
    id: string, name: string, artifact: string, active: bool, created: int, updated: int, tags: seq<Tag>)

  datatype MLRun = MLRun(
    id: string, experiment: string, name: string, user: string, status: string, active: bool, artifact: string,
    start: int, end: int, metrics: seq<Metric>, params: map<string, string>, tags: map<string, string>)

  datatype Model = Model(
    name: string, description: string, user: string, created: int, updated: int, tags: map<string, string>)

  datatype Version = Version(
    name: string, version: string, source: string, runID: string, runLink: string, description: string, user: string,
    stage: string, status: string, created: int, updated: int, tags: map<string, string>)

  datatype State = State(
    nextExp: int, experiments: map<string, Experiment>, runs: map<string, MLRun>, models: map<string, Model>,
    versions: map<string, seq<Version>>)

  const EMPTY := State(0, map[], map[], map[], map[])

  datatype Error = Exists | NotFound | Invalid | Entropy | Disk

  // ------------------------------------------------------------------ what must hold

  predicate Issued(id: string, upTo: int) { exists n | 1 <= n <= upTo :: id == Decimal.Format(n) }

  /** A version's place in its model's list is its number, and it carries the model's name. */
  predicate Numbered(vs: seq<Version>, name: string)
  {
    forall i | 0 <= i < |vs| :: vs[i].name == name && vs[i].version == Decimal.Format(i + 1)
  }

  predicate Named(name: string) { name != "" && Trim(name) == name }

  predicate GoodExperiments(s: State)
  {
    && s.nextExp >= 0
    && (forall id | id in s.experiments ::
          s.experiments[id].id == id && Issued(id, s.nextExp) && Named(s.experiments[id].name))
    && OneActivePerName(s.experiments)
  }

  predicate OneActivePerName(es: map<string, Experiment>)
  {
    forall a, b | a in es && b in es :: es[a].active && es[b].active && es[a].name == es[b].name ==> a == b
  }

  predicate GoodRuns(s: State)
  {
    forall id | id in s.runs :: s.runs[id].id == id && s.runs[id].experiment in s.experiments
  }

  predicate KnownRuns(vs: seq<Version>, runs: map<string, MLRun>)
  {
    forall i | 0 <= i < |vs| :: vs[i].runID == "" || vs[i].runID in runs
  }

  predicate GoodModels(s: State)
  {
    && (forall name | name in s.models :: s.models[name].name == name && Named(name))
    && (forall name | name in s.versions :: name in s.models && Numbered(s.versions[name], name))
    && (forall name | name in s.versions :: KnownRuns(s.versions[name], s.runs))
  }

  predicate Good(s: State) { GoodExperiments(s) && GoodRuns(s) && GoodModels(s) }

  // ------------------------------------------------------------------ the operations

  datatype Op =
    | CreateExperiment(name: string, artifact: string, tags: seq<Tag>, now: int)
    | UpdateExperiment(id: string, newName: string, now: int)
    | DeleteExperiment(id: string, now: int)
    | RestoreExperiment(id: string, now: int)
    | CreateRun(
        experiment: string, name: string, user: string, start: int, tags: seq<Tag>, now: int, drawn: Option<string>)
    | CreateModel(name: string, description: string, user: string, tags: seq<Tag>, now: int)
    | RenameModel(name: string, newName: string, now: int)
    | DeleteModel(name: string)
    | CreateModelVersion(name: string, source: string, runID: string, runLink: string, description: string,
        user: string, tags: seq<Tag>, now: int)
    | TransitionStage(name: string, version: string, stage: string, archive: bool, now: int)
    | UpdateModel(name: string, description: string, now: int)
    | UpdateModelVersion(name: string, version: string, description: string, now: int)

  const STAGES := {"None", "Staging", "Production", "Archived"}

  function Ms(now: int): int { now * 1000 }

  /** An active experiment of that name other than the one excepted. */
  predicate Clash(es: map<string, Experiment>, except: Option<string>, name: string)
  {
    exists k | k in es :: Some(es[k].id) != except && es[k].name == name && es[k].active
  }

  function VersionsOf(s: State, name: string): seq<Version> { if name in s.versions then s.versions[name] else [] }

  function FindVersion(vs: seq<Version>, version: string): (i: Option<nat>)
    ensures i.Some? ==> i.value < |vs| && vs[i.value].version == version
    ensures i.Some? ==> forall j | 0 <= j < i.value :: vs[j].version != version
    ensures i.None? ==> forall j | 0 <= j < |vs| :: vs[j].version != version
  {
    if vs == [] then None
    else if vs[0].version == version then Some(0)
    else
      var i := FindVersion(vs[1..], version);
      if i.None? then None else Some(i.value + 1)
  }

  /** Why an operation is refused, if it is; a refused operation changes nothing. */
  function Refusal(s: State, op: Op): Option<Error>
  {
    match op
    case CreateExperiment(name, _, _, _) =>
      if Trim(name) == "" then Some(Invalid) else if Clash(s.experiments, None, Trim(name)) then Some(Exists) else None
    case UpdateExperiment(id, newName, _) =>
      if Trim(newName) == "" then Some(Invalid)
      else if id !in s.experiments then Some(NotFound)
      else if Clash(s.experiments, Some(id), Trim(newName)) then Some(Exists) else None
    case DeleteExperiment(id, _) => if id !in s.experiments then Some(NotFound) else None
    case RestoreExperiment(id, _) =>
      if id !in s.experiments then Some(NotFound)
      else if Clash(s.experiments, Some(id), s.experiments[id].name) then Some(Exists) else None
    case CreateRun(experiment, _, _, _, _, _, drawn) =>
      if experiment == "" then Some(Invalid)
      else if experiment !in s.experiments then Some(NotFound)
      else if !s.experiments[experiment].active then Some(Invalid)
      else if drawn.None? then Some(Entropy) else None
    case CreateModel(name, _, _, _, _) =>
      if Trim(name) == "" then Some(Invalid) else if Trim(name) in s.models then Some(Exists) else None
    case RenameModel(name, newName, _) =>
      if Trim(newName) == "" then Some(Invalid)
      else if name !in s.models then Some(NotFound)
      else if Trim(newName) in s.models && Trim(newName) != name then Some(Exists) else None
    case DeleteModel(name) => if name !in s.models then Some(NotFound) else None
    case CreateModelVersion(name, source, runID, _, _, _, _, _) =>
      if Trim(name) == "" || Trim(source) == "" then Some(Invalid)
      else if name !in s.models || (runID != "" && runID !in s.runs) then Some(NotFound) else None
    case TransitionStage(name, version, stage, archive, _) =>
      if stage !in STAGES || (archive && stage != "Staging" && stage != "Production") then Some(Invalid)
      else if name !in s.models || FindVersion(VersionsOf(s, name), version).None? then Some(NotFound) else None
    case UpdateModel(name, _, _) => if name !in s.models then Some(NotFound) else None
    case UpdateModelVersion(name, version, _, _) =>
      if name !in s.models || FindVersion(VersionsOf(s, name), version).None? then Some(NotFound) else None
  }

  function TagMap(tags: seq<Tag>): map<string, string>
  {
    if tags == [] then map[] else TagMap(tags[..|tags| - 1])[tags[|tags| - 1].key := tags[|tags| - 1].value]
  }

  const RUN_NAME := "mlflow.runName"

  /** A run's name: the one given, or else the first non-empty one among its tags. */
  function RunName(name: string, tags: seq<Tag>): string
  {
    if tags == [] then name
    else
      var before, last := RunName(name, tags[..|tags| - 1]), tags[|tags| - 1];
      if last.key == RUN_NAME && before == "" then last.value else before
  }

  function RunTags(name: string, tags: seq<Tag>): map<string, string>
  {
    var named := RunName(name, tags);
    if named == "" then TagMap(tags) else TagMap(tags)[RUN_NAME := named]
  }

  /** A named run is tagged with its name; an unnamed one carries no other name in its tags. */
  lemma {:induction false} NameAndTagAgree(name: string, tags: seq<Tag>)
    ensures
      var named, tagMap := RunName(name, tags), RunTags(name, tags);
      if named != "" then RUN_NAME in tagMap && tagMap[RUN_NAME] == named
      else name == "" && (RUN_NAME in tagMap ==> tagMap[RUN_NAME] == "")
  {
    if tags != [] {
      NameAndTagAgree(name, tags[..|tags| - 1]);
    }
  }

  function TrimSlashes(s: string): string { if s != "" && s[|s| - 1] == '/' then TrimSlashes(s[..|s| - 1]) else s }

  function Renamed(vs: seq<Version>, name: string, t: int): (r: seq<Version>)
    ensures |r| == |vs|
    ensures forall i | 0 <= i < |vs| :: r[i] == vs[i].(name := name, updated := t)
  {
    if vs == [] then [] else [vs[0].(name := name, updated := t)] + Renamed(vs[1..], name, t)
  }

  /** Archiving a stage touches the versions in it, but for one. */
  function Archived(v: Version, except: string, stage: string, t: int): Version
  {
    if v.version != except && v.stage == stage then v.(stage := "Archived", updated := t) else v
  }

  function RestagedOne(v: Version, version: string, stage: string, archive: bool, t: int): Version
  {
    if v.version == version then v.(stage := stage, updated := t)
    else if archive then Archived(v, version, stage, t)
    else v
  }

  function Described(vs: seq<Version>, i: nat, description: string, t: int): seq<Version>
    requires i < |vs|
  {
    vs[i := vs[i].(description := description, updated := t)]
  }

  /** A model's new version, at no stage yet. */
  function NewVersion(name: string, n: nat, source: string, runID: string, runLink: string, description: string,
                      user: string, tags: map<string, string>, t: int): Version
  {
    Version(name, Decimal.Format(n), source, runID, runLink, description, user, "None", "READY", t, t, tags)
  }

  function Restaged(vs: seq<Version>, version: string, stage: string, archive: bool, t: int): (r: seq<Version>)
    ensures |r| == |vs|
    ensures forall i | 0 <= i < |vs| :: r[i] == RestagedOne(vs[i], version, stage, archive, t)
  {
    if vs == [] then []
    else [RestagedOne(vs[0], version, stage, archive, t)] + Restaged(vs[1..], version, stage, archive, t)
  }

  /** The state after an operation that is not refused. */
  function Changed(s: State, op: Op): State
    requires Refusal(s, op) == None
  {
    match op
    case CreateExperiment(name, artifact, tags, now) =>
      var id := Decimal.Format(s.nextExp + 1);
      var where := if artifact == "" then "dbfs:/databricks/mlflow-tracking/" + id else artifact;
      var e := Experiment(id, Trim(name), where, true, Ms(now), Ms(now), tags);
      s.(nextExp := s.nextExp + 1, experiments := s.experiments[id := e])
    case UpdateExperiment(id, newName, now) =>
      s.(experiments := s.experiments[id := s.experiments[id].(name := Trim(newName), updated := Ms(now))])
    case DeleteExperiment(id, now) =>
      s.(experiments := s.experiments[id := s.experiments[id].(active := false, updated := Ms(now))])
    case RestoreExperiment(id, now) =>
      s.(experiments := s.experiments[id := s.experiments[id].(active := true, updated := Ms(now))])
    case CreateRun(experiment, name, user, start, tags, now, drawn) =>
      var id, e := drawn.value, s.experiments[experiment];
      var run := MLRun(id, experiment, RunName(name, tags), user, "RUNNING", true,
                       TrimSlashes(e.artifact) + "/" + id + "/artifacts",
                       if start == 0 then Ms(now) else start, 0, [], map[], RunTags(name, tags));
      s.(runs := s.runs[id := run], experiments := s.experiments[experiment := e.(updated := Ms(now))])
    case CreateModel(name, description, user, tags, now) =>
      s.(models := s.models[Trim(name) := Model(Trim(name), description, user, Ms(now), Ms(now), TagMap(tags))])
    case RenameModel(name, newName, now) =>
      var to := Trim(newName);
      s.(models := (s.models - {name})[to := s.models[name].(name := to, updated := Ms(now))],
         versions := (s.versions - {name})[to := Renamed(VersionsOf(s, name), to, Ms(now))])
    case DeleteModel(name) => s.(models := s.models - {name}, versions := s.versions - {name})
    case CreateModelVersion(name, source, runID, runLink, description, user, tags, now) =>
      var vs := VersionsOf(s, name);
      var v := NewVersion(name, |vs| + 1, source, runID, runLink, description, user, TagMap(tags), Ms(now));
      s.(versions := s.versions[name := vs + [v]], models := s.models[name := s.models[name].(updated := Ms(now))])
    case TransitionStage(name, version, stage, archive, now) =>
      s.(versions := s.versions[name := Restaged(s.versions[name], version, stage, archive, Ms(now))],
         models := s.models[name := s.models[name].(updated := Ms(now))])
    case UpdateModel(name, description, now) =>
      s.(models := s.models[name := s.models[name].(description := description, updated := Ms(now))])
    case UpdateModelVersion(name, version, description, now) =>
      var i := FindVersion(s.versions[name], version).value;
      s.(versions := s.versions[name := Described(s.versions[name], i, description, Ms(now))])
  }

  datatype Reply =
    | Refused(error: Error)
    | Done
    | AnExperiment(experiment: Experiment)
    | ARun(run: MLRun)
    | AModel(model: Model)
    | AVersion(version: Version)

  /** What the caller gets when the state could be saved. */
  function ReplyTo(s: State, op: Op): Reply
  {
    hide Decimal.Format, Trim, Clash, TagMap, RunTags, RunName, TrimSlashes, Renamed, FindVersion;
    if Refusal(s, op).Some? then Refused(Refusal(s, op).value)
    else
      var s' := Changed(s, op);
      match op
      case CreateExperiment(_, _, _, _) => AnExperiment(s'.experiments[Decimal.Format(s.nextExp + 1)])
      case UpdateExperiment(id, _, _) => AnExperiment(s'.experiments[id])
      case DeleteExperiment(_, _) => Done
      case RestoreExperiment(_, _) => Done
      case CreateRun(_, _, _, _, _, _, drawn) => ARun(s'.runs[drawn.value])
      case CreateModel(name, _, _, _, _) => AModel(s'.models[Trim(name)])
      case RenameModel(_, newName, _) => AModel(s'.models[Trim(newName)])
      case DeleteModel(_) => Done
      case CreateModelVersion(name, _, _, _, _, _, _, _) => AVersion(s'.versions[name][|VersionsOf(s, name)|])
      case TransitionStage(name, version, _, _, _) =>
        AVersion(s'.versions[name][FindVersion(s.versions[name], version).value])
      case UpdateModel(name, _, _) => AModel(s'.models[name])
      case UpdateModelVersion(name, version, _, _) =>
        AVersion(s'.versions[name][FindVersion(s.versions[name], version).value])
  }

  // Three of the operations written out, for the methods that carry them out.

  lemma VersionAdded(s: State, op: Op)
    requires op.CreateModelVersion?
    ensures Refusal(s, op) ==
      if Trim(op.name) == "" || Trim(op.source) == "" then Some(Invalid)
      else if op.name !in s.models || (op.runID != "" && op.runID !in s.runs) then Some(NotFound) else None
    ensures Refusal(s, op).Some? ==> ReplyTo(s, op) == Refused(Refusal(s, op).value)
    ensures Refusal(s, op) == None ==>
      var vs := VersionsOf(s, op.name);
      var v := NewVersion(op.name, |vs| + 1, op.source, op.runID, op.runLink, op.description, op.user,
                          TagMap(op.tags), Ms(op.now));
      && ReplyTo(s, op) == AVersion(v)
      && Changed(s, op) == s.(versions := s.versions[op.name := vs + [v]],
                              models := s.models[op.name := s.models[op.name].(updated := Ms(op.now))])
  {
    hide NewVersion, TagMap, Trim;
  }

  lemma ModelMoved(s: State, op: Op)
    requires op.RenameModel?
    ensures
      var to := Trim(op.newName);
      Refusal(s, op) ==
        if to == "" then Some(Invalid)
        else if op.name !in s.models then Some(NotFound)
        else if to in s.models && to != op.name then Some(Exists) else None
    ensures Refusal(s, op).Some? ==> ReplyTo(s, op) == Refused(Refusal(s, op).value)
    ensures Refusal(s, op) == None ==>
      var to, t := Trim(op.newName), Ms(op.now);
      && ReplyTo(s, op) == AModel(s.models[op.name].(name := to, updated := t))
      && Changed(s, op) == s.(models := (s.models - {op.name})[to := s.models[op.name].(name := to, updated := t)],
                              versions := (s.versions - {op.name})[to := Renamed(VersionsOf(s, op.name), to, t)])
  {
    hide Trim, Renamed;
  }

  lemma StageMoved(s: State, op: Op)
    requires op.TransitionStage?
    ensures Refusal(s, op) ==
      if op.stage !in STAGES || (op.archive && op.stage != "Staging" && op.stage != "Production") then Some(Invalid)
      else if op.name !in s.models || FindVersion(VersionsOf(s, op.name), op.version).None? then Some(NotFound)
      else None
    ensures Refusal(s, op).Some? ==> ReplyTo(s, op) == Refused(Refusal(s, op).value)
    ensures Refusal(s, op) == None ==>
      var vs := Restaged(VersionsOf(s, op.name), op.version, op.stage, op.archive, Ms(op.now));
      && ReplyTo(s, op) == AVersion(vs[FindVersion(VersionsOf(s, op.name), op.version).value])
      && Changed(s, op) == s.(versions := s.versions[op.name := vs],
                              models := s.models[op.name := s.models[op.name].(updated := Ms(op.now))])
  {
    hide Restaged, STAGES;
  }

  function Apply(s: State, op: Op): State { if Refusal(s, op).Some? then s else Changed(s, op) }

  // ------------------------------------------------------------- every operation keeps it

  /** The next experiment's number is no experiment's yet. (Over a history with restarts see
      NumbersDiffer and RestartTakesBackIff.) */
  lemma {:induction false} NewNumberIsNew(s: State)
    requires GoodExperiments(s)
    ensures Decimal.Format(s.nextExp + 1) !in s.experiments
  {
    hide Decimal.Format, Trim, OneActivePerName;
    var id := Decimal.Format(s.nextExp + 1);
    if id in s.experiments {
      var n :| 1 <= n <= s.nextExp && id == Decimal.Format(n);
      Decimal.FormatInjective(n, s.nextExp + 1);
    }
  }

  lemma {:induction false} OneMoreIssued(s: State)
    requires GoodExperiments(s)
    ensures GoodExperiments(s.(nextExp := s.nextExp + 1))
  {
    hide Decimal.Format;
    forall id | id in s.experiments ensures Issued(id, s.nextExp + 1) {
      var n :| 1 <= n <= s.nextExp && id == Decimal.Format(n);
      assert id == Decimal.Format(n) && 1 <= n <= s.nextExp + 1;
    }
  }

  /** An experiment may be put in when, if active, it clashes with no other. */
  lemma {:induction false} PutExperiment(s: State, e: Experiment)
    requires GoodExperiments(s) && Issued(e.id, s.nextExp) && Named(e.name)
    requires e.active ==> !Clash(s.experiments, Some(e.id), e.name)
    ensures GoodExperiments(s.(experiments := s.experiments[e.id := e]))
  {
    hide Issued;
  }

  lemma {:induction false} CreateKeepsExperiments(s: State, op: Op)
    requires GoodExperiments(s) && op.CreateExperiment? && Refusal(s, op) == None
    ensures GoodExperiments(Changed(s, op))
  {
    hide Decimal.Format, Issued, Trim;
    var id := Decimal.Format(s.nextExp + 1);
    NewNumberIsNew(s);
    OneMoreIssued(s);
    TrimIsTrimmed(op.name);
    var e := Changed(s, op).experiments[id];
    assert Issued(id, s.nextExp + 1) by { JustIssued(s.nextExp + 1); }
    PutExperiment(s.(nextExp := s.nextExp + 1), e);
    assert s.(nextExp := s.nextExp + 1).(experiments := s.experiments[id := e]) == Changed(s, op);
  }

  lemma JustIssued(n: int)
    requires 1 <= n
    ensures Issued(Decimal.Format(n), n)
  {
  }

  lemma {:induction false} OpsKeepExperiments(s: State, op: Op)
    requires GoodExperiments(s) && Refusal(s, op) == None
    ensures GoodExperiments(Changed(s, op))
  {
    hide Decimal.Format, Issued, Trim, TagMap, RunTags, RunName, TrimSlashes, Clash, Renamed, Restaged;
    match op {
      case CreateExperiment(_, _, _, _) => CreateKeepsExperiments(s, op);
      case UpdateExperiment(id, newName, _) =>
        TrimIsTrimmed(newName);
        PutExperiment(s, Changed(s, op).experiments[id]);
      case DeleteExperiment(id, _) => PutExperiment(s, Changed(s, op).experiments[id]);
      case RestoreExperiment(id, _) => PutExperiment(s, Changed(s, op).experiments[id]);
      case CreateRun(id, _, _, _, _, _, _) =>
        NoClashWithItself(s, id);
        PutExperiment(s, Changed(s, op).experiments[id]);
      case _ =>
    }
  }

  lemma NoClashWithItself(s: State, id: string)
    requires GoodExperiments(s) && id in s.experiments && s.experiments[id].active
    ensures !Clash(s.experiments, Some(id), s.experiments[id].name)
  {
    hide Issued;
  }

  lemma {:induction false} OpsKeepRuns(s: State, op: Op)
    requires GoodRuns(s) && Refusal(s, op) == None
    ensures GoodRuns(Changed(s, op)) && s.runs.Keys <= Changed(s, op).runs.Keys
  {
    hide Decimal.Format, Trim, TagMap, RunTags, RunName, TrimSlashes, Clash, Renamed, Restaged;
  }

  /** A model and its version list may be put in, under the model's name. */
  lemma {:induction false} PutModel(s: State, m: Model, vs: seq<Version>)
    requires GoodModels(s) && Named(m.name) && Numbered(vs, m.name) && KnownRuns(vs, s.runs)
    ensures GoodModels(s.(models := s.models[m.name := m], versions := s.versions[m.name := vs]))
  {
    hide Numbered;
  }

  lemma {:induction false} DropModel(s: State, name: string)
    requires GoodModels(s)
    ensures GoodModels(s.(models := s.models - {name}, versions := s.versions - {name}))
  {
    hide Numbered;
  }

  lemma VersionsAreGood(s: State, name: string)
    requires GoodModels(s)
    ensures GoodVersions(VersionsOf(s, name), name, s.runs)
  {
  }

  predicate GoodVersions(vs: seq<Version>, name: string, runs: map<string, MLRun>)
  {
    Numbered(vs, name) && KnownRuns(vs, runs)
  }

  lemma RenamedIsGood(vs: seq<Version>, name: string, to: string, t: int, runs: map<string, MLRun>)
    requires GoodVersions(vs, name, runs)
    ensures GoodVersions(Renamed(vs, to, t), to, runs)
  {
    hide Decimal.Format;
  }

  lemma RestagedIsGood(
      vs: seq<Version>, name: string, version: string, stage: string, archive: bool, t: int, runs: map<string, MLRun>)
    requires GoodVersions(vs, name, runs)
    ensures GoodVersions(Restaged(vs, version, stage, archive, t), name, runs)
  {
    hide Decimal.Format, Restaged, RestagedOne;
    var r := Restaged(vs, version, stage, archive, t);
    forall i | 0 <= i < |r|
      ensures r[i].name == vs[i].name && r[i].version == vs[i].version && r[i].runID == vs[i].runID
    {
      RestagedKeeps(vs[i], version, stage, archive, t);
    }
  }

  lemma RestagedKeeps(v: Version, version: string, stage: string, archive: bool, t: int)
    ensures
      var r := RestagedOne(v, version, stage, archive, t);
      r.name == v.name && r.version == v.version && r.runID == v.runID
  {
  }

  lemma DescribedIsGood(vs: seq<Version>, name: string, i: nat, description: string, t: int, runs: map<string, MLRun>)
    requires GoodVersions(vs, name, runs) && i < |vs|
    ensures GoodVersions(Described(vs, i, description, t), name, runs)
  {
    hide Decimal.Format;
  }

  lemma AppendedIsGood(vs: seq<Version>, name: string, v: Version, runs: map<string, MLRun>)
    requires GoodVersions(vs, name, runs)
    requires v.name == name && v.version == Decimal.Format(|vs| + 1) && (v.runID == "" || v.runID in runs)
    ensures GoodVersions(vs + [v], name, runs)
  {
    hide Decimal.Format;
  }

  lemma {:induction false} OpsKeepModels(s: State, op: Op)
    requires GoodModels(s) && Refusal(s, op) == None
    ensures GoodModels(Changed(s, op))
  {
    hide Decimal.Format, Trim, TagMap, RunTags, RunName, TrimSlashes, Clash, STAGES, GoodModels, Numbered, KnownRuns;
    var s' := Changed(s, op);
    if op.RenameModel? || op.CreateModelVersion? || op.TransitionStage? || op.UpdateModelVersion? {
      VersionsAreGood(s, op.name);
    }
    match op {
      case CreateModel(name, _, _, _, _) =>
        TrimIsTrimmed(name);
        PutNewModel(s, s'.models[Trim(name)]);
      case RenameModel(name, newName, _) =>
        RenamedIsGood(VersionsOf(s, name), name, Trim(newName), Ms(op.now), s.runs);
        DropModel(s, name);
        TrimIsTrimmed(newName);
        var without := s.(models := s.models - {name}, versions := s.versions - {name});
        PutModel(without, s'.models[Trim(newName)], s'.versions[Trim(newName)]);
      case DeleteModel(name) => DropModel(s, name);
      case CreateModelVersion(name, _, _, _, _, _, _, _) =>
        AppendedIsGood(VersionsOf(s, name), name, s'.versions[name][|VersionsOf(s, name)|], s.runs);
        ModelsNamed(s, name);
        PutModel(s, s'.models[name], s'.versions[name]);
      case TransitionStage(name, version, stage, archive, now) =>
        RestagedIsGood(s.versions[name], name, version, stage, archive, Ms(now), s.runs);
        ModelsNamed(s, name);
        PutModel(s, s'.models[name], s'.versions[name]);
      case UpdateModel(name, _, _) =>
        ModelsNamed(s, name);
        PutNewModel(s, s'.models[name]);
      case UpdateModelVersion(name, version, description, now) =>
        DescribedIsGood(s.versions[name], name, FindVersion(s.versions[name], version).value, description, Ms(now),
          s.runs);
        ModelsNamed(s, name);
        PutModel(s, s.models[name], s'.versions[name]);
        assert s.models[name := s.models[name]] == s.models;
      case _ => MoreRuns(s, s');
    }
  }

  lemma ModelsNamed(s: State, name: string)
    requires GoodModels(s) && name in s.models
    ensures s.models[name].name == name && Named(name)
  {
  }

  lemma {:induction false} PutNewModel(s: State, m: Model)
    requires GoodModels(s) && Named(m.name)
    ensures GoodModels(s.(models := s.models[m.name := m]))
  {
    hide Numbered;
  }

  lemma {:induction false} MoreRuns(s: State, s': State)
    requires GoodModels(s) && s'.models == s.models && s'.versions == s.versions && s.runs.Keys <= s'.runs.Keys
    ensures GoodModels(s')
  {
    hide Numbered;
  }

  /** Every operation keeps the store well formed: identifiers match their keys and are issued once,
      one active experiment a name, runs in known experiments, versions numbered 1 to n under
      existing models and from known runs. */
  lemma {:induction false} OpsKeepGood(s: State, op: Op)
    requires Good(s)
    ensures Good(Apply(s, op))
  {
    hide GoodExperiments, GoodRuns, GoodModels, Changed, Refusal;
    if Refusal(s, op).None? {
      OpsKeepExperiments(s, op);
      OpsKeepRuns(s, op);
      OpsKeepModels(s, op);
    }
  }

  // ---------------------------------------------------------------- saving and loading

  datatype Dump = Dump(
    nextExp: int, experiments: seq<Experiment>, runs: seq<MLRun>, models: seq<Model>, versions: seq<Version>)

  /** The keys of a map in some order. */
  ghost predicate Enumerates<T>(order: seq<string>, m: map<string, T>)
  {
    && (forall k :: k in m <==> k in order)
    && forall i, j | 0 <= i < j < |order| :: order[i] != order[j]
  }

  ghost predicate Within<T>(order: seq<string>, m: map<string, T>) { forall k | k in order :: k in m }

  ghost function Rows<T>(m: map<string, T>, order: seq<string>): seq<T>
    requires Within(order, m)
  {
    if order == [] then []
    else
      var n := |order| - 1;
      assert order[n] in order;
      Rows(m, order[..n]) + [m[order[n]]]
  }

  ghost function Flat<T>(m: map<string, seq<T>>, order: seq<string>): seq<T>
    requires Within(order, m)
  {
    if order == [] then []
    else
      var n := |order| - 1;
      assert order[n] in order;
      Flat(m, order[..n]) + m[order[n]]
  }

  ghost predicate ListsRows<T(!new)>(rows: seq<T>, m: map<string, T>)
  {
    exists order :: Enumerates(order, m) && rows == Rows(m, order)
  }

  ghost predicate ListsAll<T(!new)>(rows: seq<T>, m: map<string, seq<T>>)
  {
    exists order :: Enumerates(order, m) && rows == Flat(m, order)
  }

  /** A dump of the state: each map iterated in an order of its own. */
  ghost predicate IsDump(s: State, d: Dump)
  {
    && d.nextExp == s.nextExp && ListsRows(d.experiments, s.experiments) && ListsRows(d.runs, s.runs)
    && ListsRows(d.models, s.models) && ListsAll(d.versions, s.versions)
  }

  /** Later rows win. */
  function Keyed<T>(rows: seq<T>, key: T -> string): map<string, T>
  {
    if rows == [] then map[] else Keyed(rows[..|rows| - 1], key)[key(rows[|rows| - 1]) := rows[|rows| - 1]]
  }

  function Added<T>(m: map<string, seq<T>>, k: string, x: T): map<string, seq<T>>
  {
    m[k := (if k in m then m[k] else []) + [x]]
  }

  function Grouped<T>(rows: seq<T>, key: T -> string): map<string, seq<T>>
  {
    if rows == [] then map[]
    else Added(Grouped(rows[..|rows| - 1], key), key(rows[|rows| - 1]), rows[|rows| - 1])
  }

  function ExperimentID(e: Experiment): string { e.id }

  function RunID(r: MLRun): string { r.id }

  function ModelName(m: Model): string { m.name }

  function VersionName(v: Version): string { v.name }

  function Load(d: Dump): State
  {
    State(d.nextExp, Keyed(d.experiments, ExperimentID), Keyed(d.runs, RunID),
          Keyed(d.models, ModelName), Grouped(d.versions, VersionName))
  }

  lemma KeyedUpTo<T>(rows: seq<T>, i: nat, key: T -> string)
    requires i <= |rows|
    ensures Keyed(rows[..0], key) == map[] && rows[..|rows|] == rows
    ensures i < |rows| ==> Keyed(rows[..i + 1], key) == Keyed(rows[..i], key)[key(rows[i]) := rows[i]]
  {
    assert i < |rows| ==> rows[..i + 1][..i] == rows[..i];
  }

  lemma GroupedUpTo<T>(rows: seq<T>, i: nat, key: T -> string)
    requires i <= |rows|
    ensures Grouped(rows[..0], key) == map[] && rows[..|rows|] == rows
    ensures i < |rows| ==> Grouped(rows[..i + 1], key) == Added(Grouped(rows[..i], key), key(rows[i]), rows[i])
  {
    assert i < |rows| ==> rows[..i + 1][..i] == rows[..i];
  }

  lemma {:induction false} KeyedRows<T>(m: map<string, T>, order: seq<string>, key: T -> string)
    requires Within(order, m) && forall k | k in m :: key(m[k]) == k
    ensures Keyed(Rows(m, order), key) == map k | k in m && k in order :: m[k]
  {
    if order != [] {
      var n := |order| - 1;
      assert order[n] in order;
      KeyedRows(m, order[..n], key);
      assert order == order[..n] + [order[n]];
      assert Rows(m, order)[..|Rows(m, order)| - 1] == Rows(m, order[..n]);
    }
  }

  lemma {:induction false} KeyedListing<T(!new)>(rows: seq<T>, m: map<string, T>, key: T -> string)
    requires ListsRows(rows, m) && forall k | k in m :: key(m[k]) == k
    ensures Keyed(rows, key) == m
  {
    var order :| Enumerates(order, m) && rows == Rows(m, order);
    KeyedRows(m, order, key);
  }

  lemma GroupedSnoc<T>(rows: seq<T>, x: T, key: T -> string)
    ensures Grouped(rows + [x], key) == Added(Grouped(rows, key), key(x), x)
  {
    assert (rows + [x])[..|rows|] == rows;
  }

  lemma {:induction false} GroupedAppend<T>(rows: seq<T>, more: seq<T>, k: string, key: T -> string)
    requires forall x | x in more :: key(x) == k
    requires k !in Grouped(rows, key)
    ensures Grouped(rows + more, key) == if more == [] then Grouped(rows, key) else Grouped(rows, key)[k := more]
  {
    hide Grouped;
    if more == [] {
      assert rows + more == rows;
    } else {
      var n := |more| - 1;
      var init, x := more[..n], more[n];
      assert more == init + [x] && x in more;
      GroupedAppend(rows, init, k, key);
      assert rows + more == (rows + init) + [x];
      GroupedSnoc(rows + init, x, key);
    }
  }

  ghost function Picked<T>(m: map<string, seq<T>>, order: seq<string>): map<string, seq<T>>
  {
    map k | k in m && k in order && m[k] != [] :: m[k]
  }

  lemma PickedSnoc<T>(m: map<string, seq<T>>, order: seq<string>, k: string)
    requires k in m && k !in order
    ensures k !in Picked(m, order)
    ensures Picked(m, order + [k]) == if m[k] == [] then Picked(m, order) else Picked(m, order)[k := m[k]]
  {
  }

  /** Every list except the empty ones comes back, in its own order, whatever the order of keys. */
  lemma {:induction false} GroupedFlat<T>(m: map<string, seq<T>>, order: seq<string>, key: T -> string)
    requires Within(order, m) && forall i, j | 0 <= i < j < |order| :: order[i] != order[j]
    requires forall k | k in m :: forall x | x in m[k] :: key(x) == k
    ensures Grouped(Flat(m, order), key) == Picked(m, order)
  {
    hide Picked;
    if order == [] {
      assert Flat(m, order) == [];
      NothingPicked(m);
    } else {
      var n := |order| - 1;
      var init, k := order[..n], order[n];
      assert order == init + [k] && k in order;
      GroupedFlat(m, init, key);
      PickedSnoc(m, init, k);
      GroupedAppend(Flat(m, init), m[k], k, key);
      assert Flat(m, order) == Flat(m, init) + m[k];
    }
  }

  lemma NothingPicked<T>(m: map<string, seq<T>>)
    ensures Picked(m, []) == map[]
  {
  }

  function NonEmpty<T>(m: map<string, seq<T>>): map<string, seq<T>> { map k | k in m && m[k] != [] :: m[k] }

  /** Loading what was saved restores the state, but for version lists that were empty. */
  lemma {:induction false} LoadDump(s: State, d: Dump)
    requires Good(s) && IsDump(s, d)
    ensures Load(d) == s.(versions := NonEmpty(s.versions))
  {
    hide Keyed, Grouped, ListsRows, Numbered, Issued;
    KeyedListing(d.experiments, s.experiments, ExperimentID);
    KeyedListing(d.runs, s.runs, RunID);
    KeyedListing(d.models, s.models, ModelName);
    var order :| Enumerates(order, s.versions) && d.versions == Flat(s.versions, order);
    forall k | k in s.versions ensures forall v | v in s.versions[k] :: v.name == k {
      NamedInList(s.versions[k], k);
    }
    GroupedFlat(s.versions, order, VersionName);
  }

  lemma NamedInList(vs: seq<Version>, name: string)
    requires Numbered(vs, name)
    ensures forall v | v in vs :: v.name == name
  {
  }

  // --------------------------------------------------- runs of the store, with restarts

  /** The same but for version lists that are empty. */
  ghost predicate Same(a: State, b: State)
  {
    && a.nextExp == b.nextExp && a.experiments == b.experiments && a.runs == b.runs && a.models == b.models
    && forall name :: VersionsOf(a, name) == VersionsOf(b, name)
  }

  lemma {:induction false} SameRefusal(a: State, b: State, op: Op)
    requires Same(a, b)
    ensures Refusal(a, op) == Refusal(b, op)
  {
    hide Trim, Clash, STAGES;
    if op.TransitionStage? || op.UpdateModelVersion? {
      assert VersionsOf(a, op.name) == VersionsOf(b, op.name);
    }
  }

  lemma {:induction false} SameChange(a: State, b: State, op: Op, name: string)
    requires Same(a, b) && Refusal(a, op) == None && Refusal(b, op) == None
    ensures VersionsOf(Changed(a, op), name) == VersionsOf(Changed(b, op), name)
    ensures Changed(a, op).(versions := map[]) == Changed(b, op).(versions := map[])
  {
    hide Decimal.Format, Trim, TagMap, RunTags, RunName, TrimSlashes, Clash, STAGES, Renamed, Restaged, FindVersion;
    assert VersionsOf(a, name) == VersionsOf(b, name);
    if op.RenameModel? || op.CreateModelVersion? || op.TransitionStage? || op.UpdateModelVersion? {
      assert VersionsOf(a, op.name) == VersionsOf(b, op.name);
    }
  }

  lemma {:induction false} SameReply(a: State, b: State, op: Op)
    requires Same(a, b)
    ensures ReplyTo(a, op) == ReplyTo(b, op)
  {
    hide Refusal, Changed;
    SameRefusal(a, b, op);
    if Refusal(a, op) == None {
      SameReplyOnce(a, b, op);
    }
  }

  lemma {:induction false} SameReplyOnce(a: State, b: State, op: Op)
    requires Same(a, b) && Refusal(a, op) == None && Refusal(b, op) == None
    ensures ReplyTo(a, op) == ReplyTo(b, op)
  {
    hide Decimal.Format, Trim, TagMap, RunTags, RunName, TrimSlashes, Clash, STAGES, Renamed, Restaged;
    if op.CreateModelVersion? || op.TransitionStage? || op.UpdateModelVersion? {
      assert VersionsOf(a, op.name) == VersionsOf(b, op.name);
    }
  }

  /** No later call can tell: it is answered alike, and leaves the same state. */
  lemma {:induction false} SameStep(a: State, b: State, op: Op)
    requires Same(a, b)
    ensures Refusal(a, op) == Refusal(b, op) && ReplyTo(a, op) == ReplyTo(b, op)
    ensures Same(Apply(a, op), Apply(b, op))
  {
    hide Refusal, Changed, ReplyTo, VersionsOf;
    SameRefusal(a, b, op);
    SameReply(a, b, op);
    if Refusal(a, op) == None {
      forall name ensures VersionsOf(Changed(a, op), name) == VersionsOf(Changed(b, op), name) {
        SameChange(a, b, op, name);
      }
      SameChange(a, b, op, "");
    }
  }

  /** The store in memory and the file it is saved to, which at first does not exist. */
  datatype World = World(live: State, file: Option<Dump>)

  datatype Event = Do(op: Op, saves: bool) | Restart

  function Loaded(file: Option<Dump>): State { if file.None? then EMPTY else Load(file.value) }

  /** An operation that is not refused changes the state and then writes it out; when the write
      fails the caller is told so, but the change stays in memory. */
  ghost predicate Stepped(w: World, e: Event, w': World)
  {
    match e
    case Restart => w' == World(Loaded(w.file), w.file)
    case Do(op, saves) =>
      && w'.live == Apply(w.live, op)
      && if Refusal(w.live, op).Some? || !saves then w'.file == w.file
         else w'.file.Some? && IsDump(w'.live, w'.file.value)
  }

  datatype History = History(worlds: seq<World>, events: seq<Event>)

  ghost predicate IsHistory(h: History)
  {
    && |h.worlds| == |h.events| + 1 && h.worlds[0] == World(EMPTY, None)
    && forall i | 0 <= i < |h.events| :: Stepped(h.worlds[i], h.events[i], h.worlds[i + 1])
  }

  lemma {:induction false} LoadedIsGood(s: State, d: Dump)
    requires Good(s) && IsDump(s, d)
    ensures Good(Load(d)) && Same(Load(d), s)
  {
    hide Load, IsDump, Numbered, Issued, KnownRuns, Named;
    LoadDump(s, d);
  }

  ghost predicate FromGood(file: Option<Dump>) { file.None? || exists s :: Good(s) && IsDump(s, file.value) }

  /** In every reachable state, across failed writes and restarts, the store is well formed. */
  lemma {:induction false} AlwaysGood(h: History, n: nat)
    requires IsHistory(h) && n < |h.worlds|
    ensures Good(h.worlds[n].live) && FromGood(h.worlds[n].file)
  {
    hide Good, IsDump, Load;
    if n == 0 {
      EmptyIsGood();
    } else {
      AlwaysGood(h, n - 1);
      var w, e := h.worlds[n - 1], h.events[n - 1];
      assert Stepped(w, e, h.worlds[n - 1 + 1]);
      if e.Do? {
        OpsKeepGood(w.live, e.op);
      } else if w.file.None? {
        EmptyIsGood();
      } else {
        var s :| Good(s) && IsDump(s, w.file.value);
        LoadedIsGood(s, w.file.value);
      }
    }
  }

  lemma EmptyIsGood()
    ensures Good(EMPTY)
  {
  }

  /** The reference: what is in memory and what was last saved, with no files, orders or dumps. */
  function Replay(events: seq<Event>): (State, State)
  {
    if events == [] then (EMPTY, EMPTY)
    else
      var (live, saved) := Replay(events[..|events| - 1]);
      match events[|events| - 1]
      case Restart => (saved, saved)
      case Do(op, saves) =>
        var live' := Apply(live, op);
        (live', if Refusal(live, op).None? && saves then live' else saved)
  }

  /** Whatever order the maps were written in, memory and file agree with the replay. */
  lemma {:induction false} HistoryIsReplay(h: History, n: nat)
    requires IsHistory(h) && n < |h.worlds|
    ensures Same(h.worlds[n].live, Replay(h.events[..n]).0) && Same(Loaded(h.worlds[n].file), Replay(h.events[..n]).1)
  {
    hide Good, IsDump, Load, Same, Refusal, Changed;
    if n == 0 {
      SameItself(EMPTY);
    } else {
      HistoryIsReplay(h, n - 1);
      AlwaysGood(h, n);
      var w, e, w' := h.worlds[n - 1], h.events[n - 1], h.worlds[n];
      assert Stepped(w, e, h.worlds[n - 1 + 1]);
      assert h.events[..n][..n - 1] == h.events[..n - 1];
      if e.Do? {
        SameStep(w.live, Replay(h.events[..n - 1]).0, e.op);
        if e.saves && Refusal(w.live, e.op).None? {
          LoadedIsGood(w'.live, w'.file.value);
          SameTransitive(Load(w'.file.value), w'.live, Replay(h.events[..n]).0);
        }
      }
    }
  }

  lemma SameItself(s: State)
    ensures Same(s, s)
  {
  }

  lemma SameTransitive(a: State, b: State, c: State)
    requires Same(a, b) && Same(b, c)
    ensures Same(a, c)
  {
  }

  /** The operations one after the other, as a store does them that never stops. */
  function Uninterrupted(s: State, events: seq<Event>): State
  {
    if events == [] then s
    else
      var before, last := Uninterrupted(s, events[..|events| - 1]), events[|events| - 1];
      if last.Do? then Apply(before, last.op) else before
  }

  /** The last operation accepted since the last restart, if there is one, was saved. */
  predicate Settled(events: seq<Event>)
  {
    events == [] ||
    var before := events[..|events| - 1];
    match events[|events| - 1]
    case Restart => true
    case Do(op, saves) => if Refusal(Replay(before).0, op).Some? then Settled(before) else saves
  }

  ghost predicate RestartsSettled(events: seq<Event>)
  {
    forall i | 0 <= i < |events| && events[i].Restart? :: Settled(events[..i])
  }

  /** Settled, the file has what memory has. */
  lemma {:induction false} SettledIsSaved(events: seq<Event>)
    requires Settled(events)
    ensures Replay(events).0 == Replay(events).1
  {
    hide Changed, Refusal;
    if events != [] {
      var before, last := events[..|events| - 1], events[|events| - 1];
      if last.Do? && Refusal(Replay(before).0, last.op).Some? {
        SettledIsSaved(before);
      }
    }
  }

  /** If every restart finds things settled, the restarts do not matter, whatever writes failed in
      between. */
  lemma {:induction false} SettledRestartsDoNothing(events: seq<Event>)
    requires RestartsSettled(events)
    ensures Replay(events).0 == Uninterrupted(EMPTY, events)
  {
    hide Changed, Refusal, Settled;
    if events != [] {
      var n := |events| - 1;
      var before := events[..n];
      forall i | 0 <= i < n && before[i].Restart? ensures Settled(before[..i]) {
        assert before[..i] == events[..i];
      }
      SettledRestartsDoNothing(before);
      if events[n].Restart? {
        SettledIsSaved(before);
      }
    }
  }

  /** Then each call is answered as by a store that never stopped. */
  lemma {:induction false} RestartsAreInvisible(h: History, n: nat, op: Op)
    requires IsHistory(h) && n < |h.worlds| && RestartsSettled(h.events[..n])
    ensures Same(h.worlds[n].live, Uninterrupted(EMPTY, h.events[..n]))
    ensures ReplyTo(h.worlds[n].live, op) == ReplyTo(Uninterrupted(EMPTY, h.events[..n]), op)
  {
    hide Same, ReplyTo;
    HistoryIsReplay(h, n);
    SettledRestartsDoNothing(h.events[..n]);
    SameStep(h.worlds[n].live, Replay(h.events[..n]).0, op);
  }

  /** In particular while every write succeeds. */
  lemma {:induction false} WhileWritesSucceed(h: History, n: nat, op: Op)
    requires IsHistory(h) && n < |h.worlds| && forall e | e in h.events :: e.Do? ==> e.saves
    ensures Same(h.worlds[n].live, Uninterrupted(EMPTY, h.events[..n]))
    ensures ReplyTo(h.worlds[n].live, op) == ReplyTo(Uninterrupted(EMPTY, h.events[..n]), op)
  {
    hide Same, ReplyTo, Settled;
    forall i | 0 <= i < n && h.events[..n][i].Restart? ensures Settled(h.events[..n][..i]) {
      AllSavedSettles(h.events[..n][..i]);
    }
    RestartsAreInvisible(h, n, op);
  }

  lemma {:induction false} AllSavedSettles(events: seq<Event>)
    requires forall e | e in events :: e.Do? ==> e.saves
    ensures Settled(events)
  {
    hide Refusal, Replay;
    if events != [] {
      AllSavedSettles(events[..|events| - 1]);
      assert events[|events| - 1] in events;
    }
  }

  /** A change whose write failed goes out with the next operation that is accepted and saved, if no
      restart comes between them: the file then has it, and all that was done since. */
  lemma {:induction false} FailedChangeGoesOut(h: History, i: nat, j: nat)
    requires IsHistory(h) && i < j && Accepted(h, i) && !h.events[i].saves && j < |h.events| && Writes(h, j)
    requires forall k | i < k < j :: !h.events[k].Restart?
    ensures
      var changed := Changed(h.worlds[i].live, h.events[i].op);
      Same(Loaded(h.worlds[j + 1].file), Uninterrupted(changed, h.events[i + 1..j + 1]))
  {
    hide Same, Changed, Refusal, Good, IsDump, Load;
    assert Stepped(h.worlds[i], h.events[i], h.worlds[i + 1]);
    assert Stepped(h.worlds[j], h.events[j], h.worlds[j + 1]);
    MemoryGoesOn(h, i + 1, j + 1);
    AlwaysGood(h, j + 1);
    LoadedIsGood(h.worlds[j + 1].live, h.worlds[j + 1].file.value);
  }

  /** Between restarts memory goes on as if there were no file. */
  lemma {:induction false} MemoryGoesOn(h: History, i: nat, n: nat)
    requires IsHistory(h) && i <= n < |h.worlds| && forall k | i <= k < n :: !h.events[k].Restart?
    ensures h.worlds[n].live == Uninterrupted(h.worlds[i].live, h.events[i..n])
    decreases n
  {
    hide Apply, Refusal, IsDump;
    if i < n {
      MemoryGoesOn(h, i, n - 1);
      assert Stepped(h.worlds[n - 1], h.events[n - 1], h.worlds[n - 1 + 1]);
      assert h.events[i..n][..n - 1 - i] == h.events[i..n - 1];
    }
  }

  /** A restart right after a failed write is noticed exactly when the operation changed anything. */
  lemma {:induction false} RestartLosesChangeIff(events: seq<Event>, op: Op)
    requires RestartsSettled(events) && Settled(events)
    ensures
      var done := events + [Do(op, false)];
      var s := Uninterrupted(EMPTY, events);
      Replay(done + [Restart]).0 == Uninterrupted(EMPTY, done + [Restart]) <==> Apply(s, op) == s
  {
    hide Refusal, Changed, RestartsSettled, Settled;
    var done := events + [Do(op, false)];
    var all := done + [Restart];
    SettledIsSaved(events);
    SettledRestartsDoNothing(events);
    assert done[..|events|] == events && all[..|done|] == done;
  }

  // ------------------------------------------------------ experiment numbers over a history

  predicate Accepted(h: History, i: nat)
    requires |h.worlds| == |h.events| + 1
  {
    i < |h.events| && h.events[i].Do? && Refusal(h.worlds[i].live, h.events[i].op) == None
  }

  predicate Creates(h: History, i: nat)
    requires |h.worlds| == |h.events| + 1
  {
    Accepted(h, i) && h.events[i].op.CreateExperiment?
  }

  predicate Writes(h: History, i: nat)
    requires |h.worlds| == |h.events| + 1
  {
    Accepted(h, i) && h.events[i].saves
  }

  /** The number an experiment created now is given. */
  function NumberGiven(w: World): int { w.live.nextExp + 1 }

  function SavedNext(file: Option<Dump>): int { if file.None? then 0 else file.value.nextExp }

  lemma {:induction false} CounterSteps(h: History, i: nat)
    requires IsHistory(h) && i < |h.events|
    ensures
      var w, w' := h.worlds[i], h.worlds[i + 1];
      && w'.live.nextExp == (if h.events[i].Restart? then SavedNext(w.file)
                             else if Creates(h, i) then NumberGiven(w) else w.live.nextExp)
      && SavedNext(w'.file) == if Writes(h, i) then w'.live.nextExp else SavedNext(w.file)
  {
    hide Trim, Clash, Decimal.Format, TagMap, RunTags, RunName, TrimSlashes, Renamed, Restaged, FindVersion, Keyed,
      Grouped, ListsRows, ListsAll;
    assert Stepped(h.worlds[i], h.events[i], h.worlds[i + 1]);
  }

  lemma {:induction false} FileIsBehind(h: History, n: nat)
    requires IsHistory(h) && n < |h.worlds|
    ensures SavedNext(h.worlds[n].file) <= h.worlds[n].live.nextExp
  {
    hide Stepped, Accepted, SavedNext;
    if n > 0 {
      FileIsBehind(h, n - 1);
      CounterSteps(h, n - 1);
      assert h.worlds[n - 1 + 1] == h.worlds[n];
    } else {
      NothingSaved();
    }
  }

  lemma NothingSaved()
    ensures SavedNext(None) == 0
  {
  }

  /** What has been written stays counted, across restarts. */
  lemma {:induction false} WrittenStays(h: History, i: nat, n: nat)
    requires IsHistory(h) && Writes(h, i) && i < n < |h.worlds|
    ensures SavedNext(h.worlds[n].file) >= h.worlds[i + 1].live.nextExp
    decreases n
  {
    hide Stepped, Accepted, SavedNext;
    CounterSteps(h, n - 1);
    assert h.worlds[n - 1 + 1] == h.worlds[n];
    if n > i + 1 {
      WrittenStays(h, i, n - 1);
      FileIsBehind(h, n - 1);
    }
  }

  /** A number whose experiment was written is never given again. */
  lemma {:induction false} NumbersDiffer(h: History, i: nat, j: nat)
    requires IsHistory(h) && i < j && Creates(h, i) && Writes(h, i) && Creates(h, j)
    ensures NumberGiven(h.worlds[i]) < NumberGiven(h.worlds[j])
  {
    hide Stepped, SavedNext;
    CounterSteps(h, i);
    CreatesInside(h, j);
    WrittenStays(h, i, j);
    FileIsBehind(h, j);
  }

  lemma CreatesInside(h: History, j: nat)
    requires |h.worlds| == |h.events| + 1 && Creates(h, j)
    ensures j < |h.events|
  {
  }

  /** Between restarts the counter only grows. */
  lemma {:induction false} CounterGrows(h: History, i: nat, n: nat)
    requires IsHistory(h) && i <= n < |h.worlds| && forall k | i <= k < n :: !h.events[k].Restart?
    ensures h.worlds[i].live.nextExp <= h.worlds[n].live.nextExp
    ensures (forall k | i <= k < n :: !Writes(h, k)) ==> SavedNext(h.worlds[n].file) == SavedNext(h.worlds[i].file)
    decreases n
  {
    hide Stepped, Accepted, SavedNext;
    if n > i {
      CounterGrows(h, i, n - 1);
      CounterSteps(h, n - 1);
      assert h.worlds[n - 1 + 1] == h.worlds[n];
    }
  }

  /** The next restart takes a number back, to be given again, exactly when nothing at all was
      written between the experiment's creation and the restart. */
  lemma {:induction false} RestartTakesBackIff(h: History, i: nat, r: nat)
    requires IsHistory(h) && Creates(h, i) && i < r < |h.events| && h.events[r].Restart?
    requires forall k | i < k < r :: !h.events[k].Restart?
    ensures NumberGiven(h.worlds[r + 1]) <= NumberGiven(h.worlds[i]) <==> forall k | i <= k < r :: !Writes(h, k)
  {
    hide Stepped, SavedNext, Accepted;
    CreatesIsDo(h, i);
    if k :| i <= k < r && Writes(h, k) {
      WrittenIsKept(h, i, k, r);
    } else {
      UnwrittenIsLost(h, i, r);
    }
  }

  lemma {:induction false} WrittenIsKept(h: History, i: nat, k: nat, r: nat)
    requires IsHistory(h) && Creates(h, i) && i <= k < r < |h.events| && Writes(h, k) && h.events[r].Restart?
    requires forall j | i <= j < r :: !h.events[j].Restart?
    ensures NumberGiven(h.worlds[r + 1]) > NumberGiven(h.worlds[i])
  {
    hide Stepped, SavedNext, Accepted;
    CounterSteps(h, i);
    CounterSteps(h, r);
    WrittenStays(h, k, r);
    CounterGrows(h, i + 1, k + 1);
  }

  lemma {:induction false} UnwrittenIsLost(h: History, i: nat, r: nat)
    requires IsHistory(h) && i < r < |h.events| && h.events[r].Restart?
    requires forall j | i <= j < r :: !h.events[j].Restart? && !Writes(h, j)
    ensures NumberGiven(h.worlds[r + 1]) <= NumberGiven(h.worlds[i])
  {
    hide Stepped, SavedNext, Accepted, Writes;
    CounterSteps(h, r);
    CounterGrows(h, i, r);
    FileIsBehind(h, i);
  }

  lemma CreatesIsDo(h: History, i: nat)
    requires |h.worlds| == |h.events| + 1 && Creates(h, i)
    ensures h.events[i].Do?
  {
  }

  function Named0(name: string): Op { CreateExperiment(name, "", [], 0) }

  /** So with failing writes one number can name two experiments, one after the other. */
  lemma {:induction false} NumberCanRepeat() returns (h: History)
    ensures IsHistory(h) && h.events == [Do(Named0("a"), false), Restart, Do(Named0("b"), false)]
    ensures Creates(h, 0) && Creates(h, 2) && NumberGiven(h.worlds[0]) == NumberGiven(h.worlds[2])
    ensures
      var id := Decimal.Format(1);
      && id in h.worlds[1].live.experiments && h.worlds[1].live.experiments[id].name == "a"
      && id in h.worlds[3].live.experiments && h.worlds[3].live.experiments[id].name == "b"
  {
    hide Decimal.Format;
    var a, b := Named0("a"), Named0("b");
    TrimIsTrimmed("a");
    TrimIsTrimmed("b");
    assert Refusal(EMPTY, a) == None && Refusal(EMPTY, b) == None;
    h := History([World(EMPTY, None), World(Apply(EMPTY, a), None), World(EMPTY, None), World(Apply(EMPTY, b), None)],
                 [Do(a, false), Restart, Do(b, false)]);
  }

  // ------------------------------------------------------------------ what calls undo

  /** Renaming looks at active experiments of the new name only: whether the experiment itself is
      deleted makes no difference, and a deleted one is renamed and stays deleted. */
  lemma {:induction false} DeletedIsRenamedAlike(s: State, id: string, newName: string, t0: int, t1: int)
    requires Good(s) && id in s.experiments
    ensures
      var deleted, rename := Apply(s, DeleteExperiment(id, t0)), UpdateExperiment(id, newName, t1);
      && !deleted.experiments[id].active && Refusal(deleted, rename) == Refusal(s, rename)
      && (Refusal(s, rename) == None ==>
            && Apply(deleted, rename).experiments[id].name == Trim(newName)
            && !Apply(deleted, rename).experiments[id].active)
  {
    hide Trim, Issued, Named, GoodRuns, GoodModels;
    var es, name := s.experiments, Trim(newName);
    var es' := Apply(s, DeleteExperiment(id, t0)).experiments;
    assert es[id].id == id && es'[id].id == id;
    if Clash(es, Some(id), name) {
      var k :| k in es && Some(es[k].id) != Some(id) && es[k].name == name && es[k].active;
      assert k != id && es'[k] == es[k];
      assert Clash(es', Some(id), name);
    }
    if Clash(es', Some(id), name) {
      var k :| k in es' && Some(es'[k].id) != Some(id) && es'[k].name == name && es'[k].active;
      assert k != id && es'[k] == es[k];
      assert Clash(es, Some(id), name);
    }
  }

  /** Moving a version with archiving leaves it alone in its stage; what was there is archived and
      nothing else moves. */
  lemma {:induction false} ArchivingLeavesOne(s: State, op: Op, i: nat)
    requires Good(s) && op.TransitionStage? && op.archive && Refusal(s, op) == None
    requires i < |s.versions[op.name]|
    ensures |Changed(s, op).versions[op.name]| == |s.versions[op.name]|
    ensures
      var was, v := s.versions[op.name][i], Changed(s, op).versions[op.name][i];
      && (v.stage == op.stage <==> i + 1 == VersionNumber(s, op))
      && (v.stage != op.stage ==> v.stage == if was.stage == op.stage then "Archived" else was.stage)
  {
    hide Decimal.Format, Good, Restaged, FindVersion, Clash, Trim;
    FoundByNumber(s, op.name, op.version, i);
    var was := s.versions[op.name][i];
    assert Changed(s, op).versions[op.name][i] == RestagedOne(was, op.version, op.stage, true, Ms(op.now));
  }

  lemma {:induction false} FoundByNumber(s: State, name: string, version: string, i: nat)
    requires Good(s) && FindVersion(VersionsOf(s, name), version).Some? && i < |VersionsOf(s, name)|
    ensures VersionsOf(s, name)[i].version == version <==> i == FindVersion(VersionsOf(s, name), version).value
  {
    hide Decimal.Format, GoodExperiments, GoodRuns, FindVersion, KnownRuns, Named;
    var vs, j := VersionsOf(s, name), FindVersion(VersionsOf(s, name), version).value;
    assert Numbered(vs, name);
    assert vs[j].version == Decimal.Format(j + 1) && vs[i].version == Decimal.Format(i + 1);
    if vs[i].version == version {
      Decimal.FormatInjective(i + 1, j + 1);
    }
  }

  function VersionNumber(s: State, op: Op): nat
    requires op.TransitionStage? && Refusal(s, op) == None
  {
    FindVersion(s.versions[op.name], op.version).value + 1
  }

  /** Restoring undoes deleting, while the name is not taken in between. */
  lemma {:induction false} RestoreUndoesDelete(s: State, id: string, t0: int, t1: int)
    requires Good(s) && id in s.experiments && s.experiments[id].active
    ensures
      var deleted := Apply(s, DeleteExperiment(id, t0));
      && Refusal(deleted, RestoreExperiment(id, t1)) == None
      && Apply(deleted, RestoreExperiment(id, t1)) ==
           s.(experiments := s.experiments[id := s.experiments[id].(updated := Ms(t1))])
  {
    hide Issued, GoodRuns, GoodModels, Named;
    var es := s.experiments;
    var deleted := Apply(s, DeleteExperiment(id, t0));
    assert deleted.experiments[id := es[id].(updated := Ms(t1))] == es[id := es[id].(updated := Ms(t1))];
  }

  /** Renaming a model and renaming it back changes only when it was updated. */
  lemma {:induction false} RenameBack(s: State, name: string, other: string, t0: int, t1: int)
    requires Good(s) && Refusal(s, RenameModel(name, other, t0)) == None && Trim(other) != name
    ensures
      var away, back := RenameModel(name, other, t0), RenameModel(Trim(other), name, t1);
      var s' := Apply(Apply(s, away), back);
      && Refusal(Apply(s, away), back) == None
      && s'.models == s.models[name := s.models[name].(updated := Ms(t1))]
      && s'.versions == s.versions[name := Renamed(VersionsOf(s, name), name, Ms(t1))]
      && s' == s.(models := s'.models, versions := s'.versions)
  {
    hide Trim, Numbered, KnownRuns, GoodExperiments, GoodRuns;
    var to := Trim(other);
    RenamedTwice(VersionsOf(s, name), to, Ms(t0), name, Ms(t1));
    var away := Apply(s, RenameModel(name, other, t0));
    assert Named(name) && s.models[name].name == name;
    assert to !in s.models && to !in s.versions;
    assert VersionsOf(away, to) == Renamed(VersionsOf(s, name), to, Ms(t0));
    var s' := Apply(away, RenameModel(to, name, t1));
    assert s'.models == s.models[name := s.models[name].(updated := Ms(t1))];
    assert s'.versions == s.versions[name := Renamed(VersionsOf(s, name), name, Ms(t1))];
  }

  lemma RenamedTwice(vs: seq<Version>, a: string, t: int, b: string, u: int)
    ensures Renamed(Renamed(vs, a, t), b, u) == Renamed(vs, b, u)
  {
    var x, y := Renamed(Renamed(vs, a, t), b, u), Renamed(vs, b, u);
    assert forall i | 0 <= i < |vs| :: x[i] == y[i];
  }
}
