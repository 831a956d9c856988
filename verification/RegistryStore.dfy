// The registry's store itself: its maps, the methods that change them, and the file they are saved to.
module RegistryStore {
  import opened Basics
  import opened Text
  import opened Registry
  import Decimal

  class MLflow {
    var nextExp: int
    var experiments: map<string, Experiment>
    var runs: map<string, MLRun>
    var models: map<string, Model>
    var versions: map<string, seq<Version>>
    var file: Option<Dump>

    function Live(): State
      reads this
    {
      State(nextExp, experiments, runs, models, versions)
    }

    function Now(): World
      reads this
    {
      World(Live(), file)
    }

    /** Opens the store from what was last saved, if anything was. */
    constructor (saved: Option<Dump>)
      ensures Now() == World(Loaded(saved), saved)
    {
      hide Keyed, Grouped;
      nextExp, experiments, runs, models, versions, file := 0, map[], map[], map[], map[], saved;
      new;
      if saved.None? {
        return;
      }
      var dump := saved.value;
      nextExp := dump.nextExp;
      KeyedUpTo(dump.experiments, 0, ExperimentID);
      for i := 0 to |dump.experiments|
        invariant Now() == World(State(dump.nextExp, Keyed(dump.experiments[..i], ExperimentID), map[], map[], map[]),
          saved)
      {
        KeyedUpTo(dump.experiments, i, ExperimentID);
        experiments := experiments[dump.experiments[i].id := dump.experiments[i]];
      }
      ghost var done := Live();
      KeyedUpTo(dump.runs, 0, RunID);
      for i := 0 to |dump.runs|
        invariant Now() == World(done.(runs := Keyed(dump.runs[..i], RunID)), saved)
      {
        KeyedUpTo(dump.runs, i, RunID);
        runs := runs[dump.runs[i].id := dump.runs[i]];
      }
      done := Live();
      KeyedUpTo(dump.models, 0, ModelName);
      for i := 0 to |dump.models|
        invariant Now() == World(done.(models := Keyed(dump.models[..i], ModelName)), saved)
      {
        KeyedUpTo(dump.models, i, ModelName);
        models := models[dump.models[i].name := dump.models[i]];
      }
      done := Live();
      GroupedUpTo(dump.versions, 0, VersionName);
      for i := 0 to |dump.versions|
        invariant Now() == World(done.(versions := Grouped(dump.versions[..i], VersionName)), saved)
      {
        GroupedUpTo(dump.versions, i, VersionName);
        var v := dump.versions[i];
        versions := versions[v.name := (if v.name in versions then versions[v.name] else []) + [v]];
      }
    }

    /** Writes everything out, the maps in whatever order they come. */
    method Persist(saves: bool) returns (ok: bool)
      modifies this`file
      ensures ok == saves
      ensures if saves then file.Some? && IsDump(Live(), file.value) else file == old(file)
    {
      var es := ListRows(experiments);
      var rs := ListRows(runs);
      var ms := ListRows(models);
      var vs := ListAll(versions);
      if !saves {
        return false;
      }
      file := Some(Dump(nextExp, es, rs, ms, vs));
      ok := true;
    }

    /** An active experiment has the name, other than the one excepted. */
    method Taken(except: Option<string>, name: string) returns (taken: bool)
      ensures taken <==> Clash(experiments, except, name)
    {
      var todo := experiments.Keys;
      while todo != {}
        invariant todo <= experiments.Keys
        invariant forall k | k in experiments && k !in todo ::
          Some(experiments[k].id) == except || experiments[k].name != name || !experiments[k].active
      {
        var k := Pick(todo);
        todo := todo - {k};
        if Some(experiments[k].id) != except && experiments[k].name == name && experiments[k].active {
          return true;
        }
      }
      taken := false;
    }

    method CreateExperiment(name: string, artifact: string, tags: seq<Tag>, now: int, saves: bool)
        returns (reply: Reply)
      requires Good(Live())
      modifies this
      ensures Did(old(Now()), Op.CreateExperiment(name, artifact, tags, now), saves, Now(), reply) && Good(Live())
    {
      hide Good, Trim, Decimal.Format, IsDump, Clash;
      OpsKeepGood(Live(), Op.CreateExperiment(name, artifact, tags, now));
      var trimmed := Trim(name);
      if trimmed == "" {
        return Refused(Invalid);
      }
      var taken := Taken(None, trimmed);
      if taken {
        return Refused(Exists);
      }
      nextExp := nextExp + 1;
      var id := Decimal.Format(nextExp);
      var where := if artifact == "" then "dbfs:/databricks/mlflow-tracking/" + id else artifact;
      var e := Experiment(id, trimmed, where, true, Ms(now), Ms(now), tags);
      experiments := experiments[id := e];
      var ok := Persist(saves);
      reply := if ok then AnExperiment(e) else Refused(Disk);
    }

    method UpdateExperiment(id: string, newName: string, now: int, saves: bool) returns (reply: Reply)
      requires Good(Live())
      modifies this
      ensures Did(old(Now()), Op.UpdateExperiment(id, newName, now), saves, Now(), reply) && Good(Live())
    {
      hide Good, Trim, IsDump, Clash;
      OpsKeepGood(Live(), Op.UpdateExperiment(id, newName, now));
      var trimmed := Trim(newName);
      if trimmed == "" {
        return Refused(Invalid);
      }
      if id !in experiments {
        return Refused(NotFound);
      }
      var taken := Taken(Some(id), trimmed);
      if taken {
        return Refused(Exists);
      }
      experiments := experiments[id := experiments[id].(name := trimmed, updated := Ms(now))];
      var ok := Persist(saves);
      reply := if ok then AnExperiment(experiments[id]) else Refused(Disk);
    }

    method DeleteExperiment(id: string, now: int, saves: bool) returns (reply: Reply)
      requires Good(Live())
      modifies this
      ensures Did(old(Now()), Op.DeleteExperiment(id, now), saves, Now(), reply) && Good(Live())
    {
      hide Good, IsDump, Clash;
      OpsKeepGood(Live(), Op.DeleteExperiment(id, now));
      if id !in experiments {
        return Refused(NotFound);
      }
      experiments := experiments[id := experiments[id].(active := false, updated := Ms(now))];
      var ok := Persist(saves);
      reply := if ok then Done else Refused(Disk);
    }

    method RestoreExperiment(id: string, now: int, saves: bool) returns (reply: Reply)
      requires Good(Live())
      modifies this
      ensures Did(old(Now()), Op.RestoreExperiment(id, now), saves, Now(), reply) && Good(Live())
    {
      hide Good, IsDump, Clash;
      OpsKeepGood(Live(), Op.RestoreExperiment(id, now));
      if id !in experiments {
        return Refused(NotFound);
      }
      var taken := Taken(Some(id), experiments[id].name);
      if taken {
        return Refused(Exists);
      }
      experiments := experiments[id := experiments[id].(active := true, updated := Ms(now))];
      var ok := Persist(saves);
      reply := if ok then Done else Refused(Disk);
    }

    /** drawn is the random run identifier, or none when the source of randomness fails. */
    method CreateRun(experiment: string, name: string, user: string, start: int, tags: seq<Tag>, now: int,
        drawn: Option<string>, saves: bool) returns (reply: Reply)
      requires Good(Live())
      modifies this
      ensures Did(old(Now()), Op.CreateRun(experiment, name, user, start, tags, now, drawn), saves, Now(), reply)
      ensures Good(Live())
    {
      hide Good, IsDump, Clash, TrimSlashes;
      OpsKeepGood(Live(), Op.CreateRun(experiment, name, user, start, tags, now, drawn));
      if experiment == "" {
        return Refused(Invalid);
      }
      if experiment !in experiments {
        return Refused(NotFound);
      }
      var e := experiments[experiment];
      if !e.active {
        return Refused(Invalid);
      }
      if drawn.None? {
        return Refused(Entropy);
      }
      var id := drawn.value;
      var started := if start == 0 then Ms(now) else start;
      var named, tagMap := CollectTags(name, tags);
      if named != "" {
        tagMap := tagMap[RUN_NAME := named];
      }
      var run := MLRun(id, experiment, named, user, "RUNNING", true, TrimSlashes(e.artifact) + "/" + id + "/artifacts",
                       started, 0, [], map[], tagMap);
      runs := runs[id := run];
      experiments := experiments[experiment := e.(updated := Ms(now))];
      var ok := Persist(saves);
      reply := if ok then ARun(run) else Refused(Disk);
    }

    method CreateModel(name: string, description: string, user: string, tags: seq<Tag>, now: int, saves: bool)
        returns (reply: Reply)
      requires Good(Live())
      modifies this
      ensures Did(old(Now()), Op.CreateModel(name, description, user, tags, now), saves, Now(), reply) && Good(Live())
    {
      hide Good, Trim, IsDump, TagMap;
      OpsKeepGood(Live(), Op.CreateModel(name, description, user, tags, now));
      var trimmed := Trim(name);
      if trimmed == "" {
        return Refused(Invalid);
      }
      if trimmed in models {
        return Refused(Exists);
      }
      var _, tagMap := CollectTags("", tags);
      var m := Model(trimmed, description, user, Ms(now), Ms(now), tagMap);
      models := models[trimmed := m];
      var ok := Persist(saves);
      reply := if ok then AModel(m) else Refused(Disk);
    }

    method RenameModel(name: string, newName: string, now: int, saves: bool) returns (reply: Reply)
      requires Good(Live())
      modifies this
      ensures Did(old(Now()), Op.RenameModel(name, newName, now), saves, Now(), reply) && Good(Live())
    {
      hide Good, Trim, IsDump, Renamed, Refusal, Changed, ReplyTo;
      OpsKeepGood(Live(), Op.RenameModel(name, newName, now));
      ModelMoved(Live(), Op.RenameModel(name, newName, now));
      var to := Trim(newName);
      if to == "" {
        return Refused(Invalid);
      }
      if name !in models {
        return Refused(NotFound);
      }
      if to in models && to != name {
        return Refused(Exists);
      }
      var m := models[name].(name := to, updated := Ms(now));
      models := models - {name};
      models := models[to := m];
      var vers := if name in versions then versions[name] else [];
      versions := versions - {name};
      ghost var was := vers;
      for i := 0 to |vers|
        invariant |vers| == |was|
        invariant forall j | 0 <= j < |was| :: vers[j] == if j < i then was[j].(name := to, updated := Ms(now))
          else was[j]
      {
        vers := vers[i := vers[i].(name := to, updated := Ms(now))];
      }
      assert vers == Renamed(was, to, Ms(now));
      versions := versions[to := vers];
      var ok := Persist(saves);
      reply := if ok then AModel(m) else Refused(Disk);
    }

    method DeleteModel(name: string, saves: bool) returns (reply: Reply)
      requires Good(Live())
      modifies this
      ensures Did(old(Now()), Op.DeleteModel(name), saves, Now(), reply) && Good(Live())
    {
      hide Good, IsDump;
      OpsKeepGood(Live(), Op.DeleteModel(name));
      if name !in models {
        return Refused(NotFound);
      }
      models := models - {name};
      versions := versions - {name};
      var ok := Persist(saves);
      reply := if ok then Done else Refused(Disk);
    }

    method CreateModelVersion(name: string, source: string, runID: string, runLink: string, description: string,
        user: string, tags: seq<Tag>, now: int, saves: bool) returns (reply: Reply)
      requires Good(Live())
      modifies this
      ensures Did(old(Now()), Op.CreateModelVersion(name, source, runID, runLink, description, user, tags, now),
                  saves, Now(), reply)
      ensures Good(Live())
    {
      hide Good, Trim, NewVersion, IsDump, TagMap, Refusal, Changed, ReplyTo;
      OpsKeepGood(Live(), Op.CreateModelVersion(name, source, runID, runLink, description, user, tags, now));
      VersionAdded(Live(), Op.CreateModelVersion(name, source, runID, runLink, description, user, tags, now));
      if Trim(name) == "" {
        return Refused(Invalid);
      }
      if Trim(source) == "" {
        return Refused(Invalid);
      }
      if name !in models {
        return Refused(NotFound);
      }
      if runID != "" {
        if runID !in runs {
          return Refused(NotFound);
        }
      }
      var vers := if name in versions then versions[name] else [];
      var _, tagMap := CollectTags("", tags);
      var v := NewVersion(name, |vers| + 1, source, runID, runLink, description, user, tagMap, Ms(now));
      versions := versions[name := vers + [v]];
      models := models[name := models[name].(updated := Ms(now))];
      var ok := Persist(saves);
      reply := if ok then AVersion(v) else Refused(Disk);
    }

    method TransitionStage(name: string, version: string, stage: string, archive: bool, now: int, saves: bool)
        returns (reply: Reply)
      requires Good(Live())
      modifies this
      ensures Did(old(Now()), Op.TransitionStage(name, version, stage, archive, now), saves, Now(), reply) &&
        Good(Live())
    {
      hide Good, IsDump, Restaged, FindVersion, Refusal, Changed, ReplyTo;
      OpsKeepGood(Live(), Op.TransitionStage(name, version, stage, archive, now));
      StageMoved(Live(), Op.TransitionStage(name, version, stage, archive, now));
      if stage !in STAGES {
        return Refused(Invalid);
      }
      if archive && stage != "Staging" && stage != "Production" {
        return Refused(Invalid);
      }
      if name !in models {
        return Refused(NotFound);
      }
      var vers := if name in versions then versions[name] else [];
      var found := Locate(vers, version);
      if found.None? {
        return Refused(NotFound);
      }
      vers := Move(vers, found.value, stage, archive, Ms(now));
      forall i | 0 <= i < |vers| ensures VersionsOf(old(Live()), name)[i].version == version <==> i == found.value {
        FoundByNumber(old(Live()), name, version, i);
      }
      assert vers == Restaged(VersionsOf(old(Live()), name), version, stage, archive, Ms(now));
      versions := versions[name := vers];
      models := models[name := models[name].(updated := Ms(now))];
      var ok := Persist(saves);
      reply := if ok then AVersion(vers[found.value]) else Refused(Disk);
    }

    method UpdateModel(name: string, description: string, now: int, saves: bool) returns (reply: Reply)
      requires Good(Live())
      modifies this
      ensures Did(old(Now()), Op.UpdateModel(name, description, now), saves, Now(), reply) && Good(Live())
    {
      hide Good, IsDump;
      OpsKeepGood(Live(), Op.UpdateModel(name, description, now));
      if name !in models {
        return Refused(NotFound);
      }
      models := models[name := models[name].(description := description, updated := Ms(now))];
      var ok := Persist(saves);
      reply := if ok then AModel(models[name]) else Refused(Disk);
    }

    method UpdateModelVersion(name: string, version: string, description: string, now: int, saves: bool)
        returns (reply: Reply)
      requires Good(Live())
      modifies this
      ensures Did(old(Now()), Op.UpdateModelVersion(name, version, description, now), saves, Now(), reply) &&
        Good(Live())
    {
      hide Good, IsDump, FindVersion;
      OpsKeepGood(Live(), Op.UpdateModelVersion(name, version, description, now));
      if name !in models {
        return Refused(NotFound);
      }
      var vers := if name in versions then versions[name] else [];
      var found := Locate(vers, version);
      if found.None? {
        return Refused(NotFound);
      }
      vers := vers[found.value := vers[found.value].(description := description, updated := Ms(now))];
      versions := versions[name := vers];
      var ok := Persist(saves);
      reply := if ok then AVersion(vers[found.value]) else Refused(Disk);
    }
  }

  /** One operation on the store: what changes, what is written, what the caller is told. */
  ghost predicate Did(w: World, op: Op, saves: bool, w': World, reply: Reply)
  {
    && Stepped(w, Do(op, saves), w')
    && reply == if Refusal(w.live, op).None? && !saves then Refused(Disk) else ReplyTo(w.live, op)
  }

  method Locate(vs: seq<Version>, version: string) returns (found: Option<nat>)
    ensures found == FindVersion(vs, version)
  {
    for i := 0 to |vs|
      invariant forall j | 0 <= j < i :: vs[j].version != version
    {
      if vs[i].version == version {
        return Some(i);
      }
    }
    found := None;
  }

  method Move(was: seq<Version>, at: nat, stage: string, archive: bool, t: int) returns (vs: seq<Version>)
    requires at < |was|
    ensures |vs| == |was|
    ensures forall i | 0 <= i < |was| ::
      vs[i] == (if i == at then was[i].(stage := stage, updated := t)
                else if archive then Archived(was[i], was[at].version, stage, t)
                else was[i])
  {
    vs := was;
    if archive {
      for i := 0 to |vs|
        invariant |vs| == |was|
        invariant forall j | 0 <= j < |was| ::
          vs[j] == if j < i then Archived(was[j], was[at].version, stage, t) else was[j]
      {
        if vs[i].version != was[at].version && vs[i].stage == stage {
          vs := vs[i := vs[i].(stage := "Archived", updated := t)];
        }
      }
    }
    vs := vs[at := vs[at].(stage := stage, updated := t)];
  }

  /** The tags as a map, later ones winning, and the name a run takes from them. */
  method CollectTags(given: string, tags: seq<Tag>) returns (name: string, tagMap: map<string, string>)
    ensures name == RunName(given, tags) && tagMap == TagMap(tags)
  {
    name, tagMap := given, map[];
    for i := 0 to |tags|
      invariant name == RunName(given, tags[..i]) && tagMap == TagMap(tags[..i])
    {
      assert tags[..i + 1][..i] == tags[..i];
      tagMap := tagMap[tags[i].key := tags[i].value];
      if tags[i].key == RUN_NAME && name == "" {
        name := tags[i].value;
      }
    }
    assert tags[..|tags|] == tags;
  }

  method ListRows<T(!new)>(m: map<string, T>) returns (rows: seq<T>)
    ensures ListsRows(rows, m)
  {
    rows := [];
    ghost var order := [];
    var todo := m.Keys;
    while todo != {}
      invariant todo <= m.Keys && Covers(order, m, todo)
      invariant rows == Rows(m, order)
    {
      var k := Pick(todo);
      todo := todo - {k};
      assert (order + [k])[..|order|] == order;
      order := order + [k];
      rows := rows + [m[k]];
    }
    assert Enumerates(order, m);
  }

  /** What has been listed so far, each key once, when todo is still to come. */
  ghost predicate Covers<T>(order: seq<string>, m: map<string, T>, todo: set<string>)
  {
    && (forall k :: k in order <==> k in m && k !in todo)
    && forall i, j | 0 <= i < j < |order| :: order[i] != order[j]
  }

  method ListAll<T(!new)>(m: map<string, seq<T>>) returns (rows: seq<T>)
    ensures ListsAll(rows, m)
  {
    rows := [];
    ghost var order := [];
    var todo := m.Keys;
    while todo != {}
      invariant todo <= m.Keys && Covers(order, m, todo)
      invariant rows == Flat(m, order)
    {
      var k := Pick(todo);
      todo := todo - {k};
      ghost var before := rows;
      for i := 0 to |m[k]|
        invariant rows == before + m[k][..i]
      {
        rows := rows + [m[k][i]];
      }
      assert (order + [k])[..|order|] == order;
      order := order + [k];
    }
    assert Enumerates(order, m);
  }
}
