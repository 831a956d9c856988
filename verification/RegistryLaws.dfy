// What callers of the registry can rely on: what each operation does to the one thing it is about, that
// it leaves everything else, and when it is refused.
module RegistryLaws {
  import opened Basics
  import opened Text
  import opened Registry
  import Decimal

  // ------------------------------------------------------------------------ experiments

  predicate HasActive(s: State, name: string)
  {
    exists id | id in s.experiments :: s.experiments[id].active && s.experiments[id].name == name
  }

  /** A new experiment is active, is what was asked for, and takes the next number and the name: nobody
      else can take that name after it. */
  lemma {:induction false} CreatedExperiment(s: State, op: Op)
    requires Good(s) && op.CreateExperiment? && Refusal(s, op) == None
    ensures ReplyTo(s, op).AnExperiment?
    ensures
      var e, s' := ReplyTo(s, op).experiment, Apply(s, op);
      && e.id == Decimal.Format(s.nextExp + 1) && e.id !in s.experiments
      && e.name == Trim(op.name) && e.tags == op.tags && e.active && e.created == e.updated == 1000 * op.now
      && e.artifact == (if op.artifact == "" then "dbfs:/databricks/mlflow-tracking/" + e.id else op.artifact)
      && s' == s.(nextExp := s'.nextExp, experiments := s.experiments[e.id := e]) && s'.nextExp == s.nextExp + 1
    ensures !HasActive(s, Trim(op.name)) && HasActive(Apply(s, op), Trim(op.name))
    ensures forall again: Op | again.CreateExperiment? && Trim(again.name) == Trim(op.name) ::
              Refusal(Apply(s, op), again) == Some(Exists)
  {
    hide Decimal.Format, Trim, Issued, Named, GoodRuns, GoodModels;
    NewNumberIsNew(s);
    var id, s' := Decimal.Format(s.nextExp + 1), Apply(s, op);
    assert s'.experiments[id].active && s'.experiments[id].name == Trim(op.name);
  }

  /** Renaming changes the name and when the experiment was updated. */
  lemma {:induction false} RenamedExperiment(s: State, op: Op)
    requires Good(s) && op.UpdateExperiment? && Refusal(s, op) == None
    ensures op.id in s.experiments && ReplyTo(s, op).AnExperiment?
    ensures
      var was, e := s.experiments[op.id], ReplyTo(s, op).experiment;
      && e.name == Trim(op.newName) && e.updated == 1000 * op.now && e.(name := was.name, updated := was.updated) == was
      && Apply(s, op) == s.(experiments := s.experiments[op.id := e])
  {
    hide Trim, Good;
  }

  /** Deleting marks an experiment and removes nothing; but its name is free again at once. */
  lemma {:induction false} DeletedExperiment(s: State, op: Op)
    requires Good(s) && op.DeleteExperiment? && Refusal(s, op) == None
    ensures op.id in s.experiments && op.id in Apply(s, op).experiments && ReplyTo(s, op) == Done
    ensures
      var was, e := s.experiments[op.id], Apply(s, op).experiments[op.id];
      && !e.active && e.updated == 1000 * op.now && e.(active := was.active, updated := was.updated) == was
      && Apply(s, op) == s.(experiments := s.experiments[op.id := e])
    ensures s.experiments[op.id].active ==>
      forall again: Op | again.CreateExperiment? && Trim(again.name) == s.experiments[op.id].name ::
        Refusal(Apply(s, op), again) == None
  {
    hide Trim, Issued, GoodRuns, GoodModels;
    var was, s' := s.experiments[op.id], Apply(s, op);
    if was.active {
      forall k | k in s'.experiments ensures !(s'.experiments[k].active && s'.experiments[k].name == was.name) {
        assert k != op.id ==> s'.experiments[k] == s.experiments[k];
      }
    }
  }

  /** Restoring makes an experiment active, and is refused while another active one has its name. */
  lemma {:induction false} RestoredExperiment(s: State, op: Op)
    requires Good(s) && op.RestoreExperiment? && op.id in s.experiments
    ensures Refusal(s, op) ==
      if exists k | k in s.experiments && k != op.id ::
           s.experiments[k].active && s.experiments[k].name == s.experiments[op.id].name
      then Some(Exists) else None
    ensures Refusal(s, op) == None ==> op.id in Apply(s, op).experiments && ReplyTo(s, op) == Done
    ensures Refusal(s, op) == None ==>
      var was, e := s.experiments[op.id], Apply(s, op).experiments[op.id];
      && e.active && e.updated == 1000 * op.now && e.(active := was.active, updated := was.updated) == was
      && Apply(s, op) == s.(experiments := s.experiments[op.id := e])
  {
    hide Issued, Named, GoodRuns, GoodModels;
    var es, name := s.experiments, s.experiments[op.id].name;
    if k :| k in es && k != op.id && es[k].active && es[k].name == name {
      assert es[k].id == k && Clash(es, Some(op.id), name);
    }
    if Clash(es, Some(op.id), name) {
      var k :| k in es && Some(es[k].id) != Some(op.id) && es[k].name == name && es[k].active;
      assert es[k].id == k && k != op.id;
    }
  }

  /** Creating and renaming are refused for blank names and for names another active experiment has; for
      unknown experiments too, and never otherwise. */
  lemma {:induction false} ExperimentRefusals(s: State, op: Op)
    requires Good(s)
    ensures op.CreateExperiment? ==>
      Refusal(s, op) ==
        if AllSpace(op.name) then Some(Invalid) else if HasActive(s, Trim(op.name)) then Some(Exists) else None
    ensures op.UpdateExperiment? ==>
      Refusal(s, op) ==
        if AllSpace(op.newName) then Some(Invalid)
        else if op.id !in s.experiments then Some(NotFound)
        else if exists k | k in s.experiments && k != op.id ::
                  s.experiments[k].active && s.experiments[k].name == Trim(op.newName) then Some(Exists)
        else None
    ensures op.DeleteExperiment? || op.RestoreExperiment? ==>
      (Refusal(s, op) == Some(NotFound) <==> op.id !in s.experiments)
  {
    hide Trim, Issued, Named, GoodRuns, GoodModels;
    if op.CreateExperiment? {
      BlankIff(op.name);
      if HasActive(s, Trim(op.name)) {
        var k :| k in s.experiments && s.experiments[k].active && s.experiments[k].name == Trim(op.name);
        assert Some(s.experiments[k].id) != None;
      }
    } else if op.UpdateExperiment? {
      BlankIff(op.newName);
      var es, name := s.experiments, Trim(op.newName);
      if k :| k in es && k != op.id && es[k].active && es[k].name == name {
        assert es[k].id == k && Clash(es, Some(op.id), name);
      }
      if Clash(es, Some(op.id), name) {
        var k :| k in es && Some(es[k].id) != Some(op.id) && es[k].name == name && es[k].active;
        assert es[k].id == k && k != op.id;
      }
    }
  }

  lemma {:induction false} BlankIff(s: string)
    ensures Trim(s) == "" <==> AllSpace(s)
  {
    TrimTakesSpace(s);
    var lead, tail :| s == lead + Trim(s) + tail && AllSpace(lead) && AllSpace(tail);
    if Trim(s) == "" {
      forall c | c in s ensures IsSpace(c) {
        assert c in lead || c in tail;
      }
    } else {
      TrimIsTrimmed(s);
      assert Trim(s)[0] in s && !IsSpace(Trim(s)[0]);
    }
  }

  // ------------------------------------------------------------------------------- runs

  lemma {:induction false} TagsByKey(tags: seq<Tag>, i: nat)
    requires i < |tags| && forall j | i < j < |tags| :: tags[j].key != tags[i].key
    ensures tags[i].key in TagMap(tags) && TagMap(tags)[tags[i].key] == tags[i].value
    decreases |tags|
  {
    if i < |tags| - 1 {
      TagsByKey(tags[..|tags| - 1], i);
    }
  }

  lemma {:induction false} OnlyTags(tags: seq<Tag>, k: string)
    ensures k in TagMap(tags) <==> exists i | 0 <= i < |tags| :: tags[i].key == k
  {
    if tags != [] {
      var n := |tags| - 1;
      OnlyTags(tags[..n], k);
      if i :| 0 <= i < n && tags[..n][i].key == k {
        assert tags[i].key == k;
      }
      if i :| 0 <= i < n && tags[i].key == k {
        assert tags[..n][i].key == k;
      }
    }
  }

  /** A run is called what the caller calls it, or else by the first of its name tags that says something. */
  lemma {:induction false} NamedByTag(name: string, tags: seq<Tag>, i: nat)
    requires i <= |tags| && forall j | 0 <= j < i :: tags[j].key != "mlflow.runName" || tags[j].value == ""
    ensures name != "" ==> RunName(name, tags) == name
    ensures i == |tags| ==> RunName(name, tags) == name
    ensures name == "" && i < |tags| && tags[i].key == "mlflow.runName" && tags[i].value != "" ==>
      RunName(name, tags) == tags[i].value
    decreases |tags|
  {
    if tags != [] {
      var n := |tags| - 1;
      NamedByTag(name, tags[..n], if i <= n then i else n);
    }
  }

  lemma {:induction false} SlashesOff(s: string)
    ensures exists slashes: string :: s == TrimSlashes(s) + slashes && forall c | c in slashes :: c == '/'
    ensures TrimSlashes(s) == "" || TrimSlashes(s)[|TrimSlashes(s)| - 1] != '/'
  {
    if s != "" && s[|s| - 1] == '/' {
      var front := s[..|s| - 1];
      SlashesOff(front);
      var slashes: string :| front == TrimSlashes(front) + slashes && forall c | c in slashes :: c == '/';
      assert s == TrimSlashes(s) + (slashes + "/") && forall c | c in slashes + "/" :: c == '/';
    } else {
      assert s == TrimSlashes(s) + "" && forall c | c in "" :: c == '/';
    }
  }

  /** A run starts RUNNING in an active experiment, with nothing recorded, below the experiment's artifacts;
      the experiment is marked updated. */
  lemma {:induction false} StartedRun(s: State, op: Op)
    requires Good(s) && op.CreateRun?
    ensures Refusal(s, op) == None <==>
      op.experiment in s.experiments && op.experiment != "" && s.experiments[op.experiment].active && op.drawn.Some?
    ensures Refusal(s, op) == Some(NotFound) <==> op.experiment != "" && op.experiment !in s.experiments
    ensures Refusal(s, op) == Some(Entropy) <==>
      op.experiment in s.experiments && op.experiment != "" && s.experiments[op.experiment].active && op.drawn.None?
    ensures Refusal(s, op) == None ==> ReplyTo(s, op).ARun?
    ensures Refusal(s, op) == None ==>
      var r, e, s' := ReplyTo(s, op).run, s.experiments[op.experiment], Apply(s, op);
      && Some(r.id) == op.drawn && r.experiment == op.experiment && r.user == op.user
      && r.status == "RUNNING" && r.active
      && r.name == RunName(op.name, op.tags) && r.tags == RunTags(op.name, op.tags)
      && r.start == (if op.start != 0 then op.start else 1000 * op.now)
      && r.end == 0 && r.metrics == [] && r.params == map[]
      && r.artifact == TrimSlashes(e.artifact) + "/" + r.id + "/artifacts"
      && s'.runs == s.runs[r.id := r]
      && s' == s.(runs := s'.runs, experiments := s.experiments[op.experiment := e.(updated := 1000 * op.now)])
  {
    hide Good, TrimSlashes, RunName, RunTags;
  }

  // ----------------------------------------------------------------------------- models

  /** A model is registered under its trimmed name once, with what was given. */
  lemma {:induction false} CreatedModel(s: State, op: Op)
    requires op.CreateModel?
    ensures Refusal(s, op) ==
      if AllSpace(op.name) then Some(Invalid) else if Trim(op.name) in s.models then Some(Exists) else None
    ensures Refusal(s, op) == None ==> ReplyTo(s, op).AModel?
    ensures Refusal(s, op) == None ==>
      var m := ReplyTo(s, op).model;
      && m.name == Trim(op.name) && m.description == op.description && m.user == op.user && m.tags == TagMap(op.tags)
      && m.created == m.updated == 1000 * op.now && Apply(s, op) == s.(models := s.models[m.name := m])
  {
    hide Trim, TagMap;
    BlankIff(op.name);
  }

  /** A model goes with its versions, and with nothing else. */
  lemma {:induction false} DeletedModel(s: State, op: Op)
    requires op.DeleteModel?
    ensures Refusal(s, op) == if op.name in s.models then None else Some(NotFound)
    ensures Refusal(s, op) == None ==>
      && ReplyTo(s, op) == Done && op.name !in Apply(s, op).models && VersionsOf(Apply(s, op), op.name) == []
      && (forall m | m in s.models && m != op.name :: m in Apply(s, op).models && Apply(s, op).models[m] == s.models[m])
      && (forall m | m != op.name :: VersionsOf(Apply(s, op), m) == VersionsOf(s, m))
      && Apply(s, op).models.Keys <= s.models.Keys
      && Apply(s, op) == s.(models := Apply(s, op).models, versions := Apply(s, op).versions)
  {
  }

  /** Registered again, it starts over at version 1. */
  lemma {:induction false} DeletedStartsOver(s: State, delete: Op, create: Op, version: Op)
    requires delete.DeleteModel? && Refusal(s, delete) == None && create.CreateModel? && version.CreateModelVersion?
    requires Trim(create.name) == delete.name == version.name && !AllSpace(create.name)
    requires !AllSpace(version.name) && !AllSpace(version.source) && version.runID == ""
    ensures
      var deleted := Apply(s, delete);
      var created := Apply(deleted, create);
      && Refusal(deleted, create) == None && Refusal(created, version) == None
      && ReplyTo(created, version).AVersion? && ReplyTo(created, version).version.version == "1"
  {
    hide Trim, TagMap;
    BlankIff(create.name);
    BlankIff(version.source);
    BlankIff(version.name);
    assert Decimal.Format(1) == "1";
  }

  /** A version is added behind those there are, under the next number, with what was given, at no stage. */
  lemma {:induction false} CreatedVersion(s: State, op: Op)
    requires op.CreateModelVersion?
    ensures Refusal(s, op) ==
      if AllSpace(op.name) || AllSpace(op.source) then Some(Invalid)
      else if op.name !in s.models || (op.runID != "" && op.runID !in s.runs) then Some(NotFound) else None
    ensures Refusal(s, op) == None ==> ReplyTo(s, op).AVersion?
    ensures Refusal(s, op) == None ==>
      var v, s' := ReplyTo(s, op).version, Apply(s, op);
      && v.name == op.name && v.version == Decimal.Format(|VersionsOf(s, op.name)| + 1)
      && v.source == op.source && v.runID == op.runID && v.runLink == op.runLink && v.description == op.description
      && v.user == op.user && v.tags == TagMap(op.tags) && v.stage == "None" && v.status == "READY"
      && v.created == v.updated == 1000 * op.now
      && VersionsOf(s', op.name) == VersionsOf(s, op.name) + [v]
      && OnlyThisModel(s, s', op.name) && s'.models[op.name] == s.models[op.name].(updated := 1000 * op.now)
  {
    hide Trim, TagMap, Decimal.Format;
    BlankIff(op.name);
    BlankIff(op.source);
  }

  /** No other model changes, none of their versions, no experiment and no run. */
  ghost predicate OnlyThisModel(s: State, s': State, name: string)
  {
    && s'.models.Keys == s.models.Keys && name in s.models
    && (forall m | m in s.models && m != name :: s'.models[m] == s.models[m])
    && (forall m | m != name :: VersionsOf(s', m) == VersionsOf(s, m))
    && s' == s.(models := s'.models, versions := s'.versions)
  }

  /** A stage is one of four, and archiving is for Staging and Production. */
  lemma StagesAre(s: State, op: Op)
    requires op.TransitionStage?
    ensures Refusal(s, op) == Some(Invalid) <==>
      || op.stage !in ["None", "Staging", "Production", "Archived"]
      || (op.archive && op.stage !in ["Staging", "Production"])
    ensures Refusal(s, op) == None ==> op.name in s.models && exists i | 0 <= i < |VersionsOf(s, op.name)| ::
      VersionsOf(s, op.name)[i].version == op.version
  {
    hide FindVersion;
  }

  /** Moving a version puts it where it was asked to be and changes only that and when it was updated; without
      archiving no other version changes at all, and in neither case one of another model. */
  lemma {:induction false} MovedVersion(s: State, op: Op, i: nat)
    requires Good(s) && op.TransitionStage? && Refusal(s, op) == None && i < |VersionsOf(s, op.name)|
    ensures |VersionsOf(Apply(s, op), op.name)| == |VersionsOf(s, op.name)|
    ensures
      var was, v := VersionsOf(s, op.name)[i], VersionsOf(Apply(s, op), op.name)[i];
      && v.(stage := was.stage, updated := was.updated) == was
      && (was.version == op.version ==>
            v.stage == op.stage && v.updated == 1000 * op.now && ReplyTo(s, op) == AVersion(v))
      && (was.version != op.version && !op.archive ==> v == was)
      && (was.version != op.version && op.archive && was.stage != op.stage ==> v == was)
      && (was.version != op.version && op.archive && was.stage == op.stage ==>
            v.stage == "Archived" && v.updated == 1000 * op.now)
    ensures OnlyThisModel(s, Apply(s, op), op.name)
    ensures Apply(s, op).models[op.name] == s.models[op.name].(updated := 1000 * op.now)
  {
    hide Good, Restaged, FindVersion, Refusal, Changed, ReplyTo, STAGES;
    StageMoved(s, op);
    FoundByNumber(s, op.name, op.version, i);
  }

  /** Describing changes the description and when it was updated. */
  lemma {:induction false} DescribedModel(s: State, op: Op)
    requires op.UpdateModel?
    ensures Refusal(s, op) == if op.name in s.models then None else Some(NotFound)
    ensures Refusal(s, op) == None ==> ReplyTo(s, op).AModel?
    ensures Refusal(s, op) == None ==>
      var was, m := s.models[op.name], ReplyTo(s, op).model;
      && m.description == op.description && m.updated == 1000 * op.now
      && m.(description := was.description, updated := was.updated) == was
      && Apply(s, op) == s.(models := s.models[op.name := m])
  {
  }

  lemma {:induction false} DescribedVersion(s: State, op: Op, i: nat)
    requires Good(s) && op.UpdateModelVersion? && Refusal(s, op) == None && i < |VersionsOf(s, op.name)|
    ensures |VersionsOf(Apply(s, op), op.name)| == |VersionsOf(s, op.name)|
    ensures
      var was, v := VersionsOf(s, op.name)[i], VersionsOf(Apply(s, op), op.name)[i];
      && (was.version != op.version ==> v == was)
      && (was.version == op.version ==>
            && v.description == op.description && v.updated == 1000 * op.now && ReplyTo(s, op) == AVersion(v)
            && v.(description := was.description, updated := was.updated) == was)
    ensures OnlyThisModel(s, Apply(s, op), op.name) && Apply(s, op).models == s.models
  {
    hide Decimal.Format, GoodExperiments, GoodRuns, FindVersion, Clash, Trim;
    FoundByNumber(s, op.name, op.version, i);
  }

  /** A model is renamed, whatever else it has; its versions go with it, under its new name; and the old name is
      free. */
  lemma {:induction false} RenamedModel(s: State, op: Op)
    requires Good(s) && op.RenameModel? && Refusal(s, op) == None
    ensures op.name in s.models && ReplyTo(s, op).AModel?
    ensures
      var was, m, s' := s.models[op.name], ReplyTo(s, op).model, Apply(s, op);
      var vs, to := VersionsOf(s, op.name), Trim(op.newName);
      && m.name == to && m.updated == 1000 * op.now && m.(name := was.name, updated := was.updated) == was
      && to in s'.models && s'.models[to] == m
      && (to != op.name ==> op.name !in s'.models && VersionsOf(s', op.name) == [])
      && |VersionsOf(s', to)| == |vs|
      && (forall i | 0 <= i < |vs| :: VersionsOf(s', to)[i] == vs[i].(name := to, updated := 1000 * op.now))
      && (forall k | k in s.models && k != op.name && k != to :: k in s'.models && s'.models[k] == s.models[k])
      && (forall k | k != op.name && k != to :: VersionsOf(s', k) == VersionsOf(s, k))
      && s' == s.(models := s'.models, versions := s'.versions)
    ensures Trim(op.newName) == op.name || Trim(op.newName) !in s.models
  {
    hide Trim, Good;
    ModelMoved(s, op);
  }

  lemma {:induction false} RenameRefusals(s: State, op: Op)
    requires op.RenameModel?
    ensures Refusal(s, op) ==
      if AllSpace(op.newName) then Some(Invalid)
      else if op.name !in s.models then Some(NotFound)
      else if Trim(op.newName) in s.models && Trim(op.newName) != op.name then Some(Exists) else None
  {
    hide Trim;
    BlankIff(op.newName);
  }

  /** Whatever is refused changes nothing and says why. */
  lemma RefusedChangesNothing(s: State, op: Op)
    requires Refusal(s, op).Some?
    ensures Apply(s, op) == s && ReplyTo(s, op) == Refused(Refusal(s, op).value)
  {
    hide Refusal, Changed;
  }
}
