/** The train hub's access to the model registry: logging and registering a model, finding the
    model file among a run's artifacts, and assembling the record of a registered model. */
module MlflowUtil {
  import opened Common

  // ---------------------------------------------------------------------------------------
  // Tracking server choice
  // ---------------------------------------------------------------------------------------

  /** The tracking server the module connects to: the prod server when RUNNING_STAGE is "prod"
      (there is no default stage here: an unset variable selects the dev server). */
  function TrackingUri(env: map<string, string>): (uri: string)
    ensures uri == "http://localhost:8081" <==> "RUNNING_STAGE" in env && env["RUNNING_STAGE"] == "prod"
    ensures uri == "http://localhost:8081" || uri == "http://localhost:8001"
  {
    if "RUNNING_STAGE" in env && env["RUNNING_STAGE"] == "prod" then "http://localhost:8081"
    else "http://localhost:8001"
  }

  // ---------------------------------------------------------------------------------------
  // Artifact search
  // ---------------------------------------------------------------------------------------

  /** One entry of an artifact listing; `path` is relative to the run's artifact root. */
  datatype Artifact = Artifact(path: string, isDir: bool)

  /** A run's artifacts as the registry lists them: the top level, and the listing of each
      directory path (a path without a listing lists as empty). */
  datatype ArtifactStore = ArtifactStore(top: seq<Artifact>, listings: map<string, seq<Artifact>>)

  datatype RunInfo = RunInfo(runId: string, runName: string, experimentId: string, artifactUri: string)

  datatype Run = Run(info: RunInfo, params: map<string, string>, metrics: map<string, real>, artifacts: ArtifactStore)

  /** `client.list_artifacts(run_id, path)`. */
  function ListArtifacts(store: ArtifactStore, path: string): seq<Artifact> {
    if path in store.listings then store.listings[path] else []
  }

  /** The suffix test, applied to directories and files alike. */
  predicate IsModelFile(a: Artifact) {
    EndsWith(a.path, ".keras")
  }

  /** The index of the first entry that passes the suffix test. */
  function FirstModelFile(entries: seq<Artifact>): (k: Option<nat>)
    ensures k.Some? ==> k.value < |entries| && IsModelFile(entries[k.value])
    ensures k.Some? ==> forall j :: 0 <= j < k.value ==> !IsModelFile(entries[j])
    ensures k.None? ==> forall j :: 0 <= j < |entries| ==> !IsModelFile(entries[j])
  {
    if entries == [] then None
    else if IsModelFile(entries[0]) then Some(0)
    else match FirstModelFile(entries[1..])
      case None => None
      case Some(k) => Some(k + 1)
  }

  /** A top-level entry is a directory whose listing holds an entry passing the suffix test. */
  predicate DirHoldsModel(store: ArtifactStore, d: Artifact) {
    d.isDir && FirstModelFile(ListArtifacts(store, d.path)).Some?
  }

  /** The first entry passing the suffix test inside directory `d`. */
  function FirstNested(store: ArtifactStore, d: Artifact): Artifact
    requires DirHoldsModel(store, d)
  {
    var nested := ListArtifacts(store, d.path);
    nested[FirstModelFile(nested).value]
  }

  /** The search over the top-level entries `dirs`, one level deep. */
  function FindModel(store: ArtifactStore, dirs: seq<Artifact>): Option<Artifact> {
    if dirs == [] then None
    else if DirHoldsModel(store, dirs[0]) then Some(FirstNested(store, dirs[0]))
    else FindModel(store, dirs[1..])
  }

  /** What `get_model_path` returns or raises for `run`. */
  function ModelPath(run: Run): Result<string> {
    match FindModel(run.artifacts, run.artifacts.top)
    case Some(a) => Ok(JoinPath(run.info.artifactUri, a.path))
    case None => Err(ModelNotFoundInArtifacts("No model file found in artifacts for run ID: " + run.info.runId))
  }

  /** The search finds something exactly when some top-level directory holds a model file one
      level down, and then it is the first such file of the first such directory. */
  lemma {:induction false} FindModelChoice(store: ArtifactStore, dirs: seq<Artifact>)
    ensures FindModel(store, dirs).Some? <==> exists i :: 0 <= i < |dirs| && DirHoldsModel(store, dirs[i])
    ensures FindModel(store, dirs).Some? ==>
      exists i :: 0 <= i < |dirs| && DirHoldsModel(store, dirs[i])
        && (forall j :: 0 <= j < i ==> !DirHoldsModel(store, dirs[j]))
        && FindModel(store, dirs).value == FirstNested(store, dirs[i])
  {
    if dirs != [] && !DirHoldsModel(store, dirs[0]) {
      FindModelChoice(store, dirs[1..]);
      if FindModel(store, dirs[1..]).Some? {
        var i :| 0 <= i < |dirs[1..]| && DirHoldsModel(store, dirs[1..][i])
          && (forall j :: 0 <= j < i ==> !DirHoldsModel(store, dirs[1..][j]))
          && FindModel(store, dirs[1..]).value == FirstNested(store, dirs[1..][i]);
        assert DirHoldsModel(store, dirs[i + 1]);
      } else {
        forall i | 0 <= i < |dirs| ensures !DirHoldsModel(store, dirs[i]) {
          if i > 0 { assert dirs[i] == dirs[1..][i - 1]; }
        }
      }
    }
  }

  /** The properties `get_model_path` promises: the path joins the run's artifact URI with the
      first nested entry that passes the suffix test, under the first top-level directory that
      has one; it is never a top-level entry; otherwise the run has no model file. */
  lemma ModelPathIsFirstNestedModel(run: Run)
    ensures ModelPath(run).Ok? <==>
      exists i :: 0 <= i < |run.artifacts.top| && DirHoldsModel(run.artifacts, run.artifacts.top[i])
    ensures ModelPath(run).Ok? ==>
      exists i :: 0 <= i < |run.artifacts.top| && DirHoldsModel(run.artifacts, run.artifacts.top[i])
        && (forall j :: 0 <= j < i ==> !DirHoldsModel(run.artifacts, run.artifacts.top[j]))
        && ModelPath(run).value == JoinPath(run.info.artifactUri, FirstNested(run.artifacts, run.artifacts.top[i]).path)
    ensures ModelPath(run).Err? ==>
      ModelPath(run).error == ModelNotFoundInArtifacts("No model file found in artifacts for run ID: " + run.info.runId)
  {
    FindModelChoice(run.artifacts, run.artifacts.top);
  }

  /** `get_model_path`: two nested loops with an early return. */
  method GetModelPath(run: Run) returns (r: Result<string>)
    ensures r == ModelPath(run)
  {
    var artifacts := run.artifacts.top;
    var i := 0;
    while i < |artifacts|
      invariant 0 <= i <= |artifacts|
      invariant FindModel(run.artifacts, artifacts) == FindModel(run.artifacts, artifacts[i..])
    {
      var artifact := artifacts[i];
      if artifact.isDir {
        var nested := ListArtifacts(run.artifacts, artifact.path);
        var j := 0;
        while j < |nested|
          invariant 0 <= j <= |nested|
          invariant forall k :: 0 <= k < j ==> !IsModelFile(nested[k])
        {
          if EndsWith(nested[j].path, ".keras") {
            assert FirstModelFile(nested) == Some(j);
            assert FindModel(run.artifacts, artifacts[i..]) == Some(nested[j]);
            return Ok(JoinPath(run.info.artifactUri, nested[j].path));
          }
          j := j + 1;
        }
      }
      assert artifacts[i..][1..] == artifacts[i + 1..];
      i := i + 1;
    }
    return Err(ModelNotFoundInArtifacts("No model file found in artifacts for run ID: " + run.info.runId));
  }

  /** A model file two levels down is out of reach of the search, as is one at the top level. */
  lemma DepthIsBounded()
    ensures
      var store := ArtifactStore(
        [Artifact("model.keras", false), Artifact("model", true)],
        map["model" := [Artifact("model/data", true)],
            "model/data" := [Artifact("model/data/model.keras", false)]]);
      FindModel(store, store.top) == None
  {
    var store := ArtifactStore(
      [Artifact("model.keras", false), Artifact("model", true)],
      map["model" := [Artifact("model/data", true)],
          "model/data" := [Artifact("model/data/model.keras", false)]]);
    assert !EndsWith("model/data", ".keras");
    assert !DirHoldsModel(store, store.top[1]);
    assert store.top[1..][1..] == [];
  }

  /** A nested directory whose name passes the suffix test is accepted like a file. */
  lemma NestedDirectoryPassesSuffixTest()
    ensures
      var store := ArtifactStore([Artifact("model", true)], map["model" := [Artifact("model/m.keras", true)]]);
      FindModel(store, store.top) == Some(Artifact("model/m.keras", true))
  {
    var store := ArtifactStore([Artifact("model", true)], map["model" := [Artifact("model/m.keras", true)]]);
    assert EndsWith("model/m.keras", ".keras") by {
      assert "model/m.keras"[|"model/m.keras"| - |".keras"|..] == ".keras";
    }
  }

  // ---------------------------------------------------------------------------------------
  // Resolving a registered model
  // ---------------------------------------------------------------------------------------

  datatype ModelVersion = ModelVersion(
    name: string, version: string, status: string, runId: string,
    creationTimestamp: int, lastUpdatedTimestamp: int)

  datatype RegisteredModel = RegisteredModel(name: string, latestVersions: seq<ModelVersion>)

  /** The registry as the client sees it: every model version in the order the registry
      returns them, the runs by id, and the registered models in registry order. */
  datatype Registry = Registry(versions: seq<ModelVersion>, runs: map<string, Run>, models: seq<RegisteredModel>)

  /** The record `get_mlflow_model` assembles. */
  datatype ModelRecord = ModelRecord(
    name: string, version: string, modelFilepath: string, status: string,
    architecture: Option<string>, classNames: Option<string>, metrics: map<string, real>,
    createdTime: int, lastUpdatedTime: int, runName: string, runId: string, experimentId: string)

  /** `client.search_model_versions("name='<name>'")`: the versions of that model, in the order
      the registry returns them. */
  function SearchModelVersions(versions: seq<ModelVersion>, name: string): (r: seq<ModelVersion>)
    ensures forall k :: 0 <= k < |r| ==> r[k].name == name
    ensures |r| <= |versions|
    ensures r == [] <==> forall k :: 0 <= k < |versions| ==> versions[k].name != name
  {
    if versions == [] then []
    else if versions[0].name == name then [versions[0]] + SearchModelVersions(versions[1..], name)
    else SearchModelVersions(versions[1..], name)
  }

  /** Every version of the model that the registry lists is returned. */
  lemma {:induction false} SearchReturnsEveryVersion(versions: seq<ModelVersion>, name: string)
    ensures forall k :: 0 <= k < |versions| && versions[k].name == name ==> versions[k] in SearchModelVersions(versions, name)
  {
    if versions != [] {
      var tail := versions[1..];
      SearchReturnsEveryVersion(tail, name);
      forall k | 1 <= k < |versions| && versions[k].name == name
        ensures versions[k] in SearchModelVersions(versions, name)
      {
        assert versions[k] == tail[k - 1];
      }
    }
  }

  /** Nothing is returned more often than the registry lists it. */
  lemma {:induction false} SearchReturnsNoExtra(versions: seq<ModelVersion>, name: string)
    ensures multiset(SearchModelVersions(versions, name)) <= multiset(versions)
  {
    if versions != [] {
      var tail := versions[1..];
      SearchReturnsNoExtra(tail, name);
      assert versions == [versions[0]] + tail;
      assert multiset(versions) == multiset{versions[0]} + multiset(tail);
    }
  }

  /** The first result is the first version of the model in registry order: the one
      `get_mlflow_model` takes as the latest. */
  lemma {:induction false} SearchKeepsRegistryOrder(versions: seq<ModelVersion>, name: string)
    ensures SearchModelVersions(versions, name) != [] ==>
      exists i :: 0 <= i < |versions| && versions[i] == SearchModelVersions(versions, name)[0]
        && forall j :: 0 <= j < i ==> versions[j].name != name
  {
    if versions != [] && versions[0].name != name {
      var tail := versions[1..];
      var rest := SearchModelVersions(tail, name);
      SearchKeepsRegistryOrder(tail, name);
      if rest != [] {
        var i :| 0 <= i < |tail| && tail[i] == rest[0] && forall j :: 0 <= j < i ==> tail[j].name != name;
        assert versions[i + 1] == rest[0];
        assert forall j :: 1 <= j < i + 1 ==> versions[j] == tail[j - 1];
      }
    }
  }

  /** `params.get(key, None)`. */
  function Param(params: map<string, string>, key: string): Option<string> {
    if key in params then Some(params[key]) else None
  }

  /** `get_mlflow_model`: the first version the search returns is taken as the latest one. */
  function GetMlflowModel(reg: Registry, modelName: string): (r: Result<ModelRecord>)
    ensures SearchModelVersions(reg.versions, modelName) == [] ==>
      r == Err(ModelNotFound("No versions found for model '" + modelName + "'"))
    ensures r.Ok? <==>
      var found := SearchModelVersions(reg.versions, modelName);
      found != [] && found[0].runId in reg.runs && ModelPath(reg.runs[found[0].runId]).Ok?
    ensures
      var found := SearchModelVersions(reg.versions, modelName);
      found != [] && found[0].runId in reg.runs && ModelPath(reg.runs[found[0].runId]).Err? ==>
        r == Err(ModelPath(reg.runs[found[0].runId]).error)
    ensures r.Ok? ==>
      var latest := SearchModelVersions(reg.versions, modelName)[0];
      var run := reg.runs[latest.runId];
      && r.value.name == modelName
      && r.value.version == latest.version && r.value.status == latest.status
      && r.value.createdTime == latest.creationTimestamp
      && r.value.lastUpdatedTime == latest.lastUpdatedTimestamp
      && r.value.modelFilepath == ModelPath(run).value
      && r.value.architecture == (if "architecture" in run.params then Some(run.params["architecture"]) else None)
      && r.value.classNames == (if "class_names" in run.params then Some(run.params["class_names"]) else None)
      && r.value.metrics == run.metrics
      && r.value.runId == run.info.runId && r.value.runName == run.info.runName
      && r.value.experimentId == run.info.experimentId
  {
    var found := SearchModelVersions(reg.versions, modelName);
    if found == [] then Err(ModelNotFound("No versions found for model '" + modelName + "'"))
    else
      var latest := found[0];
      if latest.runId !in reg.runs then Err(Unhandled("Run '" + latest.runId + "' not found"))
      else
        var run := reg.runs[latest.runId];
        match ModelPath(run)
        case Err(e) => Err(e)
        case Ok(path) =>
          Ok(ModelRecord(modelName, latest.version, path, latest.status,
            Param(run.params, "architecture"), Param(run.params, "class_names"), run.metrics,
            latest.creationTimestamp, latest.lastUpdatedTimestamp,
            run.info.runName, run.info.runId, run.info.experimentId))
  }

  /** Versions 1 and then 2 of the same model: the record reports version "1", the first one
      the search returns, not the greatest version number. */
  lemma LatestIsFirstListedNotGreatest()
    ensures
      var run := Run(RunInfo("r1", "run_a", "e1", "s3://a"), map[], map[],
        ArtifactStore([Artifact("model", true)], map["model" := [Artifact("model/m.keras", false)]]));
      var reg := Registry([ModelVersion("m", "1", "READY", "r1", 10, 10), ModelVersion("m", "2", "READY", "r1", 20, 20)],
        map["r1" := run], []);
      GetMlflowModel(reg, "m").Ok? && GetMlflowModel(reg, "m").value.version == "1"
  {
    var run := Run(RunInfo("r1", "run_a", "e1", "s3://a"), map[], map[],
      ArtifactStore([Artifact("model", true)], map["model" := [Artifact("model/m.keras", false)]]));
    assert EndsWith("model/m.keras", ".keras") by {
      assert "model/m.keras"[|"model/m.keras"| - |".keras"|..] == ".keras";
    }
    assert DirHoldsModel(run.artifacts, run.artifacts.top[0]);
    assert ModelPath(run).Ok?;
  }

  // ---------------------------------------------------------------------------------------
  // Listing every registered model
  // ---------------------------------------------------------------------------------------

  predicate AllHaveLatest(models: seq<RegisteredModel>) {
    forall i :: 0 <= i < |models| ==> models[i].latestVersions != []
  }

  /** What the listing asks `get_mlflow_model` for model `m`. */
  function LatestRecord(reg: Registry, m: RegisteredModel): Result<ModelRecord>
    requires m.latestVersions != []
  {
    GetMlflowModel(reg, m.latestVersions[0].name)
  }

  /** The records collected from `models`, in order, skipping every model whose lookup fails. */
  function Collected(reg: Registry, models: seq<RegisteredModel>): seq<ModelRecord>
    requires AllHaveLatest(models)
  {
    if models == [] then []
    else
      var last := models[|models| - 1];
      Collected(reg, models[..|models| - 1])
        + (match LatestRecord(reg, last) case Ok(rec) => [rec] case Err(_) => [])
  }

  /** `list_mlflow_models`: a loop appending every record that could be retrieved; the
      `latest_versions[0]` lookup is outside the try, so a model without versions aborts it. */
  method ListMlflowModels(reg: Registry) returns (r: Result<seq<ModelRecord>>)
    ensures AllHaveLatest(reg.models) ==> r == Ok(Collected(reg, reg.models))
    ensures !AllHaveLatest(reg.models) ==> r == Err(Unhandled("list index out of range"))
  {
    var models := reg.models;
    var modelList: seq<ModelRecord> := [];
    var i := 0;
    while i < |models|
      invariant 0 <= i <= |models|
      invariant AllHaveLatest(models[..i])
      invariant modelList == Collected(reg, models[..i])
    {
      var model := models[i];
      if model.latestVersions == [] {
        return Err(Unhandled("list index out of range"));
      }
      var latestVersion := model.latestVersions[0];
      var rec := GetMlflowModel(reg, latestVersion.name);
      assert models[..i + 1][..i] == models[..i];
      if rec.Ok? {
        modelList := modelList + [rec.value];
      }
      i := i + 1;
    }
    assert models[..i] == models;
    return Ok(modelList);
  }

  /** Collecting is compositional: the records of `a + b` are those of `a` followed by those of
      `b`, so registry order is kept. */
  lemma {:induction false} CollectedAppend(reg: Registry, a: seq<RegisteredModel>, b: seq<RegisteredModel>)
    requires AllHaveLatest(a) && AllHaveLatest(b)
    ensures AllHaveLatest(a + b)
    ensures Collected(reg, a + b) == Collected(reg, a) + Collected(reg, b)
    decreases |b|
  {
    if b != [] {
      var b' := b[..|b| - 1];
      assert (a + b)[..|a + b| - 1] == a + b';
      CollectedAppend(reg, a, b');
    } else {
      assert a + b == a;
    }
  }

  /** At most one record per registered model. */
  lemma {:induction false} CollectedBound(reg: Registry, models: seq<RegisteredModel>)
    requires AllHaveLatest(models)
    ensures |Collected(reg, models)| <= |models|
  {
    if models != [] {
      CollectedBound(reg, models[..|models| - 1]);
    }
  }

  /** Partial-failure tolerance: every model whose lookup succeeds is in the listing, and
      everything in the listing is the successful lookup of some model. */
  lemma {:induction false} CollectedExactlyResolvable(reg: Registry, models: seq<RegisteredModel>)
    requires AllHaveLatest(models)
    ensures forall i :: 0 <= i < |models| && LatestRecord(reg, models[i]).Ok? ==>
      LatestRecord(reg, models[i]).value in Collected(reg, models)
    ensures forall rec :: rec in Collected(reg, models) ==>
      exists i :: 0 <= i < |models| && LatestRecord(reg, models[i]) == Ok(rec)
  {
    if models != [] {
      var init := models[..|models| - 1];
      CollectedExactlyResolvable(reg, init);
      forall i | 0 <= i < |models| && LatestRecord(reg, models[i]).Ok?
        ensures LatestRecord(reg, models[i]).value in Collected(reg, models)
      {
        if i < |models| - 1 { assert models[i] == init[i]; }
      }
      forall rec | rec in Collected(reg, models)
        ensures exists i :: 0 <= i < |models| && LatestRecord(reg, models[i]) == Ok(rec)
      {
        if rec in Collected(reg, init) {
          var i :| 0 <= i < |init| && LatestRecord(reg, init[i]) == Ok(rec);
          assert models[i] == init[i];
        } else {
          assert LatestRecord(reg, models[|models| - 1]) == Ok(rec);
        }
      }
    }
  }

  /** When every lookup succeeds, the listing has one record per model, in registry order. */
  lemma {:induction false} CollectedAllResolvable(reg: Registry, models: seq<RegisteredModel>)
    requires AllHaveLatest(models)
    requires forall i :: 0 <= i < |models| ==> LatestRecord(reg, models[i]).Ok?
    ensures |Collected(reg, models)| == |models|
    ensures forall i :: 0 <= i < |models| ==> Collected(reg, models)[i] == LatestRecord(reg, models[i]).value
  {
    if models != [] {
      var init := models[..|models| - 1];
      CollectedAllResolvable(reg, init);
    }
  }

  // ---------------------------------------------------------------------------------------
  // Logging and registering a model
  // ---------------------------------------------------------------------------------------

  datatype Lifecycle = Active | Deleted

  datatype Experiment = Experiment(id: string, stage: Lifecycle)

  /** How a run ended: the `with` block left normally, or by an exception. */
  datatype RunStatus = Finished | Failed

  /** A run started by `log_mlflow_experiment`: what was logged to it before it ended (a
      param or the model artifact that was not reached is absent, metrics not reached are
      empty) and how it ended. */
  datatype LoggedRun = LoggedRun(
    experimentName: string, runName: string, architecture: Option<string>, classNames: Option<string>,
    metrics: map<string, real>, artifactPath: Option<string>, registeredModelName: Option<string>,
    status: RunStatus)

  /** The part of the tracking server the operation touches: experiments by name, the logged
      runs, and the latest version number of each registered model. */
  datatype TrackingState = TrackingState(
    experiments: map<string, Experiment>, runs: seq<LoggedRun>, versions: map<string, nat>)

  datatype ModelInfo = ModelInfo(
    runName: string, artifactPath: string, registeredModelName: Option<string>, registeredVersion: Option<nat>)

  /** A wall-clock reading as `datetime.now()` gives it. */
  datatype DateTime = DateTime(year: int, month: int, day: int, hour: int, minute: int, second: int)

  predicate ValidDateTime(t: DateTime) {
    1 <= t.year <= 9999 && 1 <= t.month <= 12 && 1 <= t.day <= 31
    && 0 <= t.hour < 24 && 0 <= t.minute < 60 && 0 <= t.second < 60
  }

  type Timestamp = t: DateTime | ValidDateTime(t) witness DateTime(2025, 1, 1, 0, 0, 0)

  function Pad2(n: nat): (s: string)
    requires n < 100
    ensures |s| == 2
  {
    [DigitChar(n / 10), DigitChar(n % 10)]
  }

  function Pad4(n: nat): (s: string)
    requires n < 10000
    ensures |s| == 4
  {
    Pad2(n / 100) + Pad2(n % 100)
  }

  /** The run name: "run_" and the timestamp in `%Y%m%d_%H%M%S` form. */
  function RunName(t: Timestamp): (name: string)
    ensures |name| == 19 && name[..4] == "run_" && name[12] == '_'
  {
    "run_" + Pad4(t.year) + Pad2(t.month) + Pad2(t.day) + "_" + Pad2(t.hour) + Pad2(t.minute) + Pad2(t.second)
  }

  predicate IsDigit(c: char) {
    '0' <= c <= '9'
  }

  function DigitValue(c: char): nat
    requires IsDigit(c)
  {
    c as int - '0' as int
  }

  /** The value of a string of decimal digits. */
  function DigitsValue(s: string): nat
    requires forall k :: 0 <= k < |s| ==> IsDigit(s[k])
  {
    if s == [] then 0 else DigitsValue(s[..|s| - 1]) * 10 + DigitValue(s[|s| - 1])
  }

  lemma {:induction false} DigitsValueAppend(a: string, b: string)
    requires forall k :: 0 <= k < |a| ==> IsDigit(a[k])
    requires |b| == 2 && IsDigit(b[0]) && IsDigit(b[1])
    ensures forall k :: 0 <= k < |a + b| ==> IsDigit((a + b)[k])
    ensures DigitsValue(a + b) == DigitsValue(a) * 100 + DigitsValue(b)
  {
    var ab := a + b;
    var a0 := a + [b[0]];
    assert ab[..|ab| - 1] == a0;
    assert a0[..|a0| - 1] == a;
    assert DigitsValue(a0) == DigitsValue(a) * 10 + DigitValue(b[0]);
    assert DigitsValue(ab) == DigitsValue(a0) * 10 + DigitValue(b[1]);
    Pair(b);
  }

  /** The value of two digits. */
  lemma Pair(b: string)
    requires |b| == 2 && IsDigit(b[0]) && IsDigit(b[1])
    ensures DigitsValue(b) == DigitValue(b[0]) * 10 + DigitValue(b[1])
  {
    var b0 := b[..1];
    assert b0 == [b[0]];
    assert b0[..0] == [];
    assert DigitsValue(b0) == DigitsValue(b0[..0]) * 10 + DigitValue(b[0]);
    assert b[..|b| - 1] == b0;
  }

  lemma Pad2Value(n: nat)
    requires n < 100
    ensures IsDigit(Pad2(n)[0]) && IsDigit(Pad2(n)[1])
    ensures DigitsValue(Pad2(n)) == n
  {
    Pair(Pad2(n));
  }

  lemma Pad4Value(n: nat)
    requires n < 10000
    ensures forall k :: 0 <= k < 4 ==> IsDigit(Pad4(n)[k])
    ensures DigitsValue(Pad4(n)) == n
  {
    Pad2Value(n / 100);
    Pad2Value(n % 100);
    DigitsValueAppend(Pad2(n / 100), Pad2(n % 100));
  }

  /** Reads a timestamp back from a run name. */
  function ParseRunName(name: string): Option<DateTime> {
    if |name| == 19 && name[..4] == "run_" && name[12] == '_'
      && (forall k :: 4 <= k < 12 ==> IsDigit(name[k]))
      && (forall k :: 13 <= k < 19 ==> IsDigit(name[k]))
    then
      Some(DateTime(DigitsValue(name[4..8]), DigitsValue(name[8..10]), DigitsValue(name[10..12]),
        DigitsValue(name[13..15]), DigitsValue(name[15..17]), DigitsValue(name[17..19])))
    else None
  }

  /** Where each field of the timestamp sits in the run name. */
  lemma {:induction false} RunNameFields(t: Timestamp)
    ensures RunName(t)[4..8] == Pad4(t.year) && RunName(t)[8..10] == Pad2(t.month)
    ensures RunName(t)[10..12] == Pad2(t.day) && RunName(t)[13..15] == Pad2(t.hour)
    ensures RunName(t)[15..17] == Pad2(t.minute) && RunName(t)[17..19] == Pad2(t.second)
  {
    var year, month, day := Pad4(t.year), Pad2(t.month), Pad2(t.day);
    var hour, minute, second := Pad2(t.hour), Pad2(t.minute), Pad2(t.second);
    var p1 := "run_" + year;
    var p2 := p1 + month;
    var p3 := p2 + day;
    var p4 := p3 + "_";
    var p5 := p4 + hour;
    var p6 := p5 + minute;
    var name := p6 + second;
    assert name == RunName(t);
    assert name[17..19] == second;
    assert name[..17] == p6;
    assert p6[15..17] == minute && p6[..15] == p5;
    assert p5[13..15] == hour && p5[..13] == p4;
    assert p4[..12] == p3;
    assert p3[10..12] == day && p3[..10] == p2;
    assert p2[8..10] == month && p2[..8] == p1;
    assert p1[4..8] == year;
  }

  /** The run name determines the timestamp it was made from. */
  lemma {:induction false} RunNameRoundTrip(t: Timestamp)
    ensures ParseRunName(RunName(t)) == Some(t)
  {
    var name := RunName(t);
    RunNameFields(t);
    Pad4Value(t.year);
    Pad2Value(t.month);
    Pad2Value(t.day);
    Pad2Value(t.hour);
    Pad2Value(t.minute);
    Pad2Value(t.second);
    forall k | 4 <= k < 12
      ensures IsDigit(name[k])
    {
      if k < 8 { assert name[k] == name[4..8][k - 4]; }
      else if k < 10 { assert name[k] == name[8..10][k - 8]; }
      else { assert name[k] == name[10..12][k - 10]; }
    }
    forall k | 13 <= k < 19
      ensures IsDigit(name[k])
    {
      if k < 15 { assert name[k] == name[13..15][k - 13]; }
      else if k < 17 { assert name[k] == name[15..17][k - 15]; }
      else { assert name[k] == name[17..19][k - 17]; }
    }
  }

  /** The first step: an experiment of that name that is deleted becomes active again; any
      other state of the store is left as it is. */
  function RestoreDeleted(experiments: map<string, Experiment>, name: string): (r: map<string, Experiment>)
    ensures r.Keys == experiments.Keys
    ensures name in r ==> r[name].stage == Active && r[name].id == experiments[name].id
    ensures forall n :: n in r && n != name ==> r[n] == experiments[n]
    ensures !(name in experiments && experiments[name].stage == Deleted) ==> r == experiments
  {
    if name in experiments && experiments[name].stage == Deleted
    then experiments[name := experiments[name].(stage := Active)]
    else assert name in experiments ==> experiments[name].stage.Active?; experiments
  }

  /** Restoring twice is restoring once. */
  lemma RestoreIdempotent(experiments: map<string, Experiment>, name: string)
    ensures RestoreDeleted(RestoreDeleted(experiments, name), name) == RestoreDeleted(experiments, name)
  {
  }

  /** `mlflow.set_experiment(name)`: creates the experiment when there is none of that name. */
  function SetExperiment(experiments: map<string, Experiment>, name: string, freshId: string): map<string, Experiment> {
    if name in experiments then experiments else experiments[name := Experiment(freshId, Active)]
  }

  /** The tracking calls of the logging block, in the order they are made. */
  datatype LogStep =
    | SetExperimentStep     // `mlflow.set_experiment`
    | StartRunStep          // `mlflow.start_run`
    | LogArchitectureStep   // `mlflow.log_param("architecture", ...)`
    | LogClassNamesStep     // `mlflow.log_param("class_names", ...)`
    | LogMetricsStep        // `mlflow.log_metrics`
    | LogModelStep          // `mlflow.tensorflow.log_model`, registering when asked

  /** The exception raised by one of the logging calls. */
  datatype LogFault = LogFault(step: LogStep, cause: string)

  function StepIndex(step: LogStep): nat {
    match step
    case SetExperimentStep => 0
    case StartRunStep => 1
    case LogArchitectureStep => 2
    case LogClassNamesStep => 3
    case LogMetricsStep => 4
    case LogModelStep => 5
  }

  /** Whether `step` completed: nothing failed, or the failing call came after it. */
  predicate Completed(fault: Option<LogFault>, step: LogStep) {
    fault.None? || StepIndex(step) < StepIndex(fault.value.step)
  }

  function LogFailure(modelName: string, cause: string): Error {
    RegisterModel("Failed to register model '" + modelName + "' in MLFlow: " + cause)
  }

  /** `log_mlflow_experiment` as a transition of the tracking server. `restoreFault` is the
      exception raised while looking up or restoring the experiment, `logFault` the logging
      call that raised and its exception, `freshExperimentId` the id the server gives a new
      experiment. A failure inside the run leaves the run on the server, ended as failed, with
      whatever was logged before the failing call. */
  function LogMlflowExperiment(
    s: TrackingState, architecture: string, metrics: map<string, real>, classNames: string,
    experimentName: string, registerModel: bool, modelName: string, now: Timestamp,
    restoreFault: Option<string>, logFault: Option<LogFault>, freshExperimentId: string
  ): (out: (Result<ModelInfo>, TrackingState))
    ensures restoreFault.Some? ==>
      out == (Err(RegisterModel("Failed to restore experiment '" + experimentName + "': " + restoreFault.value)), s)
    ensures restoreFault.None? && logFault.Some? ==> out.0 == Err(LogFailure(modelName, logFault.value.cause))
    ensures out.0.Ok? <==> restoreFault.None? && logFault.None?
    ensures restoreFault.None? ==>
      out.1.experiments ==
        if Completed(logFault, SetExperimentStep)
        then SetExperiment(RestoreDeleted(s.experiments, experimentName), experimentName, freshExperimentId)
        else RestoreDeleted(s.experiments, experimentName)
    ensures restoreFault.None? && Completed(logFault, SetExperimentStep) ==>
      experimentName in out.1.experiments && out.1.experiments[experimentName].stage == Active
    ensures |out.1.runs| == |s.runs| + (if restoreFault.None? && Completed(logFault, StartRunStep) then 1 else 0)
    ensures out.1.runs[..|s.runs|] == s.runs
    ensures |out.1.runs| > |s.runs| ==>
      var run := out.1.runs[|s.runs|];
      && run.experimentName == experimentName && run.runName == RunName(now)
      && run.status == (if logFault.None? then Finished else Failed)
      && run.architecture == (if Completed(logFault, LogArchitectureStep) then Some(architecture) else None)
      && run.classNames == (if Completed(logFault, LogClassNamesStep) then Some(classNames) else None)
      && run.metrics == (if Completed(logFault, LogMetricsStep) then metrics else map[])
      && run.artifactPath == (if logFault.None? then Some("model") else None)
      && run.registeredModelName == (if logFault.None? && registerModel then Some(modelName) else None)
    ensures out.1.versions ==
      if out.0.Ok? && registerModel
      then s.versions[modelName := (if modelName in s.versions then s.versions[modelName] else 0) + 1]
      else s.versions
    ensures out.0.Ok? ==>
      && out.0.value.runName == RunName(now) && out.0.value.artifactPath == "model"
      && out.0.value.registeredModelName == (if registerModel then Some(modelName) else None)
      && out.0.value.registeredVersion == (if registerModel then Some(out.1.versions[modelName]) else None)
  {
    if restoreFault.Some? then
      (Err(RegisterModel("Failed to restore experiment '" + experimentName + "': " + restoreFault.value)), s)
    else
      var restored := RestoreDeleted(s.experiments, experimentName);
      var experiments := SetExperiment(restored, experimentName, freshExperimentId);
      var runName := RunName(now);
      match logFault
      case None =>
        var registered := if registerModel then Some(modelName) else None;
        var run := LoggedRun(experimentName, runName, Some(architecture), Some(classNames), metrics, Some("model"), registered, Finished);
        var versions :=
          if registerModel
          then s.versions[modelName := (if modelName in s.versions then s.versions[modelName] else 0) + 1]
          else s.versions;
        var version := if registerModel then Some(versions[modelName]) else None;
        (Ok(ModelInfo(runName, "model", registered, version)), TrackingState(experiments, s.runs + [run], versions))
      case Some(LogFault(step, cause)) =>
        var failed := Err(LogFailure(modelName, cause));
        match step
        case SetExperimentStep => (failed, s.(experiments := restored))
        case StartRunStep => (failed, s.(experiments := experiments))
        case LogArchitectureStep =>
          var run := LoggedRun(experimentName, runName, None, None, map[], None, None, Failed);
          (failed, s.(experiments := experiments, runs := s.runs + [run]))
        case LogClassNamesStep =>
          var run := LoggedRun(experimentName, runName, Some(architecture), None, map[], None, None, Failed);
          (failed, s.(experiments := experiments, runs := s.runs + [run]))
        case LogMetricsStep =>
          var run := LoggedRun(experimentName, runName, Some(architecture), Some(classNames), map[], None, None, Failed);
          (failed, s.(experiments := experiments, runs := s.runs + [run]))
        case LogModelStep =>
          var run := LoggedRun(experimentName, runName, Some(architecture), Some(classNames), metrics, None, None, Failed);
          (failed, s.(experiments := experiments, runs := s.runs + [run]))
  }
}
