/**
 * MLService of backend/ml_service.py: the registry of loaded models, its
 * metadata, the prediction rule and the memoised feature-importance lookup.
 */
module Service {
  import opened Wrappers
  import opened Settings
  import opened Decision
  import opened Ranking

  /** What predict_proba yields for a one-row feature matrix: the
      positive-class probability, or the exception it raised. */
  datatype ScoreOutcome = Scored(probability: real) | Raised(message: string)

  /**
   * A deserialised model. Only what the service probes is visible: its
   * class name, the `feature_importances_` attribute, the first row of the
   * `coef_` attribute, and its scoring function.
   */
  datatype Artifact = Artifact(
    typeName: string,
    featureImportances: Option<seq<real>>,
    coef: Option<seq<real>>,
    predictProba: seq<real> -> ScoreOutcome)

  /** The per-model record kept in `model_metadata`. */
  datatype Metadata = Metadata(typeName: string, hasFeatureImportance: bool)

  function MetadataOf(a: Artifact): (m: Metadata)
    ensures m.typeName == a.typeName
    ensures m.hasFeatureImportance <==> a.featureImportances.Some? || a.coef.Some?
  {
    Metadata(a.typeName, a.featureImportances.Some? || a.coef.Some?)
  }

  /** One entry of MODEL_FILES. */
  datatype ModelFile = ModelFile(name: string, path: string)

  /** What joblib.load finds at a path: a model, or an error it raises. */
  datatype StoredFile = Readable(artifact: Artifact) | Unreadable(error: string)

  /** The model directory: the files that exist and what loading each gives. */
  datatype Disk = Disk(files: map<string, StoredFile>)

  datatype LoadOutcome = Loaded(artifact: Artifact) | LoadFailed(reason: string)

  const FileNotFound: string := "File not found"

  /** MODEL_FILES is a dict, so its names are distinct. */
  predicate DistinctNames(config: seq<ModelFile>) {
    forall i, j :: 0 <= i < j < |config| ==> config[i].name != config[j].name
  }

  /** Loading one entry: a missing file and a load error are both failures. */
  function TryLoad(entry: ModelFile, disk: Disk): (o: LoadOutcome)
    ensures o.Loaded? <==> entry.path in disk.files && disk.files[entry.path].Readable?
    ensures o.Loaded? ==> o.artifact == disk.files[entry.path].artifact
    ensures entry.path !in disk.files ==> o == LoadFailed(FileNotFound)
    ensures entry.path in disk.files && disk.files[entry.path].Unreadable? ==>
              o == LoadFailed(disk.files[entry.path].error)
  {
    if entry.path !in disk.files then LoadFailed(FileNotFound)
    else match disk.files[entry.path]
      case Readable(a) => Loaded(a)
      case Unreadable(e) => LoadFailed(e)
  }

  // -----------------------------------------------------------------------
  // What loading a configuration produces, entry by entry

  /** The models installed by loading `config`, keyed by name. */
  function LoadedMap(config: seq<ModelFile>, disk: Disk): map<string, Artifact>
  {
    if config == [] then map[]
    else
      var m, e := LoadedMap(config[..|config| - 1], disk), config[|config| - 1];
      match TryLoad(e, disk)
      case Loaded(a) => m[e.name := a]
      case LoadFailed(_) => m
  }

  /** The `(name, reason)` list of the entries that failed, in config order. */
  function Failures(config: seq<ModelFile>, disk: Disk): seq<(string, string)>
  {
    if config == [] then []
    else
      var f, e := Failures(config[..|config| - 1], disk), config[|config| - 1];
      match TryLoad(e, disk)
      case Loaded(_) => f
      case LoadFailed(reason) => f + [(e.name, reason)]
  }

  /** The `loaded_count` counter. */
  function LoadedCount(config: seq<ModelFile>, disk: Disk): nat
  {
    if config == [] then 0
    else
      LoadedCount(config[..|config| - 1], disk)
        + if TryLoad(config[|config| - 1], disk).Loaded? then 1 else 0
  }

  /** The names loading `config` adds to the key order of the `models`
      dict: loaded names not already among `known`, in config order (a name
      already present keeps its place). */
  function NewNames(known: set<string>, config: seq<ModelFile>, disk: Disk): seq<string>
  {
    if config == [] then []
    else
      var e := config[|config| - 1];
      NewNames(known, config[..|config| - 1], disk)
        + if TryLoad(e, disk).Loaded? && e.name !in known then [e.name] else []
  }

  /** The registry and the two results of load_model, as the loop goes. */
  datatype LoadState = LoadState(
    models: map<string, Artifact>, order: seq<string>, loadedCount: nat, failedModels: seq<(string, string)>)

  /** One pass of the loading loop. */
  function LoadOne(s: LoadState, e: ModelFile, disk: Disk): LoadState
  {
    match TryLoad(e, disk)
    case Loaded(a) =>
      LoadState(s.models[e.name := a], if e.name in s.models then s.order else s.order + [e.name],
                s.loadedCount + 1, s.failedModels)
    case LoadFailed(reason) =>
      s.(failedModels := s.failedModels + [(e.name, reason)])
  }

  /** The loop run over `config`, entry by entry. */
  function LoadAll(s: LoadState, config: seq<ModelFile>, disk: Disk): LoadState
  {
    if config == [] then s
    else LoadOne(LoadAll(s, config[..|config| - 1], disk), config[|config| - 1], disk)
  }

  /**
   * What the loop computes, entry by entry: the installed models, the names
   * appended to the key order, the counter and the failure list.
   */
  lemma {:induction false} LoadAllSummary(m0: map<string, Artifact>, o0: seq<string>, config: seq<ModelFile>, disk: Disk)
    requires DistinctNames(config)
    ensures LoadAll(LoadState(m0, o0, 0, []), config, disk) ==
              LoadState(m0 + LoadedMap(config, disk), o0 + NewNames(m0.Keys, config, disk),
                        LoadedCount(config, disk), Failures(config, disk))
    decreases |config|
  {
    if config != [] {
      var n := |config| - 1;
      var pre, e := config[..n], config[n];
      assert DistinctNames(pre);
      LoadAllSummary(m0, o0, pre, disk);
      NotLoadedBefore(config, disk, n);
      if TryLoad(e, disk).Loaded? {
        assert (m0 + LoadedMap(pre, disk))[e.name := TryLoad(e, disk).artifact]
          == m0 + LoadedMap(pre, disk)[e.name := TryLoad(e, disk).artifact];
      }
    }
  }

  /** A configured name is not installed by the entries before it. */
  lemma NotLoadedBefore(config: seq<ModelFile>, disk: Disk, i: nat)
    requires DistinctNames(config)
    requires i < |config|
    ensures config[i].name !in LoadedMap(config[..i], disk)
  {
    if config[i].name in LoadedMap(config[..i], disk) {
      LoadedMapKeys(config[..i], disk, config[i].name);
    }
  }

  predicate Failed(name: string, failures: seq<(string, string)>) {
    exists k :: 0 <= k < |failures| && failures[k].0 == name
  }

  lemma {:induction false} LoadedMapKeys(config: seq<ModelFile>, disk: Disk, n: string)
    requires n in LoadedMap(config, disk)
    ensures exists i :: 0 <= i < |config| && config[i].name == n && TryLoad(config[i], disk).Loaded?
    decreases |config|
  {
    var init, e := config[..|config| - 1], config[|config| - 1];
    if !(e.name == n && TryLoad(e, disk).Loaded?) {
      LoadedMapKeys(init, disk, n);
      var i :| 0 <= i < |init| && init[i].name == n && TryLoad(init[i], disk).Loaded?;
      assert config[i] == init[i];
    }
  }

  lemma {:induction false} FailedNames(config: seq<ModelFile>, disk: Disk, n: string)
    requires Failed(n, Failures(config, disk))
    ensures exists i :: 0 <= i < |config| && config[i].name == n && TryLoad(config[i], disk).LoadFailed?
    decreases |config|
  {
    var init, e := config[..|config| - 1], config[|config| - 1];
    var f := Failures(init, disk);
    if !(e.name == n && TryLoad(e, disk).LoadFailed?) {
      var k :| 0 <= k < |Failures(config, disk)| && Failures(config, disk)[k].0 == n;
      assert k < |f| && f[k].0 == n;
      FailedNames(init, disk, n);
      var i :| 0 <= i < |init| && init[i].name == n && TryLoad(init[i], disk).LoadFailed?;
      assert config[i] == init[i];
    }
  }

  /**
   * Partial-failure isolation: whether entry `i` ends up loaded, and with
   * which model, depends on that entry alone, whatever happens to the others.
   */
  lemma {:induction false} LoadedAt(config: seq<ModelFile>, disk: Disk, i: nat)
    requires DistinctNames(config)
    requires i < |config|
    ensures config[i].name in LoadedMap(config, disk) <==> TryLoad(config[i], disk).Loaded?
    ensures TryLoad(config[i], disk).Loaded? ==>
              LoadedMap(config, disk)[config[i].name] == TryLoad(config[i], disk).artifact
    decreases |config|
  {
    var init := config[..|config| - 1];
    if i == |config| - 1 {
      if config[i].name in LoadedMap(init, disk) {
        LoadedMapKeys(init, disk, config[i].name);
      }
    } else {
      assert init[i] == config[i];
      LoadedAt(init, disk, i);
    }
  }

  /** An entry is reported as failed exactly when loading it failed. */
  lemma {:induction false} FailedAt(config: seq<ModelFile>, disk: Disk, i: nat)
    requires DistinctNames(config)
    requires i < |config|
    ensures Failed(config[i].name, Failures(config, disk)) <==> TryLoad(config[i], disk).LoadFailed?
    decreases |config|
  {
    var init, e := config[..|config| - 1], config[|config| - 1];
    var f := Failures(init, disk);
    if i == |config| - 1 {
      if Failed(config[i].name, f) {
        FailedNames(init, disk, config[i].name);
      }
      if TryLoad(e, disk).LoadFailed? {
        assert Failures(config, disk)[|f|].0 == e.name;
      }
    } else {
      assert init[i] == config[i];
      FailedAt(init, disk, i);
      if Failed(config[i].name, Failures(config, disk)) && !Failed(config[i].name, f) {
        var k :| 0 <= k < |Failures(config, disk)| && Failures(config, disk)[k].0 == config[i].name;
      }
      if Failed(config[i].name, f) {
        var k :| 0 <= k < |f| && f[k].0 == config[i].name;
        assert Failures(config, disk)[k] == f[k];
      }
    }
  }

  /** Each configured name ends up in exactly one of the models and the failure list. */
  lemma ExactlyOneOutcome(config: seq<ModelFile>, disk: Disk, i: nat)
    requires DistinctNames(config)
    requires i < |config|
    ensures config[i].name in LoadedMap(config, disk) <==> !Failed(config[i].name, Failures(config, disk))
  {
    LoadedAt(config, disk, i);
    FailedAt(config, disk, i);
  }

  /** `loaded_count + len(failed_models)` is the number of configured entries. */
  lemma {:induction false} LoadAccounting(config: seq<ModelFile>, disk: Disk)
    ensures LoadedCount(config, disk) + |Failures(config, disk)| == |config|
    decreases |config|
  {
    if config != [] {
      LoadAccounting(config[..|config| - 1], disk);
    }
  }

  /** With distinct names, `loaded_count` is the number of models installed. */
  lemma {:induction false} LoadedCountIsSize(config: seq<ModelFile>, disk: Disk)
    requires DistinctNames(config)
    ensures LoadedCount(config, disk) == |LoadedMap(config, disk)|
    decreases |config|
  {
    if config != [] {
      var init, e := config[..|config| - 1], config[|config| - 1];
      LoadedCountIsSize(init, disk);
      if e.name in LoadedMap(init, disk) {
        LoadedMapKeys(init, disk, e.name);
      }
    }
  }

  // -----------------------------------------------------------------------
  // Feature importance

  /** The raw score vector: `feature_importances_` when present, else |coef_[0]|. */
  function RawImportance(a: Artifact): (r: Option<seq<real>>)
    ensures r.Some? <==> a.featureImportances.Some? || a.coef.Some?
    ensures a.featureImportances.Some? ==> r == a.featureImportances
    ensures a.featureImportances.None? && a.coef.Some? ==> r == Some(AbsAll(a.coef.value))
  {
    if a.featureImportances.Some? then a.featureImportances
    else if a.coef.Some? then Some(AbsAll(a.coef.value))
    else None
  }

  /** On the coefficient path every ranked score is non-negative. */
  lemma CoefScoresNonNegative(a: Artifact, k: nat)
    requires a.featureImportances.None? && a.coef.Some?
    requires k < |Rank(FeatureNames, RawImportance(a).value).featureImportance|
    ensures Rank(FeatureNames, RawImportance(a).value).featureImportance[k].1 >= 0.0
  {
    RankedEntriesComeFromInput(FeatureNames, RawImportance(a).value, k);
  }

  // -----------------------------------------------------------------------
  // The service object

  class MLService {
    /** `self.models`; `modelOrder` is that dict's key order. */
    var models: map<string, Artifact>
    var modelOrder: seq<string>
    var modelMetadata: map<string, Metadata>
    var featureRanges: map<string, FeatureRange>
    /** The memo table of get_feature_importance, keyed by model name. */
    var importanceCache: map<string, Option<ImportanceResult>>

    /** Every loaded model has exactly one metadata record, derived from it,
        and the key order lists each loaded name once. */
    ghost predicate Valid()
      reads this
    {
      && Distinct(modelOrder)
      && (forall n :: n in modelOrder <==> n in models)
      && modelMetadata.Keys == models.Keys
      && (forall n :: n in models ==> modelMetadata[n] == MetadataOf(models[n]))
    }

    /** Every memoised answer is the one a fresh computation would give. */
    ghost predicate CacheCoherent()
      reads this
    {
      forall n :: n in importanceCache ==> importanceCache[n] == ImportanceOf(n)
    }

    constructor ()
      ensures Valid() && CacheCoherent()
      ensures models == map[] && modelOrder == [] && modelMetadata == map[]
      ensures featureRanges == map[] && importanceCache == map[]
    {
      models := map[];
      modelOrder := [];
      modelMetadata := map[];
      featureRanges := map[];
      importanceCache := map[];
    }

    /**
     * load_model: tries every configured entry in order; a failing entry is
     * recorded with its reason and loading goes on with the next one.
     */
    method LoadModel(config: seq<ModelFile>, disk: Disk) returns (loadedCount: nat, failedModels: seq<(string, string)>)
      requires Valid()
      requires DistinctNames(config)
      modifies `models, `modelOrder, `modelMetadata
      ensures Valid()
      ensures models == old(models) + LoadedMap(config, disk)
      ensures modelOrder == old(modelOrder) + NewNames(old(models).Keys, config, disk)
      ensures loadedCount == LoadedCount(config, disk)
      ensures failedModels == Failures(config, disk)
    {
      ghost var start := LoadState(models, modelOrder, 0, []);
      loadedCount := 0;
      failedModels := [];
      var i := 0;
      while i < |config|
        invariant 0 <= i <= |config|
        invariant Valid()
        invariant LoadState(models, modelOrder, loadedCount, failedModels) == LoadAll(start, config[..i], disk)
      {
        assert config[..i + 1][..i] == config[..i];
        var outcome := LoadEntry(config[i], disk);
        match outcome {
          case Loaded(_) =>
            loadedCount := loadedCount + 1;
          case LoadFailed(reason) =>
            failedModels := failedModels + [(config[i].name, reason)];
        }
        i := i + 1;
      }
      assert config[..|config|] == config;
      LoadAllSummary(start.models, start.order, config, disk);
    }

    /**
     * The body of the loading loop for one entry: a missing file or a load
     * error leaves the registry as it was; a loaded model is stored with
     * its metadata record.
     */
    method LoadEntry(entry: ModelFile, disk: Disk) returns (outcome: LoadOutcome)
      requires Valid()
      modifies `models, `modelOrder, `modelMetadata
      ensures Valid()
      ensures outcome == TryLoad(entry, disk)
      ensures models == if outcome.Loaded? then old(models)[entry.name := outcome.artifact] else old(models)
      ensures modelOrder ==
                if outcome.Loaded? && entry.name !in old(models) then old(modelOrder) + [entry.name]
                else old(modelOrder)
    {
      if entry.path in disk.files {
        match disk.files[entry.path] {
          case Readable(model) =>
            Install(entry.name, model);
            outcome := Loaded(model);
          case Unreadable(error) =>
            outcome := LoadFailed(error);
        }
      } else {
        outcome := LoadFailed(FileNotFound);
      }
    }

    /** Stores a loaded model and its metadata record under `name`. */
    method Install(name: string, model: Artifact)
      requires Valid()
      modifies `models, `modelOrder, `modelMetadata
      ensures Valid()
      ensures models == old(models)[name := model]
      ensures modelOrder == if name in old(models) then old(modelOrder) else old(modelOrder) + [name]
    {
      if name !in models {
        modelOrder := modelOrder + [name];
      }
      models := models[name := model];
      modelMetadata := modelMetadata[name := MetadataOf(model)];
    }

    /**
     * load_feature_ranges, with the CSV read and its statistics given as
     * `source`: the ranges are replaced only when statistics were computed.
     */
    method LoadFeatureRanges(source: RangeSource) returns (ok: bool)
      modifies `featureRanges
      ensures ok <==> source.Described?
      ensures featureRanges == if ok then source.ranges else old(featureRanges)
    {
      match source
      case Described(ranges) =>
        featureRanges := ranges;
        ok := true;
      case FileMissing =>
        ok := false;
      case ReadFailed(_) =>
        ok := false;
    }

    /**
     * predict: an unknown name fails before any scorer is consulted;
     * otherwise the model's probability is turned into a prediction and a
     * confidence band.
     */
    function Predict(modelName: string, features: seq<real>): (r: Result<(real, int, Confidence), PredictError>)
      reads `models
      ensures r == Failure(ModelNotFound(modelName)) <==> modelName !in models
      ensures r.Success? <==> modelName in models && models[modelName].predictProba(features).Scored?
      ensures r.Success? ==>
                && models[modelName].predictProba(features) == Scored(r.value.0)
                && (r.value.1 == 0 || r.value.1 == 1)
                && (r.value.1 == 1 <==> r.value.0 >= Threshold)
                && r.value.2 == ConfidenceOf(r.value.0)
      ensures modelName in models && models[modelName].predictProba(features).Raised? ==>
                r == Failure(ScoringFailed(models[modelName].predictProba(features).message))
    {
      if modelName !in models then Failure(ModelNotFound(modelName))
      else
        match models[modelName].predictProba(features)
        case Scored(p) => Success((p, PredictedClass(p), ConfidenceOf(p)))
        case Raised(m) => Failure(ScoringFailed(m))
    }

    /**
     * The uncached body of get_feature_importance: None for an unknown name
     * or a model whose metadata says it has no importance signal, otherwise
     * the ranking of its raw scores against FEATURE_NAMES.
     */
    function ImportanceOf(modelName: string): (r: Option<ImportanceResult>)
      reads `models, `modelMetadata
      ensures r.Some? ==>
                && modelName in models && RawImportance(models[modelName]).Some?
                && r.value == Rank(FeatureNames, RawImportance(models[modelName]).value)
      ensures Valid() ==>
                (r.Some? <==> modelName in models && modelMetadata[modelName].hasFeatureImportance)
    {
      if modelName !in models then None
      else if !(modelName in modelMetadata && modelMetadata[modelName].hasFeatureImportance) then None
      else match RawImportance(models[modelName])
        case Some(scores) => Some(Rank(FeatureNames, scores))
        case None => None
    }

    /** get_feature_importance, memoised per model name. */
    method GetFeatureImportance(modelName: string) returns (r: Option<ImportanceResult>)
      modifies `importanceCache
      ensures modelName in old(importanceCache) ==> r == old(importanceCache)[modelName]
      ensures importanceCache == old(importanceCache)[modelName := r]
      ensures modelName !in old(importanceCache) ==> r == ImportanceOf(modelName)
      ensures old(CacheCoherent()) ==> r == ImportanceOf(modelName) && CacheCoherent()
    {
      if modelName in importanceCache {
        r := importanceCache[modelName];
      } else {
        r := ImportanceOf(modelName);
        importanceCache := importanceCache[modelName := r];
      }
    }

    /** get_model_list: the loaded names, each once, in load order. */
    function GetModelList(): (r: seq<string>)
      reads `modelOrder, `models
      ensures Valid() ==> Distinct(r) && (forall n :: n in r <==> n in models) && |r| == |models|
    {
      DistinctCardinality(modelOrder, models.Keys);
      modelOrder
    }

    /** get_model_count: the number of loaded models. */
    function GetModelCount(): (c: nat)
      reads `modelOrder, `models
      ensures Valid() ==> c == |GetModelList()|
    {
      |models|
    }
  }

  datatype PredictError = ModelNotFound(name: string) | ScoringFailed(message: string)

  /** The per-feature statistics of the reference sample. */
  datatype FeatureRange = FeatureRange(min: real, max: real, mean: real)

  /** The outcome of reading the reference CSV and describing its columns. */
  datatype RangeSource = FileMissing | ReadFailed(error: string) | Described(ranges: map<string, FeatureRange>)
}
