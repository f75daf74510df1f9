/**
 * The HTTP routes of backend/api.py over one service instance. A route
 * either answers with a body or raises an HTTPException; request bodies
 * that do not parse are refused with the framework's 422 before the route
 * body runs.
 */
module Api {
  import opened Wrappers
  import opened Settings
  import opened Decision
  import opened Ranking
  import opened Schemas
  import opened Service

  datatype Response<T> =
    | Ok(body: T)
    | HttpError(status: int, detail: string)
    | ValidationError(fields: seq<string>)

  const NotFoundDetail: string := "Model not found"
  const PredictionFailedDetail: string := "Prediction failed"
  const NoImportanceDetail: string := "Feature importance not available"
  const NoRangesDetail: string := "Feature ranges not loaded"

  /** The single feature row handed to the model, in FEATURE_NAMES order. */
  function FeatureVector(req: PredictionRequest): (v: seq<real>)
    ensures |v| == |FeatureNames|
    ensures forall i :: 0 <= i < |v| ==> v[i] == FieldValue(req, FeatureNames[i])
  {
    [ req.price, req.freightValue, req.paymentInstallments as real,
      req.deliveryDiffThanEstimated as real, req.reviewedDays as real,
      req.customerStateEnc, req.productCategoryNameEnc as real, req.paymentTypeEnc as real ]
  }

  /** The row built from an accepted body is the body's numbers, column by column. */
  lemma FeatureVectorOfBody(body: Body)
    requires Validate(body).Success?
    ensures |FeatureVector(Validate(body).value)| == |FeatureNames|
    ensures forall i :: 0 <= i < |FeatureNames| ==>
              FeatureNames[i] in body && FeatureVector(Validate(body).value)[i] == body[FeatureNames[i]]
  {
    forall i | 0 <= i < |FeatureNames|
      ensures FeatureNames[i] in body && FeatureVector(Validate(body).value)[i] == body[FeatureNames[i]]
    {
      ValidatedRequestEchoesBody(body, i);
    }
  }

  /** GET /health: always healthy, with the number of loaded models. */
  function HealthCheck(svc: MLService): (r: HealthResponse)
    reads svc`models, svc`modelOrder
    ensures r.status == "healthy"
    ensures svc.Valid() ==> r.models == |svc.GetModelList()| == |svc.models|
  {
    HealthResponse("healthy", svc.GetModelCount())
  }

  /** GET /models: the loaded names, their number and their metadata records. */
  function GetAvailableModels(svc: MLService): (r: ModelsResponse<Metadata>)
    reads svc`models, svc`modelOrder, svc`modelMetadata
    ensures svc.Valid() ==>
              && Distinct(r.availableModels)
              && (forall n :: n in r.availableModels <==> n in svc.models)
              && r.total == |r.availableModels|
              && (forall n :: n in r.availableModels <==> n in r.metadata)
              && (forall n :: n in r.metadata ==> n in svc.models && r.metadata[n] == MetadataOf(svc.models[n]))
  {
    ModelsResponse(svc.GetModelList(), svc.GetModelCount(), svc.modelMetadata)
  }

  /** GET /feature-ranges: a server error while no statistics are loaded. */
  function GetFeatureRanges(svc: MLService): (r: Response<map<string, FeatureRange>>)
    reads svc`featureRanges
    ensures r.HttpError? <==> svc.featureRanges == map[]
    ensures r.HttpError? ==> r.status == 500 && r.detail == NoRangesDetail
    ensures r.Ok? ==> r.body == svc.featureRanges
    ensures !r.ValidationError?
  {
    if svc.featureRanges == map[] then HttpError(500, NoRangesDetail) else Ok(svc.featureRanges)
  }

  /**
   * POST /predict/{model_name}: parse the body, refuse an unknown model,
   * score the row, and wrap the answer in a PredictionResponse; anything
   * raised after the name check becomes a 500.
   */
  function PredictChurn(svc: MLService, modelName: string, body: Body): (r: Response<PredictionResponse>)
    reads svc`models, svc`modelOrder
    ensures r.ValidationError? <==> Validate(body).Failure?
    ensures r.ValidationError? ==> r.fields == Validate(body).error
    ensures r.HttpError? ==> r.status == 404 || (r.status == 500 && r.detail == PredictionFailedDetail)
    ensures Validate(body).Success? ==>
              (r == HttpError(404, NotFoundDetail) <==> modelName !in svc.GetModelList())
    ensures r.Ok? ==>
              && Validate(body).Success?
              && modelName in svc.GetModelList() && modelName in svc.models
              && svc.models[modelName].predictProba(FeatureVector(Validate(body).value))
                 == Scored(r.body.churnProbability)
              && r.body.modelName == modelName
              && 0.0 <= r.body.churnProbability <= 1.0
              && (r.body.prediction == 0 || r.body.prediction == 1)
              && (r.body.prediction == 1 <==> r.body.churnProbability >= Threshold)
              && r.body.confidence == ConfidenceOf(r.body.churnProbability).Text()
    ensures svc.Valid() && Validate(body).Success? && modelName in svc.models ==>
              var out := svc.models[modelName].predictProba(FeatureVector(Validate(body).value));
              && (r.Ok? <==> out.Scored? && 0.0 <= out.probability <= 1.0)
              && (!r.Ok? ==> r == HttpError(500, PredictionFailedDetail))
  {
    match Validate(body)
    case Failure(errs) => ValidationError(errs)
    case Success(req) =>
      if modelName !in svc.GetModelList() then HttpError(404, NotFoundDetail)
      else
        match svc.Predict(modelName, FeatureVector(req))
        case Failure(_) => HttpError(500, PredictionFailedDetail)
        case Success(answer) =>
          var (probability, prediction, confidence) := answer;
          match MakePredictionResponse(modelName, probability, prediction, confidence.Text())
          case Failure(_) => HttpError(500, PredictionFailedDetail)
          case Success(resp) => Ok(resp)
  }

  /** The prediction route answers alike for bodies that agree on the declared fields. */
  lemma PredictionIgnoresUndeclaredMembers(svc: MLService, modelName: string, b1: Body, b2: Body)
    requires AgreeOn(FeatureNames, b1, b2)
    ensures PredictChurn(svc, modelName, b1) == PredictChurn(svc, modelName, b2)
  {
    UndeclaredMembersIgnored(b1, b2);
  }

  /** A high churn probability is always reported with a churn-side or neutral band. */
  lemma PredictedChurnIsNeverLabelledNotChurn(svc: MLService, modelName: string, body: Body)
    requires PredictChurn(svc, modelName, body).Ok?
    ensures PredictChurn(svc, modelName, body).body.prediction == 1 ==>
              PredictChurn(svc, modelName, body).body.confidence != HighNotChurn.Text()
              && PredictChurn(svc, modelName, body).body.confidence != MediumNotChurn.Text()
  {
    var resp := PredictChurn(svc, modelName, body).body;
    var band := ConfidenceOf(resp.churnProbability);
    BandAgreesWithPrediction(resp.churnProbability);
    if resp.prediction == 1 {
      LabelsIdentifyBands(band, HighNotChurn);
      LabelsIdentifyBands(band, MediumNotChurn);
    }
  }

  /** The route's answer for a listed model, given the service's importance result. */
  function AnswerResponse(modelName: string, answer: Option<ImportanceResult>): (r: Response<FeatureImportanceResponse>)
    ensures r.HttpError? <==> answer.None?
    ensures r.HttpError? ==> r == HttpError(400, NoImportanceDetail)
    ensures r.Ok? ==> answer == Some(ImportanceResult(r.body.featureImportance, r.body.topFeatures))
                      && r.body.modelName == modelName
  {
    match answer
    case None => HttpError(400, NoImportanceDetail)
    case Some(result) => Ok(FeatureImportanceResponse(modelName, result.featureImportance, result.topFeatures))
  }

  /**
   * GET /feature-importance/{model_name} as computed without the memo
   * table: unknown names are a 404, models without an importance signal a
   * 400, and otherwise the ranked scores.
   */
  function ImportanceResponse(svc: MLService, modelName: string): (r: Response<FeatureImportanceResponse>)
    reads svc`models, svc`modelOrder, svc`modelMetadata
    ensures !r.ValidationError?
    ensures r.HttpError? ==> r == HttpError(404, NotFoundDetail) || r == HttpError(400, NoImportanceDetail)
    ensures r == HttpError(404, NotFoundDetail) <==> modelName !in svc.GetModelList()
    ensures svc.Valid() ==>
              (r == HttpError(400, NoImportanceDetail) <==>
                 modelName in svc.models && !svc.modelMetadata[modelName].hasFeatureImportance)
    ensures r.Ok? ==>
              && modelName in svc.models && RawImportance(svc.models[modelName]).Some?
              && r.body.modelName == modelName
              && NonIncreasing(r.body.featureImportance)
              && multiset(r.body.featureImportance)
                 == multiset(Zip(FeatureNames, RawImportance(svc.models[modelName]).value))
              && (forall v :: WithScore(r.body.featureImportance, v)
                                == WithScore(Zip(FeatureNames, RawImportance(svc.models[modelName]).value), v))
              && |r.body.topFeatures| == Min(TopCount, |r.body.featureImportance|)
              && r.body.topFeatures <= r.body.featureImportance
    ensures r.Ok? ==>
              svc.ImportanceOf(modelName) == Some(ImportanceResult(r.body.featureImportance, r.body.topFeatures))
  {
    if modelName !in svc.GetModelList() then HttpError(404, NotFoundDetail)
    else AnswerResponse(modelName, svc.ImportanceOf(modelName))
  }

  /** The route itself, which reads through the service's memo table. */
  method GetFeatureImportance(svc: MLService, modelName: string) returns (r: Response<FeatureImportanceResponse>)
    modifies svc`importanceCache
    ensures modelName !in svc.GetModelList() ==>
              r == HttpError(404, NotFoundDetail) && svc.importanceCache == old(svc.importanceCache)
    ensures modelName in svc.GetModelList() ==>
              && svc.importanceCache == old(svc.importanceCache)[modelName :=
                   if modelName in old(svc.importanceCache) then old(svc.importanceCache)[modelName]
                   else svc.ImportanceOf(modelName)]
              && r == AnswerResponse(modelName, svc.importanceCache[modelName])
    ensures modelName !in old(svc.importanceCache) ==> r == ImportanceResponse(svc, modelName)
    ensures old(svc.CacheCoherent()) ==> r == ImportanceResponse(svc, modelName) && svc.CacheCoherent()
  {
    if modelName !in svc.GetModelList() {
      return HttpError(404, NotFoundDetail);
    }
    var result := svc.GetFeatureImportance(modelName);
    r := AnswerResponse(modelName, result);
  }
}
