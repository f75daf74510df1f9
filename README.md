# Customer churn prediction: the model-serving core

This project models the serving layer under `backend/` of the customer churn
prediction service, and proves properties of that model:

- **`MLService`** is the registry of trained models. It loads every configured
  `(name, path)` entry in order. A missing file or a load error is recorded with
  its reason, and loading carries on with the next entry. It keeps one metadata
  record per loaded model.
- **The prediction rule** thresholds the model's churn probability at 0.5 and
  assigns one of five confidence bands.
- **The feature-importance ranking** pairs a model's raw scores with the eight
  `FEATURE_NAMES`. It sorts the pairs by score in descending order with a stable
  sort and keeps the first five as the top features. The answer is memoised per
  model name.
- **The request schema and the HTTP routes** check eight fields against
  inclusive ranges. They map outcomes to 404 (unknown model), 400 (no importance
  signal), 422 (invalid body) and 500 (prediction failed, ranges not loaded).

Modules, one per concern:

| file | module | models |
|---|---|---|
| `settings.dfy` | `Settings` | `FEATURE_NAMES` (`backend/config.py:20-24`) and the top-5 cut-off of `sorted_features[:5]` (`backend/ml_service.py:130`) |
| `decision.dfy` | `Decision` | the threshold and confidence bands of `predict` |
| `ranking.dfy` | `Ranking` | `zip`, `np.abs`, the stable descending `sorted`, and the top-5 slice |
| `schemas.dfy` | `Schemas` | `PredictionRequest` validation and the response records of `backend/models.py` |
| `ml_service.dfy` | `Service` | the `MLService` class: loading, prediction, the memoised importance, and the model list |
| `api.dfy` | `Api` | the route handlers of `backend/api.py` |

A loaded model is an `Artifact`: its class name, optional `feature_importances_`,
optional first row of `coef_`, and an uninterpreted scoring function. That
function either yields the positive-class probability or raises. The file system
seen by `joblib.load` is a `Disk` map from path to either a readable artifact or
a load error.

`load_model` is a method with a loop. Its loop invariant ties the registry, the
counter and the failure list to a fold over the entries processed so far. The
fold is then summarised by functions over the whole configuration, and the
lemmas state the accounting and isolation properties about those functions.

## Model

| member | source | states |
|---|---|---|
| Decision.PredictedClass | backend/ml_service.py:90 | the prediction is 0 or 1, and it is 1 exactly when the probability is at least 0.5 (so 0.5 predicts churn) |
| Decision.ConfidenceOf | backend/ml_service.py:92-101 | the band is an exact interval of the probability: >0.9 high churn, (0.8,0.9] medium churn, <=0.1 high not-churn, (0.1,0.2) medium not-churn, [0.2,0.8] neutral |
| Decision.BandAgreesWithPrediction | backend/ml_service.py:90-101 | a churn-side band always comes with prediction 1, a not-churn-side band with 0, and the neutral band spans the threshold (0.5 gives 1, 0.49 gives 0) |
| Decision.LabelsIdentifyBands | backend/ml_service.py:92-101 | the five label strings are pairwise distinct, so the returned label determines the band |
| Ranking.Zip | backend/ml_service.py:123-124 | the pairs stop at the shorter input, and pair i is (name i, score i) |
| Ranking.AbsAll | backend/ml_service.py:118-119 | every coefficient score is non-negative and equals the coefficient or its negation |
| Ranking.SortDesc | backend/ml_service.py:125-126 | the sorted items are non-increasing in score and a permutation of the input, and items with equal scores keep their input order |
| Ranking.InsertSorted | backend/ml_service.py:125-126 | one insertion step keeps the order non-increasing |
| Ranking.InsertPermutes | backend/ml_service.py:125-126 | one insertion step adds exactly the inserted item to the multiset |
| Ranking.InsertStable | backend/ml_service.py:125-126 | one insertion step puts the new item after every earlier item with the same score |
| Ranking.Rank | backend/ml_service.py:123-131 | `feature_importance` is the zipped pairs in stable non-increasing order, and `top_features` is its first min(5, n) entries |
| Ranking.RankedEntriesComeFromInput | backend/ml_service.py:123-129 | every ranked entry is some (FEATURE_NAMES[i], score[i]) pair |
| Ranking.TopFeaturesDominate | backend/ml_service.py:125-130 | every top feature scores at least as much as every feature outside the top list |
| Schemas.FieldErrors | backend/models.py:4-13 | the reported names are exactly the fields that are missing or out of range, and the list is empty exactly when every field is fine |
| Schemas.Validate | backend/models.py:4-13 | a body is accepted exactly when all eight fields are in their inclusive ranges (integral where declared `int`), and the built request carries those bounds; otherwise every failing field is reported |
| Schemas.AllFieldsOkIsDeclaredRanges | backend/models.py:6-13 | the field table agrees with the eight declared `ge`/`le` constraints |
| Schemas.ValidatedRequestEchoesBody | backend/models.py:6-13 | an accepted request holds the body's value for every feature name |
| Schemas.OneBadFieldRejects | backend/models.py:4-13 | any single field out of range rejects the whole request and is named in the errors |
| Schemas.NegativePriceRejected | backend/models.py:6 | a body with price = -1 is rejected, naming `price` |
| Schemas.DashboardDefaultsAccepted | backend/models.py:4-13 | the request the dashboard sends with every input at its default (frontend/app.py:141-155: price 118.86, freight 20.10, 3 installments, delivery 11, reviewed 0, state 0.696, category 7, payment type 0) is accepted |
| Schemas.UndeclaredMembersIgnored | backend/models.py:4-13 | members of the body other than the eight fields never change the parse |
| Schemas.MakePredictionResponse | backend/models.py:15-20 | a response is constructed exactly when churn_probability is in [0,1] and prediction in {0,1} |
| Service.MetadataOf | backend/ml_service.py:34-37 | the metadata records the class name, and has_feature_importance holds exactly when the model has `feature_importances_` or `coef_` |
| Service.TryLoad | backend/ml_service.py:29-48 | an entry loads exactly when its file exists and deserialises; a missing file fails with "File not found", a load error with its message |
| Service.LoadAllSummary | backend/ml_service.py:25-50 | running the loop over the whole configuration yields the loaded map, the new key order, the count and the failure list |
| Service.LoadedAt | backend/ml_service.py:29-48 | whether an entry ends up loaded, and with which model, depends on that entry alone: other entries' failures do not stop it |
| Service.FailedAt | backend/ml_service.py:43-48 | an entry is in the failure list exactly when loading it failed |
| Service.ExactlyOneOutcome | backend/ml_service.py:25-50 | each configured name ends up in exactly one of the models and the failure list |
| Service.LoadAccounting | backend/ml_service.py:22-50 | loaded_count + len(failed_models) equals the number of configured entries |
| Service.LoadedCountIsSize | backend/ml_service.py:32-39 | loaded_count equals the number of models installed by the call |
| Service.RawImportance | backend/ml_service.py:116-121 | `feature_importances_` takes precedence; otherwise the element-wise absolute value of the first row of `coef_`, which is non-negative; with neither there is no signal |
| Service.CoefScoresNonNegative | backend/ml_service.py:118-119 | on the `coef_` path every ranked score is non-negative |
| Service.MLService.constructor | backend/ml_service.py:14-17 | a new service has no models, metadata, ranges or memoised answers |
| Service.MLService.LoadModel | backend/ml_service.py:20-50 | the registry gains exactly the loaded models (with their metadata), the key order gains the new names in config order, and the count and failure list are returned; the registry invariant is kept |
| Service.MLService.LoadEntry | backend/ml_service.py:29-48 | one loop step installs the model when the entry loads and leaves the registry alone when it fails |
| Service.MLService.Install | backend/ml_service.py:32-37 | a model is stored with its metadata record; a new name is appended to the key order and a reloaded name keeps its place |
| Service.MLService.LoadFeatureRanges | backend/ml_service.py:52-81 | the ranges are replaced, and True returned, only when statistics were computed; a missing or unreadable file leaves them unchanged |
| Service.MLService.Predict | backend/ml_service.py:83-103 | an unknown name fails with not-found and nothing else does; otherwise the scorer's probability is returned with its thresholded prediction and band, and a raising scorer is a failure |
| Service.MLService.ImportanceOf | backend/ml_service.py:106-131 | there is an answer exactly when the model is loaded and its metadata flag is set, and it is the ranking of its raw scores against FEATURE_NAMES |
| Service.MLService.GetFeatureImportance | backend/ml_service.py:105-131 | a memoised name returns its stored answer; a name not yet memoised gets the fresh answer, which is stored; a coherent memo table always returns the fresh answer and stays coherent |
| Service.MLService.GetModelList | backend/ml_service.py:133-135 | the list holds each loaded name once and has as many entries as there are models |
| Service.MLService.GetModelCount | backend/ml_service.py:137-139 | the count equals the length of the model list |
| Api.FeatureVector | backend/api.py:65-74 | the feature row has eight columns, and column i holds the field named FEATURE_NAMES[i] |
| Api.FeatureVectorOfBody | backend/api.py:65-74 | for an accepted body, column i is the body's value for FEATURE_NAMES[i] |
| Api.HealthCheck | backend/api.py:31-37 | status is "healthy" and models equals the registry count and the length of the model list |
| Api.GetAvailableModels | backend/api.py:39-46 | the listed names are exactly the loaded models, each once; total equals their number; and the metadata covers exactly the listed names with their derived records |
| Api.GetFeatureRanges | backend/api.py:48-54 | a 500 "Feature ranges not loaded" exactly when no ranges are loaded, otherwise the ranges unchanged |
| Api.PredictChurn | backend/api.py:56-87 | an invalid body is a 422 listing its fields; for a valid body, 404 exactly when the name is not listed; a success echoes the name and carries the scorer's probability in [0,1], its thresholded prediction and band label; any scoring failure is a 500 "Prediction failed", never a 404 |
| Api.PredictionIgnoresUndeclaredMembers | backend/api.py:56-57 | two bodies that agree on the eight fields get the same answer |
| Api.PredictedChurnIsNeverLabelledNotChurn | backend/api.py:77-84 | a response predicting churn never carries a not-churn label |
| Api.ImportanceResponse | backend/api.py:89-103 | 404 exactly for an unlisted name, 400 exactly for a loaded model without an importance signal, otherwise the name with the service's answer passed through unchanged: the scores ranked in non-increasing order with ties in FEATURE_NAMES order, and their top-5 prefix |
| Api.AnswerResponse | backend/api.py:96-103 | a missing importance result is a 400 "Feature importance not available", and a present one is passed through with the model name |
| Api.GetFeatureImportance | backend/api.py:89-103 | a 404 leaves the memo table untouched; for a listed name the table gains exactly that name's answer (the stored one if memoised, else the fresh one), every other memoised answer stays, and the route answers from the memoised value; with a coherent table or a new name this is ImportanceResponse |

## Left out

- `backend/main.py` (the FastAPI app wiring and startup hook) is not part of this model. Its startup code calls `ml_service.load_models()` (backend/main.py:40), but the service defines `load_model` (backend/ml_service.py:20). The model follows the method as defined.
- `MODEL_FILES` is a dict, so its names are distinct. `LoadModel` takes the configuration as a parameter, and its `DistinctNames` precondition states that uniqueness.
- Service.MLService.LoadFeatureRanges: the CSV read and pandas `describe()` statistics are given as a `RangeSource` outcome, not computed.
- `joblib.load`, `predict_proba` and the contents of `feature_importances_`/`coef_` are foreign code. They are modelled as the `Disk` map and the artifact's uninterpreted fields and scoring function.
- `coef_` is modelled as its first row `coef_[0]`, the only row the service reads.
- Service.MLService.ImportanceOf: the returned dict `feature_importance` is represented by its ordered items. A dict keyed by the eight distinct FEATURE_NAMES keeps exactly these items in this order.
- Api.PredictChurn: `round(probability, 4)` (backend/api.py:81) is not modelled. The response carries the unrounded probability, and the [0,1] bound is checked on that unrounded value. The source checks the rounded value, so it answers 200 where the model answers 500 for a probability in (1, 1.00005), which rounds to 1.0, and for one in (-0.00005, 0), which rounds to -0.0. The prediction and the band come from the unrounded probability (backend/ml_service.py:90-101) while the source returns the rounded one, so the returned probability can sit on the other side of a band boundary. The model's clauses that tie prediction and band to the returned probability hold for the scorer's value, but not for the value the source returns: for p in [0.49995, 0.5) the source returns 0.5 with prediction 0, and for p in (0.9, 0.90005) it returns 0.9 with "High Probability that it will Churn". The same happens just across 0.8 (in (0.8, 0.80005)), 0.1 (in (0.1, 0.10005)) and 0.2 (in [0.19995, 0.2)).
- Floating point is modelled as `real`. NaN and infinities are not represented.
- Service.MLService.GetFeatureImportance: the `lru_cache` capacity of 32 (backend/config.py:96), its eviction and its sharing across instances are not modelled. Memoisation is a per-name map that never evicts. An answer memoised before a later `load_model` is not invalidated, as in the source; the fresh-answer guarantee for an already memoised name therefore assumes a coherent table, while a name not yet memoised always gets the fresh answer.
- `get_api_info` and the `/` route (backend/api.py:17-29) are not modelled. They return a dict of the status, the model count and the API version, cached by `lru_cache(maxsize=1)`; the model count in it is the one seen by the first call and goes stale after later loads.
- Schemas.Validate: a JSON body is modelled as its numeric members. Non-numeric values and pydantic's string-to-number coercion are not represented. The model assumes pydantic 2, where an `int` field accepts exactly the whole numbers; pydantic 1 would truncate 3.5 to 3 and accept it.
- The 422 response precedes the 404 check, because FastAPI validates the body before the route runs. The 404 property therefore holds for valid bodies.
- Api.PredictChurn: a scorer probability outside [0,1] is not assumed away. The model checks the unrounded value against the response bounds and answers 500 "Prediction failed" when it is out of range, as the source does when its response model raises inside the `try`; the two narrow ranges where rounding first brings the value back into [0,1] are listed above.
- The `/model-performance` static metrics, the frontend, the Streamlit pages, `utils/helper.py` and the top-level `main.py` launcher are outside the serving core.
- Concurrency is not modelled, and neither are the printing and `gc.collect()` calls in the loading loop.
- The high not-churn band uses the inclusive `<= 0.1` bound of the code (backend/ml_service.py:96).
