/**
 * The request and response schemas of backend/models.py: declared inclusive
 * ranges on the eight request fields, and the bounds the prediction
 * response enforces.
 */
module Schemas {
  import opened Wrappers
  import opened Settings
  import opened Ranking

  /** One `Field(..., ge=lo, le=hi)` declaration; `integral` for `int` fields. */
  datatype FieldSpec = FieldSpec(name: string, lo: real, hi: real, integral: bool)

  /** The fields of PredictionRequest in declaration order. */
  const RequestFields: seq<FieldSpec> := [
    FieldSpec("price", 0.0, 10000.0, false),
    FieldSpec("freight_value", 0.0, 500.0, false),
    FieldSpec("payment_installments", 0.0, 24.0, true),
    FieldSpec("delivery_diff_than_estimated", -50.0, 200.0, true),
    FieldSpec("reviewed_days", 0.0, 150.0, true),
    FieldSpec("customer_state_enc", 0.0, 1.0, false),
    FieldSpec("product_category_name_enc", 0.0, 15000.0, true),
    FieldSpec("payment_type_enc", 0.0, 3.0, true)
  ]

  /** A validated prediction request. */
  datatype PredictionRequest = PredictionRequest(
    price: real,
    freightValue: real,
    paymentInstallments: int,
    deliveryDiffThanEstimated: int,
    reviewedDays: int,
    customerStateEnc: real,
    productCategoryNameEnc: int,
    paymentTypeEnc: int)

  /** A JSON number is accepted for an `int` field only when it has no fractional part. */
  predicate IsIntegral(x: real) { x == x.Floor as real }

  /** The request body as the JSON object's numeric members. */
  type Body = map<string, real>

  /** Whether the body supplies field `f` inside its declared range. */
  predicate FieldOk(f: FieldSpec, body: Body) {
    && f.name in body
    && f.lo <= body[f.name] <= f.hi
    && (f.integral ==> IsIntegral(body[f.name]))
  }

  /** The names of the fields of `fields` that `body` misses or puts out of range. */
  function FieldErrors(fields: seq<FieldSpec>, body: Body): (errs: seq<string>)
    ensures |errs| <= |fields|
    ensures errs == [] <==> forall i :: 0 <= i < |fields| ==> FieldOk(fields[i], body)
    ensures forall n :: n in errs <==>
              exists i :: 0 <= i < |fields| && fields[i].name == n && !FieldOk(fields[i], body)
  {
    if fields == [] then []
    else
      var rest := FieldErrors(fields[1..], body);
      assert forall i :: 1 <= i < |fields| ==> fields[i] == fields[1..][i - 1];
      if FieldOk(fields[0], body) then rest else [fields[0].name] + rest
  }

  /** The declared ranges of PredictionRequest, field by field. */
  predicate WithinDeclaredRanges(body: Body) {
    && "price" in body && 0.0 <= body["price"] <= 10000.0
    && "freight_value" in body && 0.0 <= body["freight_value"] <= 500.0
    && "payment_installments" in body && IsIntegral(body["payment_installments"])
       && 0.0 <= body["payment_installments"] <= 24.0
    && "delivery_diff_than_estimated" in body && IsIntegral(body["delivery_diff_than_estimated"])
       && -50.0 <= body["delivery_diff_than_estimated"] <= 200.0
    && "reviewed_days" in body && IsIntegral(body["reviewed_days"])
       && 0.0 <= body["reviewed_days"] <= 150.0
    && "customer_state_enc" in body && 0.0 <= body["customer_state_enc"] <= 1.0
    && "product_category_name_enc" in body && IsIntegral(body["product_category_name_enc"])
       && 0.0 <= body["product_category_name_enc"] <= 15000.0
    && "payment_type_enc" in body && IsIntegral(body["payment_type_enc"])
       && 0.0 <= body["payment_type_enc"] <= 3.0
  }

  /** The bounds a constructed PredictionRequest carries. */
  predicate RequestInRange(req: PredictionRequest) {
    && 0.0 <= req.price <= 10000.0
    && 0.0 <= req.freightValue <= 500.0
    && 0 <= req.paymentInstallments <= 24
    && -50 <= req.deliveryDiffThanEstimated <= 200
    && 0 <= req.reviewedDays <= 150
    && 0.0 <= req.customerStateEnc <= 1.0
    && 0 <= req.productCategoryNameEnc <= 15000
    && 0 <= req.paymentTypeEnc <= 3
  }

  /**
   * Request parsing: every failing field is reported, and a request is built
   * only when there are none.
   */
  function Validate(body: Body): (r: Result<PredictionRequest, seq<string>>)
    ensures r.Success? <==> WithinDeclaredRanges(body)
    ensures r.Success? ==> RequestInRange(r.value)
    ensures r.Failure? ==> r.error != [] && forall n :: n in r.error <==>
              exists i :: 0 <= i < |RequestFields| && RequestFields[i].name == n
                && !FieldOk(RequestFields[i], body)
  {
    var errs := FieldErrors(RequestFields, body);
    AllFieldsOkIsDeclaredRanges(body);
    if errs != [] then Failure(errs)
    else
      Success(PredictionRequest(
        body["price"],
        body["freight_value"],
        body["payment_installments"].Floor,
        body["delivery_diff_than_estimated"].Floor,
        body["reviewed_days"].Floor,
        body["customer_state_enc"],
        body["product_category_name_enc"].Floor,
        body["payment_type_enc"].Floor))
  }

  lemma AllFieldsOkIsDeclaredRanges(body: Body)
    ensures FieldErrors(RequestFields, body) == [] <==> WithinDeclaredRanges(body)
  {
    if FieldErrors(RequestFields, body) == [] {
      assert FieldOk(RequestFields[0], body) && FieldOk(RequestFields[1], body);
      assert FieldOk(RequestFields[2], body) && FieldOk(RequestFields[3], body);
      assert FieldOk(RequestFields[4], body) && FieldOk(RequestFields[5], body);
      assert FieldOk(RequestFields[6], body) && FieldOk(RequestFields[7], body);
    }
    if WithinDeclaredRanges(body) {
      forall i | 0 <= i < |RequestFields| ensures FieldOk(RequestFields[i], body) {
        if i < 4 {
          assert i == 0 || i == 1 || i == 2 || i == 3;
        } else {
          assert i == 4 || i == 5 || i == 6 || i == 7;
        }
      }
    }
  }

  /** The value of the field a feature name denotes. */
  function FieldValue(req: PredictionRequest, name: string): real
    requires name in FeatureNames
  {
    if name == "price" then req.price
    else if name == "freight_value" then req.freightValue
    else if name == "payment_installments" then req.paymentInstallments as real
    else if name == "delivery_diff_than_estimated" then req.deliveryDiffThanEstimated as real
    else if name == "reviewed_days" then req.reviewedDays as real
    else if name == "customer_state_enc" then req.customerStateEnc
    else if name == "product_category_name_enc" then req.productCategoryNameEnc as real
    else req.paymentTypeEnc as real
  }

  /** A validated request holds exactly the numbers the body sent. */
  lemma ValidatedRequestEchoesBody(body: Body, i: nat)
    requires Validate(body).Success?
    requires i < |FeatureNames|
    ensures FeatureNames[i] in body
    ensures FieldValue(Validate(body).value, FeatureNames[i]) == body[FeatureNames[i]]
  {
    assert RequestFields[i].name == FeatureNames[i];
  }

  /** Any single field outside its range rejects the whole request and is reported. */
  lemma OneBadFieldRejects(body: Body, i: nat)
    requires i < |RequestFields|
    requires !FieldOk(RequestFields[i], body)
    ensures Validate(body).Failure?
    ensures RequestFields[i].name in Validate(body).error
  {
  }

  /** The `price=-1` request is rejected on `price` alone. */
  lemma NegativePriceRejected(body: Body)
    requires "price" in body && body["price"] == -1.0
    ensures Validate(body).Failure? && "price" in Validate(body).error
  {
    assert !FieldOk(RequestFields[0], body);
  }

  /** The request the dashboard sends with every input left at its default
      (frontend/app.py:141-155) is accepted. */
  lemma DashboardDefaultsAccepted()
    ensures Validate(map[
      "price" := 118.86, "freight_value" := 20.10, "payment_installments" := 3.0,
      "delivery_diff_than_estimated" := 11.0, "reviewed_days" := 0.0,
      "customer_state_enc" := 0.696, "product_category_name_enc" := 7.0,
      "payment_type_enc" := 0.0]).Success?
  {
  }

  /** Two bodies that carry the same members under `names`. */
  predicate AgreeOn(names: seq<string>, b1: Body, b2: Body) {
    forall k :: k in names ==> (k in b1 <==> k in b2) && (k in b1 ==> b1[k] == b2[k])
  }

  lemma {:induction false} FieldErrorsLocal(fields: seq<FieldSpec>, b1: Body, b2: Body)
    requires forall i :: 0 <= i < |fields| ==>
               (fields[i].name in b1 <==> fields[i].name in b2)
               && (fields[i].name in b1 ==> b1[fields[i].name] == b2[fields[i].name])
    ensures FieldErrors(fields, b1) == FieldErrors(fields, b2)
    decreases |fields|
  {
    if fields != [] {
      assert FieldOk(fields[0], b1) == FieldOk(fields[0], b2);
      FieldErrorsLocal(fields[1..], b1, b2);
    }
  }

  /** Members other than the declared fields never change the outcome of parsing. */
  lemma UndeclaredMembersIgnored(b1: Body, b2: Body)
    requires AgreeOn(FeatureNames, b1, b2)
    ensures Validate(b1) == Validate(b2)
  {
    forall i | 0 <= i < |RequestFields|
      ensures (RequestFields[i].name in b1 <==> RequestFields[i].name in b2)
      ensures RequestFields[i].name in b1 ==> b1[RequestFields[i].name] == b2[RequestFields[i].name]
    {
      assert RequestFields[i].name == FeatureNames[i];
    }
    FieldErrorsLocal(RequestFields, b1, b2);
  }

  /** PredictionResponse, with its ge/le constraints checked on construction. */
  datatype PredictionResponse = PredictionResponse(
    modelName: string, churnProbability: real, prediction: int, confidence: string)

  function MakePredictionResponse(modelName: string, probability: real, prediction: int, confidence: string)
    : (r: Result<PredictionResponse, string>)
    ensures r.Success? <==> 0.0 <= probability <= 1.0 && 0 <= prediction <= 1
    ensures r.Success? ==> r.value == PredictionResponse(modelName, probability, prediction, confidence)
  {
    if 0.0 <= probability <= 1.0 && 0 <= prediction <= 1 then
      Success(PredictionResponse(modelName, probability, prediction, confidence))
    else
      Failure("response field out of range")
  }

  datatype HealthResponse = HealthResponse(status: string, models: int)

  datatype ModelsResponse<M> = ModelsResponse(availableModels: seq<string>, total: int, metadata: map<string, M>)

  datatype FeatureImportanceResponse = FeatureImportanceResponse(
    modelName: string, featureImportance: seq<Entry>, topFeatures: seq<Entry>)
}
