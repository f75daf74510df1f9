/**
 * The decision rule of MLService.predict: a churn probability becomes a 0/1
 * prediction at the 0.5 threshold and one of five confidence bands.
 */
module Decision {

  const Threshold: real := 0.5

  /** The five confidence bands, in the order the service tests them. */
  datatype Confidence =
    | HighChurn
    | MediumChurn
    | HighNotChurn
    | MediumNotChurn
    | Neutral
  {
    /** The label string the service returns for the band. */
    function Text(): string {
      match this
      case HighChurn => "High Probability that it will Churn"
      case MediumChurn => "Medium Probability that it will Churn"
      case HighNotChurn => "High Probability that it will not Churn"
      case MediumNotChurn => "Medium Probability that it will not Churn"
      case Neutral => "Low Confidence (Neutral)"
    }

    predicate OnChurnSide() { HighChurn? || MediumChurn? }

    predicate OnNotChurnSide() { HighNotChurn? || MediumNotChurn? }
  }

  /** int(probability >= 0.5) */
  function PredictedClass(p: real): (c: int)
    ensures c == 0 || c == 1
    ensures c == 1 <==> p >= Threshold
  {
    if p >= Threshold then 1 else 0
  }

  /** The if/elif chain over the probability; each band is an interval. */
  function ConfidenceOf(p: real): (c: Confidence)
    ensures c == HighChurn <==> 0.9 < p
    ensures c == MediumChurn <==> 0.8 < p <= 0.9
    ensures c == HighNotChurn <==> p <= 0.1
    ensures c == MediumNotChurn <==> 0.1 < p < 0.2
    ensures c == Neutral <==> 0.2 <= p <= 0.8
  {
    if p > 0.9 then HighChurn
    else if p > 0.8 then MediumChurn
    else if p <= 0.1 then HighNotChurn
    else if p < 0.2 then MediumNotChurn
    else Neutral
  }

  /** A band on the churn side always comes with prediction 1, one on the
      other side with prediction 0; the neutral band spans the threshold. */
  lemma BandAgreesWithPrediction(p: real)
    ensures ConfidenceOf(p).OnChurnSide() ==> PredictedClass(p) == 1
    ensures ConfidenceOf(p).OnNotChurnSide() ==> PredictedClass(p) == 0
    ensures ConfidenceOf(0.5).Neutral? && PredictedClass(0.5) == 1
    ensures ConfidenceOf(0.49).Neutral? && PredictedClass(0.49) == 0
  {
  }

  /** Distinct bands carry distinct label strings, so the label identifies the band. */
  lemma LabelsIdentifyBands(a: Confidence, b: Confidence)
    ensures a.Text() == b.Text() ==> a == b
  {
    // The five labels have lengths 35, 37, 39, 41 and 24.
    if a != b {
      assert |a.Text()| != |b.Text()|;
    }
  }
}
