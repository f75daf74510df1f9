/** The constants the serving core depends on: FEATURE_NAMES from backend/config.py
    and the top-feature cut-off of backend/ml_service.py. */
module Settings {

  /** FEATURE_NAMES: the training-time column order of every feature vector. */
  const FeatureNames: seq<string> := [
    "price", "freight_value", "payment_installments",
    "delivery_diff_than_estimated", "reviewed_days",
    "customer_state_enc", "product_category_name_enc", "payment_type_enc"
  ]

  /** Number of ranked features returned as `top_features`: the `[:5]` slice of
      get_feature_importance (backend/ml_service.py:130). */
  const TopCount: nat := 5

  predicate Distinct<T(==)>(s: seq<T>) {
    forall i, j :: 0 <= i < j < |s| ==> s[i] != s[j]
  }

  /** A duplicate-free sequence has as many elements as the set it enumerates. */
  lemma {:induction false} DistinctCardinality<T>(s: seq<T>, keys: set<T>)
    ensures Distinct(s) && (forall x :: x in s <==> x in keys) ==> |s| == |keys|
  {
    if s != [] && Distinct(s) && (forall x :: x in s <==> x in keys) {
      var rest := keys - {s[0]};
      forall x ensures x in s[1..] <==> x in rest {
        if x in s[1..] {
          var k :| 1 <= k < |s| && s[k] == x;
          assert s[0] != s[k];
        }
      }
      DistinctCardinality(s[1..], rest);
    }
  }
}
