/**
 * The ranking step of MLService.get_feature_importance: raw scores are
 * paired with the feature names (Python's zip), sorted by score in
 * descending order with a stable sort (sorted(..., reverse=True)), and the
 * first five pairs are kept as the top features.
 */
module Ranking {
  import opened Settings

  /** One (feature name, score) pair, as produced by dict.items(). */
  type Entry = (string, real)

  /** The ranked mapping, kept as its ordered items, and its top prefix. */
  datatype ImportanceResult = ImportanceResult(featureImportance: seq<Entry>, topFeatures: seq<Entry>)

  function Min(a: int, b: int): int { if a <= b then a else b }

  /** zip(names, scores): pairs up to the length of the shorter input. */
  function Zip(names: seq<string>, scores: seq<real>): (r: seq<Entry>)
    ensures |r| == Min(|names|, |scores|)
    ensures forall i :: 0 <= i < |r| ==> r[i] == (names[i], scores[i])
  {
    if names == [] || scores == [] then []
    else [(names[0], scores[0])] + Zip(names[1..], scores[1..])
  }

  /** np.abs over a coefficient row. */
  function AbsAll(xs: seq<real>): (r: seq<real>)
    ensures |r| == |xs|
    ensures forall i :: 0 <= i < |r| ==> 0.0 <= r[i] && (r[i] == xs[i] || r[i] == -xs[i])
  {
    if xs == [] then []
    else [if xs[0] < 0.0 then -xs[0] else xs[0]] + AbsAll(xs[1..])
  }

  predicate NonIncreasing(s: seq<Entry>) {
    forall i, j :: 0 <= i < j < |s| ==> s[i].1 >= s[j].1
  }

  /** The entries of `s` whose score is `v`, in their order in `s`. */
  function WithScore(s: seq<Entry>, v: real): seq<Entry> {
    if s == [] then []
    else (if s[0].1 == v then [s[0]] else []) + WithScore(s[1..], v)
  }

  /** Places `x` after every entry scoring at least as much as it. */
  function Insert(x: Entry, s: seq<Entry>): seq<Entry> {
    if s == [] then [x]
    else if s[0].1 >= x.1 then [s[0]] + Insert(x, s[1..])
    else [x] + s
  }

  /**
   * sorted(items, key=score, reverse=True): the result is in descending
   * order, is a permutation of the input, and entries with equal scores keep
   * their input order (the sort is stable).
   */
  function SortDesc(s: seq<Entry>): (r: seq<Entry>)
    ensures NonIncreasing(r)
    ensures multiset(r) == multiset(s)
    ensures forall v :: WithScore(r, v) == WithScore(s, v)
    decreases |s|
  {
    if s == [] then []
    else
      var init, x := s[..|s| - 1], s[|s| - 1];
      assert s == init + [x];
      var sorted := SortDesc(init);
      InsertSorted(x, sorted);
      InsertPermutes(x, sorted);
      InsertStable(x, sorted);
      WithScoreSnoc(init, x);
      Insert(x, sorted)
  }

  /**
   * The ranking of get_feature_importance: the whole sorted mapping and its
   * first min(5, n) entries.
   */
  function Rank(names: seq<string>, scores: seq<real>): (r: ImportanceResult)
    ensures |r.featureImportance| == Min(|names|, |scores|)
    ensures NonIncreasing(r.featureImportance)
    ensures multiset(r.featureImportance) == multiset(Zip(names, scores))
    ensures forall v :: WithScore(r.featureImportance, v) == WithScore(Zip(names, scores), v)
    ensures |r.topFeatures| == Min(TopCount, |r.featureImportance|)
    ensures r.topFeatures <= r.featureImportance
  {
    var sorted := SortDesc(Zip(names, scores));
    assert |sorted| == |multiset(sorted)| == |Zip(names, scores)|;
    ImportanceResult(sorted, sorted[..Min(TopCount, |sorted|)])
  }

  // ---------------------------------------------------------------------
  // Lemmas about Insert and WithScore

  /** Inserting keeps every score under a common bound. */
  lemma {:induction false} InsertBounded(x: Entry, s: seq<Entry>, bound: real)
    requires x.1 <= bound
    requires forall j :: 0 <= j < |s| ==> s[j].1 <= bound
    ensures forall j :: 0 <= j < |Insert(x, s)| ==> Insert(x, s)[j].1 <= bound
    decreases |s|
  {
    if s != [] && s[0].1 >= x.1 {
      InsertBounded(x, s[1..], bound);
    }
  }

  lemma {:induction false} InsertSorted(x: Entry, s: seq<Entry>)
    requires NonIncreasing(s)
    ensures NonIncreasing(Insert(x, s))
    decreases |s|
  {
    if s != [] {
      if s[0].1 >= x.1 {
        var tail := s[1..];
        assert NonIncreasing(tail);
        InsertSorted(x, tail);
        InsertBounded(x, tail, s[0].1);
      } else {
        assert forall j :: 0 <= j < |s| ==> s[0].1 >= s[j].1;
      }
    }
  }

  lemma {:induction false} InsertPermutes(x: Entry, s: seq<Entry>)
    ensures multiset(Insert(x, s)) == multiset(s) + multiset{x}
    decreases |s|
  {
    if s != [] {
      assert s == [s[0]] + s[1..];
      if s[0].1 >= x.1 {
        InsertPermutes(x, s[1..]);
      }
    }
  }

  /** Unfolds WithScore once on a sequence given as head and tail. */
  lemma WithScoreCons(e: Entry, t: seq<Entry>, v: real)
    ensures WithScore([e] + t, v) == (if e.1 == v then [e] else []) + WithScore(t, v)
  {
    assert ([e] + t)[0] == e && ([e] + t)[1..] == t;
  }

  lemma {:induction false} WithScoreAppend(a: seq<Entry>, b: seq<Entry>, v: real)
    ensures WithScore(a + b, v) == WithScore(a, v) + WithScore(b, v)
    decreases |a|
  {
    if a == [] {
      assert a + b == b;
    } else {
      var h := if a[0].1 == v then [a[0]] else [];
      assert a + b == [a[0]] + (a[1..] + b);
      WithScoreCons(a[0], a[1..] + b, v);
      WithScoreAppend(a[1..], b, v);
      assert a == [a[0]] + a[1..];
      WithScoreCons(a[0], a[1..], v);
      assert WithScore(a + b, v) == h + (WithScore(a[1..], v) + WithScore(b, v));
    }
  }

  lemma WithScoreSnoc(s: seq<Entry>, x: Entry)
    ensures forall v :: WithScore(s + [x], v) == WithScore(s, v) + (if x.1 == v then [x] else [])
  {
    forall v ensures WithScore(s + [x], v) == WithScore(s, v) + (if x.1 == v then [x] else []) {
      WithScoreAppend(s, [x], v);
    }
  }

  lemma {:induction false} WithScoreNone(s: seq<Entry>, v: real)
    requires forall j :: 0 <= j < |s| ==> s[j].1 < v
    ensures WithScore(s, v) == []
    decreases |s|
  {
    if s != [] {
      WithScoreNone(s[1..], v);
    }
  }

  lemma {:induction false} InsertStableAt(x: Entry, s: seq<Entry>, v: real)
    requires NonIncreasing(s)
    ensures WithScore(Insert(x, s), v) == WithScore(s, v) + (if x.1 == v then [x] else [])
    decreases |s|
  {
    var xs := if x.1 == v then [x] else [];
    if s == [] {
      assert Insert(x, s) == [x] + [];
      WithScoreCons(x, [], v);
    } else if s[0].1 >= x.1 {
      var tail := s[1..];
      var h := if s[0].1 == v then [s[0]] else [];
      assert NonIncreasing(tail);
      InsertStableAt(x, tail, v);
      assert Insert(x, s) == [s[0]] + Insert(x, tail);
      WithScoreCons(s[0], Insert(x, tail), v);
      assert s == [s[0]] + tail;
      WithScoreCons(s[0], tail, v);
      assert WithScore(Insert(x, s), v) == h + (WithScore(tail, v) + xs);
    } else {
      assert Insert(x, s) == [x] + s;
      WithScoreCons(x, s, v);
      if x.1 == v {
        assert forall j :: 0 <= j < |s| ==> s[j].1 <= s[0].1;
        WithScoreNone(s, v);
      }
    }
  }

  lemma InsertStable(x: Entry, s: seq<Entry>)
    requires NonIncreasing(s)
    ensures forall v :: WithScore(Insert(x, s), v) == WithScore(s, v) + (if x.1 == v then [x] else [])
  {
    forall v ensures WithScore(Insert(x, s), v) == WithScore(s, v) + (if x.1 == v then [x] else []) {
      InsertStableAt(x, s, v);
    }
  }

  // ---------------------------------------------------------------------
  // Properties of the ranking

  /** Every ranked entry is one of the zipped (name, score) pairs. */
  lemma RankedEntriesComeFromInput(names: seq<string>, scores: seq<real>, k: nat)
    requires k < |Rank(names, scores).featureImportance|
    ensures exists i :: 0 <= i < Min(|names|, |scores|)
              && Rank(names, scores).featureImportance[k] == (names[i], scores[i])
  {
    var r := Rank(names, scores).featureImportance;
    var z := Zip(names, scores);
    assert r[k] in multiset(r);
    assert r[k] in multiset(z);
    var i :| 0 <= i < |z| && z[i] == r[k];
  }

  /** The top features score at least as much as every feature left out of them. */
  lemma {:induction false} TopFeaturesDominate(names: seq<string>, scores: seq<real>, t: nat, k: nat)
    requires t < |Rank(names, scores).topFeatures|
    requires |Rank(names, scores).topFeatures| <= k < |Rank(names, scores).featureImportance|
    ensures Rank(names, scores).topFeatures[t].1 >= Rank(names, scores).featureImportance[k].1
  {
    var r := Rank(names, scores);
    assert r.topFeatures[t] == r.featureImportance[t];
  }
}
