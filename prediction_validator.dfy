/** The combined prediction validator (validation/prediction_validator.py):
    it weighs the real-time, historical and cross-validation results into
    one score, a level and recommendations. */
module PredictionValidator {
  import opened Common
  import CrossValidator

  /** `_calculate_consistency`: one minus the coefficient of variation,
      floored at 0, given the standard deviation of the values. */
  function Consistency(values: seq<real>, std: real): (r: real)
    requires |values| >= 2 ==> IsRootOf(std, Variance(values))
    ensures r >= 0.0
    ensures |values| < 2 ==> r == 1.0
    ensures |values| >= 2 && Mean(values) == 0.0 ==> r == 1.0
    ensures |values| >= 2 && Mean(values) > 0.0 ==> r <= 1.0
  {
    if |values| < 2 then 1.0
    else
      var m := Mean(values);
      if m == 0.0 then 1.0 else Max(0.0, 1.0 - std / m)
  }

  /** Identical positive values are fully consistent. */
  lemma ConsistencyConstant(x: real, std: real)
    requires x > 0.0 && IsRootOf(std, Variance([x, x]))
    ensures Consistency([x, x], std) == 1.0
  {
    SumTwo(x, x);
    assert Mean([x, x]) == x;
    var d := SquaredDeviations([x, x], x);
    assert d[0] == ([x, x][0] - x) * ([x, x][0] - x);
    assert d[1] == ([x, x][1] - x) * ([x, x][1] - x);
    assert d[0] == 0.0 && d[1] == 0.0;
    assert d == [0.0, 0.0];
    SumTwo(0.0, 0.0);
    assert d == SquaredDeviations([x, x], Mean([x, x]));
    assert Variance([x, x]) == Mean(d) == 0.0;
    SquareZero(std);
    assert Consistency([x, x], std) == Max(0.0, 1.0 - 0.0 / x);
  }

  /** The alternative MUFs of `_get_alternative_muf_methods`: 10% below and
      above the prediction. */
  function AlternativeMufs(muf: real): (r: seq<real>)
    ensures |r| == 2
    ensures muf > 0.0 ==> r[0] < muf < r[1]
  {
    [muf * 0.9, muf * 1.1]
  }

  /** The variance of a MUF and its two alternatives is two thirds of the
      square of a tenth of the MUF. */
  lemma AlternativesVariance(muf: real)
    ensures Mean([muf] + AlternativeMufs(muf)) == muf
    ensures Variance([muf] + AlternativeMufs(muf)) == (muf * 0.1) * (muf * 0.1) * 2.0 / 3.0
  {
    var v := [muf, muf * 0.9, muf * 1.1];
    assert [muf] + AlternativeMufs(muf) == v;
    var b := muf * 0.1;
    SumThree(muf, muf * 0.9, muf * 1.1);
    assert Mean(v) == muf;
    var d := SquaredDeviations(v, muf);
    assert v[1] - muf == -b && v[2] - muf == b;
    NegSquare(b);
    assert d[0] == (v[0] - muf) * (v[0] - muf);
    assert d[1] == (v[1] - muf) * (v[1] - muf);
    assert d[2] == (v[2] - muf) * (v[2] - muf);
    assert d[0] == 0.0 && d[1] == b * b && d[2] == b * b;
    assert d == [0.0, b * b, b * b];
    SumThree(0.0, b * b, b * b);
    assert d == SquaredDeviations(v, Mean(v));
    assert Variance(v) == Mean(d);
  }

  lemma NegSquare(b: real)
    ensures (-b) * (-b) == b * b
  {
  }

  lemma SquareZero(r: real)
    requires r >= 0.0 && r * r == 0.0
    ensures r == 0.0
  {
    RootMonotone(r, r * r, 0.0, 0.0);
  }

  lemma SumTwo(a: real, b: real)
    ensures Sum([a, b]) == a + b
  {
    assert Sum([b]) == b by { assert [b][1..] == []; }
    assert [a, b][1..] == [b];
  }

  lemma SumThree(a: real, b: real, c: real)
    ensures Sum([a, b, c]) == a + b + c
  {
    SumTwo(b, c);
    assert [a, b, c][1..] == [b, c];
  }

  /** The similarities of set i with every later set. */
  function Row(sets: seq<set<string>>, i: nat, n: nat): (r: seq<real>)
    requires i < |sets| && n <= |sets|
    ensures |r| == if n > i + 1 then n - i - 1 else 0
    ensures forall k :: 0 <= k < |r| ==> 0.0 <= r[k] <= 1.0
  {
    if n <= i + 1 then []
    else Row(sets, i, n - 1) + [CrossValidator.Similarity(sets[i], sets[n - 1])]
  }

  /** The similarities of every pair i < j with i below n, in loop order. */
  function Pairs(sets: seq<set<string>>, n: nat): (r: seq<real>)
    requires n <= |sets|
    ensures forall k :: 0 <= k < |r| ==> 0.0 <= r[k] <= 1.0
    ensures n >= 1 && |sets| >= 2 ==> |r| >= 1
  {
    if n == 0 then []
    else
      var p := Pairs(sets, n - 1);
      var row := Row(sets, n - 1, |sets|);
      assert forall k :: 0 <= k < |p + row| ==> (p + row)[k] == if k < |p| then p[k] else row[k - |p|];
      p + row
  }

  /** What `_calculate_band_agreement` returns: the mean pairwise
      similarity, 1 for fewer than two sets. */
  function BandAgreementOf(sets: seq<set<string>>): (r: real)
    ensures 0.0 <= r <= 1.0
    ensures |sets| < 2 ==> r == 1.0
  {
    if |sets| < 2 then 1.0
    else
      MeanBounds(Pairs(sets, |sets|), 0.0, 1.0);
      Mean(Pairs(sets, |sets|))
  }

  lemma {:induction false} RowEqual(sets: seq<set<string>>, i: nat, n: nat)
    requires i < |sets| && n <= |sets|
    requires forall k :: 0 <= k < |sets| ==> sets[k] == sets[0]
    ensures forall k :: 0 <= k < |Row(sets, i, n)| ==> Row(sets, i, n)[k] == 1.0
  {
    if n > i + 1 {
      RowEqual(sets, i, n - 1);
    }
  }

  lemma {:induction false} PairsEqual(sets: seq<set<string>>, n: nat)
    requires n <= |sets|
    requires forall k :: 0 <= k < |sets| ==> sets[k] == sets[0]
    ensures forall k :: 0 <= k < |Pairs(sets, n)| ==> Pairs(sets, n)[k] == 1.0
  {
    if n > 0 {
      PairsEqual(sets, n - 1);
      RowEqual(sets, n - 1, |sets|);
    }
  }

  /** Identical selections agree completely. */
  lemma BandAgreementIdentical(sets: seq<set<string>>)
    requires forall k :: 0 <= k < |sets| ==> sets[k] == sets[0]
    ensures BandAgreementOf(sets) == 1.0
  {
    if |sets| >= 2 {
      PairsEqual(sets, |sets|);
      MeanBounds(Pairs(sets, |sets|), 1.0, 1.0);
    }
  }

  method BandAgreement(sets: seq<set<string>>) returns (agreement: real)
    ensures agreement == BandAgreementOf(sets)
  {
    if |sets| < 2 {
      return 1.0;
    }
    var similarities: seq<real> := [];
    var i := 0;
    while i < |sets|
      invariant 0 <= i <= |sets|
      invariant similarities == Pairs(sets, i)
    {
      similarities := AppendRow(similarities, sets, i);
      i := i + 1;
    }
    agreement := Mean(similarities);
  }

  /** The inner loop: the similarities of set i with every later set,
      appended to the list. */
  method AppendRow(before: seq<real>, sets: seq<set<string>>, i: nat) returns (similarities: seq<real>)
    requires i < |sets|
    ensures similarities == before + Row(sets, i, |sets|)
  {
    similarities := before;
    var j := i + 1;
    assert Row(sets, i, j) == [];
    while j < |sets|
      invariant i + 1 <= j <= |sets|
      invariant similarities == before + Row(sets, i, j)
    {
      CrossValidator.SimilarityFormula(sets[i], sets[j]);
      var similarity := if |sets[i]| == 0 && |sets[j]| == 0 then 1.0
                        else if |sets[i]| == 0 || |sets[j]| == 0 then 0.0
                        else |sets[i] * sets[j]| as real / |sets[i] + sets[j]| as real;
      similarities := similarities + [similarity];
      j := j + 1;
    }
  }

  /** `_get_alternative_band_methods`: the list rotated by one and by two
      (the second only for more than two bands). */
  function AlternativeBands(bands: seq<string>): (r: (seq<string>, seq<string>))
    ensures multiset(r.0) == multiset(bands) && multiset(r.1) == multiset(bands)
    ensures bands == [] ==> r.0 == [] && r.1 == []
  {
    var first := if bands != [] then bands[1..] + [bands[0]] else [];
    var second := if |bands| > 2 then bands[2..] + bands[..2] else bands;
    assert bands != [] ==> bands == [bands[0]] + bands[1..];
    assert |bands| > 2 ==> bands == bands[..2] + bands[2..];
    (first, second)
  }

  /** A rotation has the same elements. */
  lemma RotationElements(bands: seq<string>)
    ensures Elements(AlternativeBands(bands).0) == Elements(bands)
    ensures Elements(AlternativeBands(bands).1) == Elements(bands)
  {
    var r := AlternativeBands(bands);
    assert forall x :: x in r.0 <==> x in multiset(r.0);
    assert forall x :: x in r.1 <==> x in multiset(r.1);
    assert forall x :: x in bands <==> x in multiset(bands);
  }

  /** Cross-validating best bands against their own rotations always
      agrees completely. */
  lemma AlternativeBandsAgree(bands: seq<string>)
    ensures BandAgreementOf([Elements(bands), Elements(AlternativeBands(bands).0), Elements(AlternativeBands(bands).1)]) == 1.0
  {
    RotationElements(bands);
    BandAgreementIdentical([Elements(bands), Elements(AlternativeBands(bands).0), Elements(AlternativeBands(bands).1)]);
  }

  /** `_calculate_overall_validation_score`: the 0.4/0.3/0.3 weighted mean
      of the scores present, 0.5 when none is, clamped to [0,1]. */
  function OverallScore(realTime: Option<real>, historical: Option<real>, cross: Option<real>): (r: real)
    ensures 0.0 <= r <= 1.0
    ensures realTime.None? && historical.None? && cross.None? ==> r == 0.5
    ensures realTime.Some? && historical.Some? && cross.Some? ==>
      r == Clamp(0.4 * realTime.value + 0.3 * historical.value + 0.3 * cross.value, 0.0, 1.0)
  {
    var w1 := if realTime.Some? then 0.4 else 0.0;
    var w2 := if historical.Some? then 0.3 else 0.0;
    var w3 := if cross.Some? then 0.3 else 0.0;
    var total := w1 + w2 + w3;
    if total == 0.0 then 0.5
    else
      var weighted := (w1 * realTime.GetOr(0.0) + w2 * historical.GetOr(0.0) + w3 * cross.GetOr(0.0)) / total;
      Max(0.0, Min(1.0, weighted))
  }

  /** The weighted mean lies between the smallest and largest score present. */
  lemma OverallScoreBetween(realTime: Option<real>, historical: Option<real>, cross: Option<real>, lo: real, hi: real)
    requires 0.0 <= lo <= hi <= 1.0
    requires realTime.Some? ==> lo <= realTime.value <= hi
    requires historical.Some? ==> lo <= historical.value <= hi
    requires cross.Some? ==> lo <= cross.value <= hi
    requires realTime.Some? || historical.Some? || cross.Some?
    ensures lo <= OverallScore(realTime, historical, cross) <= hi
  {
    if realTime.Some? {
      if historical.Some? {
        if cross.Some? { } else { }
      } else {
        if cross.Some? { } else { }
      }
    } else {
      if historical.Some? {
        if cross.Some? { } else { }
      }
    }
  }

  lemma WeightedBetween(num: real, total: real, lo: real, hi: real)
    requires total > 0.0 && total * lo <= num <= total * hi
    ensures lo <= num / total <= hi
  {
  }

  /** The recommendation lines of `_generate_recommendations`. */
  datatype Advice = LowAccuracy | ReviewInputs | PoorRealTime | HistoricalInconsistency | HighAccuracy | Acceptable

  function AdviceText(a: Advice): (r: string)
  {
    match a
    case LowAccuracy => "Prediction has low accuracy - consider using alternative data sources"
    case ReviewInputs => "Review input parameters and data quality"
    case PoorRealTime => "Real-time validation shows poor accuracy - check current propagation conditions"
    case HistoricalInconsistency => "Historical validation shows inconsistency - review prediction model"
    case HighAccuracy => "Prediction shows high accuracy - suitable for operational use"
    case Acceptable => "Prediction accuracy is acceptable - monitor for changes"
  }

  /** A missing score reads as 0. The closing line appears exactly when no
      other line does, so the list is never empty. */
  function Recommendations(overall: real, realTime: Option<real>, historical: Option<real>): (r: seq<Advice>)
    ensures |r| >= 1
    ensures r == [Acceptable] <==> (0.4 <= overall < 0.8 && realTime.GetOr(0.0) >= 0.5 && historical.GetOr(0.0) >= 0.5)
    ensures r != [Acceptable] ==> Acceptable !in r
    ensures overall < 0.4 <==> (LowAccuracy in r && ReviewInputs in r)
    ensures PoorRealTime in r <==> realTime.GetOr(0.0) < 0.5
    ensures HistoricalInconsistency in r <==> historical.GetOr(0.0) < 0.5
    ensures HighAccuracy in r <==> overall >= 0.8
  {
    var low := if overall < 0.4 then [LowAccuracy, ReviewInputs] else [];
    var rt := if realTime.GetOr(0.0) < 0.5 then [PoorRealTime] else [];
    var hist := if historical.GetOr(0.0) < 0.5 then [HistoricalInconsistency] else [];
    var high := if overall >= 0.8 then [HighAccuracy] else [];
    var all := low + rt + hist + high;
    assert Acceptable !in all;
    if all == [] then [Acceptable] else all
  }

  /** The report of `validate_prediction`: completed, or failed on an
      exception. */
  datatype ValidationReport =
    | Completed(predictionType: string, overallScore: real, confidenceLevel: string, recommendations: seq<Advice>,
                crossScore: real, crossLevel: string)
    | Failed(predictionType: string, error: string, overallScore: real, confidenceLevel: string)

  /** Any exception gives a failed report with score 0 and level 'low'. */
  function FailedReport(predictionType: string, error: string): (r: ValidationReport)
    ensures r.Failed? && r.overallScore == 0.0 && r.confidenceLevel == "low" && r.predictionType == predictionType
  {
    Failed(predictionType, error, 0.0, "low")
  }

  /** `_perform_cross_validation`: the consistency of the MUF with its
      alternatives, or the agreement of the bands with their rotations; 0
      with level 'unknown' for other types. */
  method PerformCrossValidation(predictionType: string, muf: real, bands: seq<string>, std: real)
    returns (score: real, level: string)
    requires predictionType == "muf" ==> IsRootOf(std, Variance([muf] + AlternativeMufs(muf)))
    ensures predictionType == "muf" ==>
      score == Consistency([muf] + AlternativeMufs(muf), std) && level == CrossValidator.AgreementLevel(score)
    ensures predictionType == "best_bands" ==> score == 1.0 && level == "high"
    ensures predictionType !in {"muf", "best_bands"} ==> score == 0.0 && level == "unknown"
  {
    if predictionType == "muf" {
      score := Consistency([muf] + AlternativeMufs(muf), std);
      level := CrossValidator.AgreementLevel(score);
    } else if predictionType == "best_bands" {
      var alternatives := AlternativeBands(bands);
      score := BandAgreement([Elements(bands), Elements(alternatives.0), Elements(alternatives.1)]);
      AlternativeBandsAgree(bands);
      level := CrossValidator.AgreementLevel(score);
    } else {
      score, level := 0.0, "unknown";
    }
  }

  /** `validate_prediction` given the real-time score (absent for an
      unknown type), the historical confidence and the standard deviation
      used by the MUF consistency. */
  method ValidatePrediction(predictionType: string, realTime: Option<real>, historical: real,
                            muf: real, bands: seq<string>, std: real)
    returns (r: ValidationReport)
    requires predictionType == "muf" ==> IsRootOf(std, Variance([muf] + AlternativeMufs(muf)))
    ensures r.Completed? && r.predictionType == predictionType
    ensures r.overallScore == OverallScore(realTime, Some(historical), Some(r.crossScore))
    ensures r.confidenceLevel == CrossValidator.AgreementLevel(r.overallScore)
    ensures r.recommendations == Recommendations(r.overallScore, realTime, Some(historical))
    ensures predictionType == "muf" ==>
      r.crossScore == Consistency([muf] + AlternativeMufs(muf), std) && r.crossLevel == CrossValidator.AgreementLevel(r.crossScore)
    ensures predictionType == "best_bands" ==> r.crossScore == 1.0 && r.crossLevel == "high"
    ensures predictionType !in {"muf", "best_bands"} ==> r.crossScore == 0.0 && r.crossLevel == "unknown"
  {
    var crossScore, crossLevel := PerformCrossValidation(predictionType, muf, bands, std);
    var overall := OverallScore(realTime, Some(historical), Some(crossScore));
    r := Completed(predictionType, overall, CrossValidator.AgreementLevel(overall),
                   Recommendations(overall, realTime, Some(historical)), crossScore, crossLevel);
  }
}
