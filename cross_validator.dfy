/** Cross-validation of a prediction against alternative methods
    (validation/cross_validator.py): the alternatives are simple formulas
    and fixed tables; the scores measure how far each value or band set is
    from the others. */
module CrossValidator {
  import opened Common
  import opened Constants
  import PropagationCalculator

  /** The prediction fields read here; a missing key is `None` or empty. */
  datatype Prediction = Prediction(muf: Option<real>, sfi: Option<real>, bestBands: seq<string>)

  /** `0.85 * 0.4 * sfi ** 0.5`, given the square root of the SFI. */
  function TraditionalMuf(sfi: real, root: real): (r: real)
    requires IsRootOf(root, sfi)
    ensures r >= 0.0 && r * r == 0.1156 * sfi
  {
    0.34 * root
  }

  function SimplifiedMuf(sfi: real): (r: real)
    ensures sfi >= 0.0 ==> r >= 0.0
  {
    sfi * 0.15
  }

  /** `_calculate_geographic_muf`: 0.8 above latitude 60, 1.2 below 30. */
  function GeographicMuf(baseMuf: real, lat: real): (r: real)
    ensures lat > 60.0 ==> r == 0.8 * baseMuf
    ensures lat < 30.0 ==> r == 1.2 * baseMuf
    ensures 30.0 <= lat <= 60.0 ==> r == baseMuf
  {
    if lat > 60.0 then baseMuf * 0.8 else if lat < 30.0 then baseMuf * 1.2 else baseMuf
  }

  /** A non-negative MUF is scaled by at most 20% either way. */
  lemma GeographicMufBounds(baseMuf: real, lat: real)
    requires baseMuf >= 0.0
    ensures 0.8 * baseMuf <= GeographicMuf(baseMuf, lat) <= 1.2 * baseMuf
  {
  }

  predicate Distinct(s: seq<string>)
  {
    forall i, j :: 0 <= i < j < |s| ==> s[i] != s[j]
  }

  /** `_select_frequency_bands`: the tiers at 28, 21 and 14 MHz. */
  function FrequencyBands(muf: real): (r: seq<string>)
    ensures 3 <= |r| <= 5 && Distinct(r)
    ensures forall b :: b in r ==> IsBand(b)
    ensures muf >= 28.0 ==> r == ["10m", "12m", "15m", "17m", "20m"]
    ensures 21.0 <= muf < 28.0 ==> r == ["15m", "17m", "20m", "30m", "40m"]
    ensures 14.0 <= muf < 21.0 ==> r == ["20m", "30m", "40m", "80m"]
    ensures muf < 14.0 ==> r == ["40m", "80m", "160m"]
  {
    PropagationCalculator.KnownBands();
    if muf >= 28.0 then ["10m", "12m", "15m", "17m", "20m"]
    else if muf >= 21.0 then ["15m", "17m", "20m", "30m", "40m"]
    else if muf >= 14.0 then ["20m", "30m", "40m", "80m"]
    else ["40m", "80m", "160m"]
  }

  /** `_select_activity_bands`: a fixed list. */
  function ActivityBands(): (r: seq<string>)
    ensures |r| == 5 && Distinct(r) && forall b :: b in r ==> IsBand(b)
  {
    PropagationCalculator.KnownBands();
    ["20m", "40m", "80m", "15m", "10m"]
  }

  /** `_select_time_based_bands` for the hour (0 to 23) of the local clock,
      which the source reads with `datetime.now().hour`. */
  function TimeBands(hour: int): (r: seq<string>)
    ensures |r| == 5 && Distinct(r) && forall b :: b in r ==> IsBand(b)
    ensures 6 <= hour < 12 ==> r == ["20m", "15m", "17m", "10m", "12m"]
    ensures 12 <= hour < 18 ==> r == ["20m", "15m", "17m", "12m", "10m"]
    ensures 18 <= hour < 24 ==> r == ["40m", "20m", "80m", "15m", "30m"]
    ensures 0 <= hour < 6 ==> r == ["80m", "40m", "160m", "20m", "30m"]
  {
    PropagationCalculator.KnownBands();
    if 6 <= hour < 12 then ["20m", "15m", "17m", "10m", "12m"]
    else if 12 <= hour < 18 then ["20m", "15m", "17m", "12m", "10m"]
    else if 18 <= hour < 24 then ["40m", "20m", "80m", "15m", "30m"]
    else ["80m", "40m", "160m", "20m", "30m"]
  }

  /** The consistency of one value: one minus its relative deviation from
      the mean, floored at 0. */
  function DeviationScore(x: real, mean: real): (r: real)
    requires mean != 0.0
    ensures r >= 0.0
    ensures mean > 0.0 ==> r <= 1.0 && (r == 1.0 <==> x == mean)
  {
    Max(0.0, 1.0 - Abs(x - mean) / mean)
  }

  /** What `_calculate_muf_consistency` returns for a list of MUF values. */
  function MufConsistencyOf(values: seq<real>): (r: seq<real>)
    ensures |r| == |values|
    ensures (|values| < 2 || Mean(values) == 0.0) ==> forall i :: 0 <= i < |r| ==> r[i] == 1.0
    ensures |values| >= 2 && Mean(values) != 0.0 ==>
      forall i :: 0 <= i < |r| ==> r[i] == DeviationScore(values[i], Mean(values))
  {
    if |values| < 2 || Mean(values) == 0.0 then seq(|values|, _ => 1.0)
    else seq(|values|, i requires 0 <= i < |values| => DeviationScore(values[i], Mean(values)))
  }

  /** With a positive mean every score is in [0,1], and a value equal to
      the mean scores 1. */
  lemma MufConsistencyBounds(values: seq<real>)
    requires |values| >= 2 && Mean(values) > 0.0
    ensures forall i :: 0 <= i < |values| ==> 0.0 <= MufConsistencyOf(values)[i] <= 1.0
    ensures forall i :: 0 <= i < |values| ==> (MufConsistencyOf(values)[i] == 1.0 <==> values[i] == Mean(values))
  {
  }

  method MufConsistency(values: seq<real>) returns (scores: seq<real>)
    ensures scores == MufConsistencyOf(values)
  {
    if |values| < 2 {
      return seq(|values|, _ => 1.0);
    }
    var mean := Mean(values);
    if mean == 0.0 {
      return seq(|values|, _ => 1.0);
    }
    scores := [];
    var i := 0;
    while i < |values|
      invariant 0 <= i <= |values| && |scores| == i
      invariant forall k :: 0 <= k < i ==> scores[k] == DeviationScore(values[k], mean)
    {
      var relativeDeviation := Abs(values[i] - mean) / mean;
      scores := scores + [Max(0.0, 1.0 - relativeDeviation)];
      i := i + 1;
    }
  }

  /** The pairwise similarity of two band sets: 1 for two empty sets, 0
      when just one is empty, the Jaccard index otherwise. */
  function Similarity(a: set<string>, b: set<string>): (r: real)
    ensures 0.0 <= r <= 1.0
    ensures a == {} && b == {} ==> r == 1.0
    ensures (a == {}) != (b == {}) ==> r == 0.0
    ensures a == b ==> r == 1.0
  {
    if a == {} && b == {} then 1.0 else Jaccard(a, b)
  }

  lemma SimilaritySymmetric(a: set<string>, b: set<string>)
    ensures Similarity(a, b) == Similarity(b, a)
  {
    JaccardSymmetric(a, b);
  }

  /** The loop's arithmetic: the intersection over the union for two
      non-empty sets. */
  lemma SimilarityFormula(a: set<string>, b: set<string>)
    ensures Similarity(a, b) == if |a| == 0 && |b| == 0 then 1.0
                                else if |a| == 0 || |b| == 0 then 0.0
                                else |a * b| as real / |a + b| as real
  {
    if |a| == 0 || |b| == 0 {
      if |a| == 0 { assert a == {}; }
      if |b| == 0 { assert b == {}; }
    } else {
      assert a <= a + b;
      SubsetCard(a, a + b);
    }
  }

  /** The similarities of set i with sets 0..n-1 other than itself. */
  function OthersSimilarity(sets: seq<set<string>>, i: nat, n: nat): (r: seq<real>)
    requires i < |sets| && n <= |sets|
    ensures |r| == if i < n then n - 1 else n
    ensures forall k :: 0 <= k < |r| ==> 0.0 <= r[k] <= 1.0
  {
    if n == 0 then []
    else if n - 1 == i then OthersSimilarity(sets, i, n - 1)
    else OthersSimilarity(sets, i, n - 1) + [Similarity(sets[i], sets[n - 1])]
  }

  /** When all sets are equal, every similarity is 1. */
  lemma {:induction false} OthersSimilarityEqual(sets: seq<set<string>>, i: nat, n: nat)
    requires i < |sets| && n <= |sets|
    requires forall k :: 0 <= k < |sets| ==> sets[k] == sets[0]
    ensures forall k :: 0 <= k < |OthersSimilarity(sets, i, n)| ==> OthersSimilarity(sets, i, n)[k] == 1.0
  {
    if n > 0 {
      OthersSimilarityEqual(sets, i, n - 1);
    }
  }

  /** What `_calculate_band_consistency` returns: per set, the mean
      similarity with every other set. */
  function BandConsistencyOf(sets: seq<set<string>>): (r: seq<real>)
    ensures |r| == |sets|
    ensures forall i :: 0 <= i < |r| ==> 0.0 <= r[i] <= 1.0
    ensures |sets| < 2 ==> forall i :: 0 <= i < |r| ==> r[i] == 1.0
  {
    if |sets| < 2 then seq(|sets|, _ => 1.0)
    else seq(|sets|, i requires 0 <= i < |sets| => SetConsistency(sets, i))
  }

  /** The mean similarity of set i with the others. */
  function SetConsistency(sets: seq<set<string>>, i: nat): (r: real)
    requires 2 <= |sets| && i < |sets|
    ensures 0.0 <= r <= 1.0
  {
    MeanBounds(OthersSimilarity(sets, i, |sets|), 0.0, 1.0);
    Mean(OthersSimilarity(sets, i, |sets|))
  }

  /** Identical selections agree completely. */
  lemma BandConsistencyIdentical(sets: seq<set<string>>)
    requires forall k :: 0 <= k < |sets| ==> sets[k] == sets[0]
    ensures forall i :: 0 <= i < |sets| ==> BandConsistencyOf(sets)[i] == 1.0
  {
    if |sets| >= 2 {
      forall i | 0 <= i < |sets| ensures BandConsistencyOf(sets)[i] == 1.0 {
        OthersSimilarityEqual(sets, i, |sets|);
        assert BandConsistencyOf(sets)[i] == SetConsistency(sets, i);
        MeanBounds(OthersSimilarity(sets, i, |sets|), 1.0, 1.0);
      }
    }
  }

  method BandConsistency(sets: seq<set<string>>) returns (scores: seq<real>)
    ensures scores == BandConsistencyOf(sets)
  {
    if |sets| < 2 {
      return seq(|sets|, _ => 1.0);
    }
    scores := [];
    var i := 0;
    while i < |sets|
      invariant 0 <= i <= |sets| && |scores| == i
      invariant forall k :: 0 <= k < i ==> scores[k] == SetConsistency(sets, k)
    {
      var similarities := SimilaritiesWith(sets, i);
      scores := scores + [Mean(similarities)];
      i := i + 1;
    }
  }

  /** The inner loop: the similarity of set i with each other set. */
  method SimilaritiesWith(sets: seq<set<string>>, i: nat) returns (similarities: seq<real>)
    requires i < |sets|
    ensures similarities == OthersSimilarity(sets, i, |sets|)
  {
    similarities := [];
    var j := 0;
    while j < |sets|
      invariant 0 <= j <= |sets|
      invariant similarities == OthersSimilarity(sets, i, j)
    {
      if i != j {
        var similarity := if |sets[i]| == 0 && |sets[j]| == 0 then 1.0
                          else if |sets[i]| == 0 || |sets[j]| == 0 then 0.0
                          else |sets[i] * sets[j]| as real / |sets[i] + sets[j]| as real;
        SimilarityFormula(sets[i], sets[j]);
        similarities := similarities + [similarity];
      }
      j := j + 1;
    }
  }

  /** `_determine_agreement_level`. */
  function AgreementLevel(consistency: real): (r: string)
    ensures r in {"high", "medium", "low", "very_low"}
    ensures r == "high" <==> consistency >= 0.8
    ensures r == "very_low" <==> consistency < 0.4
    ensures r == "medium" <==> 0.6 <= consistency < 0.8
  {
    if consistency >= 0.8 then "high"
    else if consistency >= 0.6 then "medium"
    else if consistency >= 0.4 then "low"
    else "very_low"
  }

  /** A higher consistency never gives a lower level. */
  lemma AgreementLevelMonotone(a: real, b: real)
    requires a <= b
    ensures AgreementLevel(a) == "high" ==> AgreementLevel(b) == "high"
    ensures AgreementLevel(b) == "very_low" ==> AgreementLevel(a) == "very_low"
  {
  }

  const HIGH_MUF_CONSISTENCY: string := "High consistency between MUF calculation methods"
  const MODERATE_MUF_CONSISTENCY: string := "Moderate consistency - consider using multiple methods"
  const LOW_MUF_CONSISTENCY: string := "Low consistency - investigate calculation differences"
  const HIGH_MUF_VARIATION: string := "High variation in MUF calculations - review input parameters"

  /** `_generate_muf_recommendations`, given the standard deviation of the
      MUF values: one line by consistency tier, and a variation warning
      when the deviation exceeds a fifth of the mean. */
  function MufRecommendations(consistency: real, values: seq<real>, std: real): (r: seq<string>)
    requires values != [] && IsRootOf(std, Variance(values))
    ensures 1 <= |r| <= 2
    ensures consistency >= 0.8 ==> r[0] == HIGH_MUF_CONSISTENCY
    ensures 0.6 <= consistency < 0.8 ==> r[0] == MODERATE_MUF_CONSISTENCY
    ensures consistency < 0.6 ==> r[0] == LOW_MUF_CONSISTENCY
    ensures |r| == 2 <==> (Mean(values) < 0.0 || Variance(values) > 0.04 * Mean(values) * Mean(values))
  {
    var first := if consistency >= 0.8 then HIGH_MUF_CONSISTENCY
                 else if consistency >= 0.6 then MODERATE_MUF_CONSISTENCY
                 else LOW_MUF_CONSISTENCY;
    var m := Mean(values);
    VariationMeaning(m, std, Variance(values));
    if std > m * 0.2 then [first, HIGH_MUF_VARIATION] else [first]
  }

  lemma VariationMeaning(m: real, std: real, v: real)
    requires IsRootOf(std, v)
    ensures std > m * 0.2 <==> (m < 0.0 || v > 0.04 * m * m)
  {
    if m >= 0.0 {
      var b := m * 0.2;
      assert b * b == 0.04 * m * m;
      RootMonotone(std, v, b, b * b);
    }
  }

  /** The intersection of every set. */
  function CommonBands(sets: seq<set<string>>): (r: set<string>)
    requires sets != []
    ensures forall b :: b in r <==> forall k :: 0 <= k < |sets| ==> b in sets[k]
  {
    if |sets| == 1 then sets[0]
    else
      var rest := CommonBands(sets[1..]);
      assert forall k :: 1 <= k < |sets| ==> sets[k] == sets[1..][k - 1];
      sets[0] * rest
  }

  /** A recommendation line; the common-bands line joins a set, whose
      order Python leaves unspecified, so it is kept as the set. */
  datatype Recommendation = Line(text: string) | CommonBandsLine(bands: set<string>)

  function BandRecommendations(consistency: real, sets: seq<set<string>>): (r: seq<Recommendation>)
    requires sets != []
    ensures 1 <= |r| <= 2 && r[0].Line?
    ensures |r| == 2 <==> CommonBands(sets) != {}
    ensures |r| == 2 ==> r[1] == CommonBandsLine(CommonBands(sets))
  {
    var first := if consistency >= 0.8 then "High agreement on band selection"
                 else if consistency >= 0.6 then "Moderate agreement - consider multiple selection criteria"
                 else "Low agreement - review band selection logic";
    var common := CommonBands(sets);
    if common != {} then [Line(first), CommonBandsLine(common)] else [Line(first)]
  }

  /** The MUF recommendation lines as recommendation records. */
  function Lines(texts: seq<string>): (r: seq<Recommendation>)
    ensures |r| == |texts| && forall i :: 0 <= i < |r| ==> r[i] == Line(texts[i])
  {
    seq(|texts|, i requires 0 <= i < |texts| => Line(texts[i]))
  }

  /** The per-method scores, keyed 'predicted' and then by method. */
  datatype CrossValidation = CrossValidation(
    predictionType: string, methodsUsed: seq<string>, consistencyScores: seq<(string, real)>,
    overallConsistency: real, agreementLevel: string, recommendations: seq<Recommendation>,
    error: Option<string>)

  function Keyed(names: seq<string>, scores: seq<real>): (r: seq<(string, real)>)
    requires |names| == |scores|
    ensures |r| == |names| && forall i :: 0 <= i < |r| ==> r[i] == (names[i], scores[i])
  {
    seq(|names|, i requires 0 <= i < |names| => (names[i], scores[i]))
  }

  /** The MUF values compared: the prediction (0 when missing) and the
      three alternatives (the geographic one defaults the MUF to 15). */
  function MufValues(p: Prediction, lat: real, root: real): (r: seq<real>)
    requires IsRootOf(root, p.sfi.GetOr(100.0))
    ensures |r| == 4 && r[0] == p.muf.GetOr(0.0)
  {
    [p.muf.GetOr(0.0), TraditionalMuf(p.sfi.GetOr(100.0), root), SimplifiedMuf(p.sfi.GetOr(100.0)),
     GeographicMuf(p.muf.GetOr(15.0), lat)]
  }

  function BandSets(p: Prediction, hour: int): (r: seq<set<string>>)
    ensures |r| == 4 && r[0] == Elements(p.bestBands)
  {
    [Elements(p.bestBands), Elements(FrequencyBands(p.muf.GetOr(15.0))), Elements(ActivityBands()),
     Elements(TimeBands(hour))]
  }

  /** `cross_validate_prediction`. The square roots of the SFI and of the
      variance, the latitude (default 0) and the hour are supplied; the
      roots are needed only for a MUF prediction with a non-negative SFI.
      With a negative SFI the scores would be complex numbers, which are
      not modelled: that record keeps its type, its methods and the
      absence of an error, and its scores are placeholders. */
  method CrossValidate(p: Prediction, predictionType: string, lat: Option<real>, hour: int, root: real, std: real)
    returns (r: CrossValidation)
    requires predictionType == "muf" && p.sfi.GetOr(100.0) >= 0.0 ==> IsRootOf(root, p.sfi.GetOr(100.0))
    requires predictionType == "muf" && p.sfi.GetOr(100.0) >= 0.0 && IsRootOf(root, p.sfi.GetOr(100.0)) ==>
      IsRootOf(std, Variance(MufValues(p, lat.GetOr(0.0), root)))
    ensures r.predictionType == predictionType
    ensures predictionType !in {"muf", "best_bands"} ==>
      r.methodsUsed == [] && r.error == Some("Cross-validation not implemented for " + predictionType) &&
      r.consistencyScores == [] && r.overallConsistency == 0.0 && r.agreementLevel == "unknown" && r.recommendations == []
    ensures predictionType == "muf" ==> r.methodsUsed == ["traditional", "simplified", "geographic_adjusted"]
    ensures predictionType == "muf" ==> r.error == None
    ensures predictionType == "muf" && p.sfi.GetOr(100.0) >= 0.0 ==>
      r.error == None &&
      r.consistencyScores == Keyed(["predicted"] + r.methodsUsed, MufConsistencyOf(MufValues(p, lat.GetOr(0.0), root))) &&
      r.overallConsistency == Mean(MufConsistencyOf(MufValues(p, lat.GetOr(0.0), root))) &&
      r.agreementLevel == AgreementLevel(r.overallConsistency) &&
      r.recommendations == Lines(MufRecommendations(r.overallConsistency, MufValues(p, lat.GetOr(0.0), root), std))
    ensures predictionType == "best_bands" ==>
      r.methodsUsed == ["frequency_based", "activity_based", "time_based"] && r.error == None &&
      r.consistencyScores == Keyed(["predicted"] + r.methodsUsed, BandConsistencyOf(BandSets(p, hour))) &&
      0.0 <= r.overallConsistency <= 1.0 &&
      r.overallConsistency == Mean(BandConsistencyOf(BandSets(p, hour))) &&
      r.agreementLevel == AgreementLevel(r.overallConsistency) &&
      r.recommendations == BandRecommendations(r.overallConsistency, BandSets(p, hour))
  {
    if predictionType == "muf" && p.sfi.GetOr(100.0) < 0.0 {
      r := CrossValidation(predictionType, ["traditional", "simplified", "geographic_adjusted"], [], 0.0, "unknown", [],
                           None);
    } else if predictionType == "muf" {
      var values := MufValues(p, lat.GetOr(0.0), root);
      var scores := MufConsistency(values);
      var methods := ["traditional", "simplified", "geographic_adjusted"];
      var overall := Mean(scores);
      var recs := MufRecommendations(overall, values, std);
      r := CrossValidation(predictionType, methods, Keyed(["predicted"] + methods, scores), overall,
                           AgreementLevel(overall), Lines(recs), None);
    } else if predictionType == "best_bands" {
      var sets := BandSets(p, hour);
      var scores := BandConsistency(sets);
      var methods := ["frequency_based", "activity_based", "time_based"];
      MeanBounds(scores, 0.0, 1.0);
      var overall := Mean(scores);
      r := CrossValidation(predictionType, methods, Keyed(["predicted"] + methods, scores), overall,
                           AgreementLevel(overall), BandRecommendations(overall, sets), None);
    } else {
      r := CrossValidation(predictionType, [], [], 0.0, "unknown", [],
                           Some("Cross-validation not implemented for " + predictionType));
    }
  }
}
