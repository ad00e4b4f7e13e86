/** The band optimizer (calculations/band_optimizer.py): a quality label
    and score per amateur band from the SFI-based MUF estimate, boosted for
    the time of day and ordered by score. */
module BandOptimizer {
  import opened Common
  import opened Sorting
  import opened Helpers
  import opened Constants

  datatype BandEntry = BandEntry(frequency: real, quality: string, score: real, notes: string)

  /** An ordered dictionary from band name to its entry. */
  type Bands = seq<(string, BandEntry)>

  /** Geomagnetic degradation factor of the MUF estimate. */
  function KFactor(k: real): (r: real)
    ensures 0.7 <= r <= 1.0
    ensures k < 3.0 <==> r == 1.0
  {
    if k >= 5.0 then 0.7 else if k >= 4.0 then 0.85 else if k >= 3.0 then 0.92 else 1.0
  }

  /** The base MUF for the SFI, degraded for the K index. */
  function EstimatedMuf(sfi: real, k: real): (r: real)
    ensures 8.4 <= r <= 40.0
  {
    GetBaseMufFromSfi(sfi) * KFactor(k)
  }

  /** A higher K never raises the estimate, a higher SFI never lowers it. */
  lemma EstimatedMufMonotone(sfi1: real, sfi2: real, k1: real, k2: real)
    requires sfi1 <= sfi2 && k1 <= k2
    ensures EstimatedMuf(sfi1, k2) <= EstimatedMuf(sfi2, k1)
  {
    BaseMufMonotone(sfi1, sfi2);
    var b1, b2 := GetBaseMufFromSfi(sfi1), GetBaseMufFromSfi(sfi2);
    assert b1 * KFactor(k2) <= b1 * KFactor(k1);
    assert b1 * KFactor(k1) <= b2 * KFactor(k1);
  }

  /** `_calculate_band_quality`. */
  function BandQuality(freq: real, sfi: real, k: real, isDaytime: bool): (r: string)
    ensures r in {"Excellent", "Very Good", "Good", "Fair", "Poor"}
    ensures r == "Excellent" ==> isDaytime && k <= 2.0
    ensures freq > EstimatedMuf(sfi, k) ==> r == "Poor"
  {
    var estimatedMuf := EstimatedMuf(sfi, k);
    if estimatedMuf <= 0.0 then "Poor"
    else
      var ratio := freq / estimatedMuf;
      assert freq > estimatedMuf ==> ratio > 1.0;
      if ratio <= 0.5 then (if isDaytime && k <= 2.0 then "Excellent" else "Very Good")
      else if ratio <= 0.75 then (if isDaytime && k <= 3.0 then "Very Good" else "Good")
      else if ratio <= 1.0 then (if isDaytime && k <= 3.0 then "Good" else "Fair")
      else "Poor"
  }

  /** `_quality_to_score`: 5 down to 1 for the known labels, 2 otherwise. */
  function QualityToScore(quality: string): (r: real)
    ensures quality == "Excellent" ==> r == 5.0
    ensures quality == "Very Good" ==> r == 4.0
    ensures quality == "Good" ==> r == 3.0
    ensures quality == "Fair" ==> r == 2.0
    ensures quality == "Poor" ==> r == 1.0
    ensures quality !in {"Excellent", "Very Good", "Good", "Fair", "Poor"} ==> r == 2.0
  {
    if quality == "Excellent" then 5.0
    else if quality == "Very Good" then 4.0
    else if quality == "Good" then 3.0
    else if quality == "Fair" then 2.0
    else if quality == "Poor" then 1.0
    else 2.0
  }

  /** Under the same conditions a higher band never scores better. */
  lemma QualityMonotoneInFrequency(f1: real, f2: real, sfi: real, k: real, isDaytime: bool)
    requires 0.0 <= f1 <= f2
    ensures QualityToScore(BandQuality(f2, sfi, k, isDaytime)) <= QualityToScore(BandQuality(f1, sfi, k, isDaytime))
  {
    var m := EstimatedMuf(sfi, k);
    assert f1 / m <= f2 / m;
  }

  /** The entry `_get_base_band_recommendations` records for one band. */
  function BaseEntry(freq: real, sfi: real, k: real, isDaytime: bool): (e: BandEntry)
    ensures e.frequency == freq && e.score == QualityToScore(e.quality)
    ensures e.quality == BandQuality(freq, sfi, k, isDaytime)
  {
    var quality := BandQuality(freq, sfi, k, isDaytime);
    BandEntry(freq, quality, QualityToScore(quality), quality + " conditions")
  }

  /** One entry per row of the table, in table order. */
  function BaseBands(table: seq<(string, real)>, sfi: real, k: real, isDaytime: bool): (r: Bands)
    ensures |r| == |table|
    ensures forall i :: 0 <= i < |table| ==>
      r[i] == (table[i].0, BaseEntry(table[i].1, sfi, k, isDaytime))
  {
    if table == [] then []
    else
      var n := |table| - 1;
      BaseBands(table[..n], sfi, k, isDaytime) + [(table[n].0, BaseEntry(table[n].1, sfi, k, isDaytime))]
  }

  /** `_get_base_band_recommendations`. */
  method GetBaseBandRecommendations(sfi: real, k: real, isDaytime: bool) returns (bands: Bands)
    ensures bands == BaseBands(BAND_FREQUENCIES, sfi, k, isDaytime)
  {
    bands := [];
    var i := 0;
    while i < |BAND_FREQUENCIES|
      invariant 0 <= i <= |BAND_FREQUENCIES|
      invariant bands == BaseBands(BAND_FREQUENCIES[..i], sfi, k, isDaytime)
    {
      assert BAND_FREQUENCIES[..i + 1][..i] == BAND_FREQUENCIES[..i];
      var (band, freq) := BAND_FREQUENCIES[i];
      var quality := BandQuality(freq, sfi, k, isDaytime);
      bands := bands + [(band, BandEntry(freq, quality, QualityToScore(quality), quality + " conditions"))];
      i := i + 1;
    }
    assert BAND_FREQUENCIES[..|BAND_FREQUENCIES|] == BAND_FREQUENCIES;
  }

  /** The bands each period favours. */
  function BoostBands(period: string): (r: seq<string>)
    ensures forall i, j :: 0 <= i < j < |r| ==> r[i] != r[j]
  {
    if period == "dawn" || period == "dusk" then ["40m", "30m", "20m"]
    else if period == "midday" then ["20m", "17m", "15m", "12m"]
    else if period == "night" then ["80m", "160m", "40m"]
    else []
  }

  function BoostFactor(period: string): (r: real)
    ensures r == 1.3 || r == 1.2
  {
    if period == "midday" then 1.3 else 1.2
  }

  function Scaled(e: BandEntry, f: real): (r: BandEntry)
    ensures r.score == e.score * f
    ensures r.frequency == e.frequency && r.quality == e.quality && r.notes == e.notes
  {
    e.(score := e.score * f)
  }

  /** Every band named in `names` has its score multiplied by `f`. */
  function Boosted(bands: Bands, names: seq<string>, f: real): (r: Bands)
    ensures |r| == |bands|
  {
    seq(|bands|, i requires 0 <= i < |bands| =>
      if bands[i].0 in names then (bands[i].0, Scaled(bands[i].1, f)) else bands[i])
  }

  /** A single `bands[band]['score'] *= f`. */
  function ScaleBand(bands: Bands, band: string, f: real): (r: Bands)
    ensures |r| == |bands|
  {
    seq(|bands|, i requires 0 <= i < |bands| =>
      if bands[i].0 == band then (bands[i].0, Scaled(bands[i].1, f)) else bands[i])
  }

  /** `_apply_time_adjustments`: `period` is the time data's period,
      "unknown" when missing. */
  method ApplyTimeAdjustments(bands: Bands, period: string) returns (adjusted: Bands)
    ensures adjusted == Boosted(bands, BoostBands(period), BoostFactor(period))
  {
    var boostBands := BoostBands(period);
    var boostFactor := if period == "midday" then 1.3 else 1.2;
    adjusted := bands;
    var i := 0;
    while i < |boostBands|
      invariant 0 <= i <= |boostBands|
      invariant adjusted == Boosted(bands, boostBands[..i], boostFactor)
    {
      var band := boostBands[i];
      assert band !in boostBands[..i];
      adjusted := ScaleBand(adjusted, band, boostFactor);
      assert forall x :: x in boostBands[..i + 1] <==> x in boostBands[..i] || x == band by {
        assert boostBands[..i + 1] == boostBands[..i] + [band];
      }
      i := i + 1;
    }
    assert boostBands[..|boostBands|] == boostBands;
  }

  /** Exactly the period's bands are boosted, by 1.3 at midday and 1.2
      otherwise; nothing else about any entry changes, and an unknown
      period changes nothing. */
  lemma TimeAdjustmentsEffect(bands: Bands, period: string, i: int)
    requires 0 <= i < |bands|
    ensures var r := Boosted(bands, BoostBands(period), BoostFactor(period));
      r[i].0 == bands[i].0 &&
      r[i].1.frequency == bands[i].1.frequency && r[i].1.quality == bands[i].1.quality &&
      r[i].1.notes == bands[i].1.notes &&
      (bands[i].0 in BoostBands(period) ==> r[i].1.score == bands[i].1.score * BoostFactor(period)) &&
      (bands[i].0 !in BoostBands(period) ==> r[i] == bands[i])
    ensures period !in {"dawn", "dusk", "midday", "night"} ==>
      Boosted(bands, BoostBands(period), BoostFactor(period)) == bands
  {
  }

  function Score(b: (string, BandEntry)): (r: real)
  {
    b.1.score
  }

  /** `_sort_bands_by_quality`: highest score first, ties in input order. */
  function SortBandsByQuality(bands: Bands): (r: Bands)
    ensures multiset(r) == multiset(bands)
  {
    Sort(bands, ByKeyDescending(Score))
  }

  /** The sort is ordered by non-increasing score and stable. */
  lemma SortBandsByQualityOrdered(bands: Bands, y: (string, BandEntry))
    ensures forall i, j :: 0 <= i < j < |bands| ==>
      SortBandsByQuality(bands)[i].1.score >= SortBandsByQuality(bands)[j].1.score
    ensures Filter(SortBandsByQuality(bands), e => Tied(ByKeyDescending(Score), e, y))
         == Filter(bands, e => Tied(ByKeyDescending(Score), e, y))
  {
    SortedDescendingKeys(bands, Score);
    DescendingIsStrictWeakOrder(Score);
    SortStable(bands, ByKeyDescending(Score), y);
  }

  /** `_calculate_band_confidence`. */
  function BandConfidence(sfi: real, k: real): (r: real)
    ensures 0.3 <= r <= 1.0
    ensures r == 1.0 <==> k <= 2.0 && 80.0 <= sfi <= 150.0
    ensures k > 4.0 ==> r <= 0.7
  {
    var c := 0.7 + (if k <= 2.0 then 0.2 else if k <= 4.0 then 0.1 else -0.1);
    var c' := c + (if 80.0 <= sfi <= 150.0 then 0.1 else 0.0);
    Clamp(c', 0.3, 1.0)
  }

  datatype BandReport = BandReport(bands: Bands, confidence: real, timePeriod: string, isDaytime: bool)

  /** `_get_fallback_bands`. */
  function FallbackBands(): (r: BandReport)
    ensures |r.bands| == 3 && r.confidence == 0.3 && r.timePeriod == "unknown"
  {
    BandReport([("20m", BandEntry(14.0, "Good", 3.0, "Primary band")),
                ("40m", BandEntry(7.0, "Good", 3.0, "Secondary band")),
                ("80m", BandEntry(3.5, "Fair", 2.0, "Night band"))], 0.3, "unknown", true)
  }

  /** `optimize_bands`: `isDay` and `period` are the time data's entries. */
  method OptimizeBands(solar: SolarData, isDay: Option<bool>, period: Option<string>) returns (r: BandReport)
    ensures r.bands == SortBandsByQuality(Boosted(BaseBands(BAND_FREQUENCIES, ExtractSfi(solar.sfi), ExtractKIndex(solar.kIndex), isDay.GetOr(true)),
                                                  BoostBands(period.GetOr("unknown")), BoostFactor(period.GetOr("unknown"))))
    ensures r.confidence == BandConfidence(ExtractSfi(solar.sfi), ExtractKIndex(solar.kIndex))
    ensures r.timePeriod == period.GetOr("unknown") && r.isDaytime == isDay.GetOr(true)
  {
    var sfi := ExtractSfi(solar.sfi);
    var kIndex := ExtractKIndex(solar.kIndex);
    var isDaytime := isDay.GetOr(true);
    var bands := GetBaseBandRecommendations(sfi, kIndex, isDaytime);
    bands := ApplyTimeAdjustments(bands, period.GetOr("unknown"));
    var sortedBands := SortBandsByQuality(bands);
    r := BandReport(sortedBands, BandConfidence(sfi, kIndex), period.GetOr("unknown"), isDaytime);
  }

  /** The optimized list has one entry per band of the table, carrying that
      band's frequency, and its scores do not increase along the list. */
  lemma OptimizedCoversEveryBand(sfi: real, k: real, isDaytime: bool, period: string)
    ensures var r := SortBandsByQuality(Boosted(BaseBands(BAND_FREQUENCIES, sfi, k, isDaytime), BoostBands(period), BoostFactor(period)));
      |r| == |BAND_FREQUENCIES| &&
      (forall i :: 0 <= i < |BAND_FREQUENCIES| ==>
        exists j :: 0 <= j < |r| && r[j].0 == BAND_FREQUENCIES[i].0 && r[j].1.frequency == BAND_FREQUENCIES[i].1) &&
      (forall i, j :: 0 <= i < j < |r| ==> r[i].1.score >= r[j].1.score)
  {
    var base := BaseBands(BAND_FREQUENCIES, sfi, k, isDaytime);
    var adjusted := Boosted(base, BoostBands(period), BoostFactor(period));
    var r := SortBandsByQuality(adjusted);
    assert |r| == |multiset(r)| == |multiset(adjusted)| == |adjusted|;
    forall i | 0 <= i < |BAND_FREQUENCIES|
      ensures exists j :: 0 <= j < |r| && r[j].0 == BAND_FREQUENCIES[i].0 && r[j].1.frequency == BAND_FREQUENCIES[i].1
    {
      assert adjusted[i] in multiset(r);
      var j :| 0 <= j < |r| && r[j] == adjusted[i];
    }
    SortedDescendingKeys(adjusted, Score);
  }
}
