/** The propagation calculator (calculations/propagation_calculator.py):
    an overall quality label from MUF, SFI and K, a list of recommended
    bands from the MUF tier filtered for geomagnetic storms, and a
    confidence. */
module PropagationCalculator {
  import opened Common
  import opened Sorting
  import opened Helpers
  import opened Constants

  /** `_calculate_quality`: the first tier whose three thresholds hold. */
  function Quality(muf: real, sfi: real, k: real): (r: string)
    ensures r in {"Excellent", "Very Good", "Good", "Fair", "Poor"}
    ensures r == "Excellent" <==> muf >= 20.0 && sfi >= 120.0 && k <= 2.0
    ensures r == "Poor" <==> !(muf >= 7.0 && sfi >= 60.0 && k <= 5.0)
  {
    if muf >= 20.0 && sfi >= 120.0 && k <= 2.0 then "Excellent"
    else if muf >= 15.0 && sfi >= 100.0 && k <= 3.0 then "Very Good"
    else if muf >= 10.0 && sfi >= 80.0 && k <= 4.0 then "Good"
    else if muf >= 7.0 && sfi >= 60.0 && k <= 5.0 then "Fair"
    else "Poor"
  }

  /** Better conditions never give a worse label: the labels are ranked and
      each tier's thresholds imply the ones below it. */
  function Rank(q: string): (r: nat)
  {
    if q == "Excellent" then 4 else if q == "Very Good" then 3
    else if q == "Good" then 2 else if q == "Fair" then 1 else 0
  }

  lemma QualityMonotone(muf1: real, sfi1: real, k1: real, muf2: real, sfi2: real, k2: real)
    requires muf1 <= muf2 && sfi1 <= sfi2 && k2 <= k1
    ensures Rank(Quality(muf1, sfi1, k1)) <= Rank(Quality(muf2, sfi2, k2))
  {
  }

  /** The MUF tier's band list. */
  function TierBands(muf: real): (r: seq<string>)
    ensures 2 <= |r| <= 5
  {
    if muf >= 28.0 then ["10m", "12m", "15m", "17m", "20m"]
    else if muf >= 24.0 then ["12m", "15m", "17m", "20m", "30m"]
    else if muf >= 21.0 then ["15m", "17m", "20m", "30m", "40m"]
    else if muf >= 18.0 then ["17m", "20m", "30m", "40m"]
    else if muf >= 14.0 then ["20m", "30m", "40m", "80m"]
    else if muf >= 10.0 then ["30m", "40m", "80m"]
    else if muf >= 7.0 then ["40m", "80m", "160m"]
    else ["80m", "160m"]
  }

  const SEVERE_STORM_BANDS: seq<string> := ["40m", "80m", "160m"]
  const STORM_BANDS: seq<string> := ["20m", "30m", "40m", "80m", "160m"]

  /** The storm filter: only low bands survive K >= 5, fewer at K >= 6. */
  function StormFiltered(bands: seq<string>, k: real): (r: seq<string>)
    ensures |r| <= |bands|
    ensures forall b :: b in r ==> b in bands
    ensures k >= 6.0 ==> forall b :: b in r ==> b in SEVERE_STORM_BANDS
    ensures 5.0 <= k < 6.0 ==> forall b :: b in r ==> b in STORM_BANDS
    ensures k < 5.0 ==> r == bands
  {
    if k >= 6.0 then Filter(bands, b => b in SEVERE_STORM_BANDS)
    else if k >= 5.0 then Filter(bands, b => b in STORM_BANDS)
    else bands
  }

  /** `_calculate_best_bands`. */
  function BestBands(muf: real, k: real): (r: seq<string>)
    ensures 1 <= |r| <= 5
    ensures forall b :: b in r ==> IsBand(b)
    ensures k >= 6.0 ==> forall b :: b in r ==> b in SEVERE_STORM_BANDS
    ensures 5.0 <= k < 6.0 ==> forall b :: b in r ==> b in STORM_BANDS
    ensures k < 5.0 ==> r == TierBands(muf)
  {
    var bands := StormFiltered(TierBands(muf), k);
    if bands != [] then
      var r := bands[..if |bands| < 5 then |bands| else 5];
      assert forall b :: b in r ==> b in TierBands(muf);
      TierBandsKnown(muf);
      r
    else
      KnownBands();
      ["40m", "80m"]
  }

  /** Every band of a tier is in the frequency table. */
  lemma TierBandsKnown(muf: real)
    ensures forall b :: b in TierBands(muf) ==> IsBand(b)
  {
    KnownBands();
    var t := TierBands(muf);
    forall b | b in t ensures IsBand(b) {
      var i :| 0 <= i < |t| && t[i] == b;
    }
  }

  /** Every name a tier uses is a band of the frequency table. */
  lemma KnownBands()
    ensures IsBand("160m") && IsBand("80m") && IsBand("40m") && IsBand("30m") && IsBand("20m")
    ensures IsBand("17m") && IsBand("15m") && IsBand("12m") && IsBand("10m")
  {
    assert IsBand("160m") by { assert BAND_FREQUENCIES[0].0 == "160m"; }
    assert IsBand("80m") by { assert BAND_FREQUENCIES[1].0 == "80m"; }
    assert IsBand("40m") by { assert BAND_FREQUENCIES[2].0 == "40m"; }
    assert IsBand("30m") by { assert BAND_FREQUENCIES[3].0 == "30m"; }
    assert IsBand("20m") by { assert BAND_FREQUENCIES[4].0 == "20m"; }
    assert IsBand("17m") by { assert BAND_FREQUENCIES[5].0 == "17m"; }
    assert IsBand("15m") by { assert BAND_FREQUENCIES[6].0 == "15m"; }
    assert IsBand("12m") by { assert BAND_FREQUENCIES[7].0 == "12m"; }
    assert IsBand("10m") by { assert BAND_FREQUENCIES[8].0 == "10m"; }
  }

  /** For example MUF 28 and up in quiet conditions gives the five highest
      bands. */
  lemma HighMufBands(muf: real, k: real)
    requires muf >= 28.0 && k < 5.0
    ensures BestBands(muf, k) == ["10m", "12m", "15m", "17m", "20m"]
  {
  }

  /** A severe storm on a high-MUF day filters out every tier band and
      leaves the fixed pair. */
  lemma SevereStormHighMuf(muf: real, k: real)
    requires muf >= 24.0 && k >= 6.0
    ensures BestBands(muf, k) == ["40m", "80m"]
  {
    var t := TierBands(muf);
    assert forall b :: b in t ==> b !in SEVERE_STORM_BANDS;
    NoneSelected(t, b => b in SEVERE_STORM_BANDS);
  }

  lemma {:induction false} NoneSelected<T>(s: seq<T>, p: T -> bool)
    requires forall x :: x in s ==> !p(x)
    ensures Filter(s, p) == []
  {
    if s != [] {
      NoneSelected(s[1..], p);
    }
  }

  /** `_calculate_confidence`. */
  function Confidence(sfi: real, k: real): (r: real)
    ensures 0.3 <= r <= 1.0
    ensures r == 1.0 <==> k <= 2.0 && 80.0 <= sfi <= 150.0
    ensures k > 4.0 && (sfi < 60.0 || sfi > 200.0) ==> r == 0.5
  {
    var c := 0.7 + (if k <= 2.0 then 0.2 else if k <= 4.0 then 0.1 else -0.1);
    var c' := c + (if 80.0 <= sfi <= 150.0 then 0.1 else if sfi < 60.0 || sfi > 200.0 then -0.1 else 0.0);
    Clamp(c', 0.3, 1.0)
  }

  datatype Propagation = Propagation(quality: string, bestBands: seq<string>, confidence: real, muf: real, sfi: real, kIndex: real)

  /** `calculate_propagation`: the MUF entry defaults to 15. */
  function CalculatePropagation(solar: SolarData, muf: Option<real>): (r: Propagation)
    ensures r.muf == muf.GetOr(15.0) && r.sfi == ExtractSfi(solar.sfi) && r.kIndex == ExtractKIndex(solar.kIndex)
    ensures r.quality == Quality(r.muf, r.sfi, r.kIndex) && r.bestBands == BestBands(r.muf, r.kIndex)
    ensures 0.3 <= r.confidence <= 1.0 && 1 <= |r.bestBands| <= 5
  {
    var m := muf.GetOr(15.0);
    var sfi := ExtractSfi(solar.sfi);
    var k := ExtractKIndex(solar.kIndex);
    Propagation(Quality(m, sfi, k), BestBands(m, k), Confidence(sfi, k), m, sfi, k)
  }

  /** `_get_fallback_propagation`. */
  function FallbackPropagation(): (r: Propagation)
    ensures r.quality == "Fair" && r.confidence == 0.3 && r.bestBands == ["20m", "40m", "80m"]
  {
    Propagation("Fair", ["20m", "40m", "80m"], 0.3, 15.0, 100.0, 2.0)
  }
}
