/** The historical validator (validation/historical_validator.py): a
    prediction is compared with a supplied history of earlier observations
    of the same kind, giving range, deviation, trend and frequency checks
    and a confidence. */
module HistoricalValidator {
  import opened Common
  import opened Sorting

  /** One historical observation: each field is `None` when the entry lacks
      that key. Band items keep their dictionary order; a band's quality is
      `None` when its item has no quality. */
  datatype HistoryRecord = HistoryRecord(
    muf: Option<real>, bands: Option<seq<(string, Option<string>)>>,
    propagationScore: Option<real>, bestBands: Option<seq<string>>)

  /** The present values of a field, in history order. */
  function Present(s: seq<Option<real>>): (r: seq<real>)
    ensures |r| <= |s|
    ensures forall x :: x in r ==> Some(x) in s
    ensures forall x :: Some(x) in s ==> x in r
  {
    if s == [] then []
    else if s[0].Some? then [s[0].value] + Present(s[1..])
    else Present(s[1..])
  }

  /** The present values keep the history order: filtering distributes
      over concatenation. */
  lemma {:induction false} PresentConcat(a: seq<Option<real>>, b: seq<Option<real>>)
    ensures Present(a + b) == Present(a) + Present(b)
  {
    if a == [] {
      assert a + b == b;
    } else {
      assert (a + b)[0] == a[0];
      assert (a + b)[1..] == a[1..] + b;
      PresentConcat(a[1..], b);
    }
  }

  function MufField(data: seq<HistoryRecord>): (r: seq<Option<real>>)
    ensures |r| == |data| && forall i :: 0 <= i < |data| ==> r[i] == data[i].muf
  {
    seq(|data|, i requires 0 <= i < |data| => data[i].muf)
  }

  function ScoreField(data: seq<HistoryRecord>): (r: seq<Option<real>>)
    ensures |r| == |data| && forall i :: 0 <= i < |data| ==> r[i] == data[i].propagationScore
  {
    seq(|data|, i requires 0 <= i < |data| => data[i].propagationScore)
  }

  /** The last (at most) n elements: Python's `s[-n:]`. */
  function LastN<T>(s: seq<T>, n: nat): (r: seq<T>)
    ensures |r| == if |s| < n then |s| else n
    ensures r == s[|s| - |r|..]
  {
    if |s| <= n then s else s[|s| - n..]
  }

  /** `_calculate_recent_trend`: the least-squares slope, 0 for fewer than
      two values. */
  function RecentTrend(values: seq<real>): (r: real)
    ensures |values| < 2 ==> r == 0.0
  {
    if |values| < 2 then 0.0 else Slope(values)
  }

  /** On an exact line the trend is its gradient. */
  lemma RecentTrendOfLine(a: real, b: real, n: nat)
    requires n >= 2
    ensures RecentTrend(Line(a, b, 0.0, n)) == b
  {
    SlopeOfLine(a, b, n);
  }

  /** `_check_trend_consistency`. */
  predicate TrendConsistent(prediction: real, trend: real, last: real)
  {
    if trend > 0.0 then prediction >= last
    else if trend < 0.0 then prediction <= last
    else Abs(prediction - last) < 2.0
  }

  /** Repeating the last value is consistent with every trend; a rising
      trend accepts exactly the predictions at or above it, a falling one
      exactly those at or below it. */
  lemma TrendConsistencyMeaning(prediction: real, trend: real, last: real)
    ensures TrendConsistent(last, trend, last)
    ensures trend > 0.0 ==> (TrendConsistent(prediction, trend, last) <==> prediction >= last)
    ensures trend < 0.0 ==> (TrendConsistent(prediction, trend, last) <==> prediction <= last)
    ensures trend == 0.0 ==> (TrendConsistent(prediction, trend, last) <==> last - 2.0 < prediction < last + 2.0)
  {
  }

  /** `|x - mean| <= std`, decided on the variance. */
  predicate WithinOneStd(s: seq<real>, x: real)
    requires s != []
  {
    (x - Mean(s)) * (x - Mean(s)) <= Variance(s)
  }

  lemma WithinOneStdMeaning(s: seq<real>, x: real, std: real)
    requires s != [] && IsRootOf(std, Variance(s))
    ensures WithinOneStd(s, x) <==> Abs(x - Mean(s)) <= std
  {
    var d := Abs(x - Mean(s));
    assert d * d == (x - Mean(s)) * (x - Mean(s));
    RootMonotone(d, d * d, std, Variance(s));
  }

  /** 'high' outside the historical range, 'medium' inside it but more than
      one standard deviation from the mean, 'none' otherwise. */
  function Severity(withinRange: bool, withinOneStd: bool): (r: string)
    ensures r == "high" <==> !withinRange
    ensures r == "medium" <==> withinRange && !withinOneStd
    ensures r == "none" <==> withinRange && withinOneStd
  {
    if !withinRange then "high" else if !withinOneStd then "medium" else "none"
  }

  function Direction(trend: real): (r: string)
    ensures r == "increasing" <==> trend > 0.0
    ensures r == "decreasing" <==> trend < 0.0
  {
    if trend > 0.0 then "increasing" else if trend < 0.0 then "decreasing" else "stable"
  }

  /** The checks of `_validate_muf_against_history` (std is reported as
      the variance). */
  datatype MufCheck = MufCheck(
    withinRange: bool, withinOneStd: bool, trendConsistency: bool, seasonalConsistency: bool,
    mean: real, variance: real, min: real, max: real,
    recentTrend: real, trendDirection: string, isAnomaly: bool, severity: string)

  function MufAgainstHistory(predMuf: real, mufs: seq<real>): (r: MufCheck)
    requires mufs != []
    ensures r.isAnomaly <==> !r.withinOneStd
    ensures r.severity == Severity(r.withinRange, r.withinOneStd)
    ensures r.withinRange <==> SeqMin(mufs) <= predMuf <= SeqMax(mufs)
    ensures r.withinOneStd <==> WithinOneStd(mufs, predMuf)
    ensures r.trendConsistency <==> TrendConsistent(predMuf, RecentTrend(LastN(mufs, 24)), mufs[|mufs| - 1])
  {
    var m := Mean(mufs);
    var lo, hi := SeqMin(mufs), SeqMax(mufs);
    var withinRange := lo <= predMuf <= hi;
    var withinOneStd := WithinOneStd(mufs, predMuf);
    var trend := RecentTrend(LastN(mufs, 24));
    var consistent := TrendConsistent(predMuf, trend, mufs[|mufs| - 1]);
    MufCheck(withinRange, withinOneStd, consistent, true, m, Variance(mufs), lo, hi,
             trend, Direction(trend), !withinOneStd, Severity(withinRange, withinOneStd))
  }

  /** Predicting the historical mean is never an anomaly. */
  lemma MeanIsNotAnomalous(mufs: seq<real>)
    requires mufs != []
    ensures MufAgainstHistory(Mean(mufs), mufs).severity == "none"
  {
    MeanBounds(mufs, SeqMin(mufs), SeqMax(mufs));
  }

  /** The ordered dictionary `Counter`-style tally of a sequence. */
  function Count(s: seq<string>, x: string): (r: nat)
    ensures r <= |s|
    ensures r > 0 <==> x in s
  {
    if s == [] then 0 else (if s[0] == x then 1 else 0) + Count(s[1..], x)
  }

  lemma {:induction false} CountSnoc(s: seq<string>, y: string, x: string)
    ensures Count(s + [y], x) == Count(s, x) + (if y == x then 1 else 0)
  {
    if s == [] {
      assert [y][1..] == [];
    } else {
      assert (s + [y])[1..] == s[1..] + [y];
      CountSnoc(s[1..], y, x);
    }
  }

  /** The keys of the tally in insertion order: first occurrences. */
  function FirstOccurrences(s: seq<string>): (r: seq<string>)
    ensures forall x :: x in r <==> x in s
    ensures forall i, j :: 0 <= i < j < |r| ==> r[i] != r[j]
  {
    if s == [] then []
    else
      var p := FirstOccurrences(s[..|s| - 1]);
      var last := s[|s| - 1];
      assert s == s[..|s| - 1] + [last];
      if last in p then p else p + [last]
  }

  /** `counts` and its key order are the tally of `s`. */
  ghost predicate TallyOf(counts: map<string, nat>, order: seq<string>, s: seq<string>)
  {
    order == FirstOccurrences(s) &&
    counts.Keys == (set x | x in s) &&
    forall x :: x in counts ==> counts[x] == Count(s, x)
  }

  /** One `counts[x] += 1` on a defaultdict extends the tally by x. */
  lemma TallyStep(counts: map<string, nat>, order: seq<string>, s: seq<string>, x: string)
    requires TallyOf(counts, order, s)
    ensures TallyOf(if x in counts then counts[x := counts[x] + 1] else counts[x := 1],
                    if x in counts then order else order + [x], s + [x])
  {
    assert (s + [x])[..|s|] == s;
    forall y ensures Count(s + [x], y) == Count(s, y) + (if x == y then 1 else 0) {
      CountSnoc(s, x, y);
    }
  }

  /** The tally loop: `counts[x] += 1` for each x (a defaultdict). */
  method CountOccurrences(s: seq<string>) returns (counts: map<string, nat>, order: seq<string>)
    ensures order == FirstOccurrences(s)
    ensures counts.Keys == set x | x in s
    ensures forall x :: x in counts ==> counts[x] == Count(s, x)
  {
    counts := map[];
    order := [];
    var i := 0;
    while i < |s|
      invariant 0 <= i <= |s|
      invariant TallyOf(counts, order, s[..i])
    {
      var x := s[i];
      assert s[..i + 1] == s[..i] + [x];
      TallyStep(counts, order, s[..i], x);
      if x in counts {
        counts := counts[x := counts[x] + 1];
      } else {
        counts := counts[x := 1];
        order := order + [x];
      }
      i := i + 1;
    }
    assert s[..|s|] == s;
  }

  /** `max(counts, key=counts.get)`: the position of the first key in
      order with the largest count. */
  function MostCommonAt(order: seq<string>, counts: map<string, nat>): (k: nat)
    requires order != [] && forall x :: x in order ==> x in counts
    ensures k < |order|
    ensures forall x :: x in order ==> counts[x] <= counts[order[k]]
    ensures forall i :: 0 <= i < k ==> counts[order[i]] < counts[order[k]]
  {
    if |order| == 1 then 0
    else
      var front := order[..|order| - 1];
      var p := MostCommonAt(front, counts);
      var last := order[|order| - 1];
      assert order == front + [last];
      if counts[last] > counts[front[p]] then |order| - 1 else p
  }

  /** The key `max(counts, key=counts.get)` returns. */
  function MostCommon(order: seq<string>, counts: map<string, nat>): (r: string)
    requires order != [] && forall x :: x in order ==> x in counts
    ensures r in order
    ensures forall x :: x in order ==> counts[x] <= counts[r]
  {
    order[MostCommonAt(order, counts)]
  }

  /** The defaultdict tally of `s` as a map. */
  function Tally(s: seq<string>): (r: map<string, nat>)
    ensures r.Keys == set x | x in s
    ensures forall x :: x in r ==> r[x] == Count(s, x)
  {
    map x | x in s :: Count(s, x)
  }

  /** `max(counts, key=counts.get)` over the tally of `s`: a most frequent
      value, the first one to occur among the most frequent. */
  function Mode(s: seq<string>): (r: string)
    requires s != []
    ensures r in s
    ensures forall q :: Count(s, q) <= Count(s, r)
    ensures var order := FirstOccurrences(s);
      forall i, j :: 0 <= j < i < |order| && order[i] == r ==> Count(s, order[j]) < Count(s, r)
  {
    var order := FirstOccurrences(s);
    var r := MostCommon(order, Tally(s));
    forall q ensures Count(s, q) <= Count(s, r) {
      if q in s {
        assert q in order;
      }
    }
    r
  }

  /** All historical qualities of a band, in history order. */
  function HistoricalQualities(data: seq<HistoryRecord>, band: string): (r: seq<string>)
  {
    if data == [] then []
    else
      (if data[0].bands.Some? then ItemQualities(data[0].bands.value, band) else []) +
      HistoricalQualities(data[1..], band)
  }

  function ItemQualities(items: seq<(string, Option<string>)>, band: string): (r: seq<string>)
  {
    if items == [] then []
    else (if items[0].0 == band && items[0].1.Some? then [items[0].1.value] else []) + ItemQualities(items[1..], band)
  }

  function QualityLevel(q: string): (r: real)
  {
    if q == "Poor" then 1.0 else if q == "Fair" then 2.0 else if q == "Good" then 3.0
    else if q == "Very Good" then 4.0 else if q == "Excellent" then 5.0 else 0.0
  }

  function Levels(qs: seq<string>): (r: seq<real>)
    ensures |r| == |qs| && forall i :: 0 <= i < |qs| ==> r[i] == QualityLevel(qs[i])
  {
    if qs == [] then [] else [QualityLevel(qs[0])] + Levels(qs[1..])
  }

  /** `_calculate_band_quality_trend`: 'stable' for fewer than two labels,
      otherwise by the slope of the levels with a dead band of +-0.1. */
  function BandQualityTrend(qualities: seq<string>): (r: string)
    ensures r in {"improving", "declining", "stable"}
    ensures |qualities| < 2 ==> r == "stable"
  {
    if |qualities| < 2 then "stable"
    else
      var trend := Slope(Levels(qualities));
      if trend > 0.1 then "improving" else if trend < -0.1 then "declining" else "stable"
  }

  /** Labels whose levels rise by one step per entry are improving. */
  lemma BandQualityTrendOfSteps(qualities: seq<string>, a: real)
    requires |qualities| >= 2 && Levels(qualities) == Line(a, 1.0, 0.0, |qualities|)
    ensures BandQualityTrend(qualities) == "improving"
  {
    SlopeOfLine(a, 1.0, |qualities|);
  }

  datatype BandCheck = BandCheck(band: string, predictedQuality: string, mostCommonHistorical: string,
                                 consistency: bool, qualityTrend: string)

  /** A check belongs to a predicted band, names a most frequent
      historical quality of that band, and compares the prediction with it. */
  ghost predicate CheckAgainstHistory(c: BandCheck, predBands: seq<(string, string)>, data: seq<HistoryRecord>)
  {
    var historical := HistoricalQualities(data, c.band);
    (exists i :: 0 <= i < |predBands| && predBands[i] == (c.band, c.predictedQuality)) &&
    historical != [] && c.mostCommonHistorical == Mode(historical) &&
    c.mostCommonHistorical in historical &&
    (forall q :: Count(historical, q) <= Count(historical, c.mostCommonHistorical)) &&
    (c.consistency <==> c.predictedQuality == c.mostCommonHistorical) &&
    c.qualityTrend == BandQualityTrend(LastN(historical, 7))
  }

  /** The predicted bands, in order, that have historical qualities. */
  function CheckedBands(predBands: seq<(string, string)>, data: seq<HistoryRecord>): (r: seq<(string, string)>)
    ensures |r| <= |predBands|
    ensures forall p :: p in r ==> p in predBands && HistoricalQualities(data, p.0) != []
    ensures forall p :: p in predBands && HistoricalQualities(data, p.0) != [] ==> p in r
  {
    if predBands == [] then []
    else
      var front := predBands[..|predBands| - 1];
      var last := predBands[|predBands| - 1];
      assert predBands == front + [last];
      CheckedBands(front, data) + (if HistoricalQualities(data, last.0) != [] then [last] else [])
  }

  /** `_validate_band_quality_against_history`: one check per predicted
      band with history, in order; `overall` is the fraction that match
      the historical mode, 0 when none is checked. */
  method BandQualityAgainstHistory(predBands: seq<(string, string)>, data: seq<HistoryRecord>)
    returns (checks: seq<BandCheck>, overall: real)
    ensures 0.0 <= overall <= 1.0
    ensures checks == [] ==> overall == 0.0
    ensures overall == ConsistentFraction(checks)
    ensures checks == BandChecks(predBands, data)
    ensures forall c :: c in checks ==> CheckAgainstHistory(c, predBands, data)
    ensures |checks| == |CheckedBands(predBands, data)|
    ensures forall k :: 0 <= k < |checks| ==> (checks[k].band, checks[k].predictedQuality) == CheckedBands(predBands, data)[k]
  {
    checks := [];
    var i := 0;
    while i < |predBands|
      invariant 0 <= i <= |predBands|
      invariant checks == BandChecks(predBands[..i], data)
    {
      BandChecksSnoc(predBands, i, data);
      var (band, predQuality) := predBands[i];
      if HistoricalQualities(data, band) != [] {
        var c := CheckBand(band, predQuality, data);
        checks := checks + [c];
      }
      i := i + 1;
    }
    assert predBands[..i] == predBands;
    BandChecksAgainstHistory(predBands, data);
    BandChecksPairs(predBands, data);
    overall := ConsistentFraction(checks);
  }

  /** The check of one predicted band that has historical qualities. */
  function ExpectedCheck(p: (string, string), data: seq<HistoryRecord>): (c: BandCheck)
    requires HistoricalQualities(data, p.0) != []
    ensures c.band == p.0 && c.predictedQuality == p.1
  {
    var historical := HistoricalQualities(data, p.0);
    BandCheck(p.0, p.1, Mode(historical), p.1 == Mode(historical), BandQualityTrend(LastN(historical, 7)))
  }

  /** The checks of the predicted bands with history, in order. */
  function BandChecks(predBands: seq<(string, string)>, data: seq<HistoryRecord>): (r: seq<BandCheck>)
    ensures |r| <= |predBands|
  {
    if predBands == [] then []
    else
      var front := predBands[..|predBands| - 1];
      var last := predBands[|predBands| - 1];
      BandChecks(front, data) + (if HistoricalQualities(data, last.0) != [] then [ExpectedCheck(last, data)] else [])
  }

  lemma BandChecksSnoc(predBands: seq<(string, string)>, i: nat, data: seq<HistoryRecord>)
    requires i < |predBands|
    ensures BandChecks(predBands[..i + 1], data) == BandChecks(predBands[..i], data) +
      (if HistoricalQualities(data, predBands[i].0) != [] then [ExpectedCheck(predBands[i], data)] else [])
  {
    assert predBands[..i + 1][..i] == predBands[..i];
  }

  /** The band and predicted quality each check is about. */
  function Checked(checks: seq<BandCheck>): (r: seq<(string, string)>)
    ensures |r| == |checks|
    ensures forall k :: 0 <= k < |checks| ==> r[k] == (checks[k].band, checks[k].predictedQuality)
  {
    seq(|checks|, k requires 0 <= k < |checks| => (checks[k].band, checks[k].predictedQuality))
  }

  lemma CheckedSnoc(checks: seq<BandCheck>, c: BandCheck)
    ensures Checked(checks + [c]) == Checked(checks) + [(c.band, c.predictedQuality)]
  {
    assert Checked(checks + [c])[|checks|] == (c.band, c.predictedQuality);
  }

  /** One check per predicted band with history, in the predicted order. */
  lemma {:induction false} BandChecksPairs(predBands: seq<(string, string)>, data: seq<HistoryRecord>)
    ensures Checked(BandChecks(predBands, data)) == CheckedBands(predBands, data)
  {
    if predBands != [] {
      var front := predBands[..|predBands| - 1];
      var last := predBands[|predBands| - 1];
      BandChecksPairs(front, data);
      var b := BandChecks(front, data);
      if HistoricalQualities(data, last.0) != [] {
        CheckedSnoc(b, ExpectedCheck(last, data));
      } else {
        assert BandChecks(predBands, data) == b;
      }
    }
  }

  lemma {:induction false} BandChecksAgainstHistory(predBands: seq<(string, string)>, data: seq<HistoryRecord>)
    ensures forall c :: c in BandChecks(predBands, data) ==> CheckAgainstHistory(c, predBands, data)
  {
    if predBands != [] {
      var front := predBands[..|predBands| - 1];
      var last := predBands[|predBands| - 1];
      BandChecksAgainstHistory(front, data);
      forall c | c in BandChecks(predBands, data) ensures CheckAgainstHistory(c, predBands, data) {
        if c in BandChecks(front, data) {
          assert CheckAgainstHistory(c, front, data);
          var i :| 0 <= i < |front| && front[i] == (c.band, c.predictedQuality);
          assert predBands[i] == (c.band, c.predictedQuality);
        } else {
          assert predBands[|predBands| - 1] == (c.band, c.predictedQuality);
        }
      }
    }
  }

  /** The loop body's call: tallies the band's history to find its mode. */
  method CheckBand(band: string, predQuality: string, data: seq<HistoryRecord>) returns (c: BandCheck)
    requires HistoricalQualities(data, band) != []
    ensures c == ExpectedCheck((band, predQuality), data)
  {
    var historical := HistoricalQualities(data, band);
    var counts, order := CountOccurrences(historical);
    assert counts == Tally(historical);
    var mostCommon := MostCommon(order, counts);
    c := BandCheck(band, predQuality, mostCommon, predQuality == mostCommon, BandQualityTrend(LastN(historical, 7)));
  }

  function ConsistentCount(checks: seq<BandCheck>): (r: nat)
    ensures r <= |checks|
  {
    if checks == [] then 0 else (if checks[0].consistency then 1 else 0) + ConsistentCount(checks[1..])
  }

  /** `overall_consistency`. */
  function ConsistentFraction(checks: seq<BandCheck>): (r: real)
    ensures 0.0 <= r <= 1.0
    ensures checks == [] ==> r == 0.0
  {
    if checks == [] then 0.0 else ConsistentCount(checks) as real / |checks| as real
  }

  /** The checks of `_validate_propagation_against_history`. */
  datatype PropagationCheck = PropagationCheck(withinOneStd: bool, timeConsistency: bool, solarConsistency: bool,
                                               mean: real, variance: real)

  function PropagationAgainstHistory(predScore: real, scores: seq<real>): (r: PropagationCheck)
    requires scores != []
    ensures r.withinOneStd <==> WithinOneStd(scores, predScore)
    ensures r.timeConsistency && r.solarConsistency
  {
    PropagationCheck(WithinOneStd(scores, predScore), true, true, Mean(scores), Variance(scores))
  }

  /** The best-bands lists of the entries that have one. */
  function BandLists(data: seq<HistoryRecord>): (r: seq<seq<string>>)
    ensures |r| <= |data|
  {
    if data == [] then []
    else if data[0].bestBands.Some? then [data[0].bestBands.value] + BandLists(data[1..])
    else BandLists(data[1..])
  }

  function Flatten(lists: seq<seq<string>>): (r: seq<string>)
  {
    if lists == [] then [] else lists[0] + Flatten(lists[1..])
  }

  lemma {:induction false} FlattenSnoc(lists: seq<seq<string>>, l: seq<string>)
    ensures Flatten(lists + [l]) == Flatten(lists) + l
  {
    if lists == [] {
      assert [l][1..] == [];
    } else {
      assert (lists + [l])[1..] == lists[1..] + [l];
      FlattenSnoc(lists[1..], l);
    }
  }

  /** `_calculate_bands_consistency`: the mean Jaccard similarity of the
      predicted set with each non-empty historical set; 0 for no history. */
  function BandsConsistency(pred: seq<string>, history: seq<seq<string>>): (r: real)
    ensures 0.0 <= r <= 1.0
    ensures history == [] ==> r == 0.0
    ensures (forall h :: h in history ==> h == []) ==> r == 0.0
  {
    var scores := Similarities(pred, history);
    if scores == [] then 0.0
    else
      MeanBounds(scores, 0.0, 1.0);
      Mean(scores)
  }

  function Similarities(pred: seq<string>, history: seq<seq<string>>): (r: seq<real>)
    ensures forall i :: 0 <= i < |r| ==> 0.0 <= r[i] <= 1.0
    ensures |r| <= |history|
    ensures (forall h :: h in history ==> h == []) ==> r == []
  {
    if history == [] then []
    else
      assert history[0] in history;
      assert forall h :: h in history[1..] ==> h in history;
      if history[0] != [] then [Jaccard(Elements(pred), Elements(history[0]))] + Similarities(pred, history[1..])
      else Similarities(pred, history[1..])
  }

  /** Empty historical sets are skipped: they do not change the score. */
  lemma {:induction false} EmptySetsSkipped(pred: seq<string>, a: seq<seq<string>>, b: seq<seq<string>>)
    ensures Similarities(pred, a + [[]] + b) == Similarities(pred, a + b)
  {
    if a == [] {
      var e: seq<string> := [];
      assert a + [[]] + b == [e] + b;
      assert ([e] + b)[0] == e;
      assert ([e] + b)[1..] == b;
      assert a + b == b;
    } else {
      assert (a + [[]] + b)[0] == a[0] && (a + b)[0] == a[0];
      assert (a + [[]] + b)[1..] == a[1..] + [[]] + b;
      assert (a + b)[1..] == a[1..] + b;
      EmptySetsSkipped(pred, a[1..], b);
    }
  }

  function BandCount(b: (string, nat)): (r: real)
  {
    b.1 as real
  }

  /** The checks of `_validate_bands_against_history`. */
  datatype BandsCheck = BandsCheck(frequencyScores: seq<real>, recentConsistency: real,
                                   overallFrequencyScore: real, mostCommonBands: seq<(string, nat)>)

  /** The nested `band_frequency[band] += 1` loop over every historical
      list, with the keys in insertion order. */
  method BandFrequency(lists: seq<seq<string>>) returns (freq: map<string, nat>, order: seq<string>)
    ensures order == FirstOccurrences(Flatten(lists))
    ensures freq.Keys == set x | x in Flatten(lists)
    ensures forall x :: x in freq ==> freq[x] == Count(Flatten(lists), x)
  {
    freq := map[];
    order := [];
    var i := 0;
    while i < |lists|
      invariant 0 <= i <= |lists|
      invariant TallyOf(freq, order, Flatten(lists[..i]))
    {
      freq, order := TallyList(freq, order, Flatten(lists[..i]), lists[i]);
      assert lists[..i + 1] == lists[..i] + [lists[i]];
      FlattenSnoc(lists[..i], lists[i]);
      i := i + 1;
    }
    assert lists[..|lists|] == lists;
  }

  /** The inner loop: `band_frequency[band] += 1` for each band of one list. */
  method TallyList(freq0: map<string, nat>, order0: seq<string>, ghost done: seq<string>, bands: seq<string>)
    returns (freq: map<string, nat>, order: seq<string>)
    requires TallyOf(freq0, order0, done)
    ensures TallyOf(freq, order, done + bands)
  {
    freq, order := freq0, order0;
    ghost var seen := done;
    var j := 0;
    while j < |bands|
      invariant 0 <= j <= |bands|
      invariant seen == done + bands[..j]
      invariant TallyOf(freq, order, seen)
    {
      var band := bands[j];
      TallyStep(freq, order, seen, band);
      if band in freq {
        freq := freq[band := freq[band] + 1];
      } else {
        freq := freq[band := 1];
        order := order + [band];
      }
      seen := seen + [band];
      assert bands[..j + 1] == bands[..j] + [band];
      j := j + 1;
    }
    assert bands[..|bands|] == bands;
  }

  /** `band_frequency.items()`: each band with its count, in first-seen order. */
  function BandItems(order: seq<string>, freq: map<string, nat>): (r: seq<(string, nat)>)
    requires forall x :: x in order ==> x in freq
    ensures |r| == |order|
    ensures forall m :: 0 <= m < |order| ==> r[m] == (order[m], freq[order[m]])
  {
    seq(|order|, m requires 0 <= m < |order| => (order[m], freq[order[m]]))
  }

  /** The five most frequent bands, most frequent first, ties in
      first-seen order. */
  function MostCommonBands(order: seq<string>, freq: map<string, nat>): (r: seq<(string, nat)>)
    requires forall x :: x in order ==> x in freq
    ensures |r| == if |order| < 5 then |order| else 5
    ensures forall i, j :: 0 <= i < j < |r| ==> r[i].1 >= r[j].1
    ensures forall p :: p in r ==> p.0 in order && p.1 == freq[p.0]
  {
    var items := BandItems(order, freq);
    var sorted := Sort(items, ByKeyDescending(BandCount));
    SortedDescendingKeys(items, BandCount);
    var top := sorted[..if |sorted| < 5 then |sorted| else 5];
    assert forall p :: p in top ==> p in multiset(items);
    top
  }

  /** No band left out of the five is more frequent than the last one listed. */
  lemma MostCommonBandsTop(order: seq<string>, freq: map<string, nat>)
    requires forall x :: x in order ==> x in freq
    ensures var r := MostCommonBands(order, freq);
      forall x :: x in order && (x, freq[x]) !in r ==> freq[x] <= r[|r| - 1].1
  {
    var items := BandItems(order, freq);
    var k := if |items| < 5 then |items| else 5;
    var r := MostCommonBands(order, freq);
    if order != [] {
      assert r == Sort(items, ByKeyDescending(BandCount))[..k];
      TopDescendingBound(items, BandCount, k);
      forall x | x in order && (x, freq[x]) !in r ensures freq[x] <= r[|r| - 1].1 {
        var m :| 0 <= m < |order| && order[m] == x;
        assert items[m] in items && BandCount(items[m]) == freq[x] as real;
      }
    }
  }

  /** Bands with equal counts are listed in first-seen order. */
  lemma MostCommonBandsStable(order: seq<string>, freq: map<string, nat>, y: (string, nat))
    requires forall x :: x in order ==> x in freq
    ensures Filter(MostCommonBands(order, freq), e => Tied(ByKeyDescending(BandCount), e, y))
         <= Filter(BandItems(order, freq), e => Tied(ByKeyDescending(BandCount), e, y))
  {
    var items := BandItems(order, freq);
    DescendingIsStrictWeakOrder(BandCount);
    TopStable(items, ByKeyDescending(BandCount), if |items| < 5 then |items| else 5, y);
  }

  /** Reading the tally: a band it lacks occurs nowhere. */
  lemma TallyLookup(freq: map<string, nat>, order: seq<string>, s: seq<string>, band: string)
    requires TallyOf(freq, order, s)
    ensures (if band in freq then freq[band] else 0) == Count(s, band)
  {
  }

  /** The most common bands of a tally are bands of the sequence, with
      their counts. */
  lemma TallyTop(freq: map<string, nat>, order: seq<string>, s: seq<string>)
    requires TallyOf(freq, order, s)
    ensures forall x :: x in order ==> x in freq
    ensures forall p :: p in MostCommonBands(order, freq) ==> p.0 in s && p.1 == Count(s, p.0)
  {
  }

  /** The tally the loop builds is `Tally(s)` with its first-seen order. */
  lemma TallyIsTally(freq: map<string, nat>, order: seq<string>, s: seq<string>)
    requires TallyOf(freq, order, s)
    ensures freq == Tally(s) && order == FirstOccurrences(s)
  {
  }

  /** No band of the sequence left out of the five most common occurs more
      often than the last one listed. */
  lemma TallyTopBound(s: seq<string>)
    ensures var r := MostCommonBands(FirstOccurrences(s), Tally(s));
      forall x :: x in s && (x, Count(s, x)) !in r ==> Count(s, x) <= r[|r| - 1].1
  {
    MostCommonBandsTop(FirstOccurrences(s), Tally(s));
  }

  /** The loop of `_validate_bands_against_history` that scores each
      predicted band by how often it occurs per historical list. */
  method FrequencyScores(pred: seq<string>, freq: map<string, nat>, ghost order: seq<string>, ghost all: seq<string>,
                         lists: nat) returns (scores: seq<real>)
    requires TallyOf(freq, order, all) && lists > 0
    ensures |scores| == |pred|
    ensures forall m :: 0 <= m < |pred| ==> scores[m] == Count(all, pred[m]) as real / lists as real
  {
    scores := [];
    var k := 0;
    while k < |pred|
      invariant 0 <= k <= |pred| && |scores| == k
      invariant forall m :: 0 <= m < k ==> scores[m] == Count(all, pred[m]) as real / lists as real
    {
      var band := pred[k];
      TallyLookup(freq, order, all, band);
      var n := if band in freq then freq[band] else 0;
      scores := scores + [n as real / lists as real];
      k := k + 1;
    }
  }

  /** Each predicted band's count over the historical lists, divided by
      how many lists there are. */
  function FrequencyScoresOf(pred: seq<string>, all: seq<string>, lists: nat): (r: seq<real>)
    requires lists > 0
    ensures |r| == |pred|
    ensures forall m :: 0 <= m < |pred| ==> r[m] == Count(all, pred[m]) as real / lists as real
  {
    seq(|pred|, m requires 0 <= m < |pred| => Count(all, pred[m]) as real / lists as real)
  }

  /** The result of `_validate_bands_against_history` on a non-empty list
      of historical band lists. */
  function BandsCheckOf(pred: seq<string>, lists: seq<seq<string>>): (r: BandsCheck)
    requires lists != []
    ensures pred == [] ==> r.overallFrequencyScore == 0.0
  {
    var scores := FrequencyScoresOf(pred, Flatten(lists), |lists|);
    BandsCheck(scores, BandsConsistency(pred, LastN(lists, 7)), if scores == [] then 0.0 else Mean(scores),
               MostCommonBands(FirstOccurrences(Flatten(lists)), Tally(Flatten(lists))))
  }

  /** `_validate_bands_against_history` on a non-empty list of historical
      band lists. */
  method BandsAgainstHistory(pred: seq<string>, lists: seq<seq<string>>) returns (r: BandsCheck)
    requires lists != []
    ensures |r.frequencyScores| == |pred|
    ensures forall i :: 0 <= i < |pred| ==>
      r.frequencyScores[i] == Count(Flatten(lists), pred[i]) as real / |lists| as real
    ensures r.recentConsistency == BandsConsistency(pred, LastN(lists, 7))
    ensures pred == [] ==> r.overallFrequencyScore == 0.0
    ensures pred != [] ==> r.overallFrequencyScore == Mean(r.frequencyScores)
    ensures |r.mostCommonBands| <= 5
    ensures forall i, j :: 0 <= i < j < |r.mostCommonBands| ==> r.mostCommonBands[i].1 >= r.mostCommonBands[j].1
    ensures forall p :: p in r.mostCommonBands ==> p.0 in Flatten(lists) && p.1 == Count(Flatten(lists), p.0)
    ensures r.mostCommonBands == MostCommonBands(FirstOccurrences(Flatten(lists)), Tally(Flatten(lists)))
    ensures |r.mostCommonBands| == if |FirstOccurrences(Flatten(lists))| < 5 then |FirstOccurrences(Flatten(lists))| else 5
    ensures LeftOutNoMoreFrequent(Flatten(lists), r.mostCommonBands)
    ensures r == BandsCheckOf(pred, lists)
  {
    var freq, order := BandFrequency(lists);
    ghost var all := Flatten(lists);
    assert TallyOf(freq, order, all);
    var scores := FrequencyScores(pred, freq, order, all, |lists|);
    TallyIsTally(freq, order, all);
    var top := MostCommonBands(order, freq);
    MostCommonBandsOfSequence(all, top);
    r := BandsCheck(scores, BandsConsistency(pred, LastN(lists, 7)), if scores == [] then 0.0 else Mean(scores), top);
    assert scores == FrequencyScoresOf(pred, all, |lists|);
  }

  /** No value of `s` missing from `top` occurs more often than the last
      band `top` lists. */
  ghost predicate LeftOutNoMoreFrequent(s: seq<string>, top: seq<(string, nat)>)
  {
    forall x :: x in s && (x, Count(s, x)) !in top ==> top != [] && Count(s, x) <= top[|top| - 1].1
  }

  /** What the five most common bands of a sequence's tally are. */
  lemma MostCommonBandsOfSequence(s: seq<string>, top: seq<(string, nat)>)
    requires top == MostCommonBands(FirstOccurrences(s), Tally(s))
    ensures |top| == if |FirstOccurrences(s)| < 5 then |FirstOccurrences(s)| else 5
    ensures forall i, j :: 0 <= i < j < |top| ==> top[i].1 >= top[j].1
    ensures forall p :: p in top ==> p.0 in s && p.1 == Count(s, p.0)
    ensures LeftOutNoMoreFrequent(s, top)
  {
    TallyTop(Tally(s), FirstOccurrences(s), s);
    TallyTopBound(s);
  }

  /** What `_calculate_historical_confidence` reads from a validation
      result; a missing entry reads as false, 0 or no severity. */
  datatype Checks = Checks(withinOneStd: bool, trendConsistency: bool, seasonalConsistency: bool,
                           timeConsistency: bool, overallConsistency: real, severity: string)

  /** Base 0.5, raised by each passed check and lowered for a severe anomaly. */
  function HistoricalConfidence(c: Checks): (r: real)
    ensures 0.0 <= r <= 1.0
    ensures c == Checks(false, false, false, false, 0.0, "") ==> r == 0.5
    ensures (c.severity == "high" && !c.withinOneStd && !c.trendConsistency && !c.seasonalConsistency &&
             !c.timeConsistency && c.overallConsistency <= 0.7) ==> r == 0.3
  {
    var conf := 0.5 + (if c.withinOneStd then 0.2 else 0.0) + (if c.trendConsistency then 0.1 else 0.0)
                    + (if c.seasonalConsistency then 0.1 else 0.0) + (if c.timeConsistency then 0.1 else 0.0)
                    + (if c.overallConsistency > 0.7 then 0.1 else 0.0)
                    + (if c.severity == "none" then 0.1 else if c.severity == "high" then -0.2 else 0.0);
    Clamp(conf, 0.0, 1.0)
  }

  /** Passing a check never lowers the confidence. */
  lemma ConfidenceMonotone(c: Checks)
    ensures HistoricalConfidence(c.(withinOneStd := true)) >= HistoricalConfidence(c)
    ensures HistoricalConfidence(c.(trendConsistency := true)) >= HistoricalConfidence(c)
  {
  }

  /** A prediction to validate: missing entries hold their defaults. */
  datatype Prediction = Prediction(muf: real, bands: seq<(string, string)>, propagationScore: real, bestBands: seq<string>)

  datatype Detail =
    | NoDetail
    | Missing(error: string)
    | MufDetail(muf: MufCheck)
    | BandQualityDetail(checks: seq<BandCheck>, overallConsistency: real)
    | PropagationDetail(propagation: PropagationCheck)
    | BandsDetail(bands: BandsCheck)

  datatype HistoricalValidation = HistoricalValidation(
    predictionType: string, detail: Detail, confidence: real, errors: seq<string>)

  function ChecksOf(d: Detail): (c: Checks)
    ensures d.MufDetail? ==> c.severity == d.muf.severity && c.withinOneStd == d.muf.withinOneStd
  {
    match d
    case MufDetail(m) => Checks(m.withinOneStd, m.trendConsistency, m.seasonalConsistency, false, 0.0, m.severity)
    case BandQualityDetail(_, o) => Checks(false, false, false, false, o, "")
    case PropagationDetail(p) => Checks(p.withinOneStd, false, false, p.timeConsistency, 0.0, "")
    case _ => Checks(false, false, false, false, 0.0, "")
  }

  /** `validate_prediction_against_history` with the history supplied. */
  method ValidateAgainstHistory(prediction: Prediction, predictionType: string, data: seq<HistoryRecord>)
    returns (r: HistoricalValidation)
    ensures r.predictionType == predictionType && 0.0 <= r.confidence <= 1.0
    ensures data == [] ==> r.errors == ["No historical data available"] && r.confidence == 0.0 && r.detail == NoDetail
    ensures data != [] ==> r.errors == [] && r.confidence == HistoricalConfidence(ChecksOf(r.detail))
    ensures data != [] && predictionType == "muf" && Present(MufField(data)) != [] ==>
      r.detail == MufDetail(MufAgainstHistory(prediction.muf, Present(MufField(data))))
    ensures data != [] && predictionType == "muf" && Present(MufField(data)) == [] ==>
      r.detail == Missing("No historical MUF data") && r.confidence == 0.5
    ensures data != [] && predictionType == "band_quality" ==>
      r.detail == BandQualityDetail(BandChecks(prediction.bands, data), ConsistentFraction(BandChecks(prediction.bands, data)))
    ensures data != [] && predictionType == "propagation_score" && Present(ScoreField(data)) != [] ==>
      r.detail == PropagationDetail(PropagationAgainstHistory(prediction.propagationScore, Present(ScoreField(data))))
    ensures data != [] && predictionType == "propagation_score" && Present(ScoreField(data)) == [] ==>
      r.detail == Missing("No historical propagation data") && r.confidence == 0.5
    ensures data != [] && predictionType == "best_bands" && BandLists(data) != [] ==>
      r.detail == BandsDetail(BandsCheckOf(prediction.bestBands, BandLists(data)))
    ensures data != [] && predictionType == "best_bands" && BandLists(data) == [] ==>
      r.detail == Missing("No historical bands data") && r.confidence == 0.5
    ensures data != [] && predictionType !in {"muf", "band_quality", "propagation_score", "best_bands"} ==>
      r.detail == NoDetail && r.confidence == 0.5
  {
    if data == [] {
      return HistoricalValidation(predictionType, NoDetail, 0.0, ["No historical data available"]);
    }
    var detail := NoDetail;
    if predictionType == "muf" {
      var mufs := Present(MufField(data));
      detail := if mufs == [] then Missing("No historical MUF data") else MufDetail(MufAgainstHistory(prediction.muf, mufs));
    } else if predictionType == "band_quality" {
      var checks, overall := BandQualityAgainstHistory(prediction.bands, data);
      detail := BandQualityDetail(checks, overall);
    } else if predictionType == "propagation_score" {
      var scores := Present(ScoreField(data));
      detail := if scores == [] then Missing("No historical propagation data")
                else PropagationDetail(PropagationAgainstHistory(prediction.propagationScore, scores));
    } else if predictionType == "best_bands" {
      var lists := BandLists(data);
      if lists == [] {
        detail := Missing("No historical bands data");
      } else {
        var check := BandsAgainstHistory(prediction.bestBands, lists);
        detail := BandsDetail(check);
      }
    }
    r := HistoricalValidation(predictionType, detail, HistoricalConfidence(ChecksOf(detail)), []);
  }
}
