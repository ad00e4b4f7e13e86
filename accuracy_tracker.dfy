/** The accuracy tracker (validation/accuracy_tracker.py): prediction
    records kept in the shared cache, accuracy metrics per prediction type,
    a bounded hourly history of accuracies, and summaries, trends and
    confidence derived from that history. */
module AccuracyTracker {
  import opened Common
  import opened Sorting
  import opened CacheManagement

  /** The entries of a prediction or an observed result the metrics read;
      a missing entry holds its default (0, {}, 0, []). A band's quality is
      "Unknown" when its entry has none. */
  datatype Observation = Observation(
    muf: real, bands: map<string, string>, propagationScore: real, bestBands: seq<string>)

  datatype Metrics = Metrics(predictionType: string, overallAccuracy: real, errors: seq<string>)

  /** 1 minus the relative error, floored at 0; 0 without an actual value. */
  function RelativeAccuracy(predicted: real, actual: real): (r: real)
    ensures actual == 0.0 ==> r == 0.0
    ensures actual != 0.0 && predicted == actual ==> r == 1.0
    ensures r >= 0.0
    ensures actual > 0.0 ==> r <= 1.0
  {
    if actual == 0.0 then 0.0
    else
      var relativeError := Abs(predicted - actual) / actual;
      assert actual > 0.0 ==> relativeError >= 0.0;
      Max(0.0, 1.0 - relativeError)
  }

  /** `_calculate_muf_accuracy`. */
  function MufAccuracy(prediction: Observation, actual: Observation): (r: real)
    ensures actual.muf == 0.0 ==> r == 0.0
    ensures actual.muf != 0.0 && prediction.muf == actual.muf ==> r == 1.0
    ensures actual.muf > 0.0 ==> 0.0 <= r <= 1.0
  {
    RelativeAccuracy(prediction.muf, actual.muf)
  }

  /** `_calculate_propagation_accuracy`. */
  function PropagationAccuracy(prediction: Observation, actual: Observation): (r: real)
    ensures actual.propagationScore == 0.0 ==> r == 0.0
    ensures actual.propagationScore > 0.0 ==> 0.0 <= r <= 1.0
  {
    RelativeAccuracy(prediction.propagationScore, actual.propagationScore)
  }

  const COMPARED_BANDS: seq<string> := ["20m", "40m", "80m", "15m", "10m"]

  function QualityScore(q: string): (r: nat)
    ensures r <= 5
    ensures r == 0 <==> q !in {"Excellent", "Very Good", "Good", "Fair", "Poor"}
  {
    if q == "Excellent" then 5 else if q == "Very Good" then 4 else if q == "Good" then 3
    else if q == "Fair" then 2 else if q == "Poor" then 1 else 0
  }

  /** The scores of the bands of `names` present in both and whose actual
      quality is known. */
  function BandScores(pred: map<string, string>, actual: map<string, string>, names: seq<string>): (r: seq<real>)
    ensures |r| <= |names|
    ensures forall i :: 0 <= i < |r| ==> 0.0 <= r[i] <= 1.0
  {
    if names == [] then []
    else
      var b := names[0];
      var rest := BandScores(pred, actual, names[1..]);
      if b in pred && b in actual && QualityScore(actual[b]) > 0 then
        [RelativeAccuracy(QualityScore(pred[b]) as real, QualityScore(actual[b]) as real)] + rest
      else rest
  }

  /** `_calculate_band_accuracy`. */
  function BandAccuracy(prediction: Observation, actual: Observation): (r: real)
    ensures 0.0 <= r <= 1.0
    ensures actual.bands == map[] ==> r == 0.0
    ensures BandScores(prediction.bands, actual.bands, COMPARED_BANDS) == [] ==> r == 0.0
  {
    if actual.bands == map[] then 0.0
    else
      var scores := BandScores(prediction.bands, actual.bands, COMPARED_BANDS);
      if scores == [] then 0.0
      else
        MeanBounds(scores, 0.0, 1.0);
        Mean(scores)
  }

  /** Two pairs of band maps that agree on the compared bands and on whether
      the actual map is empty get the same band accuracy: no other band is
      looked at. */
  lemma {:induction false} BandScoresOnlyNamed(p1: map<string, string>, a1: map<string, string>,
                                               p2: map<string, string>, a2: map<string, string>, names: seq<string>)
    requires forall b :: b in names ==> (b in p1 <==> b in p2) && (b in a1 <==> b in a2)
    requires forall b :: b in names && b in p1 ==> p1[b] == p2[b]
    requires forall b :: b in names && b in a1 ==> a1[b] == a2[b]
    ensures BandScores(p1, a1, names) == BandScores(p2, a2, names)
  {
    if names != [] {
      BandScoresOnlyNamed(p1, a1, p2, a2, names[1..]);
    }
  }

  lemma BandAccuracyOnlyCompared(prediction: Observation, actual: Observation, prediction': Observation, actual': Observation)
    requires (actual.bands == map[]) <==> (actual'.bands == map[])
    requires forall b :: b in COMPARED_BANDS ==> (b in prediction.bands <==> b in prediction'.bands) && (b in actual.bands <==> b in actual'.bands)
    requires forall b :: b in COMPARED_BANDS && b in prediction.bands ==> prediction.bands[b] == prediction'.bands[b]
    requires forall b :: b in COMPARED_BANDS && b in actual.bands ==> actual.bands[b] == actual'.bands[b]
    ensures BandAccuracy(prediction, actual) == BandAccuracy(prediction', actual')
  {
    BandScoresOnlyNamed(prediction.bands, actual.bands, prediction'.bands, actual'.bands, COMPARED_BANDS);
  }

  /** Python's `list.index`: the first position of x. */
  function IndexOf(s: seq<string>, x: string): (r: nat)
    requires x in s
    ensures r < |s| && s[r] == x
    ensures forall j :: 0 <= j < r ==> s[j] != x
  {
    if s[0] == x then 0 else 1 + IndexOf(s[1..], x)
  }

  /** The credit for the actual band at position i: full at the same
      predicted position, a fifth less per position of displacement. */
  function PositionCredit(pred: seq<string>, band: string, i: nat): (r: real)
    ensures 0.0 <= r <= 1.0
    ensures band in pred && IndexOf(pred, band) == i ==> r == 1.0
  {
    if band in pred then Max(0.0, 1.0 - Abs(i as real - IndexOf(pred, band) as real) / 5.0) else 0.0
  }

  /** Credits of the first n actual bands. */
  function PositionSum(pred: seq<string>, actual: seq<string>, n: nat): (r: real)
    requires n <= |actual|
    ensures 0.0 <= r <= n as real
  {
    if n == 0 then 0.0 else PositionSum(pred, actual, n - 1) + PositionCredit(pred, actual[n - 1], n - 1)
  }

  function TopCount(actual: seq<string>): (r: nat)
    ensures r <= |actual| && r <= 5
    ensures actual != [] ==> r > 0
  {
    if |actual| < 5 then |actual| else 5
  }

  /** Position-weighted accuracy over the top five actual bands. */
  function PositionAccuracy(pred: seq<string>, actual: seq<string>): (r: real)
    requires actual != []
    ensures 0.0 <= r <= 1.0
  {
    var n := TopCount(actual);
    var sum := PositionSum(pred, actual, n);
    RatioOne(sum, n as real);
    sum / n as real
  }

  /** `_calculate_bands_accuracy`: the mean of the Jaccard similarity of the
      two band sets and the position accuracy. */
  function BestBandsAccuracy(prediction: Observation, actual: Observation): (r: real)
    ensures actual.bestBands == [] ==> r == 0.0
    ensures 0.0 <= r <= 1.0
    ensures actual.bestBands != [] ==>
      r == (Jaccard(Elements(prediction.bestBands), Elements(actual.bestBands)) +
            PositionAccuracy(prediction.bestBands, actual.bestBands)) / 2.0
  {
    var pred := prediction.bestBands;
    var act := actual.bestBands;
    if act == [] then 0.0
    else
      var jaccard := Jaccard(Elements(pred), Elements(act));
      var position := PositionAccuracy(pred, act);
      (jaccard + position) / 2.0
  }

  predicate NoDuplicates(s: seq<string>)
  {
    forall i, j :: 0 <= i < j < |s| ==> s[i] != s[j]
  }

  lemma {:induction false} PositionSumIdentical(s: seq<string>, n: nat)
    requires n <= |s| && NoDuplicates(s)
    ensures PositionSum(s, s, n) == n as real
  {
    if n > 0 {
      PositionSumIdentical(s, n - 1);
      var k := IndexOf(s, s[n - 1]);
      assert k == n - 1;
    }
  }

  /** A non-empty list of distinct bands matched against itself scores 1. */
  lemma BestBandsIdentical(prediction: Observation, actual: Observation)
    requires prediction.bestBands == actual.bestBands && actual.bestBands != []
    requires NoDuplicates(actual.bestBands)
    ensures BestBandsAccuracy(prediction, actual) == 1.0
  {
    var s := actual.bestBands;
    var n := TopCount(s);
    PositionSumIdentical(s, n);
    RatioOne(PositionSum(s, s, n), n as real);
    assert PositionAccuracy(s, s) == 1.0;
    assert s[0] in Elements(s);
    assert Jaccard(Elements(s), Elements(s)) == 1.0;
  }

  /** `_calculate_accuracy_metrics`: dispatch on the prediction type; an
      unknown type records an error and accuracy 0. */
  function AccuracyMetrics(prediction: Observation, actual: Observation, predictionType: string): (r: Metrics)
    ensures r.predictionType == predictionType
    ensures r.errors != [] <==> predictionType !in {"muf", "band_quality", "propagation_score", "best_bands"}
    ensures predictionType == "band_quality" || predictionType == "best_bands" ==> 0.0 <= r.overallAccuracy <= 1.0
    ensures predictionType == "muf" ==> r.overallAccuracy == MufAccuracy(prediction, actual)
    ensures predictionType == "band_quality" ==> r.overallAccuracy == BandAccuracy(prediction, actual)
    ensures predictionType == "propagation_score" ==> r.overallAccuracy == PropagationAccuracy(prediction, actual)
    ensures predictionType == "best_bands" ==> r.overallAccuracy == BestBandsAccuracy(prediction, actual)
    ensures r.errors != [] ==> r.overallAccuracy == 0.0
  {
    if predictionType == "muf" then Metrics(predictionType, MufAccuracy(prediction, actual), [])
    else if predictionType == "band_quality" then Metrics(predictionType, BandAccuracy(prediction, actual), [])
    else if predictionType == "propagation_score" then Metrics(predictionType, PropagationAccuracy(prediction, actual), [])
    else if predictionType == "best_bands" then Metrics(predictionType, BestBandsAccuracy(prediction, actual), [])
    else Metrics(predictionType, 0.0, ["Unknown prediction type: " + predictionType])
  }

  /** `_calculate_trend`: the least-squares slope against the position,
      with a dead band of +-0.01. */
  function Trend(accuracies: seq<real>): (r: string)
    ensures r in {"insufficient_data", "improving", "declining", "stable"}
    ensures r == "insufficient_data" <==> |accuracies| < 2
  {
    if |accuracies| < 2 then "insufficient_data"
    else
      var slope := Slope(accuracies);
      if slope > 0.01 then "improving" else if slope < -0.01 then "declining" else "stable"
  }

  /** Accuracies lying on a straight line are classified by its gradient;
      in particular a constant history is stable. */
  lemma TrendOfLine(a: real, b: real, n: nat)
    requires n >= 2
    ensures Trend(Line(a, b, 0.0, n)) == if b > 0.01 then "improving" else if b < -0.01 then "declining" else "stable"
  {
    SlopeOfLine(a, b, n);
  }

  datatype HistoryEntry = HistoryEntry(timestamp: int, predictionType: string, accuracy: real)

  /** `deque(maxlen=capacity).append(e)`: the last `capacity` elements of
      the extended sequence. */
  function BoundedAppend<T>(data: seq<T>, e: T, capacity: nat): (r: seq<T>)
    requires |data| <= capacity
    ensures |r| == if |data| < capacity then |data| + 1 else capacity
    ensures r == (data + [e])[|data| + 1 - |r|..]
    ensures |data| < capacity ==> r == data + [e]
    ensures capacity > 0 ==> r[|r| - 1] == e
  {
    if capacity == 0 then []
    else if |data| == capacity then data[1..] + [e]
    else data + [e]
  }

  function Accuracies(entries: seq<HistoryEntry>): (r: seq<real>)
    ensures |r| == |entries|
    ensures forall i :: 0 <= i < |entries| ==> r[i] == entries[i].accuracy
  {
    if entries == [] then [] else [entries[0].accuracy] + Accuracies(entries[1..])
  }

  /** The summary's filter: at or after the cutoff and of the requested
      type (any type when none is given). */
  predicate InWindow(e: HistoryEntry, predictionType: Option<string>, cutoff: int)
  {
    e.timestamp >= cutoff && (predictionType.None? || e.predictionType == predictionType.value)
  }

  function Window(data: seq<HistoryEntry>, predictionType: Option<string>, cutoff: int): (r: seq<HistoryEntry>)
    ensures forall e :: e in r ==> e in data && InWindow(e, predictionType, cutoff)
  {
    Filter(data, e => InWindow(e, predictionType, cutoff))
  }

  function Identity(x: real): (r: real)
    ensures r == x
  {
    x
  }

  /** numpy's `median`: the middle of the sorted values, or the mean of the
      two middle ones. */
  function Median(s: seq<real>): (r: real)
    requires s != []
  {
    var t := Sort(s, ByKeyAscending(Identity));
    var n := |t|;
    if n % 2 == 1 then t[n / 2] else (t[n / 2 - 1] + t[n / 2]) / 2.0
  }

  lemma MedianInRange(s: seq<real>)
    requires s != []
    ensures SeqMin(s) <= Median(s) <= SeqMax(s)
  {
    var t := Sort(s, ByKeyAscending(Identity));
    var n := |t|;
    ElementInRange(s, t, n / 2);
    if n % 2 == 0 {
      ElementInRange(s, t, n / 2 - 1);
      assert Median(s) == (t[n / 2 - 1] + t[n / 2]) / 2.0;
    } else {
      assert Median(s) == t[n / 2];
    }
  }

  /** Any element of a rearrangement of s lies between s's extremes. */
  lemma ElementInRange(s: seq<real>, t: seq<real>, i: nat)
    requires s != [] && multiset(t) == multiset(s) && i < |t|
    ensures SeqMin(s) <= t[i] <= SeqMax(s)
  {
    assert t[i] in multiset(t);
    var j :| 0 <= j < |s| && s[j] == t[i];
  }

  /** `recent_accuracy`: the mean of the last 24 values when there are that
      many, of all values otherwise. */
  function Recent(s: seq<real>): (r: real)
    requires s != []
    ensures |s| < 24 ==> r == Mean(s)
    ensures |s| >= 24 ==> r == Mean(s[|s| - 24..])
  {
    if |s| >= 24 then Mean(s[|s| - 24..]) else Mean(s)
  }

  datatype Summary =
    | SummaryError(message: string)
    | Summary(periodDays: int, predictionType: string, totalPredictions: nat,
              meanAccuracy: real, medianAccuracy: real, varianceAccuracy: real, minAccuracy: real, maxAccuracy: real,
              accuracyTrend: string, recentAccuracy: real)

  /** The statistics of the entries that passed the filter; `varianceAccuracy`
      is the square of numpy's `std` (the population deviation). */
  function SummaryOf(filtered: seq<HistoryEntry>, predictionType: Option<string>, days: int): (r: Summary)
    ensures r.SummaryError? <==> filtered == []
    ensures r.Summary? ==> r.totalPredictions == |filtered| && r.periodDays == days && r.varianceAccuracy >= 0.0
    ensures r.Summary? ==> r.accuracyTrend == Trend(Accuracies(filtered))
    ensures r.Summary? ==> r.predictionType == if predictionType.None? || predictionType.value == "" then "all" else predictionType.value
  {
    if filtered == [] then SummaryError("No accuracy data available for the specified period")
    else
      var accuracies := Accuracies(filtered);
      Summary(days, if predictionType.None? || predictionType.value == "" then "all" else predictionType.value,
              |filtered|, Mean(accuracies), Median(accuracies), Variance(accuracies), SeqMin(accuracies), SeqMax(accuracies),
              Trend(accuracies), Recent(accuracies))
  }

  /** The statistics of the filtered entries are the summary. */
  lemma SummarizeIsSummaryOf(data: seq<HistoryEntry>, predictionType: Option<string>, days: int, now: int,
                             filtered: seq<HistoryEntry>, s: Summary)
    requires filtered == Window(data, predictionType, now - days * 86400)
    requires s == SummaryOf(filtered, predictionType, days)
    ensures s == Summarize(data, predictionType, days, now)
  {
  }

  /** The filter loop of `get_accuracy_summary`: the entries at or after
      the cutoff and of the requested type, in history order. */
  method FilterWindow(data: seq<HistoryEntry>, predictionType: Option<string>, cutoff: int)
    returns (filtered: seq<HistoryEntry>)
    ensures filtered == Window(data, predictionType, cutoff)
  {
    filtered := [];
    var i := 0;
    while i < |data|
      invariant 0 <= i <= |data|
      invariant filtered == Window(data[..i], predictionType, cutoff)
    {
      var entry := data[i];
      WindowSnoc(data[..i], entry, predictionType, cutoff);
      assert data[..i + 1] == data[..i] + [entry];
      if entry.timestamp >= cutoff && (predictionType.None? || entry.predictionType == predictionType.value) {
        filtered := filtered + [entry];
      }
      i := i + 1;
    }
    assert data[..|data|] == data;
  }

  /** One more history entry extends the window by itself or by nothing. */
  lemma WindowSnoc(prefix: seq<HistoryEntry>, entry: HistoryEntry, predictionType: Option<string>, cutoff: int)
    ensures Window(prefix + [entry], predictionType, cutoff) ==
      Window(prefix, predictionType, cutoff) + if InWindow(entry, predictionType, cutoff) then [entry] else []
  {
    FilterConcat(prefix, [entry], e => InWindow(e, predictionType, cutoff));
    assert [entry][1..] == [];
  }

  /** `get_accuracy_summary` over the history, with `days` of look-back. */
  function Summarize(data: seq<HistoryEntry>, predictionType: Option<string>, days: int, now: int): (r: Summary)
    ensures r.SummaryError? <==> Window(data, predictionType, now - days * 86400) == []
    ensures r.Summary? ==> r.totalPredictions == |Window(data, predictionType, now - days * 86400)|
  {
    SummaryOf(Window(data, predictionType, now - days * 86400), predictionType, days)
  }

  /** The summary statistics are consistent: min <= mean, median,
      recent <= max. */
  lemma SummaryOrdered(data: seq<HistoryEntry>, predictionType: Option<string>, days: int, now: int)
    requires Summarize(data, predictionType, days, now).Summary?
    ensures var s := Summarize(data, predictionType, days, now);
      s.minAccuracy <= s.meanAccuracy <= s.maxAccuracy &&
      s.minAccuracy <= s.medianAccuracy <= s.maxAccuracy &&
      s.minAccuracy <= s.recentAccuracy <= s.maxAccuracy
  {
    var filtered := Window(data, predictionType, now - days * 86400);
    assert filtered != [];
    StatisticsOrdered(Accuracies(filtered));
  }

  /** The statistics of one non-empty run of accuracies: min <= mean,
      median, recent <= max. */
  lemma StatisticsOrdered(accuracies: seq<real>)
    requires accuracies != []
    ensures var lo, hi := SeqMin(accuracies), SeqMax(accuracies);
      lo <= Mean(accuracies) <= hi && lo <= Median(accuracies) <= hi && lo <= Recent(accuracies) <= hi
  {
    MeanBounds(accuracies, SeqMin(accuracies), SeqMax(accuracies));
    MedianInRange(accuracies);
    RecentInRange(accuracies);
  }

  lemma RecentInRange(accuracies: seq<real>)
    requires accuracies != []
    ensures SeqMin(accuracies) <= Recent(accuracies) <= SeqMax(accuracies)
  {
    var lo, hi := SeqMin(accuracies), SeqMax(accuracies);
    var n := |accuracies|;
    if n >= 24 {
      var tail := accuracies[n - 24..];
      forall i | 0 <= i < |tail| ensures lo <= tail[i] <= hi {
        assert tail[i] == accuracies[n - 24 + i];
      }
      MeanBounds(tail, lo, hi);
    } else {
      MeanBounds(accuracies, lo, hi);
    }
  }

  /** `get_prediction_confidence` from the summary. */
  function PredictionConfidence(s: Summary): (r: real)
    ensures s.SummaryError? ==> r == 0.5
  {
    if s.SummaryError? then 0.5
    else if s.accuracyTrend == "improving" then Min(0.95, s.recentAccuracy + 0.1)
    else if s.accuracyTrend == "declining" then Max(0.1, s.recentAccuracy - 0.1)
    else s.recentAccuracy
  }

  /** The trend nudges the recent accuracy by 0.1 towards its direction,
      never past 0.95 upwards or 0.1 downwards; for a recent accuracy in
      [0,1] the confidence stays in [0,1]. */
  lemma ConfidenceFollowsTrend(s: Summary)
    requires s.Summary?
    ensures s.accuracyTrend == "improving" ==>
      PredictionConfidence(s) <= 0.95 && (s.recentAccuracy <= 0.85 ==> PredictionConfidence(s) == s.recentAccuracy + 0.1)
    ensures s.accuracyTrend == "declining" ==>
      PredictionConfidence(s) >= 0.1 && (s.recentAccuracy >= 0.2 ==> PredictionConfidence(s) == s.recentAccuracy - 0.1)
    ensures s.accuracyTrend !in {"improving", "declining"} ==> PredictionConfidence(s) == s.recentAccuracy
    ensures 0.0 <= s.recentAccuracy <= 1.0 ==> 0.0 <= PredictionConfidence(s) <= 1.0
  {
  }

  /** A prediction record as stored in the "predictions" namespace. */
  datatype PredictionRecord = PredictionRecord(
    id: string, predictionType: string, prediction: Observation, timestamp: int, status: string,
    actualResult: Option<Observation>, accuracyMetrics: Option<Metrics>, validationTimestamp: Option<int>)

  /** What the tracker keeps in the shared cache. */
  datatype Stored = StoredPrediction(record: PredictionRecord) | StoredHistory(entries: seq<HistoryEntry>)

  datatype RecordOutcome = RecordError(message: string) | Recorded(metrics: Metrics)

  const PREDICTION_MAX_AGE: int := 86400 * 7
  const HISTORY_MAX_AGE: int := 86400 * 30

  /** The record after validation. */
  function Validated(rec: PredictionRecord, actual: Observation, now: int): (r: PredictionRecord)
    ensures r.status == "validated" && r.actualResult == Some(actual) && r.validationTimestamp == Some(now)
    ensures r.accuracyMetrics == Some(AccuracyMetrics(rec.prediction, actual, rec.predictionType))
    ensures r.id == rec.id && r.predictionType == rec.predictionType && r.prediction == rec.prediction
  {
    rec.(actualResult := Some(actual), accuracyMetrics := Some(AccuracyMetrics(rec.prediction, actual, rec.predictionType)),
         status := "validated", validationTimestamp := Some(now))
  }

  /** The outcome `record_actual_result` reports for what the cache read. */
  function OutcomeOf(got: Option<Stored>, actual: Observation): (r: RecordOutcome)
    ensures got.None? ==> r == RecordError("Prediction not found")
    ensures got.Some? && got.value.StoredPrediction? ==>
      r == Recorded(AccuracyMetrics(got.value.record.prediction, actual, got.value.record.predictionType))
    ensures r.Recorded? <==> got.Some? && got.value.StoredPrediction?
  {
    match got
    case None => RecordError("Prediction not found")
    case Some(StoredPrediction(rec)) => Recorded(AccuracyMetrics(rec.prediction, actual, rec.predictionType))
    case Some(StoredHistory(_)) => RecordError("stored value is not a prediction record")
  }

  class AccuracyTracker {
    var maxHistoryDays: nat
    var accuracyData: seq<HistoryEntry>

    function Capacity(): (r: nat)
      reads this
      ensures r == maxHistoryDays * 24
    {
      maxHistoryDays * 24
    }

    ghost predicate Valid()
      reads this
    {
      |accuracyData| <= Capacity()
    }

    /** `AccuracyTracker(max_history_days)`: an empty history holding at
        most 24 entries per day. */
    constructor (maxHistoryDays: nat)
      ensures Valid() && this.maxHistoryDays == maxHistoryDays && accuracyData == []
    {
      this.maxHistoryDays := maxHistoryDays;
      accuracyData := [];
    }

    /** `record_prediction`: `stamp` is the timestamp formatted as
        YYYYmmdd_HHMMSS. The identifier is returned whether or not the
        cache accepted the record. */
    method RecordPrediction(cache: CacheManager<Stored>, prediction: Observation, predictionType: string,
                            timestamp: int, stamp: string, size: nat) returns (predictionId: string)
      requires cache.Valid()
      modifies cache
      ensures cache.Valid() && predictionId == predictionType + "_" + stamp
      ensures "predictions" in old(cache.caches) ==> ("predictions" in cache.caches &&
        forall t :: t - timestamp <= PREDICTION_MAX_AGE ==>
          Lookup(cache.caches["predictions"], predictionId, t) ==
            Some(StoredPrediction(PredictionRecord(predictionId, predictionType, prediction, timestamp,
                                                   "pending_validation", None, None, None))))
      ensures "predictions" !in old(cache.caches) ==> cache.caches == old(cache.caches)
    {
      predictionId := predictionType + "_" + stamp;
      var record := PredictionRecord(predictionId, predictionType, prediction, timestamp, "pending_validation", None, None, None);
      ghost var before := cache.caches;
      var ok := cache.Set("predictions", predictionId, StoredPrediction(record), Some(PREDICTION_MAX_AGE), size, timestamp);
      if ok {
        forall t | t - timestamp <= PREDICTION_MAX_AGE
          ensures Lookup(cache.caches["predictions"], predictionId, t) == Some(StoredPrediction(record))
        {
          SetThenGet(before["predictions"], predictionId, StoredPrediction(record), PREDICTION_MAX_AGE, size, timestamp,
                     cache.SizeLimit("predictions"), cache.MemoryLimit("predictions"), t);
        }
      }
    }

    /** `_add_to_accuracy_history`: appends to the bounded history and
        stores the whole history in the cache under a per-day key (`day`
        is the date formatted as YYYYmmdd). */
    method AddToAccuracyHistory(cache: CacheManager<Stored>, metrics: Metrics, predictionType: string,
                                now: int, day: string, size: nat)
      requires Valid() && cache.Valid()
      modifies this, cache
      ensures Valid() && cache.Valid() && maxHistoryDays == old(maxHistoryDays)
      ensures accuracyData == BoundedAppend(old(accuracyData), HistoryEntry(now, predictionType, metrics.overallAccuracy), Capacity())
      ensures "accuracy_history" !in old(cache.caches) ==> cache.caches == old(cache.caches)
      ensures "accuracy_history" in old(cache.caches) ==> ("accuracy_history" in cache.caches &&
        Lookup(cache.caches["accuracy_history"], predictionType + "_" + day, now) == Some(StoredHistory(accuracyData)))
      ensures cache.caches.Keys == old(cache.caches).Keys
      ensures forall ns :: ns in old(cache.caches) && ns != "accuracy_history" ==> cache.caches[ns] == old(cache.caches)[ns]
    {
      var entry := HistoryEntry(now, predictionType, metrics.overallAccuracy);
      if Capacity() == 0 {
        accuracyData := [];
      } else if |accuracyData| == Capacity() {
        accuracyData := accuracyData[1..] + [entry];
      } else {
        accuracyData := accuracyData + [entry];
      }
      ghost var before := cache.caches;
      var ok := cache.Set("accuracy_history", predictionType + "_" + day, StoredHistory(accuracyData), Some(HISTORY_MAX_AGE), size, now);
      if ok {
        SetThenGet(before["accuracy_history"], predictionType + "_" + day, StoredHistory(accuracyData), HISTORY_MAX_AGE, size, now,
                   cache.SizeLimit("accuracy_history"), cache.MemoryLimit("accuracy_history"), now);
      }
    }

    /** `record_actual_result`: an identifier the cache does not hold gives
        "Prediction not found" and leaves the history alone; otherwise the
        record is marked validated and written back, and exactly one
        history entry is appended. */
    method RecordActualResult(cache: CacheManager<Stored>, predictionId: string, actual: Observation,
                              now: int, day: string, recordSize: nat, historySize: nat)
      returns (r: RecordOutcome)
      requires Valid() && cache.Valid()
      modifies this, cache
      ensures Valid() && cache.Valid() && maxHistoryDays == old(maxHistoryDays)
      ensures "predictions" !in old(cache.caches) ==> r == RecordError("Prediction not found")
      ensures "predictions" in old(cache.caches) ==> r == OutcomeOf(Lookup(old(cache.caches)["predictions"], predictionId, now), actual)
      ensures r.RecordError? ==> accuracyData == old(accuracyData)
      ensures r.Recorded? ==> (accuracyData ==
        BoundedAppend(old(accuracyData), HistoryEntry(now, r.metrics.predictionType, r.metrics.overallAccuracy), Capacity()))
      ensures r.Recorded? ==> ("predictions" in cache.caches &&
        forall t :: t - now <= PREDICTION_MAX_AGE ==>
          Lookup(cache.caches["predictions"], predictionId, t) ==
            Some(StoredPrediction(Validated(Lookup(old(cache.caches)["predictions"], predictionId, now).value.record, actual, now))))
      ensures r.Recorded? && "accuracy_history" in old(cache.caches) ==> ("accuracy_history" in cache.caches &&
        Lookup(cache.caches["accuracy_history"], r.metrics.predictionType + "_" + day, now) == Some(StoredHistory(accuracyData)))
    {
      var got := cache.Get("predictions", predictionId, now);
      if got.None? {
        return RecordError("Prediction not found");
      }
      if !got.value.StoredPrediction? {
        return RecordError("stored value is not a prediction record");
      }
      var rec := got.value.record;
      var metrics := AccuracyMetrics(rec.prediction, actual, rec.predictionType);
      var updated := Validated(rec, actual, now);
      ghost var read := cache.caches;
      var _ := cache.Set("predictions", predictionId, StoredPrediction(updated), Some(PREDICTION_MAX_AGE), recordSize, now);
      ghost var written := cache.caches;
      forall t | t - now <= PREDICTION_MAX_AGE
        ensures Lookup(written["predictions"], predictionId, t) == Some(StoredPrediction(updated))
      {
        SetThenGet(read["predictions"], predictionId, StoredPrediction(updated), PREDICTION_MAX_AGE, recordSize, now,
                   cache.SizeLimit("predictions"), cache.MemoryLimit("predictions"), t);
      }
      assert "predictions" != "accuracy_history" by { assert |"predictions"| != |"accuracy_history"|; }
      AddToAccuracyHistory(cache, metrics, rec.predictionType, now, day, historySize);
      r := Recorded(metrics);
    }

    /** `get_accuracy_summary`: the filter loop over the history, then the
        statistics of what it kept. */
    method GetAccuracySummary(predictionType: Option<string>, days: int, now: int) returns (s: Summary)
      ensures s == Summarize(accuracyData, predictionType, days, now)
    {
      var cutoff := now - days * 86400;
      var filtered := FilterWindow(accuracyData, predictionType, cutoff);
      s := SummaryOf(filtered, predictionType, days);
      SummarizeIsSummaryOf(accuracyData, predictionType, days, now, filtered, s);
    }

    /** `get_prediction_confidence`: from the seven-day summary of the type. */
    method GetPredictionConfidence(predictionType: string, now: int) returns (c: real)
      ensures c == PredictionConfidence(Summarize(accuracyData, Some(predictionType), 7, now))
    {
      var summary := GetAccuracySummary(Some(predictionType), 7, now);
      c := PredictionConfidence(summary);
    }
  }

  /** With the manager `get_cache_manager` builds, "predictions" is not a
      registered namespace, so every validation attempt reports the
      prediction as not found and nothing enters the history. */
  method RecordWithDefaultManager(predictionId: string, actual: Observation, now: int) returns (r: RecordOutcome)
    ensures r == RecordError("Prediction not found")
  {
    var cache := GetCacheManager<Stored>();
    var tracker := new AccuracyTracker(30);
    r := tracker.RecordActualResult(cache, predictionId, actual, now, "", 0, 0);
  }
}
