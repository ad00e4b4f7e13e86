/** Scoring of predictions against real-time observations
    (validation/real_time_validator.py). The fetchers that gather the
    observations are not modelled: what each source returned is an input. */
module RealTimeValidator {
  import opened Common

  const NO_MUF_DATA := "No real-time MUF data available"
  const NO_BAND_DATA := "No real-time band activity data available"
  const NO_PROPAGATION_DATA := "No real-time propagation data available"
  /** The message of the `ZeroDivisionError` a zero tolerance raises. */
  const DIVISION_BY_ZERO := "float division by zero"

  // ---------------------------------------------------------------- MUF

  /** A non-empty result one source returned; `muf` is `None` when the
      result has no 'muf' entry. */
  datatype MufResult = MufResult(muf: Option<real>)

  /** What one source of `_get_real_time_muf_data` returned: `None` when it
      returned nothing (or an empty result), which keeps it out of
      `real_time_data`. */
  datatype MufSource = MufSource(name: string, data: Option<MufResult>)
  {
    /** The reading the scoring loop sees, if any. */
    function Reading(): Option<real>
    {
      if data.Some? then data.value.muf else None
    }
  }

  /** `real_time_data` is non-empty: some source returned something. */
  predicate AnyMufResult(sources: seq<MufSource>)
  {
    exists i :: 0 <= i < |sources| && sources[i].data.Some?
  }

  datatype MufSourceCheck = MufSourceCheck(source: string, actualMuf: real, error: real, score: real)

  datatype MufValidation =
    | MufValidation(predictedMuf: real, checked: seq<MufSourceCheck>, score: real, confidence: real, errors: seq<string>)
    | MufFailed(predictedMuf: real, error: string)

  /** The relative error of a prediction; a non-positive observation counts
      as a total miss. */
  function RelativeError(predicted: real, actual: real): (r: real)
    ensures r >= 0.0
    ensures actual <= 0.0 ==> r == 1.0
    ensures actual > 0.0 ==> (r == 0.0 <==> predicted == actual)
  {
    if actual > 0.0 then Abs(predicted - actual) / actual else 1.0
  }

  /** `max(0, 1 - error / tolerance)`. */
  function ErrorScore(error: real, tolerance: real): (r: real)
    requires tolerance != 0.0
    ensures tolerance > 0.0 && error >= 0.0 ==> 0.0 <= r <= 1.0
    ensures tolerance > 0.0 && error >= 0.0 ==> (r == 1.0 <==> error == 0.0)
    ensures tolerance > 0.0 && error >= tolerance ==> r == 0.0
  {
    Max(0.0, 1.0 - error / tolerance)
  }

  /** A larger error never scores higher. */
  lemma ErrorScoreMonotone(e1: real, e2: real, tolerance: real)
    requires tolerance > 0.0 && e1 <= e2
    ensures ErrorScore(e1, tolerance) >= ErrorScore(e2, tolerance)
  {
    assert e1 / tolerance <= e2 / tolerance by {
      assert e1 / tolerance * tolerance == e1;
      assert e2 / tolerance * tolerance == e2;
    }
  }

  predicate HasReading(sources: seq<MufSource>)
  {
    exists i :: 0 <= i < |sources| && sources[i].Reading().Some?
  }

  function MufCheckOf(predicted: real, name: string, actual: real, tolerance: real): (r: MufSourceCheck)
    requires tolerance != 0.0
  {
    var e := RelativeError(predicted, actual);
    MufSourceCheck(name, actual, e, ErrorScore(e, tolerance))
  }

  /** The sources that reported a MUF, in order, each with its error and
      score. Defined from the back, as the loop builds it. */
  function MufChecks(predicted: real, sources: seq<MufSource>, tolerance: real): (r: seq<MufSourceCheck>)
    requires tolerance != 0.0
    ensures |r| <= |sources|
    ensures forall k :: 0 <= k < |r| ==>
      r[k].error == RelativeError(predicted, r[k].actualMuf) && r[k].score == ErrorScore(r[k].error, tolerance)
    ensures !HasReading(sources) ==> r == []
    decreases |sources|
  {
    if sources == [] then []
    else
      var n := |sources| - 1;
      var rest := MufChecks(predicted, sources[..n], tolerance);
      assert HasReading(sources[..n]) ==> HasReading(sources) by {
        if HasReading(sources[..n]) {
          var i :| 0 <= i < n && sources[..n][i].Reading().Some?;
          assert sources[i] == sources[..n][i];
        }
      }
      match sources[n].Reading()
      case None => rest
      case Some(a) => rest + [MufCheckOf(predicted, sources[n].name, a, tolerance)]
  }

  /** Every source with a reading is checked under its own name. */
  lemma {:induction false} MufChecksComplete(predicted: real, sources: seq<MufSource>, tolerance: real, i: nat)
    requires tolerance != 0.0 && i < |sources| && sources[i].Reading().Some?
    ensures MufCheckOf(predicted, sources[i].name, sources[i].Reading().value, tolerance) in MufChecks(predicted, sources, tolerance)
    decreases |sources|
  {
    var n := |sources| - 1;
    if i < n {
      MufChecksComplete(predicted, sources[..n], tolerance, i);
      assert sources[..n][i] == sources[i];
    }
  }

  lemma MufChecksStep(predicted: real, sources: seq<MufSource>, tolerance: real, i: nat)
    requires tolerance != 0.0 && i < |sources|
    ensures MufChecks(predicted, sources[..i + 1], tolerance) == MufChecks(predicted, sources[..i], tolerance) +
      (if sources[i].Reading().Some? then [MufCheckOf(predicted, sources[i].name, sources[i].Reading().value, tolerance)] else [])
  {
    assert sources[..i + 1][..i] == sources[..i];
  }

  function Scores(checks: seq<MufSourceCheck>): (r: seq<real>)
    ensures |r| == |checks| && forall k :: 0 <= k < |r| ==> r[k] == checks[k].score
  {
    seq(|checks|, k requires 0 <= k < |checks| => checks[k].score)
  }

  /** The mean score and the confidence derived from it
      (`min(0.95, score + 0.1)`); both stay 0 when nothing was scored. */
  function Summary(scores: seq<real>): (r: (real, real))
  {
    if scores == [] then (0.0, 0.0)
    else
      var s := Mean(scores);
      (s, Min(0.95, s + 0.1))
  }

  lemma SummaryBounds(scores: seq<real>)
    requires forall k :: 0 <= k < |scores| ==> 0.0 <= scores[k] <= 1.0
    ensures 0.0 <= Summary(scores).0 <= 1.0
    ensures scores == [] ==> Summary(scores) == (0.0, 0.0)
    ensures scores != [] ==> 0.1 <= Summary(scores).1 <= 0.95 && Summary(scores).1 <= Summary(scores).0 + 0.1
  {
    if scores != [] {
      MeanBounds(scores, 0.0, 1.0);
    }
  }

  /** `validate_muf_prediction`; a zero tolerance raises once a source is
      scored, and the handler returns the failure record. */
  method ValidateMufPrediction(predicted: real, sources: seq<MufSource>, tolerance: real) returns (v: MufValidation)
    ensures !AnyMufResult(sources) ==> v == MufValidation(predicted, [], 0.0, 0.0, [NO_MUF_DATA])
    ensures AnyMufResult(sources) && tolerance == 0.0 && HasReading(sources) ==> v == MufFailed(predicted, DIVISION_BY_ZERO)
    ensures AnyMufResult(sources) && tolerance != 0.0 ==>
      var checks := MufChecks(predicted, sources, tolerance);
      v == MufValidation(predicted, checks, Summary(Scores(checks)).0, Summary(Scores(checks)).1, [])
    ensures AnyMufResult(sources) && tolerance == 0.0 && !HasReading(sources) ==> v == MufValidation(predicted, [], 0.0, 0.0, [])
  {
    if !AnyMufResult(sources) {
      return MufValidation(predicted, [], 0.0, 0.0, [NO_MUF_DATA]);
    }
    var scores: seq<real> := [];
    var checked: seq<MufSourceCheck> := [];
    var i := 0;
    while i < |sources|
      invariant 0 <= i <= |sources|
      invariant tolerance == 0.0 ==> (forall k :: 0 <= k < i ==> sources[k].Reading().None?) && checked == [] && scores == []
      invariant tolerance != 0.0 ==> checked == MufChecks(predicted, sources[..i], tolerance)
      invariant scores == Scores(checked)
    {
      match sources[i].Reading() {
        case None =>
        case Some(actual) =>
          if tolerance == 0.0 {
            assert sources[i].Reading().Some?;
            return MufFailed(predicted, DIVISION_BY_ZERO);
          }
          var error := RelativeError(predicted, actual);
          var score := ErrorScore(error, tolerance);
          scores := scores + [score];
          checked := checked + [MufSourceCheck(sources[i].name, actual, error, score)];
      }
      if tolerance != 0.0 {
        MufChecksStep(predicted, sources, tolerance, i);
      }
      i := i + 1;
    }
    assert sources[..|sources|] == sources;
    var s, c := 0.0, 0.0;
    if scores != [] {
      s := Sum(scores) / |scores| as real;
      c := Min(0.95, s + 0.1);
    }
    return MufValidation(predicted, checked, s, c, []);
  }

  /** With a positive tolerance the score lies in [0,1], and once a source
      is scored the confidence lies in [0.1,0.95]. */
  lemma MufValidationBounds(predicted: real, sources: seq<MufSource>, tolerance: real)
    requires tolerance > 0.0
    ensures var checks := MufChecks(predicted, sources, tolerance);
      0.0 <= Summary(Scores(checks)).0 <= 1.0 &&
      (checks != [] ==> 0.1 <= Summary(Scores(checks)).1 <= 0.95)
  {
    var checks := MufChecks(predicted, sources, tolerance);
    SummaryBounds(Scores(checks));
  }

  /** A prediction that matches every positive reading scores 1 with
      confidence 0.95. */
  lemma ExactMufScoresOne(predicted: real, sources: seq<MufSource>, tolerance: real)
    requires tolerance > 0.0 && HasReading(sources)
    requires forall k :: 0 <= k < |sources| && sources[k].Reading().Some? ==> sources[k].Reading().value == predicted
    requires predicted > 0.0
    ensures Summary(Scores(MufChecks(predicted, sources, tolerance))) == (1.0, 0.95)
  {
    var checks := MufChecks(predicted, sources, tolerance);
    var i :| 0 <= i < |sources| && sources[i].Reading().Some?;
    MufChecksComplete(predicted, sources, tolerance, i);
    assert checks != [];
    MufChecksReadings(predicted, sources, tolerance);
    var s := Scores(checks);
    forall k | 0 <= k < |s| ensures s[k] == 1.0 {
      assert checks[k].actualMuf == predicted;
    }
    MeanBounds(s, 1.0, 1.0);
  }

  /** Every check carries a reading some source reported. */
  lemma {:induction false} MufChecksReadings(predicted: real, sources: seq<MufSource>, tolerance: real)
    requires tolerance != 0.0
    ensures forall c :: c in MufChecks(predicted, sources, tolerance) ==>
      exists k :: 0 <= k < |sources| && sources[k].Reading() == Some(c.actualMuf) && sources[k].name == c.source
    decreases |sources|
  {
    if sources != [] {
      var n := |sources| - 1;
      MufChecksReadings(predicted, sources[..n], tolerance);
      forall c | c in MufChecks(predicted, sources[..n], tolerance)
        ensures exists k :: 0 <= k < |sources| && sources[k].Reading() == Some(c.actualMuf) && sources[k].name == c.source
      {
        var k :| 0 <= k < n && sources[..n][k].Reading() == Some(c.actualMuf) && sources[..n][k].name == c.source;
        assert sources[k] == sources[..n][k];
      }
    }
  }

  // -------------------------------------------------------------- bands

  /** The part of a source's response the band check reads. */
  datatype ActivityData = ActivityData(bandActivity: Option<seq<(string, real)>>, totalSpots: Option<int>)

  /** `None` stands for a source that returned nothing (or an empty
      result), which keeps it out of `activity_data`. */
  datatype ActivitySource = ActivitySource(name: string, data: Option<ActivityData>)

  /** `activity_data` is non-empty: some source returned something. */
  predicate AnyActivityResult(sources: seq<ActivitySource>)
  {
    exists i :: 0 <= i < |sources| && sources[i].data.Some?
  }

  datatype BandSourceCheck = BandSourceCheck(source: string, bandActivity: seq<(string, real)>, totalSpots: int)

  datatype BandValidation =
    BandValidation(predictedBands: seq<string>, checked: seq<BandSourceCheck>, score: real, confidence: real, errors: seq<string>)

  /** The activity entries of one source; a source without 'band_activity'
      contributes none. */
  function ActivityOf(d: Option<ActivityData>): (r: seq<(string, real)>)
  {
    if d.Some? && d.value.bandActivity.Some? then d.value.bandActivity.value else []
  }

  /** The activity figures one source reports for `band`, in order. */
  function PairsActivity(pairs: seq<(string, real)>, band: string): (r: seq<real>)
    ensures forall k :: 0 <= k < |r| ==> exists j :: 0 <= j < |pairs| && pairs[j] == (band, r[k])
    decreases |pairs|
  {
    if pairs == [] then []
    else
      var n := |pairs| - 1;
      var rest := PairsActivity(pairs[..n], band);
      assert forall k :: 0 <= k < |rest| ==> exists j :: 0 <= j < |pairs| && pairs[j] == (band, rest[k]) by {
        forall k | 0 <= k < |rest| ensures exists j :: 0 <= j < |pairs| && pairs[j] == (band, rest[k]) {
          var j :| 0 <= j < n && pairs[..n][j] == (band, rest[k]);
          assert pairs[j] == pairs[..n][j];
        }
      }
      if pairs[n].0 == band then rest + [pairs[n].1] else rest
  }

  /** `band_scores[band]`: every source's figures for `band`, source by
      source. */
  function Activities(sources: seq<ActivitySource>, band: string): (r: seq<real>)
    decreases |sources|
  {
    if sources == [] then []
    else
      var n := |sources| - 1;
      Activities(sources[..n], band) + PairsActivity(ActivityOf(sources[n].data), band)
  }

  /** The score of one predicted band: its mean activity over 100, capped
      at 1, and 0 when no source reports it. */
  function BandScore(sources: seq<ActivitySource>, band: string): (r: real)
    ensures Activities(sources, band) == [] ==> r == 0.0
    ensures r <= 1.0
    ensures Activities(sources, band) != [] ==> (r == 1.0 <==> Mean(Activities(sources, band)) >= 100.0)
  {
    var a := Activities(sources, band);
    if a == [] then 0.0 else Min(1.0, Mean(a) / 100.0)
  }

  /** All reported figures are non-negative (they are spot counts). */
  ghost predicate NonNegativeActivity(sources: seq<ActivitySource>)
  {
    forall i, j :: 0 <= i < |sources| && 0 <= j < |ActivityOf(sources[i].data)| ==> ActivityOf(sources[i].data)[j].1 >= 0.0
  }

  lemma {:induction false} ActivitiesNonNegative(sources: seq<ActivitySource>, band: string)
    requires NonNegativeActivity(sources)
    ensures forall k :: 0 <= k < |Activities(sources, band)| ==> Activities(sources, band)[k] >= 0.0
    decreases |sources|
  {
    if sources != [] {
      var n := |sources| - 1;
      assert NonNegativeActivity(sources[..n]) by {
        forall i, j | 0 <= i < n && 0 <= j < |ActivityOf(sources[..n][i].data)|
          ensures ActivityOf(sources[..n][i].data)[j].1 >= 0.0
        {
          assert sources[..n][i] == sources[i];
        }
      }
      ActivitiesNonNegative(sources[..n], band);
      var p := ActivityOf(sources[n].data);
      var q := PairsActivity(p, band);
      forall k | 0 <= k < |q| ensures q[k] >= 0.0 {
        var j :| 0 <= j < |p| && p[j] == (band, q[k]);
      }
    }
  }

  /** With non-negative activity every band score lies in [0,1]. */
  lemma BandScoreBounds(sources: seq<ActivitySource>, band: string)
    requires NonNegativeActivity(sources)
    ensures 0.0 <= BandScore(sources, band) <= 1.0
  {
    var a := Activities(sources, band);
    if a != [] {
      ActivitiesNonNegative(sources, band);
      assert Sum(a) >= 0.0 by {
        var big := MaxOf(a);
        SumBounds(a, 0.0, big);
      }
    }
  }

  function BandScores(predicted: seq<string>, sources: seq<ActivitySource>): (r: seq<real>)
    ensures |r| == |predicted|
    ensures forall k :: 0 <= k < |r| ==> r[k] == BandScore(sources, predicted[k])
  {
    seq(|predicted|, k requires 0 <= k < |predicted| => BandScore(sources, predicted[k]))
  }

  /** The 'sources_checked' entry of a source that returned something,
      with the defaults `{}` and 0. */
  function BandCheckOf(name: string, d: ActivityData): BandSourceCheck
  {
    BandSourceCheck(name, d.bandActivity.GetOr([]), d.totalSpots.GetOr(0))
  }

  /** The sources listed in 'sources_checked': those that returned
      something, in order. */
  function BandChecks(sources: seq<ActivitySource>): (r: seq<BandSourceCheck>)
    ensures |r| <= |sources|
    ensures r == [] <==> !AnyActivityResult(sources)
    decreases |sources|
  {
    if sources == [] then []
    else
      var n := |sources| - 1;
      var rest := BandChecks(sources[..n]);
      assert AnyActivityResult(sources[..n]) ==> AnyActivityResult(sources) by {
        if AnyActivityResult(sources[..n]) {
          var i :| 0 <= i < n && sources[..n][i].data.Some?;
          assert sources[i] == sources[..n][i];
        }
      }
      assert !AnyActivityResult(sources[..n]) && sources[n].data.None? ==> !AnyActivityResult(sources) by {
        if !AnyActivityResult(sources[..n]) && sources[n].data.None? {
          forall i | 0 <= i < |sources| ensures sources[i].data.None? {
            if i < n { assert sources[i] == sources[..n][i]; }
          }
        }
      }
      match sources[n].data
      case None => rest
      case Some(d) => rest + [BandCheckOf(sources[n].name, d)]
  }

  /** Every source that returned something has its entry. */
  lemma {:induction false} BandChecksComplete(sources: seq<ActivitySource>, i: nat)
    requires i < |sources| && sources[i].data.Some?
    ensures BandCheckOf(sources[i].name, sources[i].data.value) in BandChecks(sources)
    decreases |sources|
  {
    var n := |sources| - 1;
    if i < n {
      BandChecksComplete(sources[..n], i);
      assert sources[..n][i] == sources[i];
    }
  }

  /** Every entry belongs to a source that returned something. */
  lemma {:induction false} BandChecksSound(sources: seq<ActivitySource>)
    ensures forall c :: c in BandChecks(sources) ==>
      exists k :: 0 <= k < |sources| && sources[k].data.Some? && c == BandCheckOf(sources[k].name, sources[k].data.value)
    decreases |sources|
  {
    if sources != [] {
      var n := |sources| - 1;
      BandChecksSound(sources[..n]);
      forall c | c in BandChecks(sources[..n])
        ensures exists k :: 0 <= k < |sources| && sources[k].data.Some? && c == BandCheckOf(sources[k].name, sources[k].data.value)
      {
        var k :| 0 <= k < n && sources[..n][k].data.Some? && c == BandCheckOf(sources[..n][k].name, sources[..n][k].data.value);
        assert sources[k] == sources[..n][k];
      }
    }
  }

  /** `band_scores` after the figures of `sources` and then of `extra`
      were appended. */
  ghost predicate Tabulates(table: map<string, seq<real>>, sources: seq<ActivitySource>, extra: seq<(string, real)>)
  {
    forall b :: (b in table <==> Activities(sources, b) + PairsActivity(extra, b) != []) &&
      (b in table ==> table[b] == Activities(sources, b) + PairsActivity(extra, b))
  }

  lemma TabulatesStep(table: map<string, seq<real>>, sources: seq<ActivitySource>, pairs: seq<(string, real)>, j: nat)
    requires j < |pairs| && Tabulates(table, sources, pairs[..j])
    ensures var band := pairs[j].0;
      Tabulates(table[band := (if band in table then table[band] else []) + [pairs[j].1]], sources, pairs[..j + 1])
  {
    assert pairs[..j + 1][..j] == pairs[..j];
    var band := pairs[j].0;
    var t := table[band := (if band in table then table[band] else []) + [pairs[j].1]];
    forall b ensures (b in t <==> Activities(sources, b) + PairsActivity(pairs[..j + 1], b) != []) &&
      (b in t ==> t[b] == Activities(sources, b) + PairsActivity(pairs[..j + 1], b))
    {
      assert PairsActivity(pairs[..j + 1], b) == PairsActivity(pairs[..j], b) + (if pairs[j].0 == b then [pairs[j].1] else []);
    }
  }

  lemma TabulatesNext(table: map<string, seq<real>>, sources: seq<ActivitySource>, i: nat)
    requires i < |sources| && Tabulates(table, sources[..i], ActivityOf(sources[i].data))
    ensures Tabulates(table, sources[..i + 1], [])
  {
    assert sources[..i + 1][..i] == sources[..i];
    forall b ensures Activities(sources[..i + 1], b) + PairsActivity([], b) == Activities(sources[..i], b) + PairsActivity(ActivityOf(sources[i].data), b) {
      assert Activities(sources[..i + 1], b) + [] == Activities(sources[..i + 1], b);
    }
  }

  /** The nested loop of `validate_band_prediction` that gathers every
      source's figures per band. */
  method TabulateActivity(sources: seq<ActivitySource>) returns (table: map<string, seq<real>>)
    ensures Tabulates(table, sources, [])
  {
    table := map[];
    var i := 0;
    while i < |sources|
      invariant 0 <= i <= |sources| && Tabulates(table, sources[..i], [])
    {
      table := TabulatePairs(table, sources[..i], ActivityOf(sources[i].data));
      TabulatesNext(table, sources, i);
      i := i + 1;
    }
    assert sources[..|sources|] == sources;
  }

  /** The inner loop: one source's (band, figure) pairs appended in turn. */
  method TabulatePairs(table0: map<string, seq<real>>, ghost done: seq<ActivitySource>, pairs: seq<(string, real)>)
    returns (table: map<string, seq<real>>)
    requires Tabulates(table0, done, [])
    ensures Tabulates(table, done, pairs)
  {
    table := table0;
    var j := 0;
    assert pairs[..0] == [];
    while j < |pairs|
      invariant 0 <= j <= |pairs| && Tabulates(table, done, pairs[..j])
    {
      TabulatesStep(table, done, pairs, j);
      var band := pairs[j].0;
      if band !in table {
        table := table[band := []];
      }
      table := table[band := table[band] + [pairs[j].1]];
      j := j + 1;
    }
    assert pairs[..|pairs|] == pairs;
  }

  lemma TableLookup(table: map<string, seq<real>>, sources: seq<ActivitySource>, band: string)
    requires Tabulates(table, sources, [])
    ensures band in table <==> Activities(sources, band) != []
    ensures band in table ==> table[band] == Activities(sources, band)
  {
    assert Activities(sources, band) + PairsActivity([], band) == Activities(sources, band);
  }

  /** The loop that scores each predicted band from the table. */
  method ScorePredictedBands(predicted: seq<string>, sources: seq<ActivitySource>, table: map<string, seq<real>>)
    returns (scores: seq<real>)
    requires Tabulates(table, sources, [])
    ensures scores == BandScores(predicted, sources)
  {
    scores := [];
    var k := 0;
    while k < |predicted|
      invariant 0 <= k <= |predicted| && |scores| == k
      invariant scores == BandScores(predicted[..k], sources)
    {
      var score := ScoreBand(sources, table, predicted[k]);
      scores := scores + [score];
      k := k + 1;
    }
    assert predicted[..k] == predicted;
  }

  /** One band's score read off the table: the mean of its figures over
      100, capped at 1, or 0 when no source reports it. */
  method ScoreBand(sources: seq<ActivitySource>, table: map<string, seq<real>>, band: string) returns (score: real)
    requires Tabulates(table, sources, [])
    ensures score == BandScore(sources, band)
  {
    score := 0.0;
    if band in table {
      var avg := Sum(table[band]) / |table[band]| as real;
      score := Min(1.0, avg / 100.0);
    }
    TableScore(table, sources, band, score);
  }

  /** The score read off the table is the band's score. */
  lemma TableScore(table: map<string, seq<real>>, sources: seq<ActivitySource>, band: string, score: real)
    requires Tabulates(table, sources, [])
    requires band in table ==> score == Min(1.0, Sum(table[band]) / |table[band]| as real / 100.0)
    requires band !in table ==> score == 0.0
    ensures score == BandScore(sources, band)
  {
    TableLookup(table, sources, band);
  }

  /** The loop that lists the sources that returned something. */
  method ListBandSources(sources: seq<ActivitySource>) returns (checked: seq<BandSourceCheck>)
    ensures checked == BandChecks(sources)
  {
    checked := [];
    var i := 0;
    while i < |sources|
      invariant 0 <= i <= |sources| && checked == BandChecks(sources[..i])
    {
      assert sources[..i + 1][..i] == sources[..i];
      if sources[i].data.Some? {
        var d := sources[i].data.value;
        checked := checked + [BandCheckOf(sources[i].name, d)];
      }
      i := i + 1;
    }
    assert sources[..|sources|] == sources;
  }

  /** `validate_band_prediction`. */
  method ValidateBandPrediction(predicted: seq<string>, sources: seq<ActivitySource>) returns (v: BandValidation)
    ensures !AnyActivityResult(sources) ==> v == BandValidation(predicted, [], 0.0, 0.0, [NO_BAND_DATA])
    ensures AnyActivityResult(sources) ==>
      v == BandValidation(predicted, BandChecks(sources), Summary(BandScores(predicted, sources)).0,
                          Summary(BandScores(predicted, sources)).1, [])
  {
    if !AnyActivityResult(sources) {
      return BandValidation(predicted, [], 0.0, 0.0, [NO_BAND_DATA]);
    }
    var table := TabulateActivity(sources);
    var scores := ScorePredictedBands(predicted, sources, table);
    var s, c := 0.0, 0.0;
    if scores != [] {
      s := Sum(scores) / |scores| as real;
      c := Min(0.95, s + 0.1);
    }
    var checked := ListBandSources(sources);
    return BandValidation(predicted, checked, s, c, []);
  }

  /** With non-negative activity the band validation score lies in [0,1];
      a band no source reports pulls the mean down by scoring 0. */
  lemma BandValidationBounds(predicted: seq<string>, sources: seq<ActivitySource>)
    requires NonNegativeActivity(sources)
    ensures 0.0 <= Summary(BandScores(predicted, sources)).0 <= 1.0
    ensures predicted != [] ==> 0.1 <= Summary(BandScores(predicted, sources)).1 <= 0.95
  {
    var s := BandScores(predicted, sources);
    forall k | 0 <= k < |s| ensures 0.0 <= s[k] <= 1.0 {
      BandScoreBounds(sources, predicted[k]);
    }
    SummaryBounds(s);
  }

  // -------------------------------------------------------- propagation

  /** The indicators `_calculate_propagation_quality_score` reads: the K
      index and, when present, the band activity figures. */
  datatype Indicators = Indicators(kIndex: Option<real>, bandActivity: Option<seq<real>>)

  /** `None` stands for a source that returned nothing, which keeps it out
      of `propagation_data`. */
  datatype PropagationSource = PropagationSource(name: string, data: Option<Indicators>)

  /** `propagation_data` is non-empty: some source returned something. */
  predicate AnyIndicators(sources: seq<PropagationSource>)
  {
    exists i :: 0 <= i < |sources| && sources[i].data.Some?
  }

  datatype PropagationValidation =
    PropagationValidation(predictedQuality: string, checked: seq<(string, real)>, score: real, confidence: real,
                          errors: seq<string>, actualQuality: Option<string>)

  function KAdjustment(k: real): (r: real)
  {
    if k <= 2.0 then 0.3 else if k <= 4.0 then 0.1 else -0.2
  }

  function ActivityAdjustment(activity: Option<seq<real>>): (r: real)
  {
    match activity
    case None => 0.0
    case Some(a) => if Sum(a) > 100.0 then 0.2 else if Sum(a) > 50.0 then 0.1 else -0.1
  }

  /** `_calculate_propagation_quality_score`: 0.5 adjusted by the K index
      (default 2) and the total activity, clamped to [0,1]. The adjustments
      never leave [0.2,1], so the clamp never bites. */
  function QualityScore(d: Indicators): (r: real)
    ensures 0.0 <= r <= 1.0
    ensures r >= 0.2
    ensures r == 1.0 <==> d.kIndex.GetOr(2.0) <= 2.0 && d.bandActivity.Some? && Sum(d.bandActivity.value) > 100.0
    ensures d.bandActivity.None? ==> r == 0.5 + KAdjustment(d.kIndex.GetOr(2.0))
  {
    Clamp(0.5 + KAdjustment(d.kIndex.GetOr(2.0)) + ActivityAdjustment(d.bandActivity), 0.0, 1.0)
  }

  /** A quieter geomagnetic field never lowers the score. */
  lemma QualityScoreMonotoneInK(k1: real, k2: real, activity: Option<seq<real>>)
    requires k1 <= k2
    ensures QualityScore(Indicators(Some(k1), activity)) >= QualityScore(Indicators(Some(k2), activity))
  {
  }

  /** More total activity never lowers the score. */
  lemma QualityScoreMonotoneInActivity(k: Option<real>, a1: seq<real>, a2: seq<real>)
    requires Sum(a1) <= Sum(a2)
    ensures QualityScore(Indicators(k, Some(a1))) <= QualityScore(Indicators(k, Some(a2)))
  {
  }

  const QUALITY_LEVELS: seq<string> := ["Poor", "Fair", "Good", "Very Good", "Excellent"]

  /** The level of an average quality score (0 = Poor .. 4 = Excellent). */
  function QualityLevel(avg: real): (r: nat)
    ensures r < 5
    ensures r == 4 <==> avg >= 0.8
    ensures r == 0 <==> avg < 0.2
    ensures r >= 2 <==> avg >= 0.4
    ensures r >= 3 <==> avg >= 0.6
  {
    if avg >= 0.8 then 4 else if avg >= 0.6 then 3 else if avg >= 0.4 then 2 else if avg >= 0.2 then 1 else 0
  }

  /** `quality_levels.index(label)`, and 0 for a label not in the list. */
  function LevelIndex(quality: string): (r: nat)
    ensures r < 5
    ensures quality in QUALITY_LEVELS ==> QUALITY_LEVELS[r] == quality
    ensures quality !in QUALITY_LEVELS ==> r == 0
  {
    if quality == "Poor" then 0 else if quality == "Fair" then 1 else if quality == "Good" then 2
    else if quality == "Very Good" then 3 else if quality == "Excellent" then 4 else 0
  }

  /** `max(0, 1 - |level difference| / 4)`. */
  function LevelScore(predicted: nat, actual: nat): (r: real)
    requires predicted < 5 && actual < 5
    ensures r in {0.0, 0.25, 0.5, 0.75, 1.0}
    ensures r == 1.0 <==> predicted == actual
    ensures r == 0.0 <==> (predicted == 0 && actual == 4) || (predicted == 4 && actual == 0)
  {
    var diff := if predicted >= actual then predicted - actual else actual - predicted;
    Max(0.0, 1.0 - diff as real / 4.0)
  }

  /** An unrecognised label is scored as if it were 'Poor'. */
  lemma UnknownLabelIsPoor(quality: string, actual: nat)
    requires quality !in QUALITY_LEVELS && actual < 5
    ensures LevelScore(LevelIndex(quality), actual) == LevelScore(LevelIndex("Poor"), actual)
  {
  }

  /** The sources that returned something, in order, each with its quality
      score; defined from the back, as the loop builds it. */
  function QualityChecks(sources: seq<PropagationSource>): (r: seq<(string, real)>)
    ensures |r| <= |sources|
    ensures forall k :: 0 <= k < |r| ==> 0.2 <= r[k].1 <= 1.0
    ensures r == [] <==> !AnyIndicators(sources)
    decreases |sources|
  {
    if sources == [] then []
    else
      var n := |sources| - 1;
      var rest := QualityChecks(sources[..n]);
      assert AnyIndicators(sources[..n]) ==> AnyIndicators(sources) by {
        if AnyIndicators(sources[..n]) {
          var i :| 0 <= i < n && sources[..n][i].data.Some?;
          assert sources[i] == sources[..n][i];
        }
      }
      assert !AnyIndicators(sources[..n]) && sources[n].data.None? ==> !AnyIndicators(sources) by {
        if !AnyIndicators(sources[..n]) && sources[n].data.None? {
          forall i | 0 <= i < |sources| ensures sources[i].data.None? {
            if i < n { assert sources[i] == sources[..n][i]; }
          }
        }
      }
      match sources[n].data
      case None => rest
      case Some(d) => rest + [(sources[n].name, QualityScore(d))]
  }

  /** Every source that returned something is scored under its name. */
  lemma {:induction false} QualityChecksComplete(sources: seq<PropagationSource>, i: nat)
    requires i < |sources| && sources[i].data.Some?
    ensures (sources[i].name, QualityScore(sources[i].data.value)) in QualityChecks(sources)
    decreases |sources|
  {
    var n := |sources| - 1;
    if i < n {
      QualityChecksComplete(sources[..n], i);
      assert sources[..n][i] == sources[i];
    }
  }

  /** Every entry is the score of a source that returned something. */
  lemma {:induction false} QualityChecksSound(sources: seq<PropagationSource>)
    ensures forall c :: c in QualityChecks(sources) ==>
      exists k :: 0 <= k < |sources| && sources[k].data.Some? && c == (sources[k].name, QualityScore(sources[k].data.value))
    decreases |sources|
  {
    if sources != [] {
      var n := |sources| - 1;
      QualityChecksSound(sources[..n]);
      forall c | c in QualityChecks(sources[..n])
        ensures exists k :: 0 <= k < |sources| && sources[k].data.Some? && c == (sources[k].name, QualityScore(sources[k].data.value))
      {
        var k :| 0 <= k < n && sources[..n][k].data.Some? && c == (sources[..n][k].name, QualityScore(sources[..n][k].data.value));
        assert sources[k] == sources[..n][k];
      }
    }
  }

  function QualityScores(checks: seq<(string, real)>): (r: seq<real>)
    ensures |r| == |checks| && forall k :: 0 <= k < |r| ==> r[k] == checks[k].1
  {
    seq(|checks|, k requires 0 <= k < |checks| => checks[k].1)
  }

  /** The outcome once the checks are known. */
  function PropagationOutcome(predicted: string, checks: seq<(string, real)>): (r: PropagationValidation)
  {
    if checks == [] then PropagationValidation(predicted, checks, 0.0, 0.0, [], None)
    else
      var actual := QualityLevel(Mean(QualityScores(checks)));
      var s := LevelScore(LevelIndex(predicted), actual);
      PropagationValidation(predicted, checks, s, Min(0.95, s + 0.1), [], Some(QUALITY_LEVELS[actual]))
  }

  /** `validate_propagation_quality`. */
  method ValidatePropagationQuality(predicted: string, sources: seq<PropagationSource>) returns (v: PropagationValidation)
    ensures !AnyIndicators(sources) ==> v == PropagationValidation(predicted, [], 0.0, 0.0, [NO_PROPAGATION_DATA], None)
    ensures AnyIndicators(sources) ==> v == PropagationOutcome(predicted, QualityChecks(sources))
  {
    if !AnyIndicators(sources) {
      return PropagationValidation(predicted, [], 0.0, 0.0, [NO_PROPAGATION_DATA], None);
    }
    var scores: seq<real> := [];
    var checked: seq<(string, real)> := [];
    var i := 0;
    while i < |sources|
      invariant 0 <= i <= |sources| && checked == QualityChecks(sources[..i]) && scores == QualityScores(checked)
    {
      assert sources[..i + 1][..i] == sources[..i];
      if sources[i].data.Some? {
        var q := QualityScore(sources[i].data.value);
        scores := scores + [q];
        checked := checked + [(sources[i].name, q)];
      }
      i := i + 1;
    }
    assert sources[..|sources|] == sources;
    assert checked == QualityChecks(sources) && scores == QualityScores(checked);
    if scores == [] {
      return PropagationValidation(predicted, checked, 0.0, 0.0, [], None);
    }
    var avg := Sum(scores) / |scores| as real;
    assert avg == Mean(QualityScores(checked));
    var actual := QualityLevel(avg);
    var s := LevelScore(LevelIndex(predicted), actual);
    return PropagationValidation(predicted, checked, s, Min(0.95, s + 0.1), [], Some(QUALITY_LEVELS[actual]));
  }

  /** Every per-source score is at least 0.2, so the observed quality is
      never 'Poor', and predicting the observed label scores 1. */
  lemma PropagationNeverPoor(predicted: string, sources: seq<PropagationSource>)
    requires QualityChecks(sources) != []
    ensures PropagationOutcome(predicted, QualityChecks(sources)).actualQuality.Some?
    ensures PropagationOutcome(predicted, QualityChecks(sources)).actualQuality != Some("Poor")
    ensures var v := PropagationOutcome(predicted, QualityChecks(sources));
      (v.score == 1.0 <==> v.actualQuality == Some(predicted)) && 0.1 <= v.confidence <= 0.95
  {
    var checks := QualityChecks(sources);
    var s := QualityScores(checks);
    MeanBounds(s, 0.2, 1.0);
    var actual := QualityLevel(Mean(s));
    assert actual >= 1;
    if predicted in QUALITY_LEVELS {
      assert QUALITY_LEVELS[LevelIndex(predicted)] == predicted;
    } else {
      assert QUALITY_LEVELS[actual] != predicted;
    }
  }
}
