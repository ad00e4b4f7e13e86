/** Validation of the MUF formula against ionosonde measurements
    (validation/ionosonde_validator.py): the station filter, the per-station
    percentage errors, their summary, the coefficient analysis and the shape
    of the text report. */
module IonosondeValidator {
  import opened Common
  import MufCalculator

  const MIN_STATION_CONFIDENCE: real := 50.0
  const MAX_MEASUREMENT_AGE: int := 3600
  const REPORT_STATIONS: nat := 15
  const DEFAULT_M_FACTOR: real := 3.0
  const NO_DATA := "No ionosonde data available"

  // ------------------------------------------------------ station filter

  /** A feed record is kept when foF2 and MUF(D) are present and non-zero,
      the confidence score is at least 50 and the measurement is at most
      one hour old. */
  predicate Qualifies(rec: MufCalculator.FeedRecord, now: int)
  {
    MufCalculator.Truthy(rec.fof2) && MufCalculator.Truthy(rec.mufd) && rec.cs >= MIN_STATION_CONFIDENCE &&
    rec.time.Some? && rec.time.value >= now - MAX_MEASUREMENT_AGE
  }

  /** The stations the filter keeps, in feed order (defined from the back). */
  function ValidStations(data: seq<MufCalculator.FeedRecord>, now: int): (r: seq<MufCalculator.Station>)
    ensures |r| <= |data|
  {
    if data == [] then []
    else
      var n := |data| - 1;
      ValidStations(data[..n], now) + (if Qualifies(data[n], now) then [MufCalculator.ToStation(data[n])] else [])
  }

  /** The filter keeps exactly the qualifying records. */
  lemma {:induction false} ValidStationsExact(data: seq<MufCalculator.FeedRecord>, now: int, st: MufCalculator.Station)
    ensures st in ValidStations(data, now) <==>
      exists i :: 0 <= i < |data| && Qualifies(data[i], now) && st == MufCalculator.ToStation(data[i])
  {
    if data != [] {
      var n := |data| - 1;
      ValidStationsExact(data[..n], now, st);
      if st in ValidStations(data, now) && st !in ValidStations(data[..n], now) {
        assert Qualifies(data[n], now) && st == MufCalculator.ToStation(data[n]);
      }
      if exists i :: 0 <= i < |data| && Qualifies(data[i], now) && st == MufCalculator.ToStation(data[i]) {
        var i :| 0 <= i < |data| && Qualifies(data[i], now) && st == MufCalculator.ToStation(data[i]);
        if i < n {
          assert data[..n][i] == data[i];
        }
      }
    }
  }

  /** Every kept station carries positive-confidence readings of the
      required quality. */
  lemma {:induction false} ValidStationsConfident(data: seq<MufCalculator.FeedRecord>, now: int)
    ensures forall k :: 0 <= k < |ValidStations(data, now)| ==>
      ValidStations(data, now)[k].confidence >= MIN_STATION_CONFIDENCE &&
      ValidStations(data, now)[k].fof2 != 0.0 && ValidStations(data, now)[k].mufd != 0.0
  {
    if data != [] {
      ValidStationsConfident(data[..|data| - 1], now);
    }
  }

  /** `fetch_ionosonde_data`: the decoded feed, or `None` when the request
      failed, which gives no stations. */
  method FetchIonosondeData(now: int, response: Option<seq<MufCalculator.FeedRecord>>)
    returns (stations: seq<MufCalculator.Station>)
    ensures response.None? ==> stations == []
    ensures response.Some? ==> stations == ValidStations(response.value, now)
  {
    if response.None? {
      return [];
    }
    var data := response.value;
    stations := [];
    var i := 0;
    while i < |data|
      invariant 0 <= i <= |data| && stations == ValidStations(data[..i], now)
    {
      assert data[..i + 1][..i] == data[..i];
      if Qualifies(data[i], now) {
        stations := stations + [MufCalculator.ToStation(data[i])];
      }
      i := i + 1;
    }
    assert data[..|data|] == data;
  }

  // ---------------------------------------------------------- comparison

  /** `|calculated - measured| / measured * 100`, and 0 for a non-positive
      measurement. */
  function PercentError(calculated: real, measured: real): (r: real)
    ensures r >= 0.0
    ensures measured <= 0.0 ==> r == 0.0
    ensures measured > 0.0 ==> (r == 0.0 <==> calculated == measured)
  {
    if measured > 0.0 then Abs(calculated - measured) / measured * 100.0 else 0.0
  }

  datatype Comparison = Comparison(
    station: string, code: string, lat: real, measuredFof2: real, measuredMuf: real,
    calculatedFof2: real, calculatedMuf: real, fof2ErrorPct: real, mufErrorPct: real,
    confidence: real, timestamp: string)

  function CompareOne(st: MufCalculator.Station, ourFof2: real, ourMuf: real): (c: Comparison)
    ensures c.measuredFof2 == st.fof2 && c.measuredMuf == st.mufd
    ensures c.fof2ErrorPct == PercentError(ourFof2, st.fof2) && c.mufErrorPct == PercentError(ourMuf, st.mufd)
  {
    Comparison(st.name, st.code, st.lat, st.fof2, st.mufd, ourFof2, ourMuf,
               PercentError(ourFof2, st.fof2), PercentError(ourMuf, st.mufd), st.confidence, st.timestamp)
  }

  /** One comparison per station, in station order. */
  function ComparisonsOf(stations: seq<MufCalculator.Station>, ourFof2: real, ourMuf: real): (r: seq<Comparison>)
    ensures |r| == |stations| && forall k :: 0 <= k < |r| ==> r[k] == CompareOne(stations[k], ourFof2, ourMuf)
  {
    seq(|stations|, k requires 0 <= k < |stations| => CompareOne(stations[k], ourFof2, ourMuf))
  }

  /** The error summary over the foF2 and MUF errors of the comparisons. */
  function ComparisonSummary(comparisons: seq<Comparison>): ErrorSummary
  {
    SummaryOf(seq(|comparisons|, k requires 0 <= k < |comparisons| => comparisons[k].fof2ErrorPct),
              seq(|comparisons|, k requires 0 <= k < |comparisons| => comparisons[k].mufErrorPct))
  }

  /** The comparison loop of `validate_muf_formula`: one comparison and one
      pair of errors per station, in station order. */
  method CompareStations(stations: seq<MufCalculator.Station>, ourFof2: real, ourMuf: real)
    returns (comparisons: seq<Comparison>, fof2Errors: seq<real>, mufErrors: seq<real>)
    ensures |comparisons| == |stations| == |fof2Errors| == |mufErrors|
    ensures forall k :: 0 <= k < |stations| ==> comparisons[k] == CompareOne(stations[k], ourFof2, ourMuf)
    ensures forall k :: 0 <= k < |stations| ==>
      fof2Errors[k] == comparisons[k].fof2ErrorPct && mufErrors[k] == comparisons[k].mufErrorPct
  {
    comparisons, fof2Errors, mufErrors := [], [], [];
    var i := 0;
    while i < |stations|
      invariant 0 <= i <= |stations| && |comparisons| == i && |fof2Errors| == i && |mufErrors| == i
      invariant forall k :: 0 <= k < i ==> comparisons[k] == CompareOne(stations[k], ourFof2, ourMuf)
      invariant forall k :: 0 <= k < i ==>
        fof2Errors[k] == comparisons[k].fof2ErrorPct && mufErrors[k] == comparisons[k].mufErrorPct
    {
      var st := stations[i];
      var fof2Pct := PercentError(ourFof2, st.fof2);
      var mufPct := PercentError(ourMuf, st.mufd);
      fof2Errors := fof2Errors + [fof2Pct];
      mufErrors := mufErrors + [mufPct];
      comparisons := comparisons + [CompareOne(st, ourFof2, ourMuf)];
      i := i + 1;
    }
  }

  datatype ErrorSummary = ErrorSummary(
    avgFof2: real, avgMuf: real, minFof2: real, maxFof2: real, minMuf: real, maxMuf: real)

  /** The mean, smallest and largest value, all 0 for no values. */
  function Stats(s: seq<real>): (r: (real, real, real))
  {
    if s == [] then (0.0, 0.0, 0.0) else (Mean(s), SeqMin(s), SeqMax(s))
  }

  function SummaryOf(fof2Errors: seq<real>, mufErrors: seq<real>): (r: ErrorSummary)
  {
    var f := Stats(fof2Errors);
    var m := Stats(mufErrors);
    ErrorSummary(f.0, m.0, f.1, f.2, m.1, m.2)
  }

  /** For each quantity the average lies between the smallest and the
      largest error, and all three are non-negative when the errors are. */
  lemma StatsOrdered(s: seq<real>)
    requires forall k :: 0 <= k < |s| ==> s[k] >= 0.0
    ensures 0.0 <= Stats(s).1 <= Stats(s).0 <= Stats(s).2
  {
    if s != [] {
      MeanBounds(s, SeqMin(s), SeqMax(s));
    }
  }

  lemma SummaryOrdered(fof2Errors: seq<real>, mufErrors: seq<real>)
    requires forall k :: 0 <= k < |fof2Errors| ==> fof2Errors[k] >= 0.0
    requires forall k :: 0 <= k < |mufErrors| ==> mufErrors[k] >= 0.0
    ensures var r := SummaryOf(fof2Errors, mufErrors);
      0.0 <= r.minFof2 <= r.avgFof2 <= r.maxFof2 && 0.0 <= r.minMuf <= r.avgMuf <= r.maxMuf
  {
    StatsOrdered(fof2Errors);
    StatsOrdered(mufErrors);
  }

  // ----------------------------------------------------- formula analysis

  datatype FormulaAnalysis = FormulaAnalysis(
    currentCoefficient: real, optimalCoefficient: real, adjustmentPct: real,
    currentMFactor: real, observedMFactor: real)

  /** The MUF/foF2 ratios of the comparisons with a positive foF2, in
      order (defined from the back). */
  function MFactorsOf(comparisons: seq<Comparison>): (r: seq<real>)
    ensures |r| <= |comparisons|
  {
    if comparisons == [] then []
    else
      var n := |comparisons| - 1;
      var c := comparisons[n];
      MFactorsOf(comparisons[..n]) + (if c.measuredFof2 > 0.0 then [c.measuredMuf / c.measuredFof2] else [])
  }

  /** The loop that collects the observed M-factors. */
  method ObservedMFactors(comparisons: seq<Comparison>) returns (mFactors: seq<real>)
    ensures mFactors == MFactorsOf(comparisons)
  {
    mFactors := [];
    var i := 0;
    while i < |comparisons|
      invariant 0 <= i <= |comparisons| && mFactors == MFactorsOf(comparisons[..i])
    {
      assert comparisons[..i + 1][..i] == comparisons[..i];
      var c := comparisons[i];
      if c.measuredFof2 > 0.0 {
        mFactors := mFactors + [c.measuredMuf / c.measuredFof2];
      }
      i := i + 1;
    }
    assert comparisons[..|comparisons|] == comparisons;
  }

  function MeasuredFof2(comparisons: seq<Comparison>): (r: seq<real>)
    ensures |r| == |comparisons| && forall k :: 0 <= k < |r| ==> r[k] == comparisons[k].measuredFof2
  {
    seq(|comparisons|, k requires 0 <= k < |comparisons| => comparisons[k].measuredFof2)
  }

  /** `_analyze_formula_accuracy` once the M-factors are known: nothing for
      no comparisons; otherwise the coefficient that would reproduce the
      mean measured foF2, the change it needs in percent, and the mean
      observed M-factor (3.0 when none was observed). */
  function AnalysisOf(comparisons: seq<Comparison>, root: real, mFactors: seq<real>): (r: Option<FormulaAnalysis>)
    ensures comparisons == [] <==> r.None?
    ensures r.Some? && mFactors == [] ==> r.value.observedMFactor == DEFAULT_M_FACTOR
    ensures r.Some? && root <= 0.0 ==> r.value.optimalCoefficient == MufCalculator.FOF2_COEFFICIENT && r.value.adjustmentPct == 0.0
  {
    if comparisons == [] then None
    else
      var coef := MufCalculator.FOF2_COEFFICIENT;
      var optimal := if root > 0.0 then Mean(MeasuredFof2(comparisons)) / root else coef;
      var m := if mFactors == [] then DEFAULT_M_FACTOR else Mean(mFactors);
      Some(FormulaAnalysis(coef, optimal, (optimal - coef) / coef * 100.0, MufCalculator.M_FACTOR_3000, m))
  }

  method AnalyzeFormulaAccuracy(comparisons: seq<Comparison>, root: real) returns (r: Option<FormulaAnalysis>)
    ensures r == AnalysisOf(comparisons, root, MFactorsOf(comparisons))
  {
    if comparisons == [] {
      return None;
    }
    var coef := MufCalculator.FOF2_COEFFICIENT;
    var measured := MeasuredFof2(comparisons);
    var optimal := if root > 0.0 then Sum(measured) / |measured| as real / root else coef;
    var mFactors := ObservedMFactors(comparisons);
    var m := if mFactors == [] then DEFAULT_M_FACTOR else Sum(mFactors) / |mFactors| as real;
    return Some(FormulaAnalysis(coef, optimal, (optimal - coef) / coef * 100.0, MufCalculator.M_FACTOR_3000, m));
  }

  /** When every station measures exactly the formula's foF2, the optimal
      coefficient is the current one and no adjustment is suggested. */
  lemma MatchingFormulaNeedsNoAdjustment(comparisons: seq<Comparison>, root: real, mFactors: seq<real>)
    requires comparisons != [] && root > 0.0
    requires forall k :: 0 <= k < |comparisons| ==> comparisons[k].measuredFof2 == MufCalculator.FOF2_COEFFICIENT * root
    ensures AnalysisOf(comparisons, root, mFactors).value.optimalCoefficient == MufCalculator.FOF2_COEFFICIENT
    ensures AnalysisOf(comparisons, root, mFactors).value.adjustmentPct == 0.0
  {
    var v := MufCalculator.FOF2_COEFFICIENT * root;
    MeanBounds(MeasuredFof2(comparisons), v, v);
  }

  /** When every station's MUF is k times its positive foF2, the observed
      M-factor is k. */
  lemma {:induction false} ProportionalMFactors(comparisons: seq<Comparison>, k: real)
    requires forall j :: 0 <= j < |comparisons| ==>
      comparisons[j].measuredFof2 > 0.0 && comparisons[j].measuredMuf == k * comparisons[j].measuredFof2
    ensures |MFactorsOf(comparisons)| == |comparisons|
    ensures forall j :: 0 <= j < |comparisons| ==> MFactorsOf(comparisons)[j] == k
  {
    if comparisons != [] {
      var n := |comparisons| - 1;
      ProportionalMFactors(comparisons[..n], k);
      var c := comparisons[n];
      assert c.measuredMuf / c.measuredFof2 == k;
    }
  }

  lemma ObservedMFactorIsRatio(comparisons: seq<Comparison>, root: real, k: real)
    requires comparisons != []
    requires forall j :: 0 <= j < |comparisons| ==>
      comparisons[j].measuredFof2 > 0.0 && comparisons[j].measuredMuf == k * comparisons[j].measuredFof2
    ensures AnalysisOf(comparisons, root, MFactorsOf(comparisons)).value.observedMFactor == k
  {
    ProportionalMFactors(comparisons, k);
    MeanBounds(MFactorsOf(comparisons), k, k);
  }

  // ------------------------------------------------------------ validation

  /** The message of the `ValueError` `math.sqrt` raises for a negative
      argument. */
  const MATH_DOMAIN_ERROR := "math domain error"

  /** `DomainError` is the exception `validate_muf_formula` lets escape
      when the SFI is negative and stations were fetched. */
  datatype FormulaValidation =
    | NoStations(error: string)
    | DomainError(error: string)
    | Validated(inputSfi: real, calculatedFof2: real, calculatedMuf: real, stationsCompared: nat,
                summary: ErrorSummary, comparisons: seq<Comparison>, analysis: Option<FormulaAnalysis>)

  /** `validate_muf_formula` over the filtered stations. `root` is the
      square root of the SFI and `ourMuf` the MUF the calculator reports
      for the reference location; both come from outside. A negative SFI
      has no square root: the check for stations comes first, then
      `math.sqrt` raises. */
  method ValidateMufFormula(stations: seq<MufCalculator.Station>, sfi: real, root: real, ourMuf: real)
    returns (v: FormulaValidation)
    requires sfi >= 0.0 ==> IsRootOf(root, sfi)
    ensures stations == [] <==> v.NoStations?
    ensures stations == [] ==> v.error == NO_DATA
    ensures stations != [] && sfi < 0.0 <==> v.DomainError?
    ensures v.DomainError? ==> v.error == MATH_DOMAIN_ERROR
    ensures v.Validated? ==>
      v.stationsCompared == |stations| == |v.comparisons| && v.inputSfi == sfi &&
      v.calculatedFof2 == MufCalculator.FOF2_COEFFICIENT * root && v.calculatedMuf == ourMuf &&
      v.comparisons == ComparisonsOf(stations, v.calculatedFof2, ourMuf) &&
      v.analysis == AnalysisOf(v.comparisons, root, MFactorsOf(v.comparisons)) &&
      v.summary == ComparisonSummary(v.comparisons)
  {
    if stations == [] {
      return NoStations(NO_DATA);
    }
    if sfi < 0.0 {
      return DomainError(MATH_DOMAIN_ERROR);
    }
    var ourFof2 := MufCalculator.FOF2_COEFFICIENT * root;
    var comparisons, fof2Errors, mufErrors := CompareStations(stations, ourFof2, ourMuf);
    assert fof2Errors == seq(|stations|, k requires 0 <= k < |stations| => comparisons[k].fof2ErrorPct);
    assert mufErrors == seq(|stations|, k requires 0 <= k < |stations| => comparisons[k].mufErrorPct);
    var summary := ErrorSummary(Sum(fof2Errors) / |fof2Errors| as real, Sum(mufErrors) / |mufErrors| as real,
                                SeqMin(fof2Errors), SeqMax(fof2Errors), SeqMin(mufErrors), SeqMax(mufErrors));
    var analysis := AnalyzeFormulaAccuracy(comparisons, root);
    return Validated(sfi, ourFof2, ourMuf, |comparisons|, summary, comparisons, analysis);
  }

  // --------------------------------------------------------------- report

  datatype Interpretation = Accurate | Moderate | NeedsImprovement

  /** The interpretation of the average MUF error: below 20, below 40,
      otherwise. */
  function InterpretationOf(avgMufError: real): (r: Interpretation)
    ensures r == Accurate <==> avgMufError < 20.0
    ensures r == Moderate <==> 20.0 <= avgMufError < 40.0
    ensures r == NeedsImprovement <==> avgMufError >= 40.0
  {
    if avgMufError < 20.0 then Accurate else if avgMufError < 40.0 then Moderate else NeedsImprovement
  }

  /** The parts of `run_validation_report` that depend on the data: the
      station rows shown, the "... and N more stations" count, and the
      interpretation. `ReportRaised` is the domain error, which the report
      does not catch either. */
  datatype Report =
    | ReportFailed(message: string)
    | ReportRaised(error: string)
    | ReportShown(shown: seq<Comparison>, more: Option<nat>, interpretation: Interpretation,
                  summary: ErrorSummary, analysis: Option<FormulaAnalysis>)

  function ReportOf(result: FormulaValidation): (r: Report)
    ensures result.NoStations? ==> r == ReportFailed("Validation failed: " + result.error)
    ensures result.DomainError? ==> r == ReportRaised(result.error)
    ensures result.Validated? ==> (
      r.ReportShown? && |r.shown| <= REPORT_STATIONS && |r.shown| <= |result.comparisons| &&
      r.shown == result.comparisons[..|r.shown|] &&
      (|result.comparisons| <= REPORT_STATIONS ==> r.shown == result.comparisons && r.more.None?) &&
      (|result.comparisons| > REPORT_STATIONS ==>
        |r.shown| == REPORT_STATIONS && r.more == Some(|result.comparisons| - REPORT_STATIONS)))
    ensures result.Validated? ==> r.interpretation == InterpretationOf(result.summary.avgMuf)
  {
    match result
    case NoStations(e) => ReportFailed("Validation failed: " + e)
    case DomainError(e) => ReportRaised(e)
    case Validated(_, _, _, _, summary, comparisons, analysis) =>
      var n := |comparisons|;
      var shown := if n <= REPORT_STATIONS then comparisons else comparisons[..REPORT_STATIONS];
      var more := if n > REPORT_STATIONS then Some(n - REPORT_STATIONS) else None;
      ReportShown(shown, more, InterpretationOf(summary.avgMuf), summary, analysis)
  }

  /** Every station is either shown or counted in the "more" line, exactly
      once. */
  lemma ReportAccountsForAllStations(result: FormulaValidation)
    requires result.Validated?
    ensures var r := ReportOf(result);
      |r.shown| + (if r.more.Some? then r.more.value else 0) == |result.comparisons|
  {
  }

  /** `run_validation_report` over the filtered stations. */
  method RunValidationReport(stations: seq<MufCalculator.Station>, sfi: real, root: real, ourMuf: real)
    returns (r: Report)
    requires sfi >= 0.0 ==> IsRootOf(root, sfi)
    ensures stations == [] ==> r == ReportFailed("Validation failed: " + NO_DATA)
    ensures stations != [] && sfi < 0.0 ==> r == ReportRaised(MATH_DOMAIN_ERROR)
    ensures stations != [] && sfi >= 0.0 ==> (
      r.ReportShown? && |r.shown| == (if |stations| <= REPORT_STATIONS then |stations| else REPORT_STATIONS) &&
      (r.more.Some? <==> |stations| > REPORT_STATIONS))
    ensures stations != [] && sfi >= 0.0 ==> (
      r.ReportShown? &&
      r.shown == ComparisonsOf(stations, MufCalculator.FOF2_COEFFICIENT * root, ourMuf)[..|r.shown|] &&
      r.summary == ComparisonSummary(ComparisonsOf(stations, MufCalculator.FOF2_COEFFICIENT * root, ourMuf)) &&
      r.interpretation == InterpretationOf(r.summary.avgMuf))
  {
    var result := ValidateMufFormula(stations, sfi, root, ourMuf);
    r := ReportOf(result);
  }
}
