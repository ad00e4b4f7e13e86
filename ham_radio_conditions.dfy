/** The application object of ham_radio_conditions.py: the solar-cycle
    summary derived from the solar flux index, the JSON scrubbing of
    report values, the overall and MUF confidence rules, the update-check
    throttle and the cached report. The data providers and calculators
    the report is built from are modelled in their own modules; here what
    they returned is an input, and the wall clock is a parameter. */
module HamRadioConditions {
  import opened Common
  import opened Text
  import CacheManagement

  // ------------------------------------------------------ solar cycle

  /** The six phases `_get_solar_cycle_info` names, from the top. */
  datatype Phase = SolarMaximum | RisingSolarMaximum | RisingPhase | EarlyRisingPhase | SolarMinimum | DeepSolarMinimum

  /** The four flux trends. */
  datatype Trend = StronglyRising | Rising | Stable | Low

  /** The phase thresholds, each reached with `>=`. */
  const PHASE_THRESHOLDS: seq<real> := [60.0, 80.0, 100.0, 120.0, 150.0]

  /** The trend thresholds, each passed only with `>`. */
  const TREND_THRESHOLDS: seq<real> := [80.0, 100.0, 120.0]

  /** How many of `ts` the flux reaches (`>=`). */
  function Reached(sfi: real, ts: seq<real>): (r: nat)
    ensures r <= |ts|
  {
    if ts == [] then 0 else (if sfi >= ts[0] then 1 else 0) + Reached(sfi, ts[1..])
  }

  /** How many of `ts` the flux passes (`>`). */
  function Passed(sfi: real, ts: seq<real>): (r: nat)
    ensures r <= |ts|
  {
    if ts == [] then 0 else (if sfi > ts[0] then 1 else 0) + Passed(sfi, ts[1..])
  }

  /** A higher flux reaches and passes at least as many thresholds. */
  lemma {:induction false} CountsMonotone(a: real, b: real, ts: seq<real>)
    requires a <= b
    ensures Reached(a, ts) <= Reached(b, ts) && Passed(a, ts) <= Passed(b, ts)
  {
    if ts != [] {
      CountsMonotone(a, b, ts[1..]);
    }
  }

  /** Steps above the deepest minimum. */
  function PhaseRank(p: Phase): (r: nat)
    ensures r <= 5
  {
    match p
    case DeepSolarMinimum => 0
    case SolarMinimum => 1
    case EarlyRisingPhase => 2
    case RisingPhase => 3
    case RisingSolarMaximum => 4
    case SolarMaximum => 5
  }

  function TrendRank(t: Trend): (r: nat)
    ensures r <= 3
  {
    match t
    case Low => 0
    case Stable => 1
    case Rising => 2
    case StronglyRising => 3
  }

  lemma PhaseCount(sfi: real)
    ensures Reached(sfi, PHASE_THRESHOLDS) ==
      (if sfi >= 60.0 then 1 else 0) + (if sfi >= 80.0 then 1 else 0) + (if sfi >= 100.0 then 1 else 0) +
      (if sfi >= 120.0 then 1 else 0) + (if sfi >= 150.0 then 1 else 0)
  {
    var ts := PHASE_THRESHOLDS;
    assert Reached(sfi, ts[4..]) == (if sfi >= 150.0 then 1 else 0) by { assert ts[4..][1..] == []; }
    assert Reached(sfi, ts[3..]) == (if sfi >= 120.0 then 1 else 0) + Reached(sfi, ts[4..]) by { assert ts[3..][1..] == ts[4..]; }
    assert Reached(sfi, ts[2..]) == (if sfi >= 100.0 then 1 else 0) + Reached(sfi, ts[3..]) by { assert ts[2..][1..] == ts[3..]; }
    assert Reached(sfi, ts[1..]) == (if sfi >= 80.0 then 1 else 0) + Reached(sfi, ts[2..]) by { assert ts[1..][1..] == ts[2..]; }
  }

  lemma TrendCount(sfi: real)
    ensures Passed(sfi, TREND_THRESHOLDS) == (if sfi > 80.0 then 1 else 0) + (if sfi > 100.0 then 1 else 0) + (if sfi > 120.0 then 1 else 0)
  {
    var ts := TREND_THRESHOLDS;
    assert Passed(sfi, ts[2..]) == (if sfi > 120.0 then 1 else 0) by { assert ts[2..][1..] == []; }
    assert Passed(sfi, ts[1..]) == (if sfi > 100.0 then 1 else 0) + Passed(sfi, ts[2..]) by { assert ts[1..][1..] == ts[2..]; }
  }

  /** The phase chain of `_get_solar_cycle_info`: the phase is the one
      whose rank is the number of phase thresholds the flux reaches. */
  function PhaseOf(sfi: real): (r: Phase)
    ensures PhaseRank(r) == Reached(sfi, PHASE_THRESHOLDS)
    ensures r == SolarMaximum <==> sfi >= 150.0
    ensures r == DeepSolarMinimum <==> sfi < 60.0
  {
    PhaseCount(sfi);
    if sfi >= 150.0 then SolarMaximum
    else if sfi >= 120.0 then RisingSolarMaximum
    else if sfi >= 100.0 then RisingPhase
    else if sfi >= 80.0 then EarlyRisingPhase
    else if sfi >= 60.0 then SolarMinimum
    else DeepSolarMinimum
  }

  /** The trend chain: the rank is the number of trend thresholds the flux
      strictly passes. */
  function TrendOf(sfi: real): (r: Trend)
    ensures TrendRank(r) == Passed(sfi, TREND_THRESHOLDS)
    ensures r == StronglyRising <==> sfi > 120.0
    ensures r == Low <==> sfi <= 80.0
  {
    TrendCount(sfi);
    if sfi > 120.0 then StronglyRising
    else if sfi > 100.0 then Rising
    else if sfi > 80.0 then Stable
    else Low
  }

  /** A higher flux never gives a lower phase or trend. */
  lemma PhaseAndTrendMonotone(a: real, b: real)
    requires a <= b
    ensures PhaseRank(PhaseOf(a)) <= PhaseRank(PhaseOf(b))
    ensures TrendRank(TrendOf(a)) <= TrendRank(TrendOf(b))
  {
    CountsMonotone(a, b, PHASE_THRESHOLDS);
    CountsMonotone(a, b, TREND_THRESHOLDS);
  }

  /** Because the phases use `>=` and the trends `>`, the trend trails the
      phase: from the solar minimum on it is one or two steps below it. */
  lemma TrendTrailsPhase(sfi: real)
    ensures sfi >= 60.0 ==> PhaseRank(PhaseOf(sfi)) - 2 <= TrendRank(TrendOf(sfi)) < PhaseRank(PhaseOf(sfi))
    ensures sfi < 60.0 ==> TrendOf(sfi) == Low
  {
  }

  /** A flux of exactly 120 is a rising maximum with a merely rising trend. */
  lemma Sfi120()
    ensures PhaseOf(120.0) == RisingSolarMaximum && TrendOf(120.0) == Rising
  {
  }

  function PhaseName(p: Phase): string
  {
    match p
    case SolarMaximum => "Solar Maximum"
    case RisingSolarMaximum => "Rising Solar Maximum"
    case RisingPhase => "Rising Phase"
    case EarlyRisingPhase => "Early Rising Phase"
    case SolarMinimum => "Solar Minimum"
    case DeepSolarMinimum => "Deep Solar Minimum"
  }

  function PhasePrediction(p: Phase): string
  {
    match p
    case SolarMaximum => "Excellent HF conditions expected across all bands"
    case RisingSolarMaximum => "Very good HF conditions, optimal for 20m, 15m, 10m DX"
    case RisingPhase => "Good HF conditions, favorable for 20m, 40m DX"
    case EarlyRisingPhase => "Fair conditions improving, focus on 40m, 80m"
    case SolarMinimum => "Poor HF conditions, focus on lower bands (80m, 40m)"
    case DeepSolarMinimum => "Very poor HF conditions, local contacts only"
  }

  function PhaseDescription(p: Phase): string
  {
    match p
    case SolarMaximum => "Peak solar activity with maximum ionization"
    case RisingSolarMaximum => "Strong solar activity, F2 layer well developed"
    case RisingPhase => "Good solar activity, F2 layer active"
    case EarlyRisingPhase => "Moderate solar activity, F2 layer developing"
    case SolarMinimum => "Low solar activity, limited F2 layer ionization"
    case DeepSolarMinimum => "Minimal solar activity, F2 layer weak"
  }

  function CyclePosition(p: Phase): string
  {
    match p
    case SolarMaximum => "Peak (100%)"
    case RisingSolarMaximum => "Near Peak (85-95%)"
    case RisingPhase => "Rising (70-85%)"
    case EarlyRisingPhase => "Early Rise (50-70%)"
    case SolarMinimum => "Near Minimum (20-50%)"
    case DeepSolarMinimum => "Minimum (0-20%)"
  }

  function TrendName(t: Trend): string
  {
    match t
    case StronglyRising => "Strongly Rising"
    case Rising => "Rising"
    case Stable => "Stable"
    case Low => "Low"
  }

  function TrendDescription(t: Trend): string
  {
    match t
    case StronglyRising => "SFI > 120 indicates excellent solar activity"
    case Rising => "SFI 100-120 shows very good conditions"
    case Stable => "SFI 80-100 indicates stable conditions"
    case Low => "SFI < 80 shows reduced solar activity"
  }

  /** The phase shown in the report names the phase: no two share a name. */
  lemma PhaseNamesDistinct(p: Phase, q: Phase)
    ensures PhaseName(p) == PhaseName(q) ==> p == q
  {
  }

  /** The result of `_get_solar_cycle_info`: the phase, flux, sunspot text
      and trend (the texts follow from the phase and the trend), or the
      'Unknown' answer when the flux text is not a number. */
  datatype CycleInfo = Known(phase: Phase, sfi: real, sunspots: string, trend: Trend) | Unknown

  /** The flux text: `str(sfi)` with " SFI" removed (the default '100'
      when the reading has no flux), read by `float`. */
  function SfiReading(sfi: Option<string>): (r: Option<real>)
  {
    ParseFloat(Strip(ReplaceAll(sfi.GetOr("100"), " SFI", "")))
  }

  /** `_get_solar_cycle_info`. */
  function SolarCycleInfo(sfi: Option<string>, sunspots: Option<string>): (r: CycleInfo)
    ensures r.Unknown? <==> SfiReading(sfi).None?
    ensures r.Known? ==> SfiReading(sfi) == Some(r.sfi) && r.sunspots == sunspots.GetOr("N/A")
    ensures r.Known? ==> r.phase == PhaseOf(r.sfi) && r.trend == TrendOf(r.sfi)
  {
    match SfiReading(sfi)
    case None => Unknown
    case Some(x) => Known(PhaseOf(x), x, sunspots.GetOr("N/A"), TrendOf(x))
  }

  /** Replacing a pattern in a text that lacks its first character
      changes nothing. */
  lemma {:induction false} ReplaceLacking(a: string, pat: string)
    requires |pat| > 0 && forall i :: 0 <= i < |a| ==> a[i] != pat[0]
    ensures ReplaceAll(a, pat, "") == a
    decreases |a|
  {
    if |a| >= |pat| {
      assert a[..|pat|][0] == a[0];
      ReplaceLacking(a[1..], pat);
      assert a == [a[0]] + a[1..];
    }
  }

  /** Removing a pattern from the end of a text that lacks its first
      character leaves the text. */
  lemma {:induction false} ReplaceSuffix(a: string, pat: string)
    requires |pat| > 0 && forall i :: 0 <= i < |a| ==> a[i] != pat[0]
    ensures ReplaceAll(a + pat, pat, "") == a
    decreases |a|
  {
    var s := a + pat;
    if a == [] {
      assert s[..|pat|] == pat && s[|pat|..] == [];
    } else {
      assert s[..|pat|][0] == a[0];
      assert s[1..] == a[1..] + pat;
      ReplaceSuffix(a[1..], pat);
      assert s == [a[0]] + s[1..];
    }
  }

  /** A flux given as a whole number, with or without the " SFI" unit,
      is read as that number. */
  lemma WholeSfi(n: nat, unit: bool)
    ensures SfiReading(Some(NatToString(n) + (if unit then " SFI" else ""))) == Some(n as real)
  {
    var a := NatToString(n);
    assert forall i :: 0 <= i < |a| ==> a[i] != ' ' by {
      assert IsDigits(a);
    }
    if unit {
      ReplaceSuffix(a, " SFI");
    } else {
      assert a + "" == a;
      ReplaceLacking(a, " SFI");
    }
    assert AllDigits(a);
    NoSpaceStrip(a);
    ParseNatToString(n);
  }

  /** A reading without a flux is taken as 100: a rising phase with a
      stable trend. */
  lemma MissingSfi(sunspots: Option<string>)
    ensures SolarCycleInfo(None, sunspots) == Known(RisingPhase, 100.0, sunspots.GetOr("N/A"), Stable)
  {
    assert NatToString(1) == "1";
    assert NatToString(10) == "10";
    assert NatToString(100) == "100";
    assert NatToString(100) + "" == "100";
    WholeSfi(100, false);
  }

  // ------------------------------------------------------ safe_json_serialize

  /** A Python float: a finite value, NaN or an infinity. */
  datatype Float = Finite(x: real) | NaN | PosInf | NegInf

  /** The values a report holds; `PyOther` is any other object, carrying
      what `str` gives for it. */
  datatype PyValue =
    | PyFloat(f: Float)
    | PyInt(i: int)
    | PyStr(s: string)
    | PyBool(b: bool)
    | PyNone
    | PyDict(members: seq<Member>)
    | PyList(items: seq<PyValue>)
    | PyOther(text: string)

  /** A dictionary entry, in insertion order. */
  datatype Member = Member(key: string, value: PyValue)

  /** A value JSON can carry: no NaN or infinity, which section 6 of
      RFC 8259 excludes from numbers, and no object of another kind. */
  predicate JsonSafe(v: PyValue)
  {
    match v
    case PyFloat(f) => f.Finite?
    case PyOther(_) => false
    case PyDict(ms) => forall i :: 0 <= i < |ms| ==> JsonSafe(ms[i].value)
    case PyList(items) => forall i :: 0 <= i < |items| ==> JsonSafe(items[i])
    case _ => true
  }

  function Keys(ms: seq<Member>): (r: seq<string>)
    ensures |r| == |ms| && forall i :: 0 <= i < |ms| ==> r[i] == ms[i].key
  {
    seq(|ms|, i requires 0 <= i < |ms| => ms[i].key)
  }

  /** `safe_json_serialize`: non-finite floats become "N/A", other
      objects their text, dictionaries and lists are scrubbed entry by
      entry, and ints, strings, booleans and None pass through. */
  function Serialize(v: PyValue): (r: PyValue)
    ensures JsonSafe(r)
    ensures v.PyFloat? ==> r == (if v.f.Finite? then v else PyStr("N/A"))
    ensures v.PyInt? || v.PyStr? || v.PyBool? || v.PyNone? ==> r == v
    ensures v.PyOther? ==> r == PyStr(v.text)
    ensures v.PyDict? ==> r.PyDict? && Keys(r.members) == Keys(v.members)
    ensures v.PyList? ==> r.PyList? && |r.items| == |v.items|
  {
    match v
    case PyFloat(f) => if f.Finite? then v else PyStr("N/A")
    case PyDict(ms) => PyDict(seq(|ms|, i requires 0 <= i < |ms| => Member(ms[i].key, Serialize(ms[i].value))))
    case PyList(items) => PyList(seq(|items|, i requires 0 <= i < |items| => Serialize(items[i])))
    case PyOther(text) => PyStr(text)
    case _ => v
  }

  /** A value that is already safe is returned as it is. */
  lemma {:induction false} SerializeSafe(v: PyValue)
    requires JsonSafe(v)
    ensures Serialize(v) == v
  {
    match v
    case PyDict(ms) =>
      forall i | 0 <= i < |ms| ensures Serialize(ms[i].value) == ms[i].value {
        SerializeSafe(ms[i].value);
      }
      assert Serialize(v).members == ms;
    case PyList(items) =>
      forall i | 0 <= i < |items| ensures Serialize(items[i]) == items[i] {
        SerializeSafe(items[i]);
      }
      assert Serialize(v).items == items;
    case _ =>
  }

  /** Scrubbing twice is scrubbing once. */
  lemma SerializeIdempotent(v: PyValue)
    ensures Serialize(Serialize(v)) == Serialize(v)
  {
    SerializeSafe(Serialize(v));
  }

  // ------------------------------------------------------ confidences

  /** `_calculate_overall_confidence`: the mean of the MUF and propagation
      confidences, a missing one counting as 0.5. */
  function OverallConfidence(mufConfidence: Option<real>, propagationConfidence: Option<real>): (r: real)
    ensures var m, p := mufConfidence.GetOr(0.5), propagationConfidence.GetOr(0.5);
      Min(m, p) <= r <= Max(m, p) && r - m == p - r
    ensures mufConfidence.None? && propagationConfidence.None? ==> r == 0.5
  {
    (mufConfidence.GetOr(0.5) + propagationConfidence.GetOr(0.5)) / 2.0
  }

  /** The mean does not depend on which confidence is which. */
  lemma OverallConfidenceSymmetric(a: Option<real>, b: Option<real>)
    ensures OverallConfidence(a, b) == OverallConfidence(b, a)
  {
  }

  /** How `get_propagation_summary` shows the MUF confidence: as a
      percentage (the rounding of `:.0%` aside) or as 'Low (Estimated)'. */
  datatype ConfidenceText = Percent(value: real) | LowEstimated

  function MufConfidenceText(confidence: Option<real>): (r: ConfidenceText)
    ensures r.Percent? <==> confidence.GetOr(0.5) >= 0.7
    ensures r.Percent? ==> r.value == confidence.GetOr(0.5) * 100.0 && r.value >= 70.0
    ensures confidence.None? ==> r == LowEstimated
  {
    var c := confidence.GetOr(0.5);
    if c >= 0.7 then Percent(c * 100.0) else LowEstimated
  }

  // ------------------------------------------------------ update checks

  /** Whether `check_for_updates` records a new check: when forced, when
      no check has been made (`last_update_check` is 0, which is falsy),
      or when an interval has passed. */
  predicate ShouldCheck(force: bool, last: real, now: real, interval: real)
  {
    force || last == 0.0 || now - last >= interval
  }

  /** The times at which a run of unforced calls at `times` records a
      check, starting from the last recorded check `last`. */
  function Checks(last: real, times: seq<real>, interval: real): (r: seq<real>)
    ensures |r| <= |times|
    ensures forall i :: 0 <= i < |r| ==> r[i] in times
    decreases |times|
  {
    if times == [] then []
    else if ShouldCheck(false, last, times[0], interval) then [times[0]] + Checks(times[0], times[1..], interval)
    else Checks(last, times[1..], interval)
  }

  /** The throttle: unforced calls at non-zero times record checks at least
      one interval apart, and the first one at least an interval after an
      earlier recorded check. */
  lemma {:induction false} ChecksSpaced(last: real, times: seq<real>, interval: real)
    requires forall i :: 0 <= i < |times| ==> times[i] != 0.0
    decreases |times|
    ensures var r := Checks(last, times, interval);
      (forall i :: 0 <= i < |r| - 1 ==> r[i + 1] - r[i] >= interval) &&
      (last != 0.0 && |r| > 0 ==> r[0] - last >= interval)
  {
    if times != [] {
      var r := Checks(last, times, interval);
      if ShouldCheck(false, last, times[0], interval) {
        ChecksSpaced(times[0], times[1..], interval);
        var rest := Checks(times[0], times[1..], interval);
        assert r == [times[0]] + rest;
        forall i | 0 <= i < |r| - 1 ensures r[i + 1] - r[i] >= interval {
          if i > 0 {
            assert r[i] == rest[i - 1] && r[i + 1] == rest[i];
          }
        }
      } else {
        ChecksSpaced(last, times[1..], interval);
      }
    }
  }

  datatype UpdateStatus = UpdateStatus(status: string, progress: int, message: string)

  datatype VersionInfo = VersionInfo(version: string, buildDate: string, currentVersion: string,
                                     latestVersion: string, updateAvailable: bool, lastCheck: real)

  datatype InstallReply = InstallReply(status: string, message: string)

  // ------------------------------------------------------ the report

  /** The five sections of a report, as the providers and calculators
      returned them. */
  datatype Sections = Sections(solar: PyValue, weather: PyValue, band: PyValue,
                               propagation: PyValue, liveActivity: PyValue)

  datatype Report = Report(timestamp: string, callsign: string, sections: Sections)

  const REPORT_MAX_AGE: int := 600

  /** The `HamRadioConditions` object, reduced to the state the modelled
      operations read and write. */
  class Conditions {
    const version: string
    const buildDate: string
    const updateCheckInterval: real
    const callsign: string
    var lastUpdateCheck: real
    var updateStatus: UpdateStatus

    /** `__init__`: version 2.1.0, no check made yet, an hourly interval,
        an idle update and the `CALLSIGN` setting or N0CALL. */
    constructor(callsignSetting: Option<string>)
      ensures version == "2.1.0" && buildDate == "2024-12-19" && updateCheckInterval == 3600.0
      ensures lastUpdateCheck == 0.0 && updateStatus == UpdateStatus("idle", 0, "")
      ensures callsign == callsignSetting.GetOr("N0CALL")
    {
      version := "2.1.0";
      buildDate := "2024-12-19";
      updateCheckInterval := 3600.0;
      callsign := callsignSetting.GetOr("N0CALL");
      lastUpdateCheck := 0.0;
      updateStatus := UpdateStatus("idle", 0, "");
    }

    /** `get_version_info`: the latest version is the current one, no
        update is offered, and the last check is reported. */
    function VersionInformation(): (r: VersionInfo)
      reads this
      ensures r.version == version && r.currentVersion == version && r.latestVersion == version
      ensures !r.updateAvailable && r.lastCheck == lastUpdateCheck
    {
      VersionInfo(version, buildDate, version, version, false, lastUpdateCheck)
    }

    /** `check_for_updates` at clock time `now`: the check is recorded
        exactly when `ShouldCheck` holds; nothing else changes. */
    method CheckForUpdates(forceCheck: bool, now: real) returns (info: VersionInfo)
      modifies this`lastUpdateCheck
      ensures lastUpdateCheck == if ShouldCheck(forceCheck, old(lastUpdateCheck), now, updateCheckInterval)
                                 then now else old(lastUpdateCheck)
      ensures info == VersionInformation()
    {
      if !forceCheck && lastUpdateCheck != 0.0 && now - lastUpdateCheck < updateCheckInterval {
        return VersionInformation();
      }
      lastUpdateCheck := now;
      return VersionInformation();
    }

    /** `install_update`: the status becomes 'installing' at progress 0. */
    method InstallUpdate(updateType: string) returns (reply: InstallReply)
      modifies this`updateStatus
      ensures updateStatus == UpdateStatus("installing", 0, "Starting update...")
      ensures reply == InstallReply("started", "Update started")
    {
      updateStatus := UpdateStatus("installing", 0, "Starting update...");
      reply := InstallReply("started", "Update started");
    }

    /** `generate_report` at clock time `now`, `stamp` being its rendering:
        a cached report comes back with only its timestamp replaced;
        otherwise the report is built from `sections` and cached for ten
        minutes. `size` is the stored report's estimated size. */
    method GenerateReport(cache: CacheManagement.CacheManager<Report>, now: int, stamp: string,
                          sections: Sections, size: nat) returns (r: Report)
      requires cache.Valid()
      modifies cache
      ensures cache.Valid() && cache.configs == old(cache.configs)
      ensures "conditions" in old(cache.caches) && CacheManagement.Lookup(old(cache.caches)["conditions"], "current", now).Some? ==>
        r == CacheManagement.Lookup(old(cache.caches)["conditions"], "current", now).value.(timestamp := stamp)
      ensures ("conditions" !in old(cache.caches) || CacheManagement.Lookup(old(cache.caches)["conditions"], "current", now).None?) ==>
        r == Report(stamp, callsign, sections)
      ensures ("conditions" in old(cache.caches) && CacheManagement.Lookup(old(cache.caches)["conditions"], "current", now).None?) ==>
        "conditions" in cache.caches &&
        forall t :: t <= now + REPORT_MAX_AGE ==> CacheManagement.Lookup(cache.caches["conditions"], "current", t) == Some(r)
    {
      var cached := cache.Get("conditions", "current", now);
      if cached.Some? {
        return cached.value.(timestamp := stamp);
      }
      r := Report(stamp, callsign, sections);
      ghost var present := "conditions" in cache.caches;
      ghost var before := if present then cache.caches["conditions"] else [];
      var _ := cache.Set("conditions", "current", r, Some(REPORT_MAX_AGE), size, now);
      forall t | present && t <= now + REPORT_MAX_AGE
        ensures CacheManagement.Lookup(cache.caches["conditions"], "current", t) == Some(r)
      {
        CacheManagement.SetThenGet(before, "current", r, REPORT_MAX_AGE, size, now,
                                   cache.SizeLimit("conditions"), cache.MemoryLimit("conditions"), t);
      }
    }
  }
}
