/** Post-processing of amateur-radio spots (data_sources/spots_data.py):
    acceptance of decoded reports, band bucketing, merging of the sources
    and the cached entry point. Fetching and XML/HTML decoding are not
    modelled; the decoded fields are inputs. */
module SpotsData {
  import opened Common
  import opened Sorting
  import CacheManagement

  datatype Spot = Spot(callsign: string, frequency: real, mode: string, snr: int, dxcc: string, source: string)

  /** A spot is kept only with a callsign and a positive frequency. */
  predicate Accepted(s: Spot)
  {
    s.callsign != "" && s.frequency > 0.0
  }

  // ------------------------------------------------------ PSKReporter

  /** An integer attribute: blank or missing (read as 0), text `int()`
      rejects, or a number. */
  datatype IntField = Blank | Unparsable | IntValue(n: int)

  /** A decoded reception report. `frequencyHz` is `None` when the
      attribute does not parse as a number. */
  datatype PskReport = PskReport(senderCallsign: string, frequencyHz: Option<real>, mode: Option<string>,
                                 snr: IntField, dxcc: string)

  const PSK_REPORT_LIMIT: nat := 100

  /** The spot of one report, or `None` when parsing raises and the report
      is skipped. The frequency is converted from Hz to MHz. */
  function PskSpot(rep: PskReport): (r: Option<Spot>)
    ensures r.Some? <==> rep.frequencyHz.Some? && !rep.snr.Unparsable?
    ensures r.Some? ==> r.value.frequency == rep.frequencyHz.value / 1000000.0 && r.value.source == "PSKReporter"
  {
    if rep.frequencyHz.None? || rep.snr.Unparsable? then None
    else
      var snr := if rep.snr.IntValue? then rep.snr.n else 0;
      Some(Spot(rep.senderCallsign, rep.frequencyHz.value / 1000000.0, rep.mode.GetOr("Unknown"), snr, rep.dxcc, "PSKReporter"))
  }

  /** The accepted spots of `reports`, in order (defined from the back). */
  function PskSpots(reports: seq<PskReport>): (r: seq<Spot>)
    ensures |r| <= |reports|
    ensures forall k :: 0 <= k < |r| ==> Accepted(r[k]) && r[k].source == "PSKReporter"
  {
    if reports == [] then []
    else
      var n := |reports| - 1;
      var s := PskSpot(reports[n]);
      PskSpots(reports[..n]) + (if s.Some? && Accepted(s.value) then [s.value] else [])
  }

  /** The report loop of `_get_pskreporter_spots`: at most the first 100
      reports are read. */
  method ParsePskReports(reports: seq<PskReport>) returns (spots: seq<Spot>)
    ensures spots == PskSpots(reports[..if |reports| < PSK_REPORT_LIMIT then |reports| else PSK_REPORT_LIMIT])
    ensures |spots| <= PSK_REPORT_LIMIT
  {
    var taken := if |reports| < PSK_REPORT_LIMIT then reports else reports[..PSK_REPORT_LIMIT];
    spots := [];
    var i := 0;
    while i < |taken|
      invariant 0 <= i <= |taken| && spots == PskSpots(taken[..i])
    {
      assert taken[..i + 1][..i] == taken[..i];
      var s := PskSpot(taken[i]);
      if s.Some? && Accepted(s.value) {
        spots := spots + [s.value];
      }
      i := i + 1;
    }
    assert taken[..|taken|] == taken;
  }

  // ----------------------------------------------------------- WSPRNet

  /** A decoded table row: its number of cells and the fields read from
      them. `frequency` is `None` when the cell is empty or not a number. */
  datatype WsprRow = WsprRow(cells: nat, callsign: string, frequency: Option<real>, snr: int)

  /** Rows after the two header rows with at least ten cells give a WSPR
      spot, kept when accepted. */
  function WsprSpots(rows: seq<WsprRow>): (r: seq<Spot>)
    ensures forall k :: 0 <= k < |r| ==> Accepted(r[k]) && r[k].mode == "WSPR"
    decreases |rows|
  {
    if |rows| <= 2 then []
    else
      var n := |rows| - 1;
      var row := rows[n];
      var s := Spot(row.callsign, row.frequency.GetOr(0.0), "WSPR", row.snr, "", "WSPRNet");
      WsprSpots(rows[..n]) + (if row.cells >= 10 && row.frequency.Some? && Accepted(s) then [s] else [])
  }

  // ------------------------------------------------------ band activity

  /** The band plan of `_analyze_band_activity`: name, lowest and highest
      frequency in MHz. */
  const SPOT_BANDS: seq<(string, real, real)> := [
    ("160m", 1.8, 2.0), ("80m", 3.5, 4.0), ("60m", 5.3, 5.4), ("40m", 7.0, 7.3),
    ("30m", 10.1, 10.15), ("20m", 14.0, 14.35), ("17m", 18.068, 18.168), ("15m", 21.0, 21.45),
    ("12m", 24.89, 24.99), ("10m", 28.0, 29.7), ("6m", 50.0, 54.0)]

  /** Each band lies wholly below the next one. */
  ghost predicate Ascending(bands: seq<(string, real, real)>)
  {
    forall i, j :: 0 <= i < j < |bands| ==> bands[i].2 < bands[j].1
  }

  lemma SpotBandsAscending()
    ensures Ascending(SPOT_BANDS)
    ensures forall i :: 0 <= i < |SPOT_BANDS| ==> SPOT_BANDS[i].1 <= SPOT_BANDS[i].2
  {
  }

  datatype BandActivity = BandActivity(count: nat, avgSnr: real, modes: set<string>)

  predicate InRange(s: Spot, lo: real, hi: real)
  {
    lo <= s.frequency <= hi
  }

  function BandSpots(spots: seq<Spot>, lo: real, hi: real): (r: seq<Spot>)
    ensures |r| <= |spots|
  {
    Filter(spots, s => InRange(s, lo, hi))
  }

  function Snrs(spots: seq<Spot>): (r: seq<real>)
    ensures |r| == |spots| && forall k :: 0 <= k < |r| ==> r[k] == spots[k].snr as real
  {
    seq(|spots|, k requires 0 <= k < |spots| => spots[k].snr as real)
  }

  function ModesOf(spots: seq<Spot>): (r: set<string>)
  {
    set s | s in spots :: s.mode
  }

  /** The entry of one band: the spots in its range counted, their mean
      SNR and their modes; a band without spots reads 0, 0 and no mode. */
  function ActivityIn(spots: seq<Spot>, lo: real, hi: real): (r: BandActivity)
    ensures r.count == |BandSpots(spots, lo, hi)|
    ensures r.count == 0 ==> r.avgSnr == 0.0 && r.modes == {}
    ensures r.modes == ModesOf(BandSpots(spots, lo, hi))
  {
    var b := BandSpots(spots, lo, hi);
    if b == [] then BandActivity(0, 0.0, {}) else BandActivity(|b|, Mean(Snrs(b)), ModesOf(b))
  }

  /** `_analyze_band_activity`: one entry per band of the plan, in order. */
  function AnalyzeBandActivity(spots: seq<Spot>): (r: seq<(string, BandActivity)>)
    ensures |r| == |SPOT_BANDS| == 11
    ensures forall i :: 0 <= i < |r| ==>
      (r[i].0 == SPOT_BANDS[i].0 && r[i].1 == ActivityIn(spots, SPOT_BANDS[i].1, SPOT_BANDS[i].2))
  {
    seq(|SPOT_BANDS|, i requires 0 <= i < |SPOT_BANDS| =>
      (SPOT_BANDS[i].0, ActivityIn(spots, SPOT_BANDS[i].1, SPOT_BANDS[i].2)))
  }

  /** The sum of the band counts. */
  function TotalCount(activity: seq<(string, BandActivity)>): (r: nat)
  {
    if activity == [] then 0 else activity[0].1.count + TotalCount(activity[1..])
  }

  /** How many of `bands` contain the frequency f. */
  function Hits(bands: seq<(string, real, real)>, f: real): (r: nat)
  {
    if bands == [] then 0 else (if bands[0].1 <= f <= bands[0].2 then 1 else 0) + Hits(bands[1..], f)
  }

  lemma {:induction false} HitsAtMostOne(bands: seq<(string, real, real)>, f: real)
    requires Ascending(bands)
    ensures Hits(bands, f) <= 1
  {
    if bands != [] {
      assert Ascending(bands[1..]) by {
        forall i, j | 0 <= i < j < |bands[1..]| ensures bands[1..][i].2 < bands[1..][j].1 {
          assert bands[1..][i] == bands[i + 1] && bands[1..][j] == bands[j + 1];
        }
      }
      HitsAtMostOne(bands[1..], f);
      if bands[0].1 <= f <= bands[0].2 {
        var rest := bands[1..];
        forall k | 0 <= k < |rest| ensures f < rest[k].1 {
          assert rest[k] == bands[k + 1];
        }
        NoHitsBelow(rest, f);
      }
    }
  }

  lemma {:induction false} NoHitsBelow(bands: seq<(string, real, real)>, f: real)
    requires forall k :: 0 <= k < |bands| ==> f < bands[k].1
    ensures Hits(bands, f) == 0
  {
    if bands != [] {
      var rest := bands[1..];
      assert forall k :: 0 <= k < |rest| ==> rest[k] == bands[k + 1];
      NoHitsBelow(rest, f);
    }
  }

  /** The per-band counts of `bands` over `spots`. */
  function CountsOver(bands: seq<(string, real, real)>, spots: seq<Spot>): (r: nat)
  {
    if bands == [] then 0 else |BandSpots(spots, bands[0].1, bands[0].2)| + CountsOver(bands[1..], spots)
  }

  lemma {:induction false} CountsOverStep(bands: seq<(string, real, real)>, x: Spot, rest: seq<Spot>)
    ensures CountsOver(bands, [x] + rest) == CountsOver(bands, rest) + Hits(bands, x.frequency)
  {
    if bands != [] {
      CountsOverStep(bands[1..], x, rest);
      assert ([x] + rest)[1..] == rest;
    }
  }

  lemma {:induction false} CountsOverAtMostSpots(bands: seq<(string, real, real)>, spots: seq<Spot>)
    requires Ascending(bands)
    ensures CountsOver(bands, spots) <= |spots|
  {
    if spots == [] {
      EmptyCounts(bands);
    } else {
      assert spots == [spots[0]] + spots[1..];
      CountsOverStep(bands, spots[0], spots[1..]);
      HitsAtMostOne(bands, spots[0].frequency);
      CountsOverAtMostSpots(bands, spots[1..]);
    }
  }

  lemma {:induction false} EmptyCounts(bands: seq<(string, real, real)>)
    ensures CountsOver(bands, []) == 0
  {
    if bands != [] {
      EmptyCounts(bands[1..]);
    }
  }

  /** Entries whose counts are the range hits of `bands` add up to the
      per-band counts of `bands`. */
  lemma {:induction false} TotalIsCountsOver(a: seq<(string, BandActivity)>, bands: seq<(string, real, real)>, spots: seq<Spot>)
    requires |a| == |bands|
    requires forall i :: 0 <= i < |a| ==> a[i].1.count == |BandSpots(spots, bands[i].1, bands[i].2)|
    ensures TotalCount(a) == CountsOver(bands, spots)
  {
    if a != [] {
      forall i | 0 <= i < |a[1..]| ensures a[1..][i].1.count == |BandSpots(spots, bands[1..][i].1, bands[1..][i].2)| {
        assert a[1..][i] == a[i + 1] && bands[1..][i] == bands[i + 1];
      }
      TotalIsCountsOver(a[1..], bands[1..], spots);
    }
  }

  /** The band ranges do not overlap, so no spot is counted twice: the
      counts add up to at most the number of spots. */
  lemma BandCountsAtMostSpots(spots: seq<Spot>)
    ensures TotalCount(AnalyzeBandActivity(spots)) <= |spots|
  {
    SpotBandsAscending();
    TotalIsCountsOver(AnalyzeBandActivity(spots), SPOT_BANDS, spots);
    CountsOverAtMostSpots(SPOT_BANDS, spots);
  }

  // ------------------------------------------------------------ merging

  /** What one source returned: its name, spots and reported count. */
  datatype SourceResult = SourceResult(name: string, spots: seq<Spot>, count: int)

  datatype ActivitySummary = ActivitySummary(totalSpots: nat, activeBands: nat, activeModes: nat, activeDxcc: nat)

  datatype LiveActivity = LiveActivity(
    sources: seq<string>, sourceCounts: seq<(string, int)>, totalSpots: nat, summary: ActivitySummary,
    spots: seq<Spot>, bandActivity: seq<(string, BandActivity)>, modeBreakdown: map<string, nat>, confidence: real)

  const SPOT_LIMIT: nat := 100

  /** Every source's spots, source by source (defined from the back). */
  function AllSpots(results: seq<SourceResult>): (r: seq<Spot>)
  {
    if results == [] then [] else AllSpots(results[..|results| - 1]) + results[|results| - 1].spots
  }

  function SpotTotal(results: seq<SourceResult>): (r: nat)
  {
    if results == [] then 0 else SpotTotal(results[..|results| - 1]) + |results[|results| - 1].spots|
  }

  /** `total_spots` is the sum of the sources' list lengths. */
  lemma {:induction false} AllSpotsLength(results: seq<SourceResult>)
    ensures |AllSpots(results)| == SpotTotal(results)
  {
    if results != [] {
      AllSpotsLength(results[..|results| - 1]);
    }
  }

  function ModeCount(spots: seq<Spot>, mode: string): (r: nat)
    ensures r <= |spots|
    ensures r > 0 <==> mode in ModesOf(spots)
  {
    if spots == [] then 0
    else
      var n := |spots| - 1;
      var c := ModeCount(spots[..n], mode) + (if spots[n].mode == mode then 1 else 0);
      assert ModesOf(spots) == ModesOf(spots[..n]) + {spots[n].mode} by {
        assert spots == spots[..n] + [spots[n]];
      }
      c
  }

  /** `mode_counts` after the first spots: the modes seen, each with its
      number of spots. */
  ghost predicate ModeTally(counts: map<string, nat>, spots: seq<Spot>)
  {
    counts.Keys == ModesOf(spots) && forall m :: m in counts ==> counts[m] == ModeCount(spots, m)
  }

  /** `mode_counts[mode] = mode_counts.get(mode, 0) + 1`. */
  function Bump(counts: map<string, nat>, m: string): (r: map<string, nat>)
    ensures r.Keys == counts.Keys + {m} && r[m] == (if m in counts then counts[m] else 0) + 1
    ensures forall n :: n in counts && n != m ==> r[n] == counts[n]
  {
    counts[m := (if m in counts then counts[m] else 0) + 1]
  }

  lemma ModeTallyStep(counts: map<string, nat>, spots: seq<Spot>, i: nat)
    requires i < |spots| && ModeTally(counts, spots[..i])
    ensures ModeTally(Bump(counts, spots[i].mode), spots[..i + 1])
  {
    var p := spots[..i + 1];
    assert p[..i] == spots[..i];
    assert ModesOf(p) == ModesOf(spots[..i]) + {spots[i].mode} by {
      assert p == spots[..i] + [spots[i]];
    }
  }

  function DxccOf(spots: seq<Spot>): (r: set<string>)
  {
    set s | s in spots && s.dxcc != "" :: s.dxcc
  }

  lemma DxccStep(spots: seq<Spot>, i: nat)
    requires i < |spots|
    ensures DxccOf(spots[..i + 1]) == DxccOf(spots[..i]) + (if spots[i].dxcc != "" then {spots[i].dxcc} else {})
  {
    assert spots[..i + 1] == spots[..i] + [spots[i]];
  }

  /** The number of bands with at least one spot. */
  function ActiveBands(activity: seq<(string, BandActivity)>): (r: nat)
    ensures r <= |activity|
  {
    if activity == [] then 0 else (if activity[0].1.count > 0 then 1 else 0) + ActiveBands(activity[1..])
  }

  function ByFrequency(): (before: (Spot, Spot) -> bool)
  {
    ByKeyDescending((s: Spot) => s.frequency)
  }

  /** The spots listed: highest frequency first (stable), at most 100. */
  function ListedSpots(spots: seq<Spot>): (r: seq<Spot>)
    ensures |r| == if |spots| < SPOT_LIMIT then |spots| else SPOT_LIMIT
  {
    var sorted := Sort(spots, ByFrequency());
    if |sorted| <= SPOT_LIMIT then sorted else sorted[..SPOT_LIMIT]
  }

  /** No spot left out of `listed` has a higher frequency than the last one
      listed. */
  ghost predicate LeftOutNoHigher(spots: seq<Spot>, listed: seq<Spot>)
  {
    forall x :: x in spots && x !in listed ==> listed != [] && x.frequency <= listed[|listed| - 1].frequency
  }

  /** The listed spots come from the input, in non-increasing frequency, and
      they are the highest: nothing left out beats the last one listed. */
  lemma ListedSpotsOrdered(spots: seq<Spot>)
    ensures forall i, j :: 0 <= i < j < |ListedSpots(spots)| ==> ListedSpots(spots)[i].frequency >= ListedSpots(spots)[j].frequency
    ensures multiset(ListedSpots(spots)) <= multiset(spots)
    ensures LeftOutNoHigher(spots, ListedSpots(spots))
  {
    var sorted := Sort(spots, ByFrequency());
    SortedDescendingKeys(spots, (s: Spot) => s.frequency);
    if |sorted| > SPOT_LIMIT {
      assert sorted == sorted[..SPOT_LIMIT] + sorted[SPOT_LIMIT..];
    }
    ListedSpotsTop(spots);
  }

  /** The spots listed are the highest: none left out has a higher
      frequency than the last one listed. */
  lemma ListedSpotsTop(spots: seq<Spot>)
    ensures LeftOutNoHigher(spots, ListedSpots(spots))
  {
    if spots != [] {
      var sorted := Sort(spots, ByFrequency());
      var k := if |sorted| <= SPOT_LIMIT then |sorted| else SPOT_LIMIT;
      assert ListedSpots(spots) == sorted[..k];
      TopDescendingBound(spots, (s: Spot) => s.frequency, k);
    }
  }

  /** Spots of equal frequency are listed in the order the sources gave
      them (`sorted` is stable). */
  lemma ListedSpotsStable(spots: seq<Spot>, y: Spot)
    ensures Filter(ListedSpots(spots), e => Tied(ByFrequency(), e, y)) <= Filter(spots, e => Tied(ByFrequency(), e, y))
  {
    var sorted := Sort(spots, ByFrequency());
    var k := if |sorted| <= SPOT_LIMIT then |sorted| else SPOT_LIMIT;
    assert ListedSpots(spots) == sorted[..k];
    DescendingIsStrictWeakOrder((s: Spot) => s.frequency);
    TopStable(spots, ByFrequency(), k, y);
  }

  function SourceNames(results: seq<SourceResult>): (r: seq<string>)
    ensures |r| == |results|
  {
    seq(|results|, k requires 0 <= k < |results| => results[k].name)
  }

  function SourceCounts(results: seq<SourceResult>): (r: seq<(string, int)>)
    ensures |r| == |results|
  {
    seq(|results|, k requires 0 <= k < |results| => (results[k].name, results[k].count))
  }

  /** The first loop of `_combine_spots_data`: the sources' spots
      concatenated. */
  method CollectSpots(results: seq<SourceResult>) returns (all: seq<Spot>)
    ensures all == AllSpots(results) && |all| == SpotTotal(results)
  {
    all := [];
    var i := 0;
    while i < |results|
      invariant 0 <= i <= |results| && all == AllSpots(results[..i])
    {
      assert results[..i + 1][..i] == results[..i];
      all := all + results[i].spots;
      i := i + 1;
    }
    assert results[..|results|] == results;
    AllSpotsLength(results);
  }

  /** The `mode_counts` loop: each mode seen, with its number of spots. */
  method TallyModes(all: seq<Spot>) returns (modeCounts: map<string, nat>)
    ensures modeCounts.Keys == ModesOf(all)
    ensures forall m :: m in modeCounts ==> modeCounts[m] == ModeCount(all, m)
  {
    modeCounts := map[];
    var i := 0;
    while i < |all|
      invariant 0 <= i <= |all| && ModeTally(modeCounts, all[..i])
    {
      ModeTallyStep(modeCounts, all, i);
      modeCounts := Bump(modeCounts, all[i].mode);
      i := i + 1;
    }
    assert all[..|all|] == all;
  }

  /** The `dxcc_set` loop: the non-empty DXCC entities of the spots. */
  method CollectDxcc(all: seq<Spot>) returns (dxcc: set<string>)
    ensures dxcc == DxccOf(all)
    ensures forall d :: d in dxcc ==> d != ""
  {
    dxcc := {};
    var i := 0;
    while i < |all|
      invariant 0 <= i <= |all| && dxcc == DxccOf(all[..i])
    {
      DxccStep(all, i);
      if all[i].dxcc != "" {
        dxcc := dxcc + {all[i].dxcc};
      }
      i := i + 1;
    }
    assert all[..|all|] == all;
  }

  /** `_combine_spots_data`. */
  method CombineSpotsData(results: seq<SourceResult>) returns (r: LiveActivity)
    ensures |r.spots| <= SPOT_LIMIT && r.spots == ListedSpots(AllSpots(results))
    ensures r.totalSpots == SpotTotal(results) && r.summary.totalSpots == r.totalSpots
    ensures r.bandActivity == AnalyzeBandActivity(AllSpots(results))
    ensures r.summary.activeBands == ActiveBands(r.bandActivity)
    ensures r.modeBreakdown.Keys == ModesOf(AllSpots(results)) && r.summary.activeModes == |r.modeBreakdown.Keys|
    ensures forall m :: m in r.modeBreakdown ==> r.modeBreakdown[m] == ModeCount(AllSpots(results), m)
    ensures r.summary.activeDxcc == |DxccOf(AllSpots(results))|
    ensures r.confidence == if |results| >= 2 then 0.8 else 0.6
    ensures r.sources == SourceNames(results) && r.sourceCounts == SourceCounts(results)
  {
    var all := CollectSpots(results);
    var activity := AnalyzeBandActivity(all);
    var modeCounts := TallyModes(all);
    var dxcc := CollectDxcc(all);
    var summary := ActivitySummary(|all|, ActiveBands(activity), |modeCounts.Keys|, |dxcc|);
    r := LiveActivity(SourceNames(results), SourceCounts(results), |all|, summary, ListedSpots(all),
                      activity, modeCounts, if |results| >= 2 then 0.8 else 0.6);
  }

  // ------------------------------------------------------- entry point

  function FallbackActivity(): (r: LiveActivity)
    ensures r.totalSpots == 0 && r.spots == [] && r.confidence == 0.3 && r.sources == ["fallback"]
  {
    LiveActivity(["fallback"], [], 0, ActivitySummary(0, 0, 0, 0), [], [], map[], 0.3)
  }

  const SPOTS_CACHE_SECONDS: int := 300

  function LiveActivityKey(grid: string): (r: string)
  {
    "live_activity_" + grid
  }

  /** `get_live_activity`: a cached report is returned unchanged; otherwise
      the combined result of the fetch (`fetched`, `None` when no source
      answered) is stored and returned, or the fallback when there is none.
      `size` is the stored report's estimated size. */
  method GetLiveActivity(cache: CacheManagement.CacheManager<LiveActivity>, grid: string, now: int,
                         fetched: Option<LiveActivity>, size: nat) returns (r: LiveActivity)
    requires cache.Valid()
    modifies cache
    ensures cache.Valid()
    ensures "spots" in old(cache.caches) && CacheManagement.Lookup(old(cache.caches)["spots"], LiveActivityKey(grid), now).Some? ==>
      r == CacheManagement.Lookup(old(cache.caches)["spots"], LiveActivityKey(grid), now).value
    ensures ("spots" !in old(cache.caches) || CacheManagement.Lookup(old(cache.caches)["spots"], LiveActivityKey(grid), now).None?) ==>
      r == (if fetched.Some? then fetched.value else FallbackActivity())
    ensures ("spots" in old(cache.caches) && CacheManagement.Lookup(old(cache.caches)["spots"], LiveActivityKey(grid), now).None?
             && fetched.Some?) ==>
      "spots" in cache.caches &&
      forall t :: t <= now + SPOTS_CACHE_SECONDS ==> CacheManagement.Lookup(cache.caches["spots"], LiveActivityKey(grid), t) == Some(fetched.value)
    ensures cache.configs == old(cache.configs)
  {
    var key := LiveActivityKey(grid);
    var cached := cache.Get("spots", key, now);
    if cached.Some? {
      return cached.value;
    }
    if fetched.Some? {
      ghost var present := "spots" in cache.caches;
      ghost var before := if present then cache.caches["spots"] else [];
      var _ := cache.Set("spots", key, fetched.value, Some(SPOTS_CACHE_SECONDS), size, now);
      forall t | present && t <= now + SPOTS_CACHE_SECONDS
        ensures CacheManagement.Lookup(cache.caches["spots"], key, t) == Some(fetched.value)
      {
        CacheManagement.SetThenGet(before, key, fetched.value, SPOTS_CACHE_SECONDS, size, now,
                                   cache.SizeLimit("spots"), cache.MemoryLimit("spots"), t);
      }
      return fetched.value;
    }
    return FallbackActivity();
  }

  /** A report stored by a miss is served by the next call within its
      lifetime, when the namespace is registered. */
  method LiveActivityCached(cache: CacheManagement.CacheManager<LiveActivity>, grid: string, now: int, later: int,
                            fetched: LiveActivity, other: Option<LiveActivity>, size: nat)
    returns (first: LiveActivity, second: LiveActivity)
    requires cache.Valid() && "spots" in cache.caches && now <= later <= now + SPOTS_CACHE_SECONDS
    requires CacheManagement.Lookup(cache.caches["spots"], LiveActivityKey(grid), now).None?
    modifies cache
    ensures first == fetched && second == fetched
  {
    first := GetLiveActivity(cache, grid, now, Some(fetched), size);
    second := GetLiveActivity(cache, grid, later, other, size);
  }
}
