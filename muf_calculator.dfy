/** The MUF calculator (calculations/muf_calculator.py): MUF from the
    nearest recent ionosonde station when one is available, otherwise from
    the solar-flux formula with geomagnetic and seasonal adjustments. */
module MufCalculator {
  import opened Common
  import opened Helpers

  const IONOSONDE_CACHE_SECONDS: int := 300
  const FOF2_COEFFICIENT: real := 0.75
  const M_FACTOR_3000: real := 3.0

  /** One record of the station feed after decoding. A missing or null
      `fof2`/`mufd` is `None`; `cs` is 0 when missing; `time` is the
      measurement time in seconds, `None` when the text does not parse. */
  datatype FeedRecord = FeedRecord(
    fof2: Option<real>, mufd: Option<real>, cs: real, time: Option<int>, timeText: string,
    name: string, code: string, lat: real, lon: real, md: real, source: string)

  datatype Station = Station(
    name: string, code: string, lat: real, lon: real, fof2: real, mufd: real, md: real,
    confidence: real, timestamp: string, source: string)

  /** Python truthiness of a numeric field. */
  predicate Truthy(v: Option<real>)
  {
    v.Some? && v.value != 0.0
  }

  /** A record is kept when both readings are present and non-zero, the
      confidence score is at least 25 and the measurement is at most two
      hours old. */
  predicate Qualifies(rec: FeedRecord, now: int)
  {
    Truthy(rec.fof2) && Truthy(rec.mufd) && rec.cs >= 25.0 &&
    rec.time.Some? && rec.time.value >= now - 2 * 3600
  }

  function ToStation(rec: FeedRecord): (st: Station)
    requires rec.fof2.Some? && rec.mufd.Some?
    ensures st.fof2 == rec.fof2.value && st.mufd == rec.mufd.value && st.confidence == rec.cs
    ensures st.timestamp == rec.timeText && st.name == rec.name
  {
    Station(rec.name, rec.code, rec.lat, rec.lon, rec.fof2.value, rec.mufd.value, rec.md,
            rec.cs, rec.timeText, rec.source)
  }

  /** The stations the filter loop keeps, in feed order. */
  function ValidStations(data: seq<FeedRecord>, now: int): (r: seq<Station>)
    ensures |r| <= |data|
  {
    if data == [] then []
    else
      var last := data[|data| - 1];
      ValidStations(data[..|data| - 1], now) + (if Qualifies(last, now) then [ToStation(last)] else [])
  }

  /** The filter keeps exactly the qualifying records. */
  lemma {:induction false} ValidStationsExact(data: seq<FeedRecord>, now: int, st: Station)
    ensures st in ValidStations(data, now) <==>
      exists i :: 0 <= i < |data| && Qualifies(data[i], now) && st == ToStation(data[i])
  {
    if data != [] {
      var n := |data| - 1;
      ValidStationsExact(data[..n], now, st);
      if st in ValidStations(data, now) && st !in ValidStations(data[..n], now) {
        assert Qualifies(data[n], now) && st == ToStation(data[n]);
      }
      if exists i :: 0 <= i < |data| && Qualifies(data[i], now) && st == ToStation(data[i]) {
        var i :| 0 <= i < |data| && Qualifies(data[i], now) && st == ToStation(data[i]);
        if i < n {
          assert data[..n][i] == data[i];
        }
      }
    }
  }

  /** The filter loop of `_fetch_ionosonde_data`. */
  method FilterStations(data: seq<FeedRecord>, now: int) returns (valid: seq<Station>)
    ensures valid == ValidStations(data, now)
  {
    valid := [];
    var i := 0;
    while i < |data|
      invariant 0 <= i <= |data|
      invariant valid == ValidStations(data[..i], now)
    {
      assert data[..i + 1][..i] == data[..i];
      var rec := data[i];
      if Qualifies(rec, now) {
        valid := valid + [ToStation(rec)];
      }
      i := i + 1;
    }
    assert data[..|data|] == data;
  }

  predicate CacheFresh(cache: Option<seq<Station>>, cacheTime: Option<int>, now: int)
  {
    cache.Some? && cacheTime.Some? && now - cacheTime.value < IONOSONDE_CACHE_SECONDS
  }

  /** What `_fetch_ionosonde_data` returns: the cached list while it is
      fresh, the filtered feed when the fetch succeeds (`response` is the
      decoded feed, `None` when the request fails), otherwise the stale
      cache or the empty list. */
  function FetchedStations(cache: Option<seq<Station>>, cacheTime: Option<int>, now: int,
                           response: Option<seq<FeedRecord>>): (r: seq<Station>)
    ensures CacheFresh(cache, cacheTime, now) ==> r == cache.value
    ensures !CacheFresh(cache, cacheTime, now) && response.Some? ==> r == ValidStations(response.value, now)
    ensures !CacheFresh(cache, cacheTime, now) && response.None? ==> r == cache.GetOr([])
  {
    if CacheFresh(cache, cacheTime, now) then cache.value
    else if response.Some? then ValidStations(response.value, now)
    else cache.GetOr([])
  }

  /** Station longitudes are in 0..360: negative longitudes are shifted. */
  function NormalizeLon(lon: real): (r: real)
    ensures r == lon || r == lon + 360.0
    ensures -180.0 <= lon < 180.0 ==> 0.0 <= r < 360.0
  {
    if lon < 0.0 then lon + 360.0 else lon
  }

  datatype Nearest = Nearest(station: Station, distanceKm: real)

  /** Great-circle distance between two points, supplied by the caller. */
  type Distance = (real, real, real, real) -> real

  function DistanceTo(st: Station, lat: real, lon: real, dist: Distance): (r: real)
  {
    dist(lat, lon, st.lat, st.lon)
  }

  /** The scan of `_find_nearest_station` over the stations, with the
      longitude already normalised: a station replaces the current choice
      only when strictly closer. */
  function NearestOf(stations: seq<Station>, lat: real, lon: real, dist: Distance): (r: Option<Nearest>)
    ensures r.None? <==> stations == []
  {
    if stations == [] then None
    else
      var last := stations[|stations| - 1];
      var d := DistanceTo(last, lat, lon, dist);
      var p := NearestOf(stations[..|stations| - 1], lat, lon, dist);
      if p.None? || d < p.value.distanceKm then Some(Nearest(last, d)) else p
  }

  /** Index i holds the first of the smallest distances. */
  predicate FirstNearest(stations: seq<Station>, lat: real, lon: real, dist: Distance, i: int)
  {
    0 <= i < |stations| &&
    (forall j :: 0 <= j < |stations| ==> DistanceTo(stations[i], lat, lon, dist) <= DistanceTo(stations[j], lat, lon, dist)) &&
    (forall j :: 0 <= j < i ==> DistanceTo(stations[j], lat, lon, dist) > DistanceTo(stations[i], lat, lon, dist))
  }

  /** The scan returns a copy of the first closest station, with its
      distance. */
  lemma {:induction false} NearestIsFirstClosest(stations: seq<Station>, lat: real, lon: real, dist: Distance)
    requires stations != []
    ensures exists i :: (FirstNearest(stations, lat, lon, dist, i) &&
      NearestOf(stations, lat, lon, dist) == Some(Nearest(stations[i], DistanceTo(stations[i], lat, lon, dist))))
  {
    var n := |stations| - 1;
    var pre := stations[..n];
    var d := DistanceTo(stations[n], lat, lon, dist);
    if pre == [] {
      assert FirstNearest(stations, lat, lon, dist, 0);
    } else {
      NearestIsFirstClosest(pre, lat, lon, dist);
      var i :| FirstNearest(pre, lat, lon, dist, i) &&
        NearestOf(pre, lat, lon, dist) == Some(Nearest(pre[i], DistanceTo(pre[i], lat, lon, dist)));
      if d < DistanceTo(pre[i], lat, lon, dist) {
        forall j | 0 <= j < n
          ensures DistanceTo(stations[j], lat, lon, dist) > d
        {
          assert pre[j] == stations[j];
        }
        assert FirstNearest(stations, lat, lon, dist, n);
      } else {
        forall j | 0 <= j < |stations|
          ensures DistanceTo(stations[i], lat, lon, dist) <= DistanceTo(stations[j], lat, lon, dist)
        {
          if j < n { assert pre[j] == stations[j]; }
        }
        forall j | 0 <= j < i
          ensures DistanceTo(stations[j], lat, lon, dist) > DistanceTo(stations[i], lat, lon, dist)
        {
          assert pre[j] == stations[j];
        }
        assert pre[i] == stations[i];
        assert FirstNearest(stations, lat, lon, dist, i);
      }
    }
  }

  /** `_find_nearest_station`. */
  method FindNearestStation(stations: seq<Station>, lat: real, lon: real, dist: Distance) returns (nearest: Option<Nearest>)
    ensures nearest == NearestOf(stations, lat, NormalizeLon(lon), dist)
  {
    if stations == [] {
      return None;
    }
    var lonNormalized := if lon < 0.0 then lon + 360.0 else lon;
    nearest := None;
    var i := 0;
    while i < |stations|
      invariant 0 <= i <= |stations|
      invariant nearest == NearestOf(stations[..i], lat, lonNormalized, dist)
    {
      assert stations[..i + 1][..i] == stations[..i];
      var station := stations[i];
      var distance := dist(lat, lonNormalized, station.lat, station.lon);
      if nearest.None? || distance < nearest.value.distanceKm {
        nearest := Some(Nearest(station, distance));
      }
      i := i + 1;
    }
    assert stations[..|stations|] == stations;
  }

  /** Distant stations are trusted less, down to half at 2000 km and beyond. */
  function DistanceFactor(d: real): (r: real)
    ensures 0.5 <= r
    ensures d >= 0.0 ==> r <= 1.0
    ensures d <= 2000.0 ==> r == 1.0 - d / 4000.0
    ensures d >= 2000.0 ==> r == 0.5
  {
    Max(0.5, 1.0 - d / 4000.0)
  }

  /** The station's confidence score scaled to [0,1] and reduced by distance. */
  function StationConfidence(cs: real, d: real): (r: real)
    ensures cs >= 0.0 && d >= 0.0 ==> cs / 200.0 <= r <= cs / 100.0
  {
    var f := DistanceFactor(d);
    assert cs >= 0.0 ==> cs / 100.0 * 0.5 <= cs / 100.0 * f;
    assert cs >= 0.0 && d >= 0.0 ==> cs / 100.0 * f <= cs / 100.0 * 1.0;
    cs / 100.0 * f
  }

  datatype IonosondeResult = IonosondeResult(
    muf: real, fof2: real, station: string, distanceKm: real, confidence: real,
    timestamp: string, source: string)

  /** `_get_ionosonde_muf` once the station list is known. */
  function IonosondeMuf(stations: seq<Station>, lat: real, lon: real, dist: Distance): (r: Option<IonosondeResult>)
    ensures r.None? <==> stations == []
  {
    match NearestOf(stations, lat, NormalizeLon(lon), dist)
    case None => None
    case Some(n) =>
      Some(IonosondeResult(n.station.mufd, n.station.fof2, n.station.name, n.distanceKm,
                           StationConfidence(n.station.confidence, n.distanceKm),
                           n.station.timestamp, "GIRO (" + n.station.source + ")"))
  }

  /** The reading comes from a first closest station; its confidence never
      exceeds that station's own score. */
  lemma IonosondeFromNearest(stations: seq<Station>, lat: real, lon: real, dist: Distance)
    requires stations != []
    requires forall st :: st in stations ==> st.confidence >= 0.0 && DistanceTo(st, lat, NormalizeLon(lon), dist) >= 0.0
    ensures exists i :: (FirstNearest(stations, lat, NormalizeLon(lon), dist, i) &&
      IonosondeMuf(stations, lat, lon, dist).value.muf == stations[i].mufd &&
      IonosondeMuf(stations, lat, lon, dist).value.station == stations[i].name &&
      IonosondeMuf(stations, lat, lon, dist).value.confidence <= stations[i].confidence / 100.0)
  {
    NearestIsFirstClosest(stations, lat, NormalizeLon(lon), dist);
  }

  /** Geomagnetic reductions: 5% per K above 2 and 1% per A above 10,
      each floored at one half. */
  function KAdjustment(k: real): (r: real)
    ensures 0.5 <= r <= 1.0
    ensures k <= 2.0 ==> r == 1.0
  {
    Max(0.5, 1.0 - Max(0.0, (k - 2.0) * 0.05))
  }

  function AAdjustment(a: real): (r: real)
    ensures 0.5 <= r <= 1.0
    ensures a <= 10.0 ==> r == 1.0
  {
    Max(0.5, 1.0 - Max(0.0, (a - 10.0) * 0.01))
  }

  lemma AdjustmentsMonotone(k1: real, k2: real, a1: real, a2: real)
    requires k1 <= k2 && a1 <= a2
    ensures KAdjustment(k2) <= KAdjustment(k1)
    ensures AAdjustment(a2) <= AAdjustment(a1)
  {
  }

  /** Strongest at 40 degrees of latitude, clamped to [0.2, 1]. */
  function LatWeight(lat: real): (r: real)
    ensures 0.2 <= r <= 1.0
    ensures 30.0 <= Abs(lat) <= 50.0 ==> r >= 0.8
  {
    Clamp(1.0 - Abs(Abs(lat) - 40.0) / 50.0, 0.2, 1.0)
  }

  /** The weight depends only on the distance from the equator. */
  lemma LatWeightSymmetric(lat: real)
    ensures LatWeight(-lat) == LatWeight(lat)
  {
  }

  predicate IsEquinoxMonth(month: int) { month == 3 || month == 4 || month == 9 || month == 10 }
  predicate IsWinterMonth(month: int) { month == 12 || month == 1 || month == 2 }
  predicate IsSummerMonth(month: int) { month == 6 || month == 7 || month == 8 }

  /** The seasonal MUF factor for a month (1..12) and latitude. */
  function SeasonalFactor(month: int, lat: real): (r: real)
    ensures 0.9 <= r <= 1.1
    ensures month == 5 || month == 11 ==> r == 1.0
    ensures IsEquinoxMonth(month) ==> r >= 1.0
  {
    var w := LatWeight(lat);
    if IsEquinoxMonth(month) then 1.0 + 0.10 * w
    else if IsWinterMonth(month) then (if lat >= 0.0 then 1.0 + 0.05 * w else 1.0 - 0.10 * w)
    else if IsSummerMonth(month) then (if lat >= 0.0 then 1.0 - 0.10 * w else 1.0 + 0.05 * w)
    else 1.0
  }

  /** The month six months later. */
  function OppositeMonth(month: int): (r: int)
    requires 1 <= month <= 12
    ensures 1 <= r <= 12 && r != month
    ensures r == month + 6 || r == month - 6
  {
    if month <= 6 then month + 6 else month - 6
  }

  /** The southern hemisphere sees, in each month, what the same latitude
      in the north sees six months later. */
  lemma SeasonalHemisphereSwap(month: int, lat: real)
    requires 1 <= month <= 12 && lat > 0.0
    ensures SeasonalFactor(month, -lat) == SeasonalFactor(OppositeMonth(month), lat)
  {
    LatWeightSymmetric(lat);
  }

  function ApplySeasonalAdjustment(muf: real, lat: real, month: int): (r: real)
    ensures muf >= 0.0 ==> 0.9 * muf <= r <= 1.1 * muf
  {
    var f := SeasonalFactor(month, lat);
    assert muf >= 0.0 ==> 0.9 * muf <= muf * f <= 1.1 * muf;
    muf * f
  }

  /** `_calculate_formula_muf`: MUF(3000) = 3 * 0.75 * sqrt(SFI), with the
      root supplied. */
  function FormulaMuf(root: real): (r: real)
    ensures r == 2.25 * root
  {
    M_FACTOR_3000 * (FOF2_COEFFICIENT * root)
  }

  /** `_calculate_enhanced_muf`: the formula MUF reduced for K and A, then
      seasonally adjusted. */
  function EnhancedMuf(root: real, k: real, a: real, lat: real, month: int): (r: real)
  {
    ApplySeasonalAdjustment(M_FACTOR_3000 * (FOF2_COEFFICIENT * root * KAdjustment(k) * AAdjustment(a)), lat, month)
  }

  /** The adjustments keep the enhanced MUF between 0.225 and 1.1 times the
      formula MUF, and quiet conditions in a transition month reproduce it. */
  lemma EnhancedMufRange(root: real, k: real, a: real, lat: real, month: int)
    requires root >= 0.0
    ensures 0.225 * FormulaMuf(root) <= EnhancedMuf(root, k, a, lat, month) <= 1.1 * FormulaMuf(root)
    ensures k <= 2.0 && a <= 10.0 && (month == 5 || month == 11) ==> EnhancedMuf(root, k, a, lat, month) == FormulaMuf(root)
  {
    var ka := KAdjustment(k) * AAdjustment(a);
    assert 0.25 <= ka <= 1.0 by {
      MulBounds(KAdjustment(k), AAdjustment(a));
    }
    var base := 2.25 * root * ka;
    assert M_FACTOR_3000 * (FOF2_COEFFICIENT * root * KAdjustment(k) * AAdjustment(a)) == base;
    assert 2.25 * root * 0.25 <= base <= 2.25 * root;
  }

  lemma MulBounds(x: real, y: real)
    requires 0.5 <= x <= 1.0 && 0.5 <= y <= 1.0
    ensures 0.25 <= x * y <= 1.0
  {
    assert x * y >= 0.5 * y;
    assert x * y <= 1.0 * y;
  }

  /** `_calculate_muf_confidence`: how close the MUF is to the formula MUF. */
  function MufConfidence(muf: real, root: real): (r: real)
    ensures r == 0.65 || r == 0.55 || r == 0.45
    ensures root > 0.0 ==> (r == 0.65 <==> 0.8 <= muf / FormulaMuf(root) <= 1.2)
    ensures root > 0.0 ==> (r == 0.55 <==> !(0.8 <= muf / FormulaMuf(root) <= 1.2) && 0.6 <= muf / FormulaMuf(root) <= 1.4)
    ensures root <= 0.0 ==> r == 0.45
  {
    var expected := FOF2_COEFFICIENT * root * M_FACTOR_3000;
    assert expected == FormulaMuf(root);
    if expected > 0.0 then
      var ratio := muf / expected;
      if 0.8 <= ratio <= 1.2 then 0.65
      else if 0.6 <= ratio <= 1.4 then 0.55
      else 0.45
    else 0.45
  }

  datatype MufReport = MufReport(
    muf: real, fof2: real, traditionalMuf: real, enhancedMuf: real, sfi: real,
    confidence: real, calcMethod: string, source: Option<string>, station: Option<string>,
    stationDistanceKm: Option<real>, measurementTime: Option<string>)

  /** `_get_fallback_muf`. */
  function FallbackMuf(): (r: MufReport)
    ensures r.muf == 21.0 && r.confidence == 0.3 && r.calcMethod == "Fallback"
  {
    MufReport(21.0, 7.0, 21.0, 21.0, 100.0, 0.3, "Fallback", None, None, None, None)
  }

  /** The report `calculate_muf` builds once the ionosonde reading is known.
      `root` is the square root of the extracted SFI; a negative SFI makes
      the square root raise, which ends in the fallback. */
  function MufReportOf(solar: SolarData, lat: real, month: int, root: real, ion: Option<IonosondeResult>): (r: MufReport)
  {
    var sfi := ExtractSfi(solar.sfi);
    if sfi < 0.0 then FallbackMuf()
    else if ion.Some? then
      var i := ion.value;
      MufReport(i.muf, i.fof2, FormulaMuf(root), i.muf, sfi, i.confidence, "Ionosonde",
                Some(i.source), Some(i.station), Some(i.distanceKm), Some(i.timestamp))
    else
      var muf := EnhancedMuf(root, ExtractKIndex(solar.kIndex), ExtractAIndex(solar.aIndex), lat, month);
      MufReport(muf, FOF2_COEFFICIENT * root, FormulaMuf(root), muf, sfi, MufConfidence(muf, root),
                "Formula (ionosonde unavailable)", None, None, None, None)
  }

  /** With a station the reading is reported as measured; without one the
      adjusted formula MUF is reported with a formula confidence; a negative
      SFI gives the fallback. */
  lemma MufReportCases(solar: SolarData, lat: real, month: int, root: real, ion: Option<IonosondeResult>)
    requires ExtractSfi(solar.sfi) >= 0.0 ==> IsRootOf(root, ExtractSfi(solar.sfi))
    ensures ExtractSfi(solar.sfi) < 0.0 <==> MufReportOf(solar, lat, month, root, ion) == FallbackMuf()
    ensures MufReportOf(solar, lat, month, root, ion).calcMethod == "Ionosonde" <==> ExtractSfi(solar.sfi) >= 0.0 && ion.Some?
    ensures ExtractSfi(solar.sfi) >= 0.0 && ion.Some? ==>
      MufReportOf(solar, lat, month, root, ion).muf == ion.value.muf &&
      MufReportOf(solar, lat, month, root, ion).confidence == ion.value.confidence
    ensures ExtractSfi(solar.sfi) >= 0.0 && ion.None? ==>
      MufReportOf(solar, lat, month, root, ion).calcMethod == "Formula (ionosonde unavailable)" &&
      0.225 * FormulaMuf(root) <= MufReportOf(solar, lat, month, root, ion).muf <= 1.1 * FormulaMuf(root) &&
      MufReportOf(solar, lat, month, root, ion).confidence in {0.65, 0.55, 0.45}
  {
    var sfi := ExtractSfi(solar.sfi);
    if sfi >= 0.0 {
      EnhancedMufRange(root, ExtractKIndex(solar.kIndex), ExtractAIndex(solar.aIndex), lat, month);
      if ion.None? {
        assert MufReportOf(solar, lat, month, root, ion).calcMethod != "Fallback";
      }
    }
  }

  /** The calculator keeps the last fetched station list and its time. */
  class MufCalculator {
    var ionosondeCache: Option<seq<Station>>
    var ionosondeCacheTime: Option<int>

    constructor ()
      ensures ionosondeCache == None && ionosondeCacheTime == None
    {
      ionosondeCache := None;
      ionosondeCacheTime := None;
    }

    /** `_fetch_ionosonde_data`: reuses a fresh cache; after a successful
        fetch the filtered list becomes the cache; a failed fetch leaves the
        cache as it was. */
    method FetchIonosondeData(now: int, response: Option<seq<FeedRecord>>) returns (stations: seq<Station>)
      modifies this
      ensures stations == FetchedStations(old(ionosondeCache), old(ionosondeCacheTime), now, response)
      ensures CacheFresh(old(ionosondeCache), old(ionosondeCacheTime), now) || response.None? ==>
        ionosondeCache == old(ionosondeCache) && ionosondeCacheTime == old(ionosondeCacheTime)
      ensures !CacheFresh(old(ionosondeCache), old(ionosondeCacheTime), now) && response.Some? ==>
        ionosondeCache == Some(stations) && ionosondeCacheTime == Some(now)
    {
      if ionosondeCache.Some? && ionosondeCacheTime.Some? && now - ionosondeCacheTime.value < IONOSONDE_CACHE_SECONDS {
        return ionosondeCache.value;
      }
      if response.None? {
        return if ionosondeCache.Some? then ionosondeCache.value else [];
      }
      var validStations := FilterStations(response.value, now);
      ionosondeCache := Some(validStations);
      ionosondeCacheTime := Some(now);
      return validStations;
    }

    /** `_get_ionosonde_muf`. */
    method GetIonosondeMuf(lat: real, lon: real, now: int, response: Option<seq<FeedRecord>>, dist: Distance)
      returns (r: Option<IonosondeResult>)
      modifies this
      ensures r == IonosondeMuf(FetchedStations(old(ionosondeCache), old(ionosondeCacheTime), now, response), lat, lon, dist)
      ensures CacheFresh(old(ionosondeCache), old(ionosondeCacheTime), now) || response.None? ==>
        ionosondeCache == old(ionosondeCache) && ionosondeCacheTime == old(ionosondeCacheTime)
      ensures !CacheFresh(old(ionosondeCache), old(ionosondeCacheTime), now) && response.Some? ==>
        ionosondeCache == Some(ValidStations(response.value, now)) && ionosondeCacheTime == Some(now)
    {
      var stations := FetchIonosondeData(now, response);
      if stations == [] {
        return None;
      }
      var nearest := FindNearestStation(stations, lat, lon, dist);
      var n := nearest.value;
      var distanceKm := n.distanceKm;
      var stationConfidence := n.station.confidence / 100.0;
      var distanceFactor := Max(0.5, 1.0 - distanceKm / 4000.0);
      var overallConfidence := stationConfidence * distanceFactor;
      assert overallConfidence == StationConfidence(n.station.confidence, distanceKm);
      r := Some(IonosondeResult(n.station.mufd, n.station.fof2, n.station.name, distanceKm,
                                overallConfidence, n.station.timestamp, "GIRO (" + n.station.source + ")"));
    }

    /** `calculate_muf`: missing coordinates default to 40 N, 100 W;
        `month` is the current month; `root` is the square root of the
        extracted SFI when that is not negative. */
    method CalculateMuf(solar: SolarData, lat: Option<real>, lon: Option<real>, month: int, now: int,
                        response: Option<seq<FeedRecord>>, root: real, dist: Distance)
      returns (r: MufReport)
      requires ExtractSfi(solar.sfi) >= 0.0 ==> IsRootOf(root, ExtractSfi(solar.sfi))
      modifies this
      ensures r == MufReportOf(solar, lat.GetOr(40.0), month, root,
        IonosondeMuf(FetchedStations(old(ionosondeCache), old(ionosondeCacheTime), now, response),
                     lat.GetOr(40.0), lon.GetOr(-100.0), dist))
    {
      var sfi := ExtractSfi(solar.sfi);
      var latitude := lat.GetOr(40.0);
      var longitude := lon.GetOr(-100.0);
      var ion := GetIonosondeMuf(latitude, longitude, now, response, dist);
      r := MufReportOf(solar, latitude, month, root, ion);
    }
  }
}
