/** The time analyzer (calculations/time_analyzer.py): a fixed seasonal
    sunrise/sunset table and the classification of the local hour into a
    propagation period. */
module TimeAnalyzer {

  /** The periods, with their nominal start and end hours and description. */
  const TIME_PERIODS: map<string, (int, int, string)> := map[
    "dawn" := (5, 7, "Dawn - Lower bands optimal"),
    "early_morning" := (7, 9, "Early Morning - F2 building"),
    "mid_morning" := (9, 11, "Mid Morning - F2 strong"),
    "midday" := (11, 15, "Midday - Peak F2 layer"),
    "late_afternoon" := (15, 17, "Late Afternoon - F2 declining"),
    "evening" := (17, 19, "Evening - Transition period"),
    "early_night" := (19, 21, "Early Night - D layer fading"),
    "night" := (21, 23, "Night - Lower bands optimal"),
    "late_night" := (23, 5, "Late Night - Lowest bands")
  ]

  /** The periods in the order they follow each other through the day. */
  const PERIOD_ORDER: seq<string> := ["late_night", "dawn", "early_morning", "mid_morning", "midday",
                                      "late_afternoon", "evening", "early_night", "night"]

  /** `_calculate_sunrise_sunset`: 6/18, one hour shorter days in December
      to February and one hour longer in June to August; the latitude plays
      no part. */
  function SunriseSunset(lat: real, month: int): (r: (int, int))
    ensures r.0 < r.1 && r.0 + r.1 == 24
    ensures (month == 12 || month == 1 || month == 2) ==> r == (7, 17)
    ensures (month == 6 || month == 7 || month == 8) ==> r == (5, 19)
    ensures !(month in {12, 1, 2, 6, 7, 8}) ==> r == (6, 18)
  {
    var (sunrise, sunset) := if lat > 0.0 then (6, 18) else (6, 18);
    if month in {12, 1, 2} then (sunrise + 1, sunset - 1)
    else if month in {6, 7, 8} then (sunrise - 1, sunset + 1)
    else (sunrise, sunset)
  }

  lemma SunriseSunsetHemisphere(lat: real, month: int)
    ensures SunriseSunset(lat, month) == SunriseSunset(-lat, month)
  {
  }

  /** `_determine_time_period`. */
  function TimePeriod(hour: int, sunrise: int, sunset: int): (r: string)
    ensures r in TIME_PERIODS && r in PERIOD_ORDER
    ensures hour >= 23 || hour < 5 <==> r == "late_night"
  {
    if hour >= 23 || hour < 5 then "late_night"
    else if hour < sunrise then "dawn"
    else if hour < sunrise + 2 then "early_morning"
    else if hour < sunrise + 4 then "mid_morning"
    else if hour < sunset - 4 then "midday"
    else if hour < sunset - 2 then "late_afternoon"
    else if hour < sunset then "evening"
    else if hour < sunset + 2 then "early_night"
    else "night"
  }

  function PeriodIndex(p: string): (r: nat)
    requires p in PERIOD_ORDER
    ensures r < |PERIOD_ORDER| && PERIOD_ORDER[r] == p
  {
    if p == "late_night" then 0 else if p == "dawn" then 1 else if p == "early_morning" then 2
    else if p == "mid_morning" then 3 else if p == "midday" then 4 else if p == "late_afternoon" then 5
    else if p == "evening" then 6 else if p == "early_night" then 7 else 8
  }

  /** Between 5:00 and 23:00 the periods follow each other in order: a
      later hour never falls in an earlier period (for any sunrise and
      sunset the table produces). */
  lemma PeriodsInOrder(h1: int, h2: int, lat: real, month: int)
    requires 5 <= h1 <= h2 < 23
    ensures var (sunrise, sunset) := SunriseSunset(lat, month);
      PeriodIndex(TimePeriod(h1, sunrise, sunset)) <= PeriodIndex(TimePeriod(h2, sunrise, sunset))
  {
  }

  /** The boundaries fall at sunrise, +2, +4, sunset-4, sunset-2, sunset
      and sunset+2. */
  lemma PeriodBoundaries(sunrise: int, sunset: int)
    requires 5 <= sunrise && sunrise + 4 <= sunset - 4 && sunset + 2 < 23
    ensures sunrise > 5 ==> TimePeriod(sunrise - 1, sunrise, sunset) == "dawn"
    ensures TimePeriod(sunrise, sunrise, sunset) == "early_morning"
    ensures TimePeriod(sunrise + 2, sunrise, sunset) == "mid_morning"
    ensures TimePeriod(sunrise + 4, sunrise, sunset) == (if sunrise + 4 < sunset - 4 then "midday" else "late_afternoon")
    ensures TimePeriod(sunset - 4, sunrise, sunset) == "late_afternoon"
    ensures TimePeriod(sunset - 2, sunrise, sunset) == "evening"
    ensures TimePeriod(sunset, sunrise, sunset) == "early_night"
    ensures TimePeriod(sunset + 2, sunrise, sunset) == "night"
  {
  }

  datatype TimeInfo = TimeInfo(
    currentHour: int, sunriseHour: int, sunsetHour: int, isDay: bool, period: string, description: string)

  /** `analyze_current_time` for the local hour and month; an unknown time
      zone raises and gives the fallback. */
  function AnalyzeCurrentTime(lat: real, hour: int, month: int, timezoneKnown: bool): (r: TimeInfo)
    ensures timezoneKnown ==> r.currentHour == hour
    ensures timezoneKnown ==> (r.isDay <==> r.sunriseHour <= hour < r.sunsetHour)
    ensures timezoneKnown ==> r.period == TimePeriod(hour, r.sunriseHour, r.sunsetHour)
    ensures timezoneKnown ==> r.period in TIME_PERIODS && r.description == TIME_PERIODS[r.period].2
    ensures timezoneKnown ==> (r.sunriseHour, r.sunsetHour) == SunriseSunset(lat, month)
    ensures !timezoneKnown ==> r == FallbackTime()
  {
    if !timezoneKnown then FallbackTime()
    else
      var (sunrise, sunset) := SunriseSunset(lat, month);
      var period := TimePeriod(hour, sunrise, sunset);
      TimeInfo(hour, sunrise, sunset, sunrise <= hour < sunset, period, TIME_PERIODS[period].2)
  }

  /** In daylight (as the table defines it) the period is never one of the
      night periods. */
  lemma DaylightPeriods(lat: real, hour: int, month: int)
    requires AnalyzeCurrentTime(lat, hour, month, true).isDay
    ensures AnalyzeCurrentTime(lat, hour, month, true).period in
      {"early_morning", "mid_morning", "midday", "late_afternoon", "evening"}
  {
  }

  /** `_get_fallback_time_data`. */
  function FallbackTime(): (r: TimeInfo)
    ensures r.period == "midday" && r.isDay && r.currentHour == 12
  {
    TimeInfo(12, 6, 18, true, "midday", "Midday - Peak F2 layer")
  }
}
