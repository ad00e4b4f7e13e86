/** The contest calendar (data_sources/contest_data.py): mode detection,
    start and end times from the fields the feed's description yields,
    active/upcoming/past classification, the calendar order and the cached
    entry point. The RSS fetch, the XML parse and the regular expressions
    that find the time fields are not modelled; their results are inputs. */
module ContestData {
  import opened Common
  import opened Sorting
  import opened Text
  import CacheManagement

  // ------------------------------------------------------------ _get_text

  /** A child element of a feed item; `text` is `None` for an element
      without text. */
  datatype XmlElement = XmlElement(text: Option<string>)

  /** `_get_text`: the stripped text of the child, '' when the child is
      missing or has no text. */
  function GetText(el: Option<XmlElement>): (r: string)
    ensures el.None? || el.value.text.None? || el.value.text.value == "" ==> r == ""
    ensures el.Some? && el.value.text.Some? ==> r == Strip(el.value.text.value)
  {
    if el.Some? && el.value.text.Some? && el.value.text.value != "" then Strip(el.value.text.value) else ""
  }

  // --------------------------------------------------------- _detect_mode

  /** `pat in s` for strings. */
  predicate Contains(s: string, pat: string)
  {
    exists i :: 0 <= i <= |s| - |pat| && OccursAt(pat, s, i)
  }

  datatype ContestMode = CW | SSB | RTTY | Digital | Mixed

  predicate MentionsCw(t: string) { Contains(Upper(t), "CW") }
  predicate MentionsPhone(t: string) { Contains(Upper(t), "SSB") || Contains(Upper(t), "PHONE") }
  predicate MentionsRtty(t: string) { Contains(Upper(t), "RTTY") }
  predicate MentionsDigital(t: string)
  {
    Contains(Upper(t), "FT8") || Contains(Upper(t), "FT4") || Contains(Upper(t), "DIGI")
  }

  /** `_detect_mode`: the first of CW, phone, RTTY and digital keywords the
      upper-cased title contains decides; a title with none is 'Mixed'. */
  function DetectMode(title: string): (r: ContestMode)
    ensures r == CW <==> MentionsCw(title)
    ensures r == SSB <==> !MentionsCw(title) && MentionsPhone(title)
    ensures r == RTTY <==> !MentionsCw(title) && !MentionsPhone(title) && MentionsRtty(title)
    ensures r == Digital <==> !MentionsCw(title) && !MentionsPhone(title) && !MentionsRtty(title) && MentionsDigital(title)
    ensures r == Mixed <==> !MentionsCw(title) && !MentionsPhone(title) && !MentionsRtty(title) && !MentionsDigital(title)
  {
    var t := Upper(title);
    if Contains(t, "CW") then CW
    else if Contains(t, "SSB") || Contains(t, "PHONE") then SSB
    else if Contains(t, "RTTY") then RTTY
    else if Contains(t, "FT8") || Contains(t, "FT4") || Contains(t, "DIGI") then Digital
    else Mixed
  }

  function ModeName(m: ContestMode): (r: string)
  {
    match m
    case CW => "CW"
    case SSB => "SSB"
    case RTTY => "RTTY"
    case Digital => "Digital"
    case Mixed => "Mixed"
  }

  /** Detection ignores case: an upper-cased title gets the same mode. */
  lemma DetectModeIgnoresCase(title: string)
    ensures DetectMode(Upper(title)) == DetectMode(title)
  {
    UpperIdempotent(title);
  }

  // ------------------------------------------------------------ datetimes

  /** A `datetime` to the second; microseconds are not modelled. */
  datatype DateTime = DateTime(year: int, month: int, day: int, hour: int, minute: int, second: int)

  predicate IsLeap(y: int)
  {
    y % 4 == 0 && (y % 100 != 0 || y % 400 == 0)
  }

  function DaysInMonth(y: int, m: int): (r: int)
    requires 1 <= m <= 12
    ensures 28 <= r <= 31
    ensures m == 2 ==> (r == 29 <==> IsLeap(y))
  {
    if m == 2 then (if IsLeap(y) then 29 else 28)
    else if m == 4 || m == 6 || m == 9 || m == 11 then 30
    else 31
  }

  /** The fields `datetime(...)` accepts without raising `ValueError`. */
  predicate ValidDateTime(d: DateTime)
  {
    1 <= d.year <= 9999 && 1 <= d.month <= 12 && 1 <= d.day <= DaysInMonth(d.year, d.month) &&
    0 <= d.hour < 24 && 0 <= d.minute < 60 && 0 <= d.second < 60
  }

  /** Datetime order: field by field, most significant first. */
  predicate Before(a: DateTime, b: DateTime)
  {
    if a.year != b.year then a.year < b.year
    else if a.month != b.month then a.month < b.month
    else if a.day != b.day then a.day < b.day
    else if a.hour != b.hour then a.hour < b.hour
    else if a.minute != b.minute then a.minute < b.minute
    else a.second < b.second
  }

  lemma BeforeTotal(a: DateTime, b: DateTime)
    ensures Before(a, b) || a == b || Before(b, a)
    ensures !(Before(a, b) && Before(b, a))
  {
  }

  /** Days from 0001-01-01 to the first of month m of year y. */
  function DaysBefore(y: int, m: int): (r: int)
    requires y >= 1 && 1 <= m <= 12
  {
    var cum := [0, 31, 59, 90, 120, 151, 181, 212, 243, 273, 304, 334];
    365 * (y - 1) + (y - 1) / 4 - (y - 1) / 100 + (y - 1) / 400 + cum[m - 1] + (if m > 2 && IsLeap(y) then 1 else 0)
  }

  /** Seconds since 0001-01-01 00:00:00; differences of these are the
      `total_seconds()` of a `timedelta`. */
  function Seconds(d: DateTime): (r: int)
    requires ValidDateTime(d)
  {
    (DaysBefore(d.year, d.month) + d.day - 1) * 86400 + d.hour * 3600 + d.minute * 60 + d.second
  }

  /** `+ timedelta(days=1)`. */
  function NextDay(d: DateTime): (r: DateTime)
    requires ValidDateTime(d) && d.year < 9999
    ensures ValidDateTime(r) && Before(d, r)
    ensures r.hour == d.hour && r.minute == d.minute && r.second == d.second
  {
    if d.day < DaysInMonth(d.year, d.month) then d.(day := d.day + 1)
    else if d.month < 12 then d.(month := d.month + 1, day := 1)
    else d.(year := d.year + 1, month := 1, day := 1)
  }

  /** A day later is 86400 seconds later. */
  lemma NextDaySeconds(d: DateTime)
    requires ValidDateTime(d) && d.year < 9999
    ensures Seconds(NextDay(d)) == Seconds(d) + 86400
  {
    if d.day == DaysInMonth(d.year, d.month) && d.month == 12 {
      var y := d.year;
      DivStep(y);
      assert DaysBefore(y + 1, 1) == DaysBefore(y, 12) + 31;
    }
  }

  /** Stepping from year y - 1 to y adds one to the quotient by 4, 100 or
      400 exactly when y is a multiple of it. */
  lemma DivStep(y: int)
    requires y >= 1
    ensures y / 4 - (y - 1) / 4 == (if y % 4 == 0 then 1 else 0)
    ensures y / 100 - (y - 1) / 100 == (if y % 100 == 0 then 1 else 0)
    ensures y / 400 - (y - 1) / 400 == (if y % 400 == 0 then 1 else 0)
    ensures y % 100 == 0 ==> y % 4 == 0
    ensures y % 400 == 0 ==> y % 100 == 0
  {
    DivStep4(y);
    DivStep100(y);
    DivStep400(y);
    CenturyLeap(y);
    QuadCentury(y);
  }

  lemma CenturyLeap(y: int)
    ensures y % 100 == 0 ==> y % 4 == 0
  {
    var q, r := y / 100, y % 100;
    assert y == 4 * (25 * q) + r;
  }

  lemma QuadCentury(y: int)
    ensures y % 400 == 0 ==> y % 100 == 0
  {
    var q, r := y / 400, y % 400;
    assert y == 100 * (4 * q) + r;
  }

  lemma DivStep4(y: int)
    ensures y / 4 - (y - 1) / 4 == (if y % 4 == 0 then 1 else 0)
  {
    var q, r := (y - 1) / 4, (y - 1) % 4;
    assert y == 4 * q + r + 1;
  }

  lemma DivStep100(y: int)
    ensures y / 100 - (y - 1) / 100 == (if y % 100 == 0 then 1 else 0)
  {
    var q, r := (y - 1) / 100, (y - 1) % 100;
    assert y == 100 * q + r + 1;
  }

  lemma DivStep400(y: int)
    ensures y / 400 - (y - 1) / 400 == (if y % 400 == 0 then 1 else 0)
  {
    var q, r := (y - 1) / 400, (y - 1) % 400;
    assert y == 400 * q + r + 1;
  }

  // -------------------------------------------------------- _build_datetimes

  /** `MONTH_MAP.get(name)`. */
  function MonthNumber(name: string): (r: Option<int>)
    ensures r.Some? ==> 1 <= r.value <= 12
  {
    var names := ["Jan", "Feb", "Mar", "Apr", "May", "Jun", "Jul", "Aug", "Sep", "Oct", "Nov", "Dec"];
    if name == names[0] then Some(1) else if name == names[1] then Some(2)
    else if name == names[2] then Some(3) else if name == names[3] then Some(4)
    else if name == names[4] then Some(5) else if name == names[5] then Some(6)
    else if name == names[6] then Some(7) else if name == names[7] then Some(8)
    else if name == names[8] then Some(9) else if name == names[9] then Some(10)
    else if name == names[10] then Some(11) else if name == names[11] then Some(12)
    else None
  }

  /** The fields the description patterns extract: month names, days and
      four-digit HHMM times read as numbers. */
  datatype TimeFields = TimeFields(startMonth: string, startDay: int, startTime: nat,
                                   endMonth: string, endDay: int, endTime: nat)

  /** The end time before the year correction; `None` where `datetime`
      raises. A time of 24xx is midnight of the next day. */
  function EndTime(year: int, month: int, day: int, time: nat): (r: Option<DateTime>)
    requires 1 <= year < 9999
    ensures r.Some? ==> ValidDateTime(r.value) && r.value.second == 0
    ensures time / 100 == 24 ==>
      r == (var m := DateTime(year, month, day, 0, 0, 0); if ValidDateTime(m) then Some(NextDay(m)) else None)
  {
    if time / 100 == 24 then
      var midnight := DateTime(year, month, day, 0, 0, 0);
      if ValidDateTime(midnight) then Some(NextDay(midnight)) else None
    else
      var e := DateTime(year, month, day, time / 100, time % 100, 0);
      if ValidDateTime(e) then Some(e) else None
  }

  /** `_build_datetimes`: `None` stands for `(None, None)`. */
  function BuildDatetimes(year: int, f: TimeFields): (r: Option<(DateTime, DateTime)>)
    requires 1 <= year < 9999
    ensures MonthNumber(f.startMonth).None? || MonthNumber(f.endMonth).None? ==> r.None?
    ensures r.Some? ==> ValidDateTime(r.value.0) && ValidDateTime(r.value.1) && !Before(r.value.1, r.value.0)
    ensures r.Some? ==> r.value.0 == DateTime(year, MonthNumber(f.startMonth).value, f.startDay,
                                              f.startTime / 100, f.startTime % 100, 0)
    ensures r.Some? ==> (var e := EndTime(year, MonthNumber(f.endMonth).value, f.endDay, f.endTime);
      e.Some? && (r.value.1 == e.value || (Before(e.value, r.value.0) && r.value.1 == e.value.(year := year + 1))))
  {
    var sm := MonthNumber(f.startMonth);
    var em := MonthNumber(f.endMonth);
    if sm.None? || em.None? then None
    else
      var start := DateTime(year, sm.value, f.startDay, f.startTime / 100, f.startTime % 100, 0);
      var end := EndTime(year, em.value, f.endDay, f.endTime);
      if !ValidDateTime(start) || end.None? then None
      else if Before(end.value, start) then
        var moved := end.value.(year := year + 1);
        if ValidDateTime(moved) then Some((start, moved)) else None
      else Some((start, end.value))
  }

  /** A 2400Z end is midnight at the start of the following day; when that
      falls before the start it moves into the next year, after the rollover
      to the next day. */
  lemma MidnightEnd(year: int, f: TimeFields)
    requires 1 <= year < 9999 && f.endTime / 100 == 24
    requires BuildDatetimes(year, f).Some?
    ensures MonthNumber(f.endMonth).Some? && ValidDateTime(DateTime(year, MonthNumber(f.endMonth).value, f.endDay, 0, 0, 0))
    ensures var e := BuildDatetimes(year, f).value.1;
      var mid := NextDay(DateTime(year, MonthNumber(f.endMonth).value, f.endDay, 0, 0, 0));
      e.hour == 0 && e.minute == 0 &&
      (e == mid || (Before(mid, BuildDatetimes(year, f).value.0) && e == mid.(year := year + 1)))
  {
  }

  // ------------------------------------------------------ _determine_status

  datatype Status = Active | Upcoming | Past

  /** The time-info text as data: "{h}h {m}m remaining", "Starts in
      {d}d {h}h", "Starts in {h}h", "Ended" and ''. */
  datatype TimeInfo = Remaining(hours: int, minutes: int) | StartsInDays(days: int, hoursLeft: int)
                    | StartsInHours(h: int) | Ended | NoInfo

  /** The countdown to a start `seconds` away: whole days, then the hours
      of the remaining part of a day. */
  function Countdown(seconds: int): (r: TimeInfo)
    ensures r.StartsInDays? || r.StartsInHours?
    ensures r.StartsInDays? ==> (r.days > 0 && 0 <= r.hoursLeft < 24 &&
      r.days * 86400 + r.hoursLeft * 3600 <= seconds < r.days * 86400 + r.hoursLeft * 3600 + 3600)
    ensures r.StartsInHours? ==> (seconds < 86400 && 0 <= r.h < 24 &&
      r.h * 3600 <= seconds % 86400 < r.h * 3600 + 3600)
  {
    var days := seconds / 86400;
    var hours := (seconds % 86400) / 3600;
    if days > 0 then StartsInDays(days, hours) else StartsInHours(hours)
  }

  /** The remaining time of an active contest in whole hours and minutes. */
  function RemainingTime(seconds: int): (r: TimeInfo)
    ensures r.Remaining? && 0 <= r.minutes < 60
    ensures r.hours * 3600 + r.minutes * 60 <= seconds < r.hours * 3600 + r.minutes * 60 + 60
  {
    Remaining(seconds / 3600, (seconds % 3600) / 60)
  }

  /** `_determine_status` at the time `now`. */
  function DetermineStatus(start: Option<DateTime>, end: Option<DateTime>, now: DateTime): (r: (Status, TimeInfo))
    requires start.Some? ==> ValidDateTime(start.value)
    requires end.Some? ==> ValidDateTime(end.value)
    requires ValidDateTime(now)
    ensures start.Some? && end.Some? ==>
      (r.0 == Active <==> !Before(now, start.value) && !Before(end.value, now)) &&
      (r.0 == Upcoming <==> Before(now, start.value)) &&
      (r.0 == Active ==> r.1 == RemainingTime(Seconds(end.value) - Seconds(now))) &&
      (r.0 == Past ==> r.1 == Ended)
    ensures (start.None? || end.None?) ==> r.0 == Upcoming
    ensures (start.None? || end.None?) ==>
      r.1 == if start.Some? && Before(now, start.value) then Countdown(Seconds(start.value) - Seconds(now)) else NoInfo
    ensures r.0 == Upcoming && start.Some? && Before(now, start.value) ==> r.1 == Countdown(Seconds(start.value) - Seconds(now))
  {
    if start.Some? && end.Some? then
      if !Before(now, start.value) && !Before(end.value, now) then
        (Active, RemainingTime(Seconds(end.value) - Seconds(now)))
      else if Before(now, start.value) then
        (Upcoming, Countdown(Seconds(start.value) - Seconds(now)))
      else (Past, Ended)
    else if start.Some? && Before(now, start.value) then
      (Upcoming, Countdown(Seconds(start.value) - Seconds(now)))
    else (Upcoming, NoInfo)
  }

  /** A contest whose start differs from its end cannot be both upcoming
      and over: with both times, `Past` means the end has gone by. */
  lemma PastMeansEnded(start: DateTime, end: DateTime, now: DateTime)
    requires ValidDateTime(start) && ValidDateTime(end) && ValidDateTime(now)
    requires DetermineStatus(Some(start), Some(end), now).0 == Past
    ensures Before(end, now) && !Before(now, start)
  {
  }

  // ---------------------------------------------------------- isoformat

  function Digit(n: int): (r: char)
    requires 0 <= n < 10
    ensures '0' <= r <= '9'
  {
    ('0' as int + n) as char
  }

  function Pad2(n: int): (r: string)
    requires 0 <= n < 100
    ensures |r| == 2
  {
    [Digit(n / 10), Digit(n % 10)]
  }

  /** `datetime.isoformat()` of a time with no microseconds:
      "YYYY-MM-DDTHH:MM:SS". */
  function IsoFormat(d: DateTime): (r: string)
    requires ValidDateTime(d)
    ensures |r| == 19 && r[4] == '-' && r[10] == 'T'
    ensures '0' <= r[0] <= '9'
  {
    [Digit(d.year / 1000), Digit(d.year / 100 % 10), Digit(d.year / 10 % 10), Digit(d.year % 10)]
    + "-" + Pad2(d.month) + "-" + Pad2(d.day) + "T" + Pad2(d.hour) + ":" + Pad2(d.minute) + ":" + Pad2(d.second)
  }

  lemma IsoBefore9999(d: DateTime)
    requires ValidDateTime(d) && d.year < 9000
    ensures LexLess(IsoFormat(d), "9999")
  {
    var s := IsoFormat(d);
    assert s[0] == Digit(d.year / 1000) && s[0] < '9';
  }

  // ------------------------------------------------------------ contests

  datatype Contest = Contest(name: string, link: string, description: string, mode: ContestMode,
                             status: Status, timeInfo: TimeInfo, start: Option<string>, end: Option<string>)

  /** One `<item>` of the feed; `times` is what the description patterns
      found, `None` when neither matched. */
  datatype FeedItem = FeedItem(title: Option<XmlElement>, link: Option<XmlElement>,
                               description: Option<XmlElement>, times: Option<TimeFields>)

  /** The contest built from one item, `None` for an item without a title. */
  function ContestOf(item: FeedItem, now: DateTime): (r: Option<Contest>)
    requires ValidDateTime(now) && now.year < 9999
    ensures r.None? <==> GetText(item.title) == ""
    ensures r.Some? ==> r.value.name == GetText(item.title) && r.value.mode == DetectMode(r.value.name)
    ensures r.Some? && (GetText(item.description) == "" || item.times.None?) ==>
      r.value.start.None? && r.value.end.None? && r.value.status == Upcoming && r.value.timeInfo == NoInfo
  {
    var title := GetText(item.title);
    if title == "" then None
    else
      var description := GetText(item.description);
      var times := if description == "" || item.times.None? then None else BuildDatetimes(now.year, item.times.value);
      var start := if times.Some? then Some(times.value.0) else None;
      var end := if times.Some? then Some(times.value.1) else None;
      var st := DetermineStatus(start, end, now);
      Some(Contest(title, GetText(item.link), description, DetectMode(title), st.0, st.1,
                   if times.Some? then Some(IsoFormat(times.value.0)) else None,
                   if times.Some? then Some(IsoFormat(times.value.1)) else None))
  }

  /** The contests of the feed, in feed order (defined from the back). */
  function ContestsOf(items: seq<FeedItem>, now: DateTime): (r: seq<Contest>)
    requires ValidDateTime(now) && now.year < 9999
    ensures |r| <= |items|
    ensures forall k :: 0 <= k < |r| ==> r[k].name != ""
  {
    if items == [] then []
    else
      var n := |items| - 1;
      var c := ContestOf(items[n], now);
      ContestsOf(items[..n], now) + (if c.Some? then [c.value] else [])
  }

  lemma ContestsOfStep(items: seq<FeedItem>, i: nat, now: DateTime)
    requires ValidDateTime(now) && now.year < 9999 && i < |items|
    ensures ContestsOf(items[..i + 1], now) == ContestsOf(items[..i], now) +
      (if ContestOf(items[i], now).Some? then [ContestOf(items[i], now).value] else [])
  {
    assert items[..i + 1][..i] == items[..i];
  }

  function Rank(c: Contest): (r: int)
  {
    if c.status == Active then 0 else 1
  }

  function StartKey(c: Contest): (r: string)
  {
    if c.start.Some? && c.start.value != "" then c.start.value else "9999"
  }

  /** The sort key `(0 if active else 1, start or '9999')` as tuple order. */
  function CalendarOrder(): (before: (Contest, Contest) -> bool)
  {
    (a: Contest, b: Contest) => Rank(a) < Rank(b) || (Rank(a) == Rank(b) && LexLess(StartKey(a), StartKey(b)))
  }

  lemma CalendarOrderIsStrictWeakOrder()
    ensures StrictWeakOrder(CalendarOrder())
  {
    var before := CalendarOrder();
    forall a: Contest, b: Contest | before(a, b) ensures !before(b, a) {
      LexLessStrictOrder(StartKey(a), StartKey(b), StartKey(b));
    }
    forall a: Contest, b: Contest, c: Contest | before(a, c) ensures before(a, b) || before(b, c) {
      LexLessStrictOrder(StartKey(a), StartKey(b), StartKey(c));
    }
  }

  /** `_fetch_contests` after the download: every titled item becomes a
      contest, and the list is sorted in calendar order. */
  method FetchContests(items: seq<FeedItem>, now: DateTime) returns (contests: seq<Contest>)
    requires ValidDateTime(now) && now.year < 9999
    ensures contests == Sort(ContestsOf(items, now), CalendarOrder())
  {
    contests := [];
    var i := 0;
    while i < |items|
      invariant 0 <= i <= |items| && contests == ContestsOf(items[..i], now)
    {
      ContestsOfStep(items, i, now);
      var c := ContestOf(items[i], now);
      if c.Some? {
        contests := contests + [c.value];
      }
      i := i + 1;
    }
    assert items[..|items|] == items;
    contests := Sort(contests, CalendarOrder());
  }

  /** In calendar order active contests come first, and within each group
      start keys never decrease. */
  lemma CalendarSorted(s: seq<Contest>)
    ensures var r := Sort(s, CalendarOrder());
      multiset(r) == multiset(s) &&
      (forall i, j :: 0 <= i < j < |r| && r[j].status == Active ==> r[i].status == Active) &&
      (forall i, j :: 0 <= i < j < |r| && Rank(r[i]) == Rank(r[j]) ==> !LexLess(StartKey(r[j]), StartKey(r[i])))
  {
    CalendarOrderIsStrictWeakOrder();
    SortSorted(s, CalendarOrder());
    var r := Sort(s, CalendarOrder());
    forall i, j | 0 <= i < j < |r|
      ensures r[j].status == Active ==> r[i].status == Active
      ensures Rank(r[i]) == Rank(r[j]) ==> !LexLess(StartKey(r[j]), StartKey(r[i]))
    {
      assert !CalendarOrder()(r[j], r[i]);
      assert CalendarOrder()(r[j], r[i]) == (Rank(r[j]) < Rank(r[i]) ||
        (Rank(r[j]) == Rank(r[i]) && LexLess(StartKey(r[j]), StartKey(r[i]))));
    }
  }

  /** Within a group, a contest without a start sorts after any start
      before the year 9000. */
  lemma MissingStartLast(a: Contest, b: Contest, d: DateTime)
    requires ValidDateTime(d) && d.year < 9000 && a.start == Some(IsoFormat(d)) && b.start.None?
    requires Rank(a) == Rank(b)
    ensures CalendarOrder()(a, b)
  {
    IsoBefore9999(d);
  }

  // ---------------------------------------------------------- get_contests

  datatype ContestsReport = ContestsReport(contests: seq<Contest>, activeCount: nat, upcomingCount: nat)

  const CONTEST_LIMIT: nat := 10
  const CONTEST_CACHE_SECONDS: int := 1800

  function CountStatus(s: seq<Contest>, st: Status): (r: nat)
    ensures r <= |s|
  {
    if s == [] then 0 else (if s[0].status == st then 1 else 0) + CountStatus(s[1..], st)
  }

  lemma {:induction false} CountsAtMostTotal(s: seq<Contest>)
    ensures CountStatus(s, Active) + CountStatus(s, Upcoming) + CountStatus(s, Past) == |s|
  {
    if s != [] {
      CountsAtMostTotal(s[1..]);
    }
  }

  lemma {:induction false} CountInsert(x: Contest, t: seq<Contest>, before: (Contest, Contest) -> bool, st: Status)
    ensures CountStatus(Insert(x, t, before), st) == CountStatus(t, st) + (if x.status == st then 1 else 0)
  {
    if t == [] || !before(t[0], x) {
      assert ([x] + t)[1..] == t;
    } else {
      CountInsert(x, t[1..], before, st);
      assert ([t[0]] + Insert(x, t[1..], before))[1..] == Insert(x, t[1..], before);
    }
  }

  /** Sorting does not change how many contests have a status. */
  lemma {:induction false} CountSort(s: seq<Contest>, before: (Contest, Contest) -> bool, st: Status)
    ensures CountStatus(Sort(s, before), st) == CountStatus(s, st)
  {
    if s != [] {
      CountSort(s[1..], before, st);
      CountInsert(s[0], Sort(s[1..], before), before, st);
    }
  }

  function FallbackContests(): (r: ContestsReport)
    ensures r.contests == [] && r.activeCount == 0 && r.upcomingCount == 0
  {
    ContestsReport([], 0, 0)
  }

  function ReportOf(contests: seq<Contest>): (r: ContestsReport)
    ensures |r.contests| == if |contests| < CONTEST_LIMIT then |contests| else CONTEST_LIMIT
    ensures r.contests == contests[..|r.contests|]
    ensures r.activeCount + r.upcomingCount <= |contests|
  {
    CountsAtMostTotal(contests);
    ContestsReport(if |contests| <= CONTEST_LIMIT then contests else contests[..CONTEST_LIMIT],
                   CountStatus(contests, Active), CountStatus(contests, Upcoming))
  }

  /** `get_contests`: a cached report is returned as it is; otherwise the
      feed (`None` when the download or parse failed, which yields no
      contests) is turned into a report, which is cached for 30 minutes.
      The counts cover every contest, the list only the first ten. */
  method GetContests(cache: CacheManagement.CacheManager<ContestsReport>, now: DateTime, nowSeconds: int,
                     feed: Option<seq<FeedItem>>, size: nat) returns (r: ContestsReport)
    requires cache.Valid() && ValidDateTime(now) && now.year < 9999
    modifies cache
    ensures cache.Valid()
    ensures "contests" in old(cache.caches) && CacheManagement.Lookup(old(cache.caches)["contests"], "current", nowSeconds).Some? ==>
      r == CacheManagement.Lookup(old(cache.caches)["contests"], "current", nowSeconds).value
    ensures ("contests" !in old(cache.caches) || CacheManagement.Lookup(old(cache.caches)["contests"], "current", nowSeconds).None?) ==>
      r == ReportOf(if feed.Some? then Sort(ContestsOf(feed.value, now), CalendarOrder()) else [])
    ensures "contests" in old(cache.caches) && CacheManagement.Lookup(old(cache.caches)["contests"], "current", nowSeconds).None? ==>
      "contests" in cache.caches &&
      forall t :: t - nowSeconds <= CONTEST_CACHE_SECONDS ==> CacheManagement.Lookup(cache.caches["contests"], "current", t) == Some(r)
  {
    var cached := cache.Get("contests", "current", nowSeconds);
    if cached.Some? {
      return cached.value;
    }
    var contests: seq<Contest> := [];
    if feed.Some? {
      contests := FetchContests(feed.value, now);
    }
    r := ReportOf(contests);
    ghost var read := cache.caches;
    var _ := cache.Set("contests", "current", r, Some(CONTEST_CACHE_SECONDS), size, nowSeconds);
    if "contests" in read {
      forall t | t - nowSeconds <= CONTEST_CACHE_SECONDS
        ensures CacheManagement.Lookup(cache.caches["contests"], "current", t) == Some(r)
      {
        CacheManagement.SetThenGet(read["contests"], "current", r, CONTEST_CACHE_SECONDS, size, nowSeconds,
                                   cache.SizeLimit("contests"), cache.MemoryLimit("contests"), t);
      }
    }
  }

  /** The counts do not depend on the order of the list. */
  lemma ReportCountsFeedOrder(items: seq<FeedItem>, now: DateTime)
    requires ValidDateTime(now) && now.year < 9999
    ensures var r := ReportOf(Sort(ContestsOf(items, now), CalendarOrder()));
      r.activeCount == CountStatus(ContestsOf(items, now), Active) &&
      r.upcomingCount == CountStatus(ContestsOf(items, now), Upcoming)
  {
    var s := ContestsOf(items, now);
    CountSort(s, CalendarOrder(), Active);
    CountSort(s, CalendarOrder(), Upcoming);
  }
}
