/** ZIP code lookup and Maidenhead locator conversion (utils/geocoding.py).
    Coordinates are reals: floating-point rounding is not modelled. The
    Zippopotam.us request is not modelled; what it returned is an input. */
module Geocoding {
  import opened Common
  import opened Text

  // ------------------------------------------------ Python number helpers

  /** `int(x)` on a float: truncation toward zero. */
  function Trunc(x: real): (r: int)
    ensures x >= 0.0 ==> r as real <= x < r as real + 1.0
    ensures x < 0.0 ==> r as real - 1.0 < x <= r as real
  {
    if x >= 0.0 then x.Floor else -((-x).Floor)
  }

  /** Python's float `x % d` for a positive modulus: the result has the
      sign of `d`. */
  function PyMod(x: real, d: real): (r: real)
    requires d > 0.0
    ensures 0.0 <= r < d
    ensures r == x - d * (x / d).Floor as real
  {
    FloorScaled(x, d);
    x - d * (x / d).Floor as real
  }

  lemma FloorScaled(x: real, d: real)
    requires d > 0.0
    ensures d * (x / d).Floor as real <= x < d * (x / d).Floor as real + d
  {
    var q := (x / d).Floor as real;
    assert q <= x / d < q + 1.0;
    assert d * (x / d) == x;
    MulLess(d, q, x / d);
    MulLess(d, x / d, q + 1.0);
    assert d * (x / d) < d * (q + 1.0);
    assert d * (q + 1.0) == d * q + d;
    assert x < d * q + d;
  }

  lemma MulLess(d: real, a: real, b: real)
    requires d > 0.0 && a <= b
    ensures d * a <= d * b && (a < b ==> d * a < d * b)
  {
  }

  /** `chr(code)`: `None` where Python raises (a code outside 0..0x10FFFF)
      and for the surrogate codes that a Dafny `char` cannot hold. */
  function Chr(code: int): (r: Option<char>)
    ensures r.Some? ==> r.value as int == code
    ensures 0 <= code < 0xD800 ==> r.Some?
  {
    if 0 <= code < 0xD800 || 0xE000 <= code < 0x11_0000 then Some(code as char) else None
  }

  /** `str(n)` for a one-digit natural number. */
  function Digit(n: int): (r: char)
    requires 0 <= n <= 9
    ensures IsDigit(r) && DigitValue(r) == n
  {
    ('0' as int + n) as char
  }

  lemma FloorIs(x: real, n: int)
    requires n as real <= x < n as real + 1.0
    ensures x.Floor == n
  {
  }

  // ------------------------------------------------------- latlon_to_grid

  /** Latitude in [-90, 90) and longitude in [-180, 180). */
  predicate InRange(lat: real, lon: real)
  {
    -90.0 <= lat < 90.0 && -180.0 <= lon < 180.0
  }

  /** A six-character locator as `latlon_to_grid` writes it: field letters
      A to R, square digits, subsquare letters a to x. */
  predicate IsSubsquareLocator(g: string)
  {
    |g| == 6 && 'A' <= g[0] <= 'R' && 'A' <= g[1] <= 'R' && IsDigit(g[2]) && IsDigit(g[3]) &&
    'a' <= g[4] <= 'x' && 'a' <= g[5] <= 'x'
  }

  /** `latlon_to_grid`: 20 x 10 degree fields, 2 x 1 degree squares and
      5 x 2.5 minute subsquares, counted from (-180, -90). A field whose
      letter would lie outside the character range raises in the source
      and is `None` here. */
  function LatLonToGrid(lat: real, lon: real): (r: Option<string>)
    ensures InRange(lat, lon) ==> r.Some? && IsSubsquareLocator(r.value)
    ensures r.Some? ==> (|r.value| == 6 && IsDigit(r.value[2]) && IsDigit(r.value[3]) &&
      'a' <= r.value[4] <= 'x' && 'a' <= r.value[5] <= 'x')
  {
    var lon1, lat1 := lon + 180.0, lat + 90.0;
    var lonField, latField := Trunc(lon1 / 20.0), Trunc(lat1 / 10.0);
    var lonSquare, latSquare := Trunc(PyMod(lon1, 20.0) / 2.0), Trunc(PyMod(lat1, 10.0) / 1.0);
    var lonSub, latSub := Trunc(PyMod(lon1, 2.0) * 12.0), Trunc(PyMod(lat1, 1.0) * 24.0);
    var a, b := Chr('A' as int + lonField), Chr('A' as int + latField);
    if a.None? || b.None? then None
    else Some([a.value, b.value, Digit(lonSquare), Digit(latSquare),
               ('a' as int + lonSub) as char, ('a' as int + latSub) as char])
  }

  // ------------------------------------------------------- grid_to_latlon

  datatype LatLon = LatLon(lat: real, lon: real)

  /** `grid_to_latlon`: the centre of the square (four or five characters)
      or of the subsquare (six or more), after upper-casing. Fewer than
      four characters, or a square character that is not a digit, gives
      `None`; the letters themselves are not checked. */
  function GridToLatLon(grid: string): (r: Option<LatLon>)
    ensures r.None? <==> |grid| < 4 || !IsDigit(grid[2]) || !IsDigit(grid[3])
  {
    var g := Upper(grid);
    if |g| < 4 || !IsDigit(g[2]) || !IsDigit(g[3]) then None
    else
      var lon := ((g[0] as int - 'A' as int) * 20 - 180 + DigitValue(g[2]) * 2) as real;
      var lat := ((g[1] as int - 'A' as int) * 10 - 90 + DigitValue(g[3])) as real;
      if |g| >= 6 then
        Some(LatLon(lat + (g[5] as int - 'A' as int) as real / 24.0 + 1.0 / 48.0,
                    lon + (g[4] as int - 'A' as int) as real / 12.0 + 1.0 / 24.0))
      else Some(LatLon(lat + 0.5, lon + 1.0))
  }

  predicate IsFieldLetter(c: char) { 'A' <= ToUpper(c) <= 'R' }
  predicate IsSubsquareLetter(c: char) { 'A' <= ToUpper(c) <= 'X' }

  /** A Maidenhead locator of four or six characters, in either case. */
  predicate ValidLocator(g: string)
  {
    (|g| == 4 || |g| == 6) && IsFieldLetter(g[0]) && IsFieldLetter(g[1]) && IsDigit(g[2]) && IsDigit(g[3]) &&
    (|g| == 6 ==> IsSubsquareLetter(g[4]) && IsSubsquareLetter(g[5]))
  }

  /** The locator as `latlon_to_grid` writes the cell's centre: upper-case
      field, lower-case subsquare, and "mm" (the middle subsquare) for a
      four-character locator. */
  function Canonical(g: string): (r: string)
    requires ValidLocator(g)
    ensures IsSubsquareLocator(r)
  {
    [ToUpper(g[0]), ToUpper(g[1]), g[2], g[3]] + (if |g| == 6 then [ToLower(ToUpper(g[4])), ToLower(ToUpper(g[5]))] else "mm")
  }

  /** The round trip: the centre a valid locator decodes to lies in range
      and encodes back to the same cell. */
  lemma RoundTrip(g: string)
    requires ValidLocator(g)
    ensures GridToLatLon(g).Some?
    ensures var p := GridToLatLon(g).value; InRange(p.lat, p.lon) && LatLonToGrid(p.lat, p.lon) == Some(Canonical(g))
  {
    var u := Upper(g);
    assert u[2] == g[2] && u[3] == g[3];
    var f0, f1 := u[0] as int - 'A' as int, u[1] as int - 'A' as int;
    var s0, s1 := DigitValue(g[2]), DigitValue(g[3]);
    var p := GridToLatLon(g).value;
    var t0, t1 := p.lon - (f0 * 20 - 180 + s0 * 2) as real, p.lat - (f1 * 10 - 90 + s1) as real;
    var x0, x1 := Subsquares(g);
    Encode(p.lat, p.lon, f0, s0, t0, x0, f1, s1, t1, x1);
    CanonicalChars(g, x0, x1);
  }

  /** The canonical locator character by character, given the subsquare
      indices `Subsquares` finds. */
  lemma CanonicalChars(g: string, x0: int, x1: int)
    requires ValidLocator(g)
    requires |g| == 6 ==> x0 == Upper(g)[4] as int - 'A' as int && x1 == Upper(g)[5] as int - 'A' as int
    requires |g| == 4 ==> x0 == 12 && x1 == 12
    ensures var u := Upper(g);
      Canonical(g) == [('A' as int + (u[0] as int - 'A' as int)) as char, ('A' as int + (u[1] as int - 'A' as int)) as char,
                       Digit(DigitValue(g[2])), Digit(DigitValue(g[3])), ('a' as int + x0) as char, ('a' as int + x1) as char]
  {
    DigitOfValue(g[2]);
    DigitOfValue(g[3]);
    if |g| == 6 {
      SubsquareChar(g[4]);
      SubsquareChar(g[5]);
    }
  }

  lemma DigitOfValue(c: char)
    requires IsDigit(c)
    ensures Digit(DigitValue(c)) == c
  {
  }

  /** A subsquare letter in either case is written back in lower case. */
  lemma SubsquareChar(c: char)
    requires IsSubsquareLetter(c)
    ensures ('a' as int + (ToUpper(c) as int - 'A' as int)) as char == ToLower(ToUpper(c))
  {
  }

  /** The subsquare the decoded centre lies in: the locator's own for six
      characters, the middle one (12, 12) for four. */
  lemma Subsquares(g: string) returns (x0: int, x1: int)
    requires ValidLocator(g)
    ensures var u, p := Upper(g), GridToLatLon(g).value;
      var t0 := p.lon - ((u[0] as int - 'A' as int) * 20 - 180 + DigitValue(g[2]) * 2) as real;
      var t1 := p.lat - ((u[1] as int - 'A' as int) * 10 - 90 + DigitValue(g[3])) as real;
      0.0 <= t0 < 2.0 && 0.0 <= t1 < 1.0 && Trunc(t0 * 12.0) == x0 && Trunc(t1 * 24.0) == x1 &&
      (|g| == 6 ==> x0 == u[4] as int - 'A' as int && x1 == u[5] as int - 'A' as int) &&
      (|g| == 4 ==> x0 == 12 && x1 == 12)
  {
    var u := Upper(g);
    assert u[2] == g[2] && u[3] == g[3];
    if |g| == 6 {
      x0, x1 := u[4] as int - 'A' as int, u[5] as int - 'A' as int;
      FloorIs((x0 as real / 12.0 + 1.0 / 24.0) * 12.0, x0);
      FloorIs((x1 as real / 24.0 + 1.0 / 48.0) * 24.0, x1);
    } else {
      x0, x1 := 12, 12;
    }
  }

  /** The locator of a point given by its field, square and offset in
      the square, and the subsquare that offset falls in. */
  lemma Encode(lat: real, lon: real, f0: int, s0: int, t0: real, x0: int, f1: int, s1: int, t1: real, x1: int)
    requires 0 <= f0 < 18 && 0 <= s0 < 10 && 0.0 <= t0 < 2.0 && lon + 180.0 == f0 as real * 20.0 + s0 as real * 2.0 + t0
    requires 0 <= f1 < 18 && 0 <= s1 < 10 && 0.0 <= t1 < 1.0 && lat + 90.0 == f1 as real * 10.0 + s1 as real + t1
    requires Trunc(t0 * 12.0) == x0 && Trunc(t1 * 24.0) == x1
    ensures InRange(lat, lon)
    ensures LatLonToGrid(lat, lon) == Some([('A' as int + f0) as char, ('A' as int + f1) as char, Digit(s0), Digit(s1),
                                            ('a' as int + x0) as char, ('a' as int + x1) as char])
  {
    LonCell(lon + 180.0, f0, s0, t0);
    LatCell(lat + 90.0, f1, s1, t1);
  }

  /** Encoding then decoding moves a point by at most half a subsquare:
      the locator's centre is within 1/48 degree of latitude and 1/24
      degree of longitude of the point. */
  lemma GridContainsPoint(lat: real, lon: real)
    requires InRange(lat, lon)
    ensures GridToLatLon(LatLonToGrid(lat, lon).value).Some?
    ensures var p := GridToLatLon(LatLonToGrid(lat, lon).value).value;
      p.lat - 1.0 / 48.0 <= lat < p.lat + 1.0 / 48.0 && p.lon - 1.0 / 24.0 <= lon < p.lon + 1.0 / 24.0
  {
    var f0, s0, t0 := LonParts(lon + 180.0);
    var f1, s1, t1 := LatParts(lat + 90.0);
    var x0, x1 := Trunc(t0 * 12.0), Trunc(t1 * 24.0);
    Encode(lat, lon, f0, s0, t0, x0, f1, s1, t1, x1);
    var g := LatLonToGrid(lat, lon).value;
    var u := Upper(g);
    assert u[0] as int == 'A' as int + f0 && u[1] as int == 'A' as int + f1;
    assert u[4] as int == 'A' as int + x0 && u[5] as int == 'A' as int + x1;
    assert u[2] == g[2] && u[3] == g[3];
  }

  /** The field, square and offset in the square of a longitude offset. */
  lemma LonParts(x: real) returns (field: int, square: int, t: real)
    requires 0.0 <= x < 360.0
    ensures 0 <= field < 18 && 0 <= square < 10 && 0.0 <= t < 2.0
    ensures x == field as real * 20.0 + square as real * 2.0 + t
  {
    field := Trunc(x / 20.0);
    square := Trunc(PyMod(x, 20.0) / 2.0);
    t := x - field as real * 20.0 - square as real * 2.0;
  }

  /** The field, square and offset in the square of a latitude offset. */
  lemma LatParts(x: real) returns (field: int, square: int, t: real)
    requires 0.0 <= x < 180.0
    ensures 0 <= field < 18 && 0 <= square < 10 && 0.0 <= t < 1.0
    ensures x == field as real * 10.0 + square as real + t
  {
    field := Trunc(x / 10.0);
    square := Trunc(PyMod(x, 10.0));
    t := x - field as real * 10.0 - square as real;
  }

  /** A longitude offset `x = field * 20 + square * 2 + t`, `t` inside the
      square, falls in that field and square, `t` past the square's corner. */
  lemma LonCell(x: real, field: int, square: int, t: real)
    requires 0 <= field < 18 && 0 <= square < 10 && 0.0 <= t < 2.0
    requires x == field as real * 20.0 + square as real * 2.0 + t
    ensures Trunc(x / 20.0) == field
    ensures Trunc(PyMod(x, 20.0) / 2.0) == square
    ensures PyMod(x, 2.0) == t
  {
    FloorIs(x / 20.0, field);
    assert PyMod(x, 20.0) == square as real * 2.0 + t;
    FloorIs(PyMod(x, 20.0) / 2.0, square);
    FloorIs(x / 2.0, field * 10 + square);
  }

  /** The same for a latitude offset, in 10 degree fields of 1 degree squares. */
  lemma LatCell(x: real, field: int, square: int, t: real)
    requires 0 <= field < 18 && 0 <= square < 10 && 0.0 <= t < 1.0
    requires x == field as real * 10.0 + square as real + t
    ensures Trunc(x / 10.0) == field
    ensures Trunc(PyMod(x, 10.0) / 1.0) == square
    ensures PyMod(x, 1.0) == t
  {
    FloorIs(x / 10.0, field);
    assert PyMod(x, 10.0) == square as real + t;
    FloorIs(PyMod(x, 10.0) / 1.0, square);
    FloorIs(x / 1.0, field * 10 + square);
  }
  // ------------------------------------------------------ ZIP code lookup

  datatype Source = Cache | Zippopotamus | Estimated | Default

  /** The record `zip_to_coordinates` returns. */
  datatype Location = Location(zipCode: string, lat: real, lon: real, city: string, state: string,
                               timezone: string, gridSquare: string, source: Source)

  datatype ZipEntry = ZipEntry(lat: real, lon: real, city: string, state: string, timezone: string)

  /** `COMMON_ZIPS`. */
  const COMMON_ZIPS: map<string, ZipEntry> := map[
    "85630" := ZipEntry(31.8973, -110.2154, "St. David", "AZ", "America/Phoenix"),
    "10001" := ZipEntry(40.7484, -73.9967, "New York", "NY", "America/New_York"),
    "90210" := ZipEntry(34.0901, -118.4065, "Beverly Hills", "CA", "America/Los_Angeles"),
    "60601" := ZipEntry(41.8819, -87.6278, "Chicago", "IL", "America/Chicago"),
    "77001" := ZipEntry(29.7604, -95.3698, "Houston", "TX", "America/Chicago"),
    "85001" := ZipEntry(33.4484, -112.0740, "Phoenix", "AZ", "America/Phoenix"),
    "19101" := ZipEntry(39.9526, -75.1652, "Philadelphia", "PA", "America/New_York"),
    "78201" := ZipEntry(29.4241, -98.4936, "San Antonio", "TX", "America/Chicago"),
    "92101" := ZipEntry(32.7157, -117.1611, "San Diego", "CA", "America/Los_Angeles"),
    "75201" := ZipEntry(32.7767, -96.7970, "Dallas", "TX", "America/Chicago")
  ]

  lemma CommonZipsInRange()
    ensures forall z :: z in COMMON_ZIPS ==> InRange(COMMON_ZIPS[z].lat, COMMON_ZIPS[z].lon)
  {
  }

  /** The locator of a point in range (where `latlon_to_grid` cannot raise). */
  function Grid(lat: real, lon: real): (r: string)
    requires InRange(lat, lon)
    ensures IsSubsquareLocator(r)
  {
    LatLonToGrid(lat, lon).value
  }

  /** A ZIP prefix region of `_estimate_from_zip_prefix`: the prefixes
      `start` to `end` inclusive and the region's approximate centre. */
  datatype Region = Region(start: nat, end: nat, lat: real, lon: real, name: string, state: string, timezone: string)

  // The region table, in the source's order, written in four parts so that
  // each can be checked on its own.
  const REGIONS_1: seq<Region> := [
    Region(0, 99, 42.0, -72.0, "New England", "MA", "America/New_York"),
    Region(100, 149, 42.5, -75.0, "New York", "NY", "America/New_York"),
    Region(150, 196, 40.5, -76.0, "Pennsylvania", "PA", "America/New_York"),
    Region(197, 199, 39.0, -75.5, "Delaware", "DE", "America/New_York"),
    Region(200, 205, 38.9, -77.0, "Washington DC", "DC", "America/New_York"),
    Region(206, 219, 38.0, -78.5, "Virginia", "VA", "America/New_York"),
    Region(220, 246, 39.0, -80.0, "West Virginia", "WV", "America/New_York"),
    Region(247, 268, 35.5, -79.0, "North Carolina", "NC", "America/New_York"),
    Region(269, 289, 34.0, -81.0, "South Carolina", "SC", "America/New_York"),
    Region(290, 319, 33.0, -84.0, "Georgia", "GA", "America/New_York"),
    Region(320, 339, 28.0, -82.0, "Florida", "FL", "America/New_York")
  ]

  const REGIONS_2: seq<Region> := [
    Region(350, 369, 33.5, -86.8, "Alabama", "AL", "America/Chicago"),
    Region(370, 385, 36.0, -86.5, "Tennessee", "TN", "America/Chicago"),
    Region(386, 397, 32.5, -90.0, "Mississippi", "MS", "America/Chicago"),
    Region(400, 427, 38.0, -85.5, "Kentucky", "KY", "America/New_York"),
    Region(430, 458, 40.0, -83.0, "Ohio", "OH", "America/New_York"),
    Region(460, 479, 40.0, -86.0, "Indiana", "IN", "America/New_York"),
    Region(480, 499, 43.0, -84.5, "Michigan", "MI", "America/New_York"),
    Region(500, 528, 42.0, -93.5, "Iowa", "IA", "America/Chicago"),
    Region(530, 549, 44.0, -90.0, "Wisconsin", "WI", "America/Chicago"),
    Region(550, 567, 45.0, -93.5, "Minnesota", "MN", "America/Chicago"),
    Region(570, 577, 44.0, -100.0, "South Dakota", "SD", "America/Chicago")
  ]

  const REGIONS_3: seq<Region> := [
    Region(580, 588, 47.0, -100.0, "North Dakota", "ND", "America/Chicago"),
    Region(590, 599, 47.0, -110.0, "Montana", "MT", "America/Denver"),
    Region(600, 629, 40.0, -89.0, "Illinois", "IL", "America/Chicago"),
    Region(630, 658, 38.5, -92.0, "Missouri", "MO", "America/Chicago"),
    Region(660, 679, 39.0, -98.0, "Kansas", "KS", "America/Chicago"),
    Region(680, 693, 41.0, -100.0, "Nebraska", "NE", "America/Chicago"),
    Region(700, 714, 30.5, -91.0, "Louisiana", "LA", "America/Chicago"),
    Region(716, 729, 34.5, -92.5, "Arkansas", "AR", "America/Chicago"),
    Region(730, 749, 35.5, -97.5, "Oklahoma", "OK", "America/Chicago"),
    Region(750, 799, 31.5, -99.0, "Texas", "TX", "America/Chicago"),
    Region(800, 816, 39.5, -105.0, "Colorado", "CO", "America/Denver")
  ]

  const REGIONS_4: seq<Region> := [
    Region(820, 831, 43.0, -108.0, "Wyoming", "WY", "America/Denver"),
    Region(832, 838, 43.5, -114.0, "Idaho", "ID", "America/Boise"),
    Region(840, 847, 40.5, -111.5, "Utah", "UT", "America/Denver"),
    Region(850, 865, 34.0, -111.5, "Arizona", "AZ", "America/Phoenix"),
    Region(870, 884, 35.0, -106.0, "New Mexico", "NM", "America/Denver"),
    Region(889, 898, 39.5, -117.0, "Nevada", "NV", "America/Los_Angeles"),
    Region(900, 961, 36.0, -119.0, "California", "CA", "America/Los_Angeles"),
    Region(967, 968, 21.3, -157.8, "Hawaii", "HI", "Pacific/Honolulu"),
    Region(970, 979, 44.0, -121.0, "Oregon", "OR", "America/Los_Angeles"),
    Region(980, 994, 47.5, -121.0, "Washington", "WA", "America/Los_Angeles"),
    Region(995, 999, 64.0, -153.0, "Alaska", "AK", "America/Anchorage")
  ]

  const REGIONS: seq<Region> := REGIONS_1 + REGIONS_2 + REGIONS_3 + REGIONS_4

  predicate Contains(rg: Region, prefix: int)
  {
    rg.start <= prefix <= rg.end
  }

  /** From index `i` on, each range is well formed and ends before the
      next one starts. */
  predicate SeparatedFrom(rs: seq<Region>, i: nat)
    decreases |rs| - i
  {
    i >= |rs| || (rs[i].start <= rs[i].end && (i + 1 < |rs| ==> rs[i].end < rs[i + 1].start) && SeparatedFrom(rs, i + 1))
  }

  /** The ranges are well formed, ascending and pairwise disjoint. */
  ghost predicate Disjoint(rs: seq<Region>)
  {
    (forall i :: 0 <= i < |rs| ==> rs[i].start <= rs[i].end) &&
    (forall i, j :: 0 <= i < j < |rs| ==> rs[i].end < rs[j].start)
  }

  lemma {:induction false} SeparatedDisjoint(rs: seq<Region>, i: nat)
    requires i <= |rs| && SeparatedFrom(rs, i)
    ensures Disjoint(rs[i..])
    decreases |rs| - i
  {
    if i < |rs| {
      SeparatedDisjoint(rs, i + 1);
      var t := rs[i..];
      assert t[1..] == rs[i + 1..];
      forall j, k | 0 <= j < k < |t| ensures t[j].end < t[k].start {
        if j == 0 && k > 1 {
          assert t[1] == rs[i + 1] && t[k] == rs[i + 1..][k - 1];
        } else if j > 0 {
          assert t[j] == rs[i + 1..][j - 1] && t[k] == rs[i + 1..][k - 1];
        }
      }
      forall j | 0 <= j < |t| ensures t[j].start <= t[j].end {
        if j > 0 {
          assert t[j] == rs[i + 1..][j - 1];
        }
      }
    }
  }

  lemma DisjointConcat(a: seq<Region>, b: seq<Region>)
    requires Disjoint(a) && Disjoint(b) && a != [] && b != [] && a[|a| - 1].end < b[0].start
    ensures Disjoint(a + b)
  {
    forall i, j | 0 <= i < j < |a + b| ensures (a + b)[i].end < (a + b)[j].start {
      if j < |a| {
        assert (a + b)[i] == a[i] && (a + b)[j] == a[j];
      } else if i < |a| {
        assert (a + b)[j] == b[j - |a|];
        assert a[i].end <= a[|a| - 1].end;
        assert b[0].start <= b[j - |a|].start;
      } else {
        assert (a + b)[i] == b[i - |a|] && (a + b)[j] == b[j - |a|];
      }
    }
    forall i | 0 <= i < |a + b| ensures (a + b)[i].start <= (a + b)[i].end {
      if i >= |a| {
        assert (a + b)[i] == b[i - |a|];
      }
    }
  }

  lemma Part1Separated() ensures SeparatedFrom(REGIONS_1, 0) { }
  lemma Part2Separated() ensures SeparatedFrom(REGIONS_2, 0) { }
  lemma Part3Separated() ensures SeparatedFrom(REGIONS_3, 0) { }
  lemma Part4Separated() ensures SeparatedFrom(REGIONS_4, 0) { }

  /** The prefix ranges of the region table do not overlap. */
  lemma RegionsDisjoint()
    ensures Disjoint(REGIONS)
  {
    Part1Separated();
    Part2Separated();
    Part3Separated();
    Part4Separated();
    SeparatedDisjoint(REGIONS_1, 0);
    SeparatedDisjoint(REGIONS_2, 0);
    SeparatedDisjoint(REGIONS_3, 0);
    SeparatedDisjoint(REGIONS_4, 0);
    assert REGIONS_1[0..] == REGIONS_1 && REGIONS_2[0..] == REGIONS_2;
    assert REGIONS_3[0..] == REGIONS_3 && REGIONS_4[0..] == REGIONS_4;
    DisjointConcat(REGIONS_1, REGIONS_2);
    DisjointConcat(REGIONS_1 + REGIONS_2, REGIONS_3);
    DisjointConcat(REGIONS_1 + REGIONS_2 + REGIONS_3, REGIONS_4);
  }

  /** From index `i` on, every region's centre is in range. */
  predicate InRangeFrom(rs: seq<Region>, i: nat)
    decreases |rs| - i
  {
    i >= |rs| || (InRange(rs[i].lat, rs[i].lon) && InRangeFrom(rs, i + 1))
  }

  lemma {:induction false} InRangeAll(rs: seq<Region>, i: nat)
    requires i <= |rs| && InRangeFrom(rs, i)
    ensures forall k :: i <= k < |rs| ==> InRange(rs[k].lat, rs[k].lon)
    decreases |rs| - i
  {
    if i < |rs| {
      InRangeAll(rs, i + 1);
    }
  }

  lemma Part1InRange() ensures InRangeFrom(REGIONS_1, 0) { }
  lemma Part2InRange() ensures InRangeFrom(REGIONS_2, 0) { }
  lemma Part3InRange() ensures InRangeFrom(REGIONS_3, 0) { }
  lemma Part4InRange() ensures InRangeFrom(REGIONS_4, 0) { }

  /** Every region's centre is a valid coordinate. */
  lemma RegionsInRange()
    ensures forall rg :: rg in REGIONS ==> InRange(rg.lat, rg.lon)
  {
    Part1InRange();
    Part2InRange();
    Part3InRange();
    Part4InRange();
    InRangeAll(REGIONS_1, 0);
    InRangeAll(REGIONS_2, 0);
    InRangeAll(REGIONS_3, 0);
    InRangeAll(REGIONS_4, 0);
    forall rg | rg in REGIONS ensures InRange(rg.lat, rg.lon) {
      assert rg in REGIONS_1 || rg in REGIONS_2 || rg in REGIONS_3 || rg in REGIONS_4;
    }
  }

  /** The loop over `regions.items()`: the first region holding the prefix. */
  function FindRegion(rs: seq<Region>, prefix: int): (r: Option<Region>)
    ensures r.Some? ==> r.value in rs && Contains(r.value, prefix)
    ensures r.None? <==> forall i :: 0 <= i < |rs| ==> !Contains(rs[i], prefix)
  {
    if rs == [] then None
    else if Contains(rs[0], prefix) then Some(rs[0])
    else
      var r := FindRegion(rs[1..], prefix);
      assert forall i :: 1 <= i < |rs| ==> rs[i] == rs[1..][i - 1];
      r
  }

  /** With disjoint ranges the search finds the one region holding the prefix. */
  lemma FindRegionUnique(rs: seq<Region>, prefix: int, i: int)
    requires Disjoint(rs) && 0 <= i < |rs| && Contains(rs[i], prefix)
    ensures FindRegion(rs, prefix) == Some(rs[i])
  {
    var r := FindRegion(rs, prefix).value;
    var j :| 0 <= j < |rs| && rs[j] == r;
    assert j == i;
  }

  /** The US geographic centre, the answer for a prefix in no region. */
  function DefaultLocation(zip: string): (r: Location)
    ensures r.zipCode == zip && r.source == Default && r.state == "KS" && r.timezone == "America/Chicago"
    ensures r.lat == 39.8283 && r.lon == -98.5795 && IsSubsquareLocator(r.gridSquare)
  {
    Location(zip, 39.8283, -98.5795, "Geographic Center of US", "KS", "America/Chicago", Grid(39.8283, -98.5795), Default)
  }

  /** `_estimate_from_zip_prefix`, for the five-digit codes it is called
      with: the region holding the three-digit prefix, else the centre. */
  function EstimateFromZipPrefix(zip: string): (r: Location)
    requires |zip| == 5 && AllDigits(zip)
    ensures r.zipCode == zip && (r.source == Estimated || r.source == Default)
    ensures r.source == Default <==> forall i :: 0 <= i < |REGIONS| ==> !Contains(REGIONS[i], DigitsValue(zip[..3]))
    ensures r.source == Default ==> r == DefaultLocation(zip)
    ensures IsSubsquareLocator(r.gridSquare) && Some(r.gridSquare) == LatLonToGrid(r.lat, r.lon)
  {
    match FindRegion(REGIONS, DigitsValue(zip[..3]))
    case Some(rg) =>
      RegionsInRange();
      Location(zip, rg.lat, rg.lon, rg.name + " Area", rg.state, rg.timezone, Grid(rg.lat, rg.lon), Estimated)
    case None => DefaultLocation(zip)
  }

  /** A prefix in a region gets that region's centre, state and zone, and
      the city "<name> Area". */
  lemma EstimateInRegion(zip: string, i: int)
    requires |zip| == 5 && AllDigits(zip) && 0 <= i < |REGIONS| && Contains(REGIONS[i], DigitsValue(zip[..3]))
    ensures var r, rg := EstimateFromZipPrefix(zip), REGIONS[i];
      r.source == Estimated && r.lat == rg.lat && r.lon == rg.lon && r.city == rg.name + " Area" &&
      r.state == rg.state && r.timezone == rg.timezone
  {
    RegionsDisjoint();
    FindRegionUnique(REGIONS, DigitsValue(zip[..3]), i);
  }

  /** The first entry of the `places` list of a Zippopotam.us answer, with
      its coordinates already read as numbers. */
  datatype Place = Place(lat: real, lon: real, placeName: Option<string>, stateAbbreviation: Option<string>)

  /** `_fetch_from_zippopotamus` after the request: `place` is `None` when
      the request failed, the list was missing or empty, or a coordinate
      did not parse. A locator that cannot be built (a coordinate so far
      out that `chr` raises) is caught as well and gives `None`. */
  function FetchedLocation(zip: string, place: Option<Place>): (r: Option<Location>)
    ensures place.None? ==> r.None?
    ensures place.Some? && InRange(place.value.lat, place.value.lon) ==> r.Some?
    ensures r.Some? ==> var p, l := place.value, r.value;
      l.zipCode == zip && l.source == Zippopotamus && l.lat == p.lat && l.lon == p.lon &&
      l.city == p.placeName.GetOr("Unknown") && l.state == p.stateAbbreviation.GetOr("XX") &&
      l.timezone == StateToTimezone(l.state) && Some(l.gridSquare) == LatLonToGrid(p.lat, p.lon)
  {
    if place.None? then None
    else
      var p := place.value;
      match LatLonToGrid(p.lat, p.lon)
      case None => None
      case Some(g) =>
        var state := p.stateAbbreviation.GetOr("XX");
        Some(Location(zip, p.lat, p.lon, p.placeName.GetOr("Unknown"), state, StateToTimezone(state), g, Zippopotamus))
  }

  /** The five characters `str(zip_code).strip()[:5]` keeps. */
  function ZipPrefix(zipCode: string): (r: string)
    ensures var t := Strip(zipCode); |r| == (if |t| < 5 then |t| else 5) && r == t[..|r|]
  {
    var t := Strip(zipCode);
    if |t| <= 5 then t else t[..5]
  }

  /** `zip_to_coordinates`: `None` for a code that is not five digits after
      stripping and cutting; then the table of common codes, the
      Zippopotam.us answer (`fetched`), and the prefix estimate, in that
      order. */
  function ZipToCoordinates(zipCode: string, fetched: Option<Place>): (r: Option<Location>)
    ensures r.None? <==> !(|Strip(zipCode)| >= 5 && AllDigits(Strip(zipCode)[..5]))
    ensures r.Some? ==> r.value.zipCode == Strip(zipCode)[..5] && Some(r.value.gridSquare) == LatLonToGrid(r.value.lat, r.value.lon)
    ensures r.Some? && r.value.zipCode in COMMON_ZIPS ==> var e, l := COMMON_ZIPS[r.value.zipCode], r.value;
      l.source == Cache && l.lat == e.lat && l.lon == e.lon && l.city == e.city && l.state == e.state && l.timezone == e.timezone
    ensures r.Some? && r.value.zipCode !in COMMON_ZIPS && FetchedLocation(r.value.zipCode, fetched).Some? ==>
      r == FetchedLocation(r.value.zipCode, fetched)
    ensures r.Some? && r.value.zipCode !in COMMON_ZIPS && FetchedLocation(r.value.zipCode, fetched).None? ==>
      r == Some(EstimateFromZipPrefix(r.value.zipCode))
  {
    var z := ZipPrefix(zipCode);
    if !(IsDigits(z) && |z| == 5) then None
    else if z in COMMON_ZIPS then
      var e := COMMON_ZIPS[z];
      CommonZipsInRange();
      Some(Location(z, e.lat, e.lon, e.city, e.state, e.timezone, Grid(e.lat, e.lon), Cache))
    else
      match FetchedLocation(z, fetched)
      case Some(l) => Some(l)
      case None => Some(EstimateFromZipPrefix(z))
  }

  /** Whatever the source, a location's locator names the square that holds
      its coordinates: decoding it gives a centre within half a subsquare. */
  lemma ZipLocatorCoversPoint(zipCode: string, fetched: Option<Place>)
    requires ZipToCoordinates(zipCode, fetched).Some?
    ensures var l := ZipToCoordinates(zipCode, fetched).value;
      InRange(l.lat, l.lon) ==> GridToLatLon(l.gridSquare).Some?
    ensures var l := ZipToCoordinates(zipCode, fetched).value;
      InRange(l.lat, l.lon) ==> (var p := GridToLatLon(l.gridSquare).value;
        p.lat - 1.0 / 48.0 <= l.lat < p.lat + 1.0 / 48.0 && p.lon - 1.0 / 24.0 <= l.lon < p.lon + 1.0 / 24.0)
  {
    var l := ZipToCoordinates(zipCode, fetched).value;
    if InRange(l.lat, l.lon) {
      GridContainsPoint(l.lat, l.lon);
    }
  }

  // ------------------------------------------------------ _state_to_timezone

  const EASTERN: seq<string> := ["CT", "DE", "FL", "GA", "IN", "KY", "ME", "MD", "MA", "MI",
                                 "NH", "NJ", "NY", "NC", "OH", "PA", "RI", "SC", "VT", "VA", "WV", "DC"]
  const CENTRAL: seq<string> := ["AL", "AR", "IL", "IA", "KS", "LA", "MN", "MS", "MO", "NE",
                                 "ND", "OK", "SD", "TN", "TX", "WI"]
  const MOUNTAIN: seq<string> := ["AZ", "CO", "ID", "MT", "NM", "UT", "WY"]
  const PACIFIC: seq<string> := ["CA", "NV", "OR", "WA"]

  const TZ_NEW_YORK: string := "America/New_York"
  const TZ_CHICAGO: string := "America/Chicago"
  const TZ_DENVER: string := "America/Denver"
  const TZ_PHOENIX: string := "America/Phoenix"
  const TZ_LOS_ANGELES: string := "America/Los_Angeles"
  const TZ_ANCHORAGE: string := "America/Anchorage"
  const TZ_HONOLULU: string := "Pacific/Honolulu"

  /** `_state_to_timezone`: the state lists are tried in order; Arizona
      keeps standard time; anything unknown is taken as Eastern. */
  function StateToTimezone(state: string): (r: string)
    ensures state == "AZ" ==> r == TZ_PHOENIX
    ensures state !in EASTERN + CENTRAL + MOUNTAIN + PACIFIC && state != "AK" && state != "HI" ==> r == TZ_NEW_YORK
  {
    if state in EASTERN then TZ_NEW_YORK
    else if state in CENTRAL then TZ_CHICAGO
    else if state in MOUNTAIN then (if state != "AZ" then TZ_DENVER else TZ_PHOENIX)
    else if state in PACIFIC then TZ_LOS_ANGELES
    else if state == "AK" then TZ_ANCHORAGE
    else if state == "HI" then TZ_HONOLULU
    else TZ_NEW_YORK
  }

  /** The other mountain states are on Denver time. */
  lemma MountainStates()
    ensures forall st :: st in MOUNTAIN && st != "AZ" ==> StateToTimezone(st) == TZ_DENVER
  {
    DenverCO();
    DenverID();
    DenverMT();
    DenverNM();
    DenverUT();
    DenverWY();
  }

  lemma DenverCO() ensures StateToTimezone("CO") == TZ_DENVER {
    assert "CO" !in EASTERN;
    assert "CO" !in CENTRAL;
    assert "CO" in MOUNTAIN;
  }
  lemma DenverID() ensures StateToTimezone("ID") == TZ_DENVER {
    assert "ID" !in EASTERN;
    assert "ID" !in CENTRAL;
    assert "ID" in MOUNTAIN;
  }
  lemma DenverMT() ensures StateToTimezone("MT") == TZ_DENVER {
    assert "MT" !in EASTERN;
    assert "MT" !in CENTRAL;
    assert "MT" in MOUNTAIN;
  }
  lemma DenverNM() ensures StateToTimezone("NM") == TZ_DENVER {
    assert "NM" !in EASTERN;
    assert "NM" !in CENTRAL;
    assert "NM" in MOUNTAIN;
  }
  lemma DenverUT() ensures StateToTimezone("UT") == TZ_DENVER {
    assert "UT" !in EASTERN;
    assert "UT" !in CENTRAL;
    assert "UT" in MOUNTAIN;
  }
  lemma DenverWY() ensures StateToTimezone("WY") == TZ_DENVER {
    assert "WY" !in EASTERN;
    assert "WY" !in CENTRAL;
    assert "WY" in MOUNTAIN;
  }
}
