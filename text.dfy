/** The string operations the system relies on, with Python's meaning:
    `str.strip()`, `str.replace`, `str.split()[0]`, `float(str)` for plain
    decimal text, `str.isdigit()` on ASCII digits, and `<` on strings. */
module Text {
  import opened Common

  /** Characters Python's `str.strip()` and `str.split()` treat as white space
      (the ASCII ones plus NEL and NO-BREAK SPACE). */
  predicate IsSpace(c: char)
  {
    c == ' ' || c == '\t' || c == '\n' || c == '\r' || c == '\U{0B}' || c == '\U{0C}'
    || ('\U{1C}' <= c <= '\U{1F}') || c == '\U{85}' || c == '\U{A0}'
  }

  function TrimLeft(s: string): (r: string)
    ensures |r| <= |s| && forall i :: 0 <= i < |r| ==> r[i] == s[|s| - |r| + i]
    ensures r != [] ==> !IsSpace(r[0])
    ensures forall i :: 0 <= i < |s| - |r| ==> IsSpace(s[i])
  {
    if s != [] && IsSpace(s[0]) then TrimLeft(s[1..]) else s
  }

  function TrimRight(s: string): (r: string)
    ensures |r| <= |s| && forall i :: 0 <= i < |r| ==> r[i] == s[i]
    ensures r != [] ==> !IsSpace(r[|r| - 1])
    ensures forall i :: |r| <= i < |s| ==> IsSpace(s[i])
  {
    if s != [] && IsSpace(s[|s| - 1]) then TrimRight(s[..|s| - 1]) else s
  }

  /** `s.strip()`. */
  function Strip(s: string): (r: string)
  {
    TrimRight(TrimLeft(s))
  }

  /** The stripped text is a slice of the input with no white space at
      either end, everything cut off is white space, and stripping twice
      changes nothing more. */
  lemma StripMeaning(s: string)
    ensures Strip(s) == s[|s| - |TrimLeft(s)|..|s| - |TrimLeft(s)| + |Strip(s)|]
    ensures Strip(s) != [] ==> !IsSpace(Strip(s)[0]) && !IsSpace(Strip(s)[|Strip(s)| - 1])
    ensures (forall i :: 0 <= i < |s| ==> IsSpace(s[i])) <==> Strip(s) == []
    ensures Strip(Strip(s)) == Strip(s)
  {
    StripSlice(s);
    StripEnds(s);
    StripEmpty(s);
    StripIdempotent(s);
  }

  lemma StripSlice(s: string)
    ensures Strip(s) == s[|s| - |TrimLeft(s)|..|s| - |TrimLeft(s)| + |Strip(s)|]
  {
  }

  lemma StripEnds(s: string)
    ensures Strip(s) != [] ==> !IsSpace(Strip(s)[0]) && !IsSpace(Strip(s)[|Strip(s)| - 1])
  {
    var l := TrimLeft(s);
    var r := TrimRight(l);
    if r != [] {
      assert r[0] == l[0];
    }
  }

  lemma StripEmpty(s: string)
    ensures (forall i :: 0 <= i < |s| ==> IsSpace(s[i])) <==> Strip(s) == []
  {
  }

  lemma StripIdempotent(s: string)
    ensures Strip(Strip(s)) == Strip(s)
  {
    StripEnds(s);
  }

  /** `s.replace(pat, rep)`: every non-overlapping occurrence, left to right. */
  function ReplaceAll(s: string, pat: string, rep: string): (r: string)
    requires |pat| > 0
    decreases |s|
  {
    if |s| < |pat| then s
    else if s[..|pat|] == pat then rep + ReplaceAll(s[|pat|..], pat, rep)
    else [s[0]] + ReplaceAll(s[1..], pat, rep)
  }

  predicate OccursAt(pat: string, s: string, i: int)
  {
    0 <= i <= |s| - |pat| && s[i..i + |pat|] == pat
  }

  ghost predicate Occurs(pat: string, s: string)
  {
    exists i :: OccursAt(pat, s, i)
  }

  lemma OccursShift(pat: string, s: string, i: int)
    requires |s| > 0 && OccursAt(pat, s[1..], i)
    ensures OccursAt(pat, s, i + 1)
  {
    assert s[1..][i..i + |pat|] == s[i + 1..i + 1 + |pat|];
  }

  /** Replacing a pattern that does not occur leaves the text as it was. */
  lemma {:induction false} ReplaceAbsent(s: string, pat: string, rep: string)
    requires |pat| > 0 && !Occurs(pat, s)
    ensures ReplaceAll(s, pat, rep) == s
    decreases |s|
  {
    if |s| >= |pat| {
      assert !OccursAt(pat, s, 0);
      assert !Occurs(pat, s[1..]) by {
        forall i | OccursAt(pat, s[1..], i) ensures OccursAt(pat, s, i + 1) {
          OccursShift(pat, s, i);
        }
      }
      ReplaceAbsent(s[1..], pat, rep);
      assert s == [s[0]] + s[1..];
    }
  }

  /** `s.split()[0]`: the first white-space separated word, if any. */
  function FirstWord(s: string): (r: Option<string>)
    ensures r.Some? ==> |r.value| > 0 && forall i :: 0 <= i < |r.value| ==> !IsSpace(r.value[i])
    ensures r.None? <==> forall i :: 0 <= i < |s| ==> IsSpace(s[i])
  {
    var t := TrimLeft(s);
    if t == [] then None else Some(WordPrefix(t))
  }

  function WordPrefix(s: string): (r: string)
    ensures |r| <= |s| && r == s[..|r|]
    ensures forall i :: 0 <= i < |r| ==> !IsSpace(r[i])
    ensures |r| < |s| ==> IsSpace(s[|r|])
    ensures s != [] && !IsSpace(s[0]) ==> |r| > 0
  {
    if s == [] || IsSpace(s[0]) then [] else [s[0]] + WordPrefix(s[1..])
  }

  predicate IsDigit(c: char)
  {
    '0' <= c <= '9'
  }

  /** `s.isdigit()` for ASCII text: non-empty and all digits. */
  predicate IsDigits(s: string)
  {
    |s| > 0 && forall i :: 0 <= i < |s| ==> IsDigit(s[i])
  }

  predicate AllDigits(s: string)
  {
    forall i :: 0 <= i < |s| ==> IsDigit(s[i])
  }

  function DigitValue(c: char): (r: nat)
    requires IsDigit(c)
    ensures r < 10
  {
    c as int - '0' as int
  }

  /** Value of a digit string read as a decimal integer (`int(s)`). */
  function DigitsValue(s: string): (r: nat)
    requires AllDigits(s)
  {
    if s == [] then 0 else 10 * DigitsValue(s[..|s| - 1]) + DigitValue(s[|s| - 1])
  }

  /** Value of the digits after a decimal point. */
  function FractionValue(s: string): (r: real)
    requires AllDigits(s)
    ensures 0.0 <= r <= 1.0
  {
    if s == [] then 0.0 else (DigitValue(s[0]) as real + FractionValue(s[1..])) / 10.0
  }

  function IndexOf(s: string, c: char): (r: Option<nat>)
    ensures r.Some? ==> r.value < |s| && s[r.value] == c && forall i :: 0 <= i < r.value ==> s[i] != c
    ensures r.None? ==> forall i :: 0 <= i < |s| ==> s[i] != c
  {
    if s == [] then None
    else if s[0] == c then Some(0)
    else match IndexOf(s[1..], c)
      case None => None
      case Some(i) => Some(i + 1)
  }

  /** Unsigned decimal: `digits`, `digits.`, `digits.digits` or `.digits`. */
  function ParseUnsigned(s: string): (r: Option<real>)
    ensures r.Some? ==> r.value >= 0.0
  {
    match IndexOf(s, '.')
    case None =>
      if IsDigits(s) then Some(DigitsValue(s) as real) else None
    case Some(k) =>
      var whole, frac := s[..k], s[k + 1..];
      if AllDigits(whole) && AllDigits(frac) && |whole| + |frac| > 0
      then Some(DigitsValue(whole) as real + FractionValue(frac))
      else None
  }

  /** Python's `float(s)` on plain decimal text: surrounding white space is
      ignored, an optional sign, then an unsigned decimal. `None` stands for
      the `ValueError` Python raises. */
  function ParseFloat(s: string): (r: Option<real>)
  {
    var t := Strip(s);
    if t != [] && t[0] == '-' then
      match ParseUnsigned(t[1..])
      case None => None
      case Some(x) => Some(-x)
    else if t != [] && t[0] == '+' then ParseUnsigned(t[1..])
    else ParseUnsigned(t)
  }

  /** Decimal rendering of a natural number (Python's `str(n)`). */
  function NatToString(n: nat): (r: string)
    ensures IsDigits(r)
    decreases n
  {
    var d := ['0' + (n % 10) as char];
    if n < 10 then d else NatToString(n / 10) + d
  }

  lemma {:induction false} NatToStringValue(n: nat)
    ensures DigitsValue(NatToString(n)) == n
    decreases n
  {
    var r := NatToString(n);
    assert r[..|r| - 1] == (if n < 10 then [] else NatToString(n / 10));
    if n >= 10 {
      NatToStringValue(n / 10);
    }
  }

  /** Round trip: parsing the rendering of a natural number gives it back. */
  lemma ParseNatToString(n: nat)
    ensures ParseFloat(NatToString(n)) == Some(n as real)
  {
    var s := NatToString(n);
    NoSpaceStrip(s);
    NatToStringValue(n);
    DigitsParse(s);
  }

  lemma DigitsParse(s: string)
    requires IsDigits(s) && Strip(s) == s
    ensures ParseFloat(s) == Some(DigitsValue(s) as real)
  {
    assert IsDigit(s[0]);
    assert s[0] != '-' && s[0] != '+';
    UnsignedDigits(s);
    assert ParseFloat(s) == ParseUnsigned(s);
  }

  lemma UnsignedDigits(s: string)
    requires IsDigits(s)
    ensures ParseUnsigned(s) == Some(DigitsValue(s) as real)
  {
  }

  lemma NoSpaceStrip(s: string)
    requires AllDigits(s)
    ensures Strip(s) == s
  {
    if s != [] {
      assert !IsSpace(s[0]) && !IsSpace(s[|s| - 1]);
    }
  }

  /** Text with no white space at either end is its own strip. */
  lemma StripUnpadded(s: string)
    requires s != [] ==> !IsSpace(s[0]) && !IsSpace(s[|s| - 1])
    ensures Strip(s) == s
  {
  }

  /** Text that starts with neither a digit, a sign nor a point is not a
      number: `float` raises. */
  lemma ParseNonNumeric(s: string)
    requires s != [] && !IsSpace(s[0]) && !IsSpace(s[|s| - 1])
    requires !IsDigit(s[0]) && s[0] != '+' && s[0] != '-' && s[0] != '.'
    ensures ParseFloat(s) == None
  {
    StripUnpadded(s);
    match IndexOf(s, '.')
    case None =>
    case Some(k) =>
      assert k > 0;
      assert s[..k][0] == s[0];
  }

  /** Python's `<` on strings: lexicographic by code point. */
  predicate LexLess(a: string, b: string)
    decreases |a|
  {
    if a == [] then b != []
    else if b == [] then false
    else if a[0] != b[0] then a[0] < b[0]
    else LexLess(a[1..], b[1..])
  }

  lemma {:induction false} LexLessIrreflexive(a: string)
    ensures !LexLess(a, a)
    decreases |a|
  {
    if a != [] {
      LexLessIrreflexive(a[1..]);
    }
  }

  lemma {:induction false} LexLessAsymmetric(a: string, b: string)
    requires LexLess(a, b)
    ensures !LexLess(b, a)
    decreases |a|
  {
    if a != [] && b != [] && a[0] == b[0] {
      LexLessAsymmetric(a[1..], b[1..]);
    }
  }

  lemma {:induction false} LexLessTransitive(a: string, b: string, c: string)
    requires LexLess(a, b) && LexLess(b, c)
    ensures LexLess(a, c)
    decreases |a|
  {
    if a != [] && a[0] == b[0] && b[0] == c[0] {
      LexLessTransitive(a[1..], b[1..], c[1..]);
    }
  }

  lemma {:induction false} LexLessTotal(a: string, b: string)
    ensures LexLess(a, b) || a == b || LexLess(b, a)
    decreases |a|
  {
    if a != [] && b != [] && a[0] == b[0] {
      LexLessTotal(a[1..], b[1..]);
      if a[1..] == b[1..] {
        assert a == [a[0]] + a[1..] && b == [b[0]] + b[1..];
      }
    }
  }

  /** String order is a strict total order, hence a strict weak order. */
  lemma LexLessStrictOrder(a: string, b: string, c: string)
    ensures LexLess(a, b) ==> !LexLess(b, a)
    ensures LexLess(a, c) ==> LexLess(a, b) || LexLess(b, c)
  {
    if LexLess(a, b) { LexLessAsymmetric(a, b); }
    if LexLess(a, c) {
      LexLessTotal(a, b);
      LexLessTotal(b, c);
      if LexLess(b, a) && !LexLess(b, c) {
        if b == c {
        } else {
          assert LexLess(c, b);
          LexLessTransitive(c, b, a);
          LexLessAsymmetric(a, c);
        }
      }
    }
  }

  function ToUpper(c: char): (r: char)
    ensures 'a' <= c <= 'z' ==> r as int == c as int - 32
    ensures !('a' <= c <= 'z') ==> r == c
  {
    if 'a' <= c <= 'z' then (c as int - 32) as char else c
  }

  function ToLower(c: char): (r: char)
    ensures 'A' <= c <= 'Z' ==> r as int == c as int + 32
    ensures !('A' <= c <= 'Z') ==> r == c
  {
    if 'A' <= c <= 'Z' then (c as int + 32) as char else c
  }

  /** `str.upper()`, letter by letter, for ASCII letters. */
  function Upper(s: string): (r: string)
    ensures |r| == |s| && forall i :: 0 <= i < |s| ==> r[i] == ToUpper(s[i])
  {
    seq(|s|, i requires 0 <= i < |s| => ToUpper(s[i]))
  }

  lemma UpperIdempotent(s: string)
    ensures Upper(Upper(s)) == Upper(s)
  {
  }

  predicate EndsWith(s: string, c: char)
  {
    s != [] && s[|s| - 1] == c
  }

  predicate ContainsChar(s: string, c: char)
  {
    exists i :: 0 <= i < |s| && s[i] == c
  }
}
