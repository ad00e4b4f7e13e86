/** Extraction of solar indices from loosely typed solar data, and the base
    MUF lookup (calculations/helpers.py). */
module Helpers {
  import opened Common
  import opened Text
  import opened Constants

  /** A value read from a JSON-like dictionary: the key is missing, holds
      `None`, a number, or a string. */
  datatype Raw = Missing | Null | Num(x: real) | Str(s: string)

  /** The entries of a solar-data dictionary the calculations read. */
  datatype SolarData = SolarData(sfi: Raw, kIndex: Raw, aIndex: Raw)

  /** Python's `str(d.get(key, dflt))` for a value that is not a number. */
  function StrOf(v: Raw, dflt: string): (r: string)
    requires !v.Num?
  {
    match v
    case Missing => dflt
    case Null => "None"
    case Str(s) => s
  }

  /** The parsed number, or `dflt` where Python's `float` raises. */
  function ParseOr(t: string, dflt: real): (r: real)
    ensures ParseFloat(t).Some? ==> r == ParseFloat(t).value
    ensures ParseFloat(t).None? ==> r == dflt
  {
    match ParseFloat(t)
    case Some(x) => x
    case None => dflt
  }

  /** `float(str(v))` on a number gives the number back (Python's float
      repr round-trips), so numbers pass through unchanged; `None` does not
      parse and gives the default. */
  function ExtractSfi(v: Raw): (r: real)
    ensures v.Num? ==> r == v.x
    ensures v.Null? ==> r == 100.0
  {
    if v.Num? then v.x
    else
      var r0 := ParseOr(Strip(ReplaceAll(StrOf(v, "100 SFI"), " SFI", "")), 100.0);
      assert v.Null? ==> r0 == 100.0 by {
        if v.Null? { NoneIsNotNumber(); }
      }
      r0
  }

  function ExtractKIndex(v: Raw): (r: real)
    ensures v.Num? ==> r == v.x
    ensures v.Null? ==> r == 2.0
  {
    if v.Num? then v.x
    else
      var r0 := ParseOr(Strip(StrOf(v, "2")), 2.0);
      assert v.Null? ==> r0 == 2.0 by {
        if v.Null? { NoneIsNotNumber(); }
      }
      r0
  }

  function ExtractAIndex(v: Raw): (r: real)
    ensures v.Num? ==> r == v.x
    ensures v.Null? ==> r == 5.0
  {
    if v.Num? then v.x
    else
      var r0 := ParseOr(Strip(StrOf(v, "5")), 5.0);
      assert v.Null? ==> r0 == 5.0 by {
        if v.Null? { NoneIsNotNumber(); }
      }
      r0
  }

  /** `str(None)` is "None", which holds no " SFI" and is not a number. */
  lemma NoneIsNotNumber()
    ensures ReplaceAll("None", " SFI", "") == "None"
    ensures Strip("None") == "None"
    ensures ParseFloat("None") == None
  {
    assert "None"[..4][0] != " SFI"[0];
    assert "None"[1..] == "one";
    StripUnpadded("None");
    ParseNonNumeric("None");
  }

  /** A missing key reads its default text, which parses to the defaults
      100, 2 and 5. */
  lemma ExtractDefaults()
    ensures ExtractSfi(Missing) == 100.0
    ensures ExtractKIndex(Missing) == 2.0
    ensures ExtractAIndex(Missing) == 5.0
  {
    SfiDefault();
    DigitDefault(2);
    DigitDefault(5);
  }

  lemma SfiDefault()
    ensures ExtractSfi(Missing) == 100.0
  {
    assert NatToString(100) == "100" by {
      assert NatToString(10) == "10";
    }
    RemoveSfiSuffix("100");
    assert "100" + " SFI" == "100 SFI";
    StripUnpadded("100");
    ParseNatToString(100);
  }

  lemma DigitDefault(n: nat)
    requires n < 10
    ensures n == 2 ==> ExtractKIndex(Missing) == 2.0
    ensures n == 5 ==> ExtractAIndex(Missing) == 5.0
  {
    var d := NatToString(n);
    StripUnpadded(d);
    ParseNatToString(n);
    if n == 2 { assert d == "2"; }
    if n == 5 { assert d == "5"; }
  }

  /** A reading such as "150 SFI" loses its suffix and parses as 150. */
  lemma ExtractSfiSuffix(n: nat)
    ensures ExtractSfi(Str(NatToString(n) + " SFI")) == n as real
  {
    var d := NatToString(n);
    RemoveSfiSuffix(d);
    NoSpaceStrip(d);
    NatToStringValue(n);
    DigitsParse(d);
  }

  /** Bare numeric text parses as itself; text that is not a number gives
      the default. */
  lemma ExtractSfiText(s: string)
    ensures !Occurs(" SFI", s) && ParseFloat(s).Some? ==> ExtractSfi(Str(s)) == ParseFloat(s).value
    ensures !Occurs(" SFI", s) && ParseFloat(s).None? ==> ExtractSfi(Str(s)) == 100.0
  {
    if !Occurs(" SFI", s) {
      ReplaceAbsent(s, " SFI", "");
      StripIdempotentParse(s);
    }
  }

  lemma StripIdempotentParse(s: string)
    ensures ParseFloat(Strip(s)) == ParseFloat(s)
  {
    StripIdempotent(s);
  }

  lemma {:induction false} RemoveSfiSuffix(d: string)
    requires AllDigits(d)
    ensures ReplaceAll(d + " SFI", " SFI", "") == d
    decreases |d|
  {
    var t := d + " SFI";
    if d == [] {
      assert t == " SFI";
      assert t[4..] == [];
    } else {
      assert t[..4] != " SFI" by { assert t[0] == d[0]; assert IsDigit(d[0]); }
      assert t[1..] == d[1..] + " SFI";
      RemoveSfiSuffix(d[1..]);
      assert d == [d[0]] + d[1..];
    }
  }

  /** The table search of `get_base_muf_from_sfi`: the MUF of the first row
      whose threshold the SFI reaches, 12 when none does. */
  function LookupMuf(table: seq<(real, real)>, sfi: real): (r: real)
    ensures r == 12.0 || exists i :: 0 <= i < |table| && r == table[i].1 && sfi >= table[i].0
  {
    if table == [] then 12.0
    else if sfi >= table[0].0 then table[0].1
    else
      var r := LookupMuf(table[1..], sfi);
      assert r != 12.0 ==> exists i :: 0 <= i < |table| && r == table[i].1 && sfi >= table[i].0 by {
        if r != 12.0 {
          var i :| 0 <= i < |table[1..]| && r == table[1..][i].1 && sfi >= table[1..][i].0;
          assert table[i + 1] == table[1..][i];
        }
      }
      r
  }

  function GetBaseMufFromSfi(sfi: real): (r: real)
    ensures r in {12.0, 16.0, 21.0, 26.0, 32.0, 40.0}
    ensures sfi >= 150.0 ==> r == 40.0
    ensures sfi < 60.0 ==> r == 12.0
  {
    LookupMuf(MUF_SFI_TABLE, sfi)
  }

  /** Tables whose MUF values strictly decrease and stay at or above the
      fall-through value 12. */
  ghost predicate DescendingTable(table: seq<(real, real)>)
  {
    (forall i, j :: 0 <= i < j < |table| ==> table[i].1 > table[j].1) &&
    (forall i :: 0 <= i < |table| ==> table[i].1 >= 12.0)
  }

  lemma {:induction false} LookupAtMostHead(table: seq<(real, real)>, sfi: real)
    requires DescendingTable(table) && |table| > 0
    ensures LookupMuf(table, sfi) <= table[0].1
  {
    if sfi < table[0].0 && |table| > 1 {
      LookupAtMostHead(table[1..], sfi);
    }
  }

  lemma {:induction false} LookupMonotone(table: seq<(real, real)>, a: real, b: real)
    requires DescendingTable(table) && a <= b
    ensures LookupMuf(table, a) <= LookupMuf(table, b)
  {
    if table != [] {
      if b < table[0].0 {
        LookupMonotone(table[1..], a, b);
      } else {
        LookupAtMostHead(table, a);
      }
    }
  }

  /** A higher solar flux never gives a lower base MUF. */
  lemma BaseMufMonotone(a: real, b: real)
    requires a <= b
    ensures GetBaseMufFromSfi(a) <= GetBaseMufFromSfi(b)
  {
    MufTableOrdered();
    LookupMonotone(MUF_SFI_TABLE, a, b);
  }
}
