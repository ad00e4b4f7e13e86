/** The operator alerts of utils/alerts.py: five rules evaluated in order
    over the solar readings, the local time period and the MUF, appending
    to one list. Titles, messages, recommendations and timestamps are text
    around the rule and are not modelled. */
module Alerts {
  import opened Common
  import opened Text
  import opened Helpers

  datatype Rule = Storm | Unsettled | Flare | TenMetreOpening | FifteenMetreOpening
                | MorningGreyline | EveningGreyline | Excellent

  datatype Severity = Critical | Warning | Info | Good

  datatype Alert = Alert(rule: Rule, severity: Severity)

  /** The keys of `ALERT_TYPES`. */
  const ALERT_TYPES: set<string> := {"geomagnetic_storm", "solar_flare", "band_opening", "best_time", "degraded"}

  /** The `type` an alert of each rule carries. */
  function AlertType(rule: Rule): (r: string)
    ensures r in ALERT_TYPES
  {
    match rule
    case Storm => "geomagnetic_storm"
    case Unsettled => "degraded"
    case Flare => "solar_flare"
    case TenMetreOpening | FifteenMetreOpening => "band_opening"
    case MorningGreyline | EveningGreyline | Excellent => "best_time"
  }

  /** The position of each rule in the evaluation. */
  function RuleIndex(rule: Rule): (r: nat)
    ensures r < 8
  {
    match rule
    case Storm => 0
    case Unsettled => 1
    case Flare => 2
    case TenMetreOpening => 3
    case FifteenMetreOpening => 4
    case MorningGreyline => 5
    case EveningGreyline => 6
    case Excellent => 7
  }

  // ---------------------------------------------------------- _parse_float

  /** `_parse_float(value, default)`: a number passes through; anything
      else is rendered with `str` and its first white-space separated word
      parsed, the default standing in when there is no word or it does not
      parse. `missingText` is what `.get` supplies for a missing key. */
  function ParseFloatValue(v: Raw, missingText: string, default: real): (r: real)
    ensures v.Num? ==> r == v.x
    ensures !v.Num? && FirstWord(StrOf(v, missingText)).None? ==> r == default
    ensures !v.Num? && FirstWord(StrOf(v, missingText)).Some? ==>
      r == ParseFloat(FirstWord(StrOf(v, missingText)).value).GetOr(default)
  {
    if v.Num? then v.x
    else match FirstWord(StrOf(v, missingText))
      case None => default
      case Some(w) => ParseFloat(w).GetOr(default)
  }

  /** The K index: `_parse_float(solar_data.get('k_index', '2'))`. */
  function KIndexValue(v: Raw): (r: real)
  {
    ParseFloatValue(v, "2", 0.0)
  }

  /** The solar flux: the text with " SFI" removed and stripped, parsed
      with 100 as the default. A number is taken as it is, as in
      `Helpers.ExtractSfi`. */
  function SfiValue(v: Raw): (r: real)
    ensures v.Num? ==> r == v.x
  {
    if v.Num? then v.x
    else
      var t := Strip(ReplaceAll(StrOf(v, "100"), " SFI", ""));
      match FirstWord(t)
      case None => 100.0
      case Some(w) => ParseFloat(w).GetOr(100.0)
  }

  lemma WordOfSingle(s: string)
    requires |s| > 0 && forall i :: 0 <= i < |s| ==> !IsSpace(s[i])
    ensures FirstWord(s) == Some(s)
  {
    assert TrimLeft(s) == s;
    WholeWord(s);
  }

  lemma {:induction false} WholeWord(s: string)
    requires forall i :: 0 <= i < |s| ==> !IsSpace(s[i])
    ensures WordPrefix(s) == s
  {
    if s != [] {
      WholeWord(s[1..]);
    }
  }

  /** A missing K index reads "2", i.e. 2; a `None` one reads "None",
      which does not parse, i.e. 0. */
  lemma KIndexDefaults()
    ensures KIndexValue(Missing) == 2.0
    ensures KIndexValue(Null) == 0.0
  {
    KIndexMissing();
    KIndexNull();
  }

  lemma KIndexMissing()
    ensures KIndexValue(Missing) == 2.0
  {
    var w := StrOf(Missing, "2");
    assert w == "2";
    WordOfSingle(w);
    TwoParses(w);
  }

  lemma TwoParses(w: string)
    requires w == "2"
    ensures ParseFloat(w) == Some(2.0)
  {
    assert IsDigits(w) && w[0] == '2';
    NoSpaceStrip(w);
    DigitsParse(w);
    assert w[..0] == [];
  }

  lemma KIndexNull()
    ensures KIndexValue(Null) == 0.0
  {
    assert StrOf(Null, "2") == "None";
    WordOfSingle("None");
    NoneIsNotNumber();
  }

  // ---------------------------------------------------- evaluate_conditions

  /** What the flare entry means to rule 2: a class to inspect, nothing to
      inspect (missing key, `None`, empty, the text 'None', or the number 0,
      which is falsy), or any other number, whose indexing raises and ends
      the evaluation. */
  datatype FlareReading = NoFlare | FlareClass(first: char) | NotText

  function FlareReadingOf(v: Raw): (r: FlareReading)
    ensures r.NotText? <==> v.Num? && v.x != 0.0
    ensures r.FlareClass? <==> v.Str? && v.s != "" && v.s != "None"
  {
    match v
    case Missing => NoFlare
    case Null => NoFlare
    case Num(x) => if x == 0.0 then NoFlare else NotText
    case Str(s) => if s != "" && s != "None" then FlareClass(ToUpper(s[0])) else NoFlare
  }

  /** Some alert of `alerts` was raised by `rule`. */
  predicate Has(alerts: seq<Alert>, rule: Rule)
  {
    |alerts| > 0 && (alerts[0].rule == rule || Has(alerts[1..], rule))
  }

  /** The rules fired appear once each, in evaluation order. */
  ghost predicate InRuleOrder(alerts: seq<Alert>)
  {
    forall i, j :: 0 <= i < j < |alerts| ==> RuleIndex(alerts[i].rule) < RuleIndex(alerts[j].rule)
  }

  /** Every alert raised by `rule` has severity `Critical` exactly when `critical`. */
  ghost predicate CriticalWhen(alerts: seq<Alert>, rule: Rule, critical: bool)
  {
    forall i :: 0 <= i < |alerts| && alerts[i].rule == rule ==> (alerts[i].severity == Critical <==> critical)
  }

  predicate Morning(period: string) { period == "dawn" || period == "early_morning" }
  predicate Evening(period: string) { period == "evening" || period == "early_night" }

  /** Rule 1: K >= 5 is a storm, critical from 7; 4 <= K < 5 is unsettled. */
  ghost predicate StormRuleHolds(alerts: seq<Alert>, k: real)
  {
    (Has(alerts, Storm) <==> k >= 5.0) &&
    (Has(alerts, Unsettled) <==> 4.0 <= k < 5.0) &&
    CriticalWhen(alerts, Storm, k >= 7.0)
  }

  /** Rules 2 to 4: M and X class flares (critical for X), at most one
      band opening, greyline with a quiet field. */
  ghost predicate MiddleRulesHold(alerts: seq<Alert>, k: real, flare: FlareReading, period: string, muf: Option<real>)
  {
    (Has(alerts, Flare) <==> flare.FlareClass? && flare.first in {'M', 'X'}) &&
    CriticalWhen(alerts, Flare, flare.FlareClass? && flare.first == 'X') &&
    (Has(alerts, TenMetreOpening) <==> muf.Some? && muf.value > 28.0) &&
    (Has(alerts, FifteenMetreOpening) <==> muf.Some? && 21.0 < muf.value <= 28.0) &&
    (Has(alerts, MorningGreyline) <==> Morning(period) && k <= 3.0) &&
    (Has(alerts, EveningGreyline) <==> Evening(period) && k <= 3.0)
  }

  /** Rule 5: excellent conditions, only as the sole alert. */
  ghost predicate ExcellentRuleHolds(alerts: seq<Alert>, k: real, sfi: real)
  {
    Has(alerts, Excellent) <==> k <= 1.0 && sfi >= 100.0 && forall i :: 0 <= i < |alerts| ==> alerts[i].rule == Excellent
  }

  /** What the five rules promise about the alerts raised over the K
      index `k`, the solar flux `sfi` and the flare entry `flare`. A flare
      entry that is a non-zero number ends the evaluation after rule 1. */
  ghost predicate RulesHold(alerts: seq<Alert>, k: real, sfi: real, flare: FlareReading, period: string, muf: Option<real>)
  {
    (forall i :: 0 <= i < |alerts| ==> AlertType(alerts[i].rule) in ALERT_TYPES) &&
    InRuleOrder(alerts) &&
    StormRuleHolds(alerts, k) &&
    (flare.NotText? ==> forall i :: 0 <= i < |alerts| ==> alerts[i].rule in {Storm, Unsettled}) &&
    (!flare.NotText? ==> MiddleRulesHold(alerts, k, flare, period, muf) && ExcellentRuleHolds(alerts, k, sfi))
  }

  /** Every alert of `s` comes from a rule whose position is in [lo, hi). */
  ghost predicate Within(s: seq<Alert>, lo: nat, hi: nat)
  {
    forall i :: 0 <= i < |s| ==> lo <= RuleIndex(s[i].rule) < hi
  }

  lemma {:induction false} HasConcat(a: seq<Alert>, b: seq<Alert>, rule: Rule)
    ensures Has(a + b, rule) <==> Has(a, rule) || Has(b, rule)
  {
    if a == [] {
      assert a + b == b;
    } else {
      assert (a + b)[0] == a[0] && (a + b)[1..] == a[1..] + b;
      HasConcat(a[1..], b, rule);
    }
  }

  lemma {:induction false} WithinLacks(s: seq<Alert>, lo: nat, hi: nat, rule: Rule)
    requires Within(s, lo, hi) && !(lo <= RuleIndex(rule) < hi)
    ensures !Has(s, rule)
  {
    if s != [] {
      WithinLacks(s[1..], lo, hi, rule);
    }
  }

  lemma OrderConcat(a: seq<Alert>, b: seq<Alert>, lo: nat, mid: nat, hi: nat)
    requires lo <= mid <= hi && InRuleOrder(a) && InRuleOrder(b) && Within(a, lo, mid) && Within(b, mid, hi)
    ensures InRuleOrder(a + b) && Within(a + b, lo, hi)
  {
    forall i | 0 <= i < |a + b| ensures lo <= RuleIndex((a + b)[i].rule) < hi {
      if i >= |a| {
        assert (a + b)[i] == b[i - |a|];
      }
    }
    forall i, j | 0 <= i < j < |a + b| ensures RuleIndex((a + b)[i].rule) < RuleIndex((a + b)[j].rule) {
      if i >= |a| {
        assert (a + b)[i] == b[i - |a|];
      }
      if j >= |a| {
        assert (a + b)[j] == b[j - |a|];
      }
    }
  }

  lemma CriticalConcat(a: seq<Alert>, b: seq<Alert>, rule: Rule, critical: bool)
    requires CriticalWhen(a, rule, critical) && CriticalWhen(b, rule, critical)
    ensures CriticalWhen(a + b, rule, critical)
  {
    forall i | 0 <= i < |a + b| && (a + b)[i].rule == rule ensures ((a + b)[i].severity == Critical <==> critical) {
      if i >= |a| {
        assert (a + b)[i] == b[i - |a|];
      }
    }
  }

  /** A sequence without alerts of `rule` says nothing about its severity. */
  lemma CriticalVacuous(s: seq<Alert>, lo: nat, hi: nat, rule: Rule, critical: bool)
    requires Within(s, lo, hi) && !(lo <= RuleIndex(rule) < hi)
    ensures CriticalWhen(s, rule, critical)
  {
  }

  /** What each rule contributes: at most one alert, raised by that rule. */
  ghost predicate StormPart(r: seq<Alert>, k: real)
  {
    |r| <= 1 && Within(r, 0, 2) &&
    (Has(r, Storm) <==> k >= 5.0) && (Has(r, Unsettled) <==> 4.0 <= k < 5.0) &&
    CriticalWhen(r, Storm, k >= 7.0)
  }

  ghost predicate FlarePart(r: seq<Alert>, flare: FlareReading)
  {
    |r| <= 1 && Within(r, 2, 3) &&
    (Has(r, Flare) <==> flare.FlareClass? && flare.first in {'M', 'X'}) &&
    CriticalWhen(r, Flare, flare.FlareClass? && flare.first == 'X')
  }

  ghost predicate BandPart(r: seq<Alert>, muf: Option<real>)
  {
    |r| <= 1 && Within(r, 3, 5) &&
    (Has(r, TenMetreOpening) <==> muf.Some? && muf.value > 28.0) &&
    (Has(r, FifteenMetreOpening) <==> muf.Some? && 21.0 < muf.value <= 28.0)
  }

  ghost predicate GreylinePart(r: seq<Alert>, period: string, k: real)
  {
    |r| <= 1 && Within(r, 5, 7) &&
    (Has(r, MorningGreyline) <==> Morning(period) && k <= 3.0) &&
    (Has(r, EveningGreyline) <==> Evening(period) && k <= 3.0)
  }

  /** Rule 1: K >= 5 is a storm, critical from 7; 4 <= K < 5 is unsettled. */
  function StormAlerts(k: real): (r: seq<Alert>)
    ensures StormPart(r, k)
  {
    if k >= 5.0 then [Alert(Storm, if k >= 7.0 then Critical else Warning)]
    else if k >= 4.0 then [Alert(Unsettled, Info)]
    else []
  }

  /** Rule 2: M and X class flares, critical for X. */
  function FlareAlerts(flare: FlareReading): (r: seq<Alert>)
    ensures FlarePart(r, flare)
  {
    if flare.FlareClass? && flare.first in {'M', 'X'} then [Alert(Flare, if flare.first == 'X' then Critical else Warning)]
    else []
  }

  /** Rule 3: one band-opening alert at most, 10 m above 28 MHz, 15 m
      above 21 MHz. */
  function BandAlerts(muf: Option<real>): (r: seq<Alert>)
    ensures BandPart(r, muf)
  {
    if muf.Some? && muf.value > 28.0 then [Alert(TenMetreOpening, Good)]
    else if muf.Some? && muf.value > 21.0 then [Alert(FifteenMetreOpening, Good)]
    else []
  }

  /** Rule 4: greyline around sunrise or sunset with a quiet field. */
  function GreylineAlerts(period: string, k: real): (r: seq<Alert>)
    ensures GreylinePart(r, period, k)
  {
    if Morning(period) && k <= 3.0 then [Alert(MorningGreyline, Good)]
    else if Evening(period) && k <= 3.0 then [Alert(EveningGreyline, Good)]
    else []
  }

  /** The evaluation as one value: rule 1, then (unless the flare entry
      raises) rules 2 to 4, then rule 5 when nothing fired. */
  function Evaluation(k: real, sfi: real, flare: FlareReading, period: string, muf: Option<real>): (r: seq<Alert>)
  {
    if flare.NotText? then StormAlerts(k)
    else
      var pre := StormAlerts(k) + FlareAlerts(flare) + BandAlerts(muf) + GreylineAlerts(period, k);
      pre + (if k <= 1.0 && sfi >= 100.0 && pre == [] then [Alert(Excellent, Good)] else [])
  }

  /** The five parts in evaluation order, each within its rules' range. */
  ghost predicate Ranged(s1: seq<Alert>, s2: seq<Alert>, s3: seq<Alert>, s4: seq<Alert>, s5: seq<Alert>)
  {
    Within(s1, 0, 2) && Within(s2, 2, 3) && Within(s3, 3, 5) && Within(s4, 5, 7) && Within(s5, 7, 8) &&
    |s1| <= 1 && |s2| <= 1 && |s3| <= 1 && |s4| <= 1 && |s5| <= 1
  }

  /** Of five ranged parts, only the one covering a rule's position can
      hold an alert of that rule. */
  lemma HasParts(s1: seq<Alert>, s2: seq<Alert>, s3: seq<Alert>, s4: seq<Alert>, s5: seq<Alert>, rule: Rule)
    requires Ranged(s1, s2, s3, s4, s5)
    ensures RuleIndex(rule) < 2 ==> (Has(s1 + s2 + s3 + s4 + s5, rule) <==> Has(s1, rule))
    ensures RuleIndex(rule) == 2 ==> (Has(s1 + s2 + s3 + s4 + s5, rule) <==> Has(s2, rule))
    ensures 3 <= RuleIndex(rule) < 5 ==> (Has(s1 + s2 + s3 + s4 + s5, rule) <==> Has(s3, rule))
    ensures 5 <= RuleIndex(rule) < 7 ==> (Has(s1 + s2 + s3 + s4 + s5, rule) <==> Has(s4, rule))
    ensures RuleIndex(rule) == 7 ==> (Has(s1 + s2 + s3 + s4 + s5, rule) <==> Has(s5, rule))
  {
    HasConcat(s1 + s2 + s3 + s4, s5, rule);
    HasConcat(s1 + s2 + s3, s4, rule);
    HasConcat(s1 + s2, s3, rule);
    HasConcat(s1, s2, rule);
    var i := RuleIndex(rule);
    if !(0 <= i < 2) { WithinLacks(s1, 0, 2, rule); }
    if !(2 <= i < 3) { WithinLacks(s2, 2, 3, rule); }
    if !(3 <= i < 5) { WithinLacks(s3, 3, 5, rule); }
    if !(5 <= i < 7) { WithinLacks(s4, 5, 7, rule); }
    if !(7 <= i < 8) { WithinLacks(s5, 7, 8, rule); }
  }

  /** The concatenation of five ranged parts is in rule order. */
  lemma OrderParts(s1: seq<Alert>, s2: seq<Alert>, s3: seq<Alert>, s4: seq<Alert>, s5: seq<Alert>)
    requires Ranged(s1, s2, s3, s4, s5)
    ensures InRuleOrder(s1 + s2 + s3 + s4 + s5) && Within(s1 + s2 + s3 + s4, 0, 7)
  {
    OrderConcat(s1, s2, 0, 2, 3);
    OrderConcat(s1 + s2, s3, 0, 3, 5);
    OrderConcat(s1 + s2 + s3, s4, 0, 5, 7);
    OrderConcat(s1 + s2 + s3 + s4, s5, 0, 7, 8);
  }

  /** Severities carry over from the part holding a rule's alerts. */
  lemma CriticalParts(s1: seq<Alert>, s2: seq<Alert>, s3: seq<Alert>, s4: seq<Alert>, s5: seq<Alert>, rule: Rule, critical: bool)
    requires Ranged(s1, s2, s3, s4, s5)
    requires RuleIndex(rule) < 2 ==> CriticalWhen(s1, rule, critical)
    requires RuleIndex(rule) == 2 ==> CriticalWhen(s2, rule, critical)
    requires 3 <= RuleIndex(rule) < 5 ==> CriticalWhen(s3, rule, critical)
    requires 5 <= RuleIndex(rule) < 7 ==> CriticalWhen(s4, rule, critical)
    requires RuleIndex(rule) == 7 ==> CriticalWhen(s5, rule, critical)
    ensures CriticalWhen(s1 + s2 + s3 + s4 + s5, rule, critical)
  {
    var i := RuleIndex(rule);
    if !(0 <= i < 2) { CriticalVacuous(s1, 0, 2, rule, critical); }
    if !(2 <= i < 3) { CriticalVacuous(s2, 2, 3, rule, critical); }
    if !(3 <= i < 5) { CriticalVacuous(s3, 3, 5, rule, critical); }
    if !(5 <= i < 7) { CriticalVacuous(s4, 5, 7, rule, critical); }
    if !(7 <= i < 8) { CriticalVacuous(s5, 7, 8, rule, critical); }
    CriticalConcat(s1, s2, rule, critical);
    CriticalConcat(s1 + s2, s3, rule, critical);
    CriticalConcat(s1 + s2 + s3, s4, rule, critical);
    CriticalConcat(s1 + s2 + s3 + s4, s5, rule, critical);
  }

  lemma StormComposed(st: seq<Alert>, fl: seq<Alert>, bd: seq<Alert>, gl: seq<Alert>, ex: seq<Alert>, k: real)
    requires Ranged(st, fl, bd, gl, ex) && StormPart(st, k)
    ensures StormRuleHolds(st + fl + bd + gl + ex, k)
  {
    HasParts(st, fl, bd, gl, ex, Storm);
    HasParts(st, fl, bd, gl, ex, Unsettled);
    CriticalParts(st, fl, bd, gl, ex, Storm, k >= 7.0);
  }

  lemma FlareComposed(st: seq<Alert>, fl: seq<Alert>, bd: seq<Alert>, gl: seq<Alert>, ex: seq<Alert>, flare: FlareReading)
    requires Ranged(st, fl, bd, gl, ex) && FlarePart(fl, flare)
    ensures Has(st + fl + bd + gl + ex, Flare) <==> flare.FlareClass? && flare.first in {'M', 'X'}
    ensures CriticalWhen(st + fl + bd + gl + ex, Flare, flare.FlareClass? && flare.first == 'X')
  {
    HasParts(st, fl, bd, gl, ex, Flare);
    CriticalParts(st, fl, bd, gl, ex, Flare, flare.FlareClass? && flare.first == 'X');
  }

  lemma BandComposed(st: seq<Alert>, fl: seq<Alert>, bd: seq<Alert>, gl: seq<Alert>, ex: seq<Alert>, muf: Option<real>)
    requires Ranged(st, fl, bd, gl, ex) && BandPart(bd, muf)
    ensures Has(st + fl + bd + gl + ex, TenMetreOpening) <==> muf.Some? && muf.value > 28.0
    ensures Has(st + fl + bd + gl + ex, FifteenMetreOpening) <==> muf.Some? && 21.0 < muf.value <= 28.0
  {
    HasParts(st, fl, bd, gl, ex, TenMetreOpening);
    HasParts(st, fl, bd, gl, ex, FifteenMetreOpening);
  }

  lemma GreylineComposed(st: seq<Alert>, fl: seq<Alert>, bd: seq<Alert>, gl: seq<Alert>, ex: seq<Alert>, period: string, k: real)
    requires Ranged(st, fl, bd, gl, ex) && GreylinePart(gl, period, k)
    ensures Has(st + fl + bd + gl + ex, MorningGreyline) <==> Morning(period) && k <= 3.0
    ensures Has(st + fl + bd + gl + ex, EveningGreyline) <==> Evening(period) && k <= 3.0
  {
    HasParts(st, fl, bd, gl, ex, MorningGreyline);
    HasParts(st, fl, bd, gl, ex, EveningGreyline);
  }

  lemma ExcellentLast(pre: seq<Alert>, ex: seq<Alert>, k: real, sfi: real)
    requires Within(pre, 0, 7)
    requires ex == if k <= 1.0 && sfi >= 100.0 && pre == [] then [Alert(Excellent, Good)] else []
    ensures ExcellentRuleHolds(pre + ex, k, sfi)
  {
    HasConcat(pre, ex, Excellent);
    WithinLacks(pre, 0, 7, Excellent);
    if pre != [] {
      assert (pre + ex)[0] == pre[0];
    } else {
      assert pre + ex == ex;
    }
  }

  lemma {:induction false} EvaluationHolds(k: real, sfi: real, flare: FlareReading, period: string, muf: Option<real>)
    ensures RulesHold(Evaluation(k, sfi, flare, period, muf), k, sfi, flare, period, muf)
  {
    var st := StormAlerts(k);
    if !flare.NotText? {
      var fl, bd, gl := FlareAlerts(flare), BandAlerts(muf), GreylineAlerts(period, k);
      var ex := if k <= 1.0 && sfi >= 100.0 && st + fl + bd + gl == [] then [Alert(Excellent, Good)] else [];
      Composed(st, fl, bd, gl, ex, k, sfi, flare, period, muf);
    }
  }

  lemma Composed(st: seq<Alert>, fl: seq<Alert>, bd: seq<Alert>, gl: seq<Alert>, ex: seq<Alert>,
                 k: real, sfi: real, flare: FlareReading, period: string, muf: Option<real>)
    requires StormPart(st, k) && FlarePart(fl, flare) && BandPart(bd, muf) && GreylinePart(gl, period, k)
    requires ex == if k <= 1.0 && sfi >= 100.0 && st + fl + bd + gl == [] then [Alert(Excellent, Good)] else []
    ensures MiddleRulesHold(st + fl + bd + gl + ex, k, flare, period, muf)
    ensures InRuleOrder(st + fl + bd + gl + ex) && StormRuleHolds(st + fl + bd + gl + ex, k)
    ensures ExcellentRuleHolds(st + fl + bd + gl + ex, k, sfi)
  {
    OrderParts(st, fl, bd, gl, ex);
    StormComposed(st, fl, bd, gl, ex, k);
    FlareComposed(st, fl, bd, gl, ex, flare);
    BandComposed(st, fl, bd, gl, ex, muf);
    GreylineComposed(st, fl, bd, gl, ex, period, k);
    ExcellentLast(st + fl + bd + gl, ex, k, sfi);
  }

  /** The five rules over parsed readings, appending as they fire. */
  method EvaluateRules(k: real, sfi: real, flare: FlareReading, period: string, muf: Option<real>)
    returns (alerts: seq<Alert>)
    ensures alerts == Evaluation(k, sfi, flare, period, muf)
  {
    alerts := [];
    // 1. geomagnetic storm
    if k >= 5.0 {
      alerts := alerts + [Alert(Storm, if k >= 7.0 then Critical else Warning)];
    } else if k >= 4.0 {
      alerts := alerts + [Alert(Unsettled, Info)];
    }
    ghost var st := alerts;
    assert st == StormAlerts(k);
    // 2. solar flare; indexing a number raises and ends the evaluation
    if flare.NotText? {
      return;
    }
    if flare.FlareClass? && flare.first in {'M', 'X'} {
      alerts := alerts + [Alert(Flare, if flare.first == 'X' then Critical else Warning)];
    }
    ghost var fl := alerts;
    assert fl == st + FlareAlerts(flare);
    // 3. band opening
    if muf.Some? && muf.value > 28.0 {
      alerts := alerts + [Alert(TenMetreOpening, Good)];
    } else if muf.Some? && muf.value > 21.0 {
      alerts := alerts + [Alert(FifteenMetreOpening, Good)];
    }
    ghost var bd := alerts;
    assert bd == fl + BandAlerts(muf);
    // 4. greyline
    if Morning(period) && k <= 3.0 {
      alerts := alerts + [Alert(MorningGreyline, Good)];
    } else if Evening(period) && k <= 3.0 {
      alerts := alerts + [Alert(EveningGreyline, Good)];
    }
    ghost var pre := alerts;
    assert pre == bd + GreylineAlerts(period, k);
    assert pre == StormAlerts(k) + FlareAlerts(flare) + BandAlerts(muf) + GreylineAlerts(period, k);
    // 5. quiet conditions, only when nothing else fired
    if k <= 1.0 && sfi >= 100.0 && alerts == [] {
      alerts := alerts + [Alert(Excellent, Good)];
    }
    assert alerts == pre + (if k <= 1.0 && sfi >= 100.0 && pre == [] then [Alert(Excellent, Good)] else []);
  }

  /** `evaluate_conditions`. `muf` is `None` for a missing value; a
      `period` that is missing reads ''. */
  method EvaluateConditions(kIndex: Raw, sfiReading: Raw, flareClass: Raw, period: string, muf: Option<real>)
    returns (alerts: seq<Alert>)
    ensures RulesHold(alerts, KIndexValue(kIndex), SfiValue(sfiReading), FlareReadingOf(flareClass), period, muf)
  {
    alerts := EvaluateRules(KIndexValue(kIndex), SfiValue(sfiReading), FlareReadingOf(flareClass), period, muf);
    EvaluationHolds(KIndexValue(kIndex), SfiValue(sfiReading), FlareReadingOf(flareClass), period, muf);
  }
}
