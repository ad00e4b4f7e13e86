/** Shared value types and the small numeric vocabulary (sums, means,
    population variance, least-squares slope, Jaccard similarity) that
    several components of the system use. */
module Common {

  datatype Option<T> = None | Some(value: T)
  {
    /** Python's `d.get(key, default)` once the lookup is an `Option`. */
    function GetOr(dflt: T): T
    {
      if Some? then value else dflt
    }
  }

  function Max(a: real, b: real): (r: real)
    ensures r >= a && r >= b && (r == a || r == b)
  {
    if a >= b then a else b
  }

  function Min(a: real, b: real): (r: real)
    ensures r <= a && r <= b && (r == a || r == b)
  {
    if a <= b then a else b
  }

  /** `max(lo, min(hi, x))`, the clamping idiom used throughout. */
  function Clamp(x: real, lo: real, hi: real): (r: real)
    ensures lo <= hi ==> lo <= r <= hi
    ensures lo <= x <= hi ==> r == x
    ensures x < lo ==> r == lo
    ensures lo <= hi && x > hi ==> r == hi
  {
    Max(lo, Min(hi, x))
  }

  function Abs(x: real): (r: real)
    ensures r >= 0.0 && (r == x || r == -x)
  {
    if x >= 0.0 then x else -x
  }

  /** The square root is not computed inside the model: callers pass it. */
  predicate IsRootOf(r: real, x: real)
  {
    r >= 0.0 && r * r == x
  }

  lemma RootMonotone(r: real, x: real, s: real, y: real)
    requires IsRootOf(r, x) && IsRootOf(s, y)
    ensures x <= y <==> r <= s
  {
    if r > s {
      MulPositive(r - s, r + s);
      assert r * r - s * s == (r - s) * (r + s);
    } else if r < s {
      MulPositive(s - r, s + r);
      assert s * s - r * r == (s - r) * (s + r);
    }
  }

  lemma MulPositive(x: real, y: real)
    requires x > 0.0 && y > 0.0
    ensures x * y > 0.0
  {
  }

  function Sum(s: seq<real>): real
  {
    if s == [] then 0.0 else s[0] + Sum(s[1..])
  }

  lemma {:induction false} SumConcat(a: seq<real>, b: seq<real>)
    ensures Sum(a + b) == Sum(a) + Sum(b)
  {
    if a == [] {
      assert a + b == b;
    } else {
      assert (a + b)[0] == a[0];
      assert (a + b)[1..] == a[1..] + b;
      SumConcat(a[1..], b);
    }
  }

  lemma {:induction false} SumBounds(s: seq<real>, lo: real, hi: real)
    requires forall i :: 0 <= i < |s| ==> lo <= s[i] <= hi
    ensures |s| as real * lo <= Sum(s) <= |s| as real * hi
  {
    if s != [] {
      SumBounds(s[1..], lo, hi);
    }
  }

  /** Arithmetic mean of a non-empty sequence (numpy's `mean`). */
  function Mean(s: seq<real>): (r: real)
    requires |s| > 0
  {
    Sum(s) / |s| as real
  }

  lemma MeanBounds(s: seq<real>, lo: real, hi: real)
    requires |s| > 0
    requires forall i :: 0 <= i < |s| ==> lo <= s[i] <= hi
    ensures lo <= Mean(s) <= hi
  {
    SumBounds(s, lo, hi);
    var n := |s| as real;
    assert Sum(s) / n >= lo by { assert Sum(s) >= n * lo; }
    assert Sum(s) / n <= hi by { assert Sum(s) <= n * hi; }
  }

  /** Mean of the sequence, or `dflt` when it is empty. */
  function MeanOr(s: seq<real>, dflt: real): (r: real)
    ensures s == [] ==> r == dflt
    ensures s != [] ==> r == Mean(s)
  {
    if s == [] then dflt else Mean(s)
  }

  function SquaredDeviations(s: seq<real>, m: real): (r: seq<real>)
    ensures |r| == |s|
    ensures forall i :: 0 <= i < |s| ==> r[i] == (s[i] - m) * (s[i] - m) && r[i] >= 0.0
  {
    if s == [] then []
    else
      var d := s[0] - m;
      assert d * d >= 0.0 by { if d < 0.0 { assert d * d == (-d) * (-d); } }
      [d * d] + SquaredDeviations(s[1..], m)
  }

  /** Population variance (the square of numpy's `std`, `ddof = 0`). */
  function Variance(s: seq<real>): (r: real)
    requires |s| > 0
    ensures r >= 0.0
  {
    var d := SquaredDeviations(s, Mean(s));
    MeanBounds(d, 0.0, MaxOf(d));
    Mean(d)
  }

  /** The smallest and the largest element of a non-empty sequence. */
  function SeqMin(s: seq<real>): (r: real)
    requires s != []
    ensures r in s && forall i :: 0 <= i < |s| ==> r <= s[i]
  {
    if |s| == 1 then s[0] else Min(s[0], SeqMin(s[1..]))
  }

  function SeqMax(s: seq<real>): (r: real)
    requires s != []
    ensures r in s && forall i :: 0 <= i < |s| ==> s[i] <= r
  {
    if |s| == 1 then s[0] else Max(s[0], SeqMax(s[1..]))
  }

  /** An upper bound of the elements (0 for the empty sequence). */
  function MaxOf(d: seq<real>): (r: real)
    ensures forall i :: 0 <= i < |d| ==> d[i] <= r
  {
    if d == [] then 0.0 else Max(d[0], MaxOf(d[1..]))
  }

  /** `std <= bound` for a non-negative bound, decided without a square root. */
  predicate StdAtMost(s: seq<real>, bound: real)
    requires |s| > 0
  {
    bound >= 0.0 && Variance(s) <= bound * bound
  }

  lemma StdAtMostMeaning(s: seq<real>, bound: real, std: real)
    requires |s| > 0 && IsRootOf(std, Variance(s)) && bound >= 0.0
    ensures StdAtMost(s, bound) <==> std <= bound
  {
    RootMonotone(std, Variance(s), bound, bound * bound);
  }

  /** Sum of (k + i) * s[i] over the indices i of s. */
  function WeightedSum(s: seq<real>, k: real): real
  {
    if s == [] then 0.0 else k * s[0] + WeightedSum(s[1..], k + 1.0)
  }

  /** Denominator of the least-squares slope against x = 0, 1, ..., n-1:
      n * sum(x^2) - sum(x)^2. */
  function SlopeDenominator(n: nat): (r: real)
    ensures n >= 2 ==> r > 0.0
  {
    var d := n as real * IndexSquareSum(0.0, n) - IndexSum(0.0, n) * IndexSum(0.0, n);
    DenominatorPositive(n);
    d
  }

  lemma DenominatorPositive(n: nat)
    ensures n >= 2 ==> n as real * IndexSquareSum(0.0, n) - IndexSum(0.0, n) * IndexSum(0.0, n) > 0.0
  {
    IndexSumsClosedForm(0.0, n);
    if n >= 2 {
      DenominatorAlgebra(n as real, IndexSum(0.0, n), IndexSquareSum(0.0, n));
    }
  }

  lemma DenominatorAlgebra(m: real, p: real, q: real)
    requires m >= 2.0
    requires p == m * 0.0 + m * (m - 1.0) / 2.0
    requires q == m * 0.0 * 0.0 + 0.0 * m * (m - 1.0) + (m - 1.0) * m * (2.0 * m - 1.0) / 6.0
    ensures m * q - p * p > 0.0
  {
    var t := m * m * (m - 1.0);
    assert m * q == t * (2.0 * m - 1.0) / 6.0;
    assert p * p == t * (m - 1.0) / 4.0;
    assert m * q - p * p == t * (m + 1.0) / 12.0;
    assert t > 0.0;
  }

  /** Slope of the least-squares line through (i, ys[i]), numpy's
      `polyfit(range(n), ys, 1)[0]`. */
  function Slope(ys: seq<real>): (r: real)
    requires |ys| >= 2
  {
    var n := |ys| as real;
    (n * WeightedSum(ys, 0.0) - IndexSum(0.0, |ys|) * Sum(ys)) / SlopeDenominator(|ys|)
  }

  /** The sequence a + b * (k + i) for i = 0 .. n-1. */
  function Line(a: real, b: real, k: real, n: nat): (r: seq<real>)
    ensures |r| == n
    decreases n
  {
    if n == 0 then [] else [a + b * k] + Line(a, b, k + 1.0, n - 1)
  }

  /** The sum of k + i and of (k + i)^2 for i = 0 .. n-1. */
  function IndexSum(k: real, n: nat): real
    decreases n
  {
    if n == 0 then 0.0 else k + IndexSum(k + 1.0, n - 1)
  }

  function IndexSquareSum(k: real, n: nat): real
    decreases n
  {
    if n == 0 then 0.0 else k * k + IndexSquareSum(k + 1.0, n - 1)
  }

  /** Closed forms of both sums from zero, which give the slope denominator. */
  lemma {:induction false} IndexSumsClosedForm(k: real, n: nat)
    ensures IndexSum(k, n) == n as real * k + n as real * (n as real - 1.0) / 2.0
    ensures IndexSquareSum(k, n) == n as real * k * k + k * n as real * (n as real - 1.0)
                                    + (n as real - 1.0) * n as real * (2.0 * n as real - 1.0) / 6.0
    decreases n
  {
    if n > 0 {
      IndexSumsClosedForm(k + 1.0, n - 1);
      SquareStep(k, (n - 1) as real);
    }
  }

  lemma SquareStep(k: real, m: real)
    ensures k * k + (m * (k + 1.0) * (k + 1.0) + (k + 1.0) * m * (m - 1.0) + (m - 1.0) * m * (2.0 * m - 1.0) / 6.0)
         == (m + 1.0) * k * k + k * (m + 1.0) * m + m * (m + 1.0) * (2.0 * m + 1.0) / 6.0
  {
    assert m * (k + 1.0) * (k + 1.0) == m * k * k + 2.0 * m * k + m;
    assert (k + 1.0) * m * (m - 1.0) == k * m * (m - 1.0) + m * (m - 1.0);
    assert (m + 1.0) * k * k == m * k * k + k * k;
    assert k * (m + 1.0) * m == k * m * (m - 1.0) + 2.0 * m * k;
    assert m * (m + 1.0) * (2.0 * m + 1.0) / 6.0 == (m - 1.0) * m * (2.0 * m - 1.0) / 6.0 + m * m;
  }

  lemma {:induction false} LineSum(a: real, b: real, k: real, n: nat)
    ensures Sum(Line(a, b, k, n)) == n as real * a + b * IndexSum(k, n)
    decreases n
  {
    if n > 0 {
      var s := Line(a, b, k, n);
      var m := (n - 1) as real;
      assert s[0] == a + b * k;
      assert s[1..] == Line(a, b, k + 1.0, n - 1);
      LineSum(a, b, k + 1.0, n - 1);
      var p := IndexSum(k + 1.0, n - 1);
      calc {
        Sum(s);
        a + b * k + Sum(s[1..]);
        a + b * k + (m * a + b * p);
        (m + 1.0) * a + b * (k + p);
      }
    }
  }

  lemma {:induction false} LineWeightedSum(a: real, b: real, k: real, n: nat)
    ensures WeightedSum(Line(a, b, k, n), k) == a * IndexSum(k, n) + b * IndexSquareSum(k, n)
    decreases n
  {
    if n > 0 {
      var rest := Line(a, b, k + 1.0, n - 1);
      LineWeightedSum(a, b, k + 1.0, n - 1);
      LineWeightedStep(a, b, k, n, WeightedSum(rest, k + 1.0), IndexSum(k + 1.0, n - 1), IndexSquareSum(k + 1.0, n - 1));
    }
  }

  /** One step of the induction above, with the tail's sums as plain values. */
  lemma LineWeightedStep(a: real, b: real, k: real, n: nat, w1: real, p: real, q: real)
    requires n > 0
    requires w1 == WeightedSum(Line(a, b, k + 1.0, n - 1), k + 1.0)
    requires p == IndexSum(k + 1.0, n - 1) && q == IndexSquareSum(k + 1.0, n - 1)
    requires w1 == a * p + b * q
    ensures WeightedSum(Line(a, b, k, n), k) == a * IndexSum(k, n) + b * IndexSquareSum(k, n)
  {
    var s := Line(a, b, k, n);
    assert s[0] == a + b * k && s[1..] == Line(a, b, k + 1.0, n - 1);
    WeightedStep(a, b, k, a + b * k, p, q, w1, WeightedSum(s, k), IndexSum(k, n), IndexSquareSum(k, n));
  }

  lemma WeightedStep(a: real, b: real, k: real, x0: real, p: real, q: real, w1: real, w: real, p0: real, q0: real)
    requires x0 == a + b * k && w1 == a * p + b * q && w == k * x0 + w1
    requires p0 == k + p && q0 == k * k + q
    ensures w == a * p0 + b * q0
  {
  }

  /** The least-squares slope of an exact straight line is its gradient. */
  lemma SlopeOfLine(a: real, b: real, n: nat)
    requires n >= 2
    ensures Slope(Line(a, b, 0.0, n)) == b
  {
    var s := Line(a, b, 0.0, n);
    LineSum(a, b, 0.0, n);
    LineWeightedSum(a, b, 0.0, n);
    var m, p, q := n as real, IndexSum(0.0, n), IndexSquareSum(0.0, n);
    var d := SlopeDenominator(n);
    assert m * WeightedSum(s, 0.0) - p * Sum(s) == b * d by {
      SlopeNumerator(a, b, m, p, q, Sum(s), WeightedSum(s, 0.0));
    }
    DivCancel(b, d);
  }

  lemma DivCancel(x: real, d: real)
    requires d != 0.0
    ensures (x * d) / d == x
  {
  }

  lemma SlopeNumerator(a: real, b: real, m: real, p: real, q: real, sy: real, w: real)
    requires sy == m * a + b * p && w == a * p + b * q
    ensures m * w - p * sy == b * (m * q - p * p)
  {
  }

  /** Jaccard similarity |A ∩ B| / |A ∪ B|, or 0 when both are empty. */
  function Jaccard<T>(a: set<T>, b: set<T>): (r: real)
    ensures 0.0 <= r <= 1.0
    ensures r == 1.0 <==> a == b && a != {}
    ensures r == 0.0 <==> a * b == {}
  {
    if |a + b| == 0 then 0.0
    else
      SubsetCard(a * b, a + b);
      assert |a * b| == |a + b| ==> a == b by {
        if |a * b| == |a + b| { assert a <= a * b && b <= a * b; }
      }
      assert a == b ==> a * b == a + b;
      RatioOne(|a * b| as real, |a + b| as real);
      |a * b| as real / |a + b| as real
  }

  lemma RatioOne(i: real, u: real)
    requires 0.0 <= i <= u && u > 0.0
    ensures 0.0 <= i / u <= 1.0
    ensures i / u == 1.0 <==> i == u
    ensures i / u == 0.0 <==> i == 0.0
  {
  }

  lemma JaccardSymmetric<T>(a: set<T>, b: set<T>)
    ensures Jaccard(a, b) == Jaccard(b, a)
  {
    assert a * b == b * a && a + b == b + a;
  }

  lemma {:induction false} SubsetCard<T>(x: set<T>, y: set<T>)
    requires x <= y
    ensures |x| <= |y|
    ensures |x| == |y| ==> x == y
    decreases y
  {
    if y != {} {
      var e :| e in y;
      SubsetCard(x - {e}, y - {e});
      if e !in x {
        assert x - {e} == x;
      } else if |x| == |y| {
        assert x == (x - {e}) + {e} && y == (y - {e}) + {e};
      }
    }
  }

  function Elements<T(!new)>(s: seq<T>): (r: set<T>)
    ensures forall x :: x in r <==> x in s
  {
    set x | x in s
  }
}
