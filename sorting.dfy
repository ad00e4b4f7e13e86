/** Python's `sorted(..., key=..., reverse=...)` is a stable sort. The model
    uses one stable insertion sort, parameterised by the strict "comes
    before" relation between two elements, and proves that its result is
    ordered, is a permutation of its input, and keeps elements that compare
    equal in their original order. */
module Sorting {

  /** `before` is a strict weak order: asymmetric and negatively transitive
      (incomparability is then an equivalence). Every key comparison the
      system sorts by has this shape. */
  ghost predicate StrictWeakOrder<T(!new)>(before: (T, T) -> bool)
  {
    (forall a, b :: before(a, b) ==> !before(b, a)) &&
    (forall a, b, c :: before(a, c) ==> before(a, b) || before(b, c))
  }

  /** Neither element comes before the other: Python's "equal keys". */
  predicate Tied<T>(before: (T, T) -> bool, a: T, b: T)
  {
    !before(a, b) && !before(b, a)
  }

  ghost predicate Sorted<T>(s: seq<T>, before: (T, T) -> bool)
  {
    forall i, j :: 0 <= i < j < |s| ==> !before(s[j], s[i])
  }

  /** Inserts x in front of the first element that does not come before it. */
  function Insert<T>(x: T, t: seq<T>, before: (T, T) -> bool): (r: seq<T>)
    ensures multiset(r) == multiset(t) + multiset{x}
  {
    if t == [] || !before(t[0], x) then [x] + t
    else
      assert t == [t[0]] + t[1..];
      [t[0]] + Insert(x, t[1..], before)
  }

  /** Stable sort: the first element is inserted ahead of every later element
      tied with it. */
  function Sort<T>(s: seq<T>, before: (T, T) -> bool): (r: seq<T>)
    ensures multiset(r) == multiset(s)
    ensures |r| == |s|
  {
    if s == [] then []
    else
      assert s == [s[0]] + s[1..];
      var r := Insert(s[0], Sort(s[1..], before), before);
      assert |r| == |multiset(r)|;
      r
  }

  function Filter<T>(s: seq<T>, p: T -> bool): (r: seq<T>)
    ensures |r| <= |s|
    ensures forall x :: x in r ==> x in s && p(x)
  {
    if s == [] then []
    else if p(s[0]) then [s[0]] + Filter(s[1..], p)
    else Filter(s[1..], p)
  }

  lemma {:induction false} FilterConcat<T>(a: seq<T>, b: seq<T>, p: T -> bool)
    ensures Filter(a + b, p) == Filter(a, p) + Filter(b, p)
  {
    if a == [] {
      assert a + b == b;
    } else {
      var c := a + b;
      assert c[0] == a[0] && c[1..] == a[1..] + b;
      FilterConcat(a[1..], b, p);
      if p(a[0]) {
        assert Filter(c, p) == [a[0]] + (Filter(a[1..], p) + Filter(b, p));
        assert Filter(a, p) == [a[0]] + Filter(a[1..], p);
      } else {
        assert Filter(c, p) == Filter(a[1..], p) + Filter(b, p);
        assert Filter(a, p) == Filter(a[1..], p);
      }
    }
  }

  lemma {:induction false} InsertSorted<T(!new)>(x: T, t: seq<T>, before: (T, T) -> bool)
    requires StrictWeakOrder(before) && Sorted(t, before)
    ensures Sorted(Insert(x, t, before), before)
  {
    var r := Insert(x, t, before);
    if t == [] || !before(t[0], x) {
      forall j | 1 <= j < |r| ensures !before(r[j], x) {
        assert r[j] == t[j - 1];
        if j > 1 {
          assert !before(t[j - 1], t[0]);
        }
      }
    } else {
      InsertSorted(x, t[1..], before);
      var rest := Insert(x, t[1..], before);
      assert r == [t[0]] + rest;
      forall j | 0 <= j < |rest| ensures !before(rest[j], t[0]) {
        assert rest[j] in multiset(rest);
        if rest[j] != x {
          assert rest[j] in multiset(t[1..]);
          var k :| 0 <= k < |t[1..]| && t[1..][k] == rest[j];
          assert t[k + 1] == rest[j];
        }
      }
    }
  }

  /** The result is ordered: no element comes before one placed ahead of it. */
  lemma {:induction false} SortSorted<T(!new)>(s: seq<T>, before: (T, T) -> bool)
    requires StrictWeakOrder(before)
    ensures Sorted(Sort(s, before), before)
  {
    if s != [] {
      SortSorted(s[1..], before);
      InsertSorted(s[0], Sort(s[1..], before), before);
    }
  }

  lemma {:induction false} InsertFilterTied<T(!new)>(x: T, t: seq<T>, before: (T, T) -> bool, y: T)
    requires StrictWeakOrder(before)
    ensures Filter(Insert(x, t, before), e => Tied(before, e, y))
         == if Tied(before, x, y) then [x] + Filter(t, e => Tied(before, e, y))
            else Filter(t, e => Tied(before, e, y))
  {
    var p := e => Tied(before, e, y);
    if t == [] || !before(t[0], x) {
      assert ([x] + t)[1..] == t;
    } else {
      InsertFilterTied(x, t[1..], before, y);
      var rest := Insert(x, t[1..], before);
      assert ([t[0]] + rest)[1..] == rest;
      assert t == [t[0]] + t[1..];
      FilterConcat([t[0]], t[1..], p);
      if Tied(before, x, y) {
        assert !Tied(before, t[0], y);
      }
    }
  }

  /** Stability: for every element y, the elements tied with y appear in the
      result in the order they had in the input. */
  lemma {:induction false} SortStable<T(!new)>(s: seq<T>, before: (T, T) -> bool, y: T)
    requires StrictWeakOrder(before)
    ensures Filter(Sort(s, before), e => Tied(before, e, y)) == Filter(s, e => Tied(before, e, y))
  {
    if s != [] {
      SortStable(s[1..], before, y);
      InsertFilterTied(s[0], Sort(s[1..], before), before, y);
    }
  }

  /** Sorting by a real-valued key, largest first (`reverse=True`). */
  function ByKeyDescending<T>(key: T -> real): (before: (T, T) -> bool)
  {
    (a: T, b: T) => key(a) > key(b)
  }

  /** Sorting by a real-valued key, smallest first. */
  function ByKeyAscending<T>(key: T -> real): (before: (T, T) -> bool)
  {
    (a: T, b: T) => key(a) < key(b)
  }

  lemma DescendingIsStrictWeakOrder<T(!new)>(key: T -> real)
    ensures StrictWeakOrder(ByKeyDescending(key))
  {
  }

  lemma AscendingIsStrictWeakOrder<T(!new)>(key: T -> real)
    ensures StrictWeakOrder(ByKeyAscending(key))
  {
  }

  /** For a key order, "sorted" means the keys are monotone. */
  lemma {:induction false} SortedDescendingKeys<T(!new)>(s: seq<T>, key: T -> real)
    ensures Sorted(Sort(s, ByKeyDescending(key)), ByKeyDescending(key))
    ensures forall i, j :: 0 <= i < j < |s| ==>
      key(Sort(s, ByKeyDescending(key))[i]) >= key(Sort(s, ByKeyDescending(key))[j])
  {
    DescendingIsStrictWeakOrder(key);
    SortSorted(s, ByKeyDescending(key));
  }

  /** Taking the first k of a descending sort (`sorted(...)[:k]`): no
      element left out has a larger key than the last one taken. */
  lemma TopDescendingBound<T(!new)>(s: seq<T>, key: T -> real, k: nat)
    requires 0 < k <= |s|
    ensures var top := Sort(s, ByKeyDescending(key))[..k];
      forall x :: x in s && x !in top ==> key(x) <= key(top[k - 1])
  {
    var sorted := Sort(s, ByKeyDescending(key));
    SortedDescendingKeys(s, key);
    forall x | x in s && x !in sorted[..k] ensures key(x) <= key(sorted[k - 1]) {
      assert x in multiset(sorted);
      var i :| 0 <= i < |sorted| && sorted[i] == x;
      assert forall j :: 0 <= j < k ==> sorted[..k][j] == sorted[j];
      assert k <= i;
    }
  }

  /** Taking the first k of any stable sort: no element left out comes
      before the last one taken. */
  lemma TopBound<T(!new)>(s: seq<T>, before: (T, T) -> bool, k: nat)
    requires StrictWeakOrder(before) && 0 < k <= |s|
    ensures var top := Sort(s, before)[..k];
      forall x :: x in s && x !in top ==> !before(x, top[k - 1])
  {
    var sorted := Sort(s, before);
    SortSorted(s, before);
    forall x | x in s && x !in sorted[..k] ensures !before(x, sorted[k - 1]) {
      assert x in multiset(sorted);
      var i :| 0 <= i < |sorted| && sorted[i] == x;
      assert forall j :: 0 <= j < k ==> sorted[..k][j] == sorted[j];
      assert k <= i;
    }
  }

  /** Taking the first k of a sorted sequence keeps the elements tied
      with any y in their input order. */
  lemma TopStable<T(!new)>(s: seq<T>, before: (T, T) -> bool, k: nat, y: T)
    requires StrictWeakOrder(before) && k <= |s|
    ensures Filter(Sort(s, before)[..k], e => Tied(before, e, y)) <= Filter(s, e => Tied(before, e, y))
  {
    SortStable(s, before, y);
    FilterPrefix(Sort(s, before), s, k, e => Tied(before, e, y));
  }

  /** A prefix of t filtered is a prefix of what t and s filter to alike. */
  lemma FilterPrefix<T>(t: seq<T>, s: seq<T>, k: nat, p: T -> bool)
    requires k <= |t| && Filter(t, p) == Filter(s, p)
    ensures Filter(t[..k], p) <= Filter(s, p)
  {
    assert t == t[..k] + t[k..];
    FilterConcat(t[..k], t[k..], p);
    assert (Filter(t[..k], p) + Filter(t[k..], p))[..|Filter(t[..k], p)|] == Filter(t[..k], p);
  }

  lemma {:induction false} SortedAscendingKeys<T(!new)>(s: seq<T>, key: T -> real)
    ensures Sorted(Sort(s, ByKeyAscending(key)), ByKeyAscending(key))
    ensures forall i, j :: 0 <= i < j < |s| ==>
      key(Sort(s, ByKeyAscending(key))[i]) <= key(Sort(s, ByKeyAscending(key))[j])
  {
    AscendingIsStrictWeakOrder(key);
    SortSorted(s, ByKeyAscending(key));
  }
}
