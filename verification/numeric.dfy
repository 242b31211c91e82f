/** Numeric building blocks shared by the analysis pipeline: the conversions the
    source languages perform implicitly (Swift `Int(x)`, `truncatingRemainder`,
    JavaScript `Math.round`), running sums, clamping, the library sorts and
    filters, and a constraint describing the square root the source calls. */
module Numeric {

  datatype Option<T> = None | Some(value: T)

  /** Swift's `Int(x)` for a finite value: truncation toward zero. */
  function Trunc(x: real): (n: int)
    ensures 0.0 <= x ==> n as real <= x < n as real + 1.0
    ensures x < 0.0 ==> n as real - 1.0 < x <= n as real
  {
    if 0.0 <= x then x.Floor else -((-x).Floor)
  }

  /** Swift's `x.truncatingRemainder(dividingBy: 1.0)`: the fractional part, with
      the sign of `x`. */
  function FracTowardZero(x: real): (r: real)
    ensures 0.0 <= x ==> 0.0 <= r < 1.0
    ensures x < 0.0 ==> -1.0 < r <= 0.0
    ensures (x - r).Floor as real == x - r
  {
    x - Trunc(x) as real
  }

  /** JavaScript's `Math.round`: halves are rounded toward positive infinity. */
  function RoundHalfUp(x: real): (n: int)
    ensures x - 0.5 < n as real <= x + 0.5
  {
    (x + 0.5).Floor
  }

  function Max(a: real, b: real): real { if a < b then b else a }

  function Min(a: real, b: real): real { if a < b then a else b }

  function MinInt(a: int, b: int): int { if a < b then a else b }

  function MaxInt(a: int, b: int): int { if a < b then b else a }

  function Abs(x: int): nat { if x < 0 then -x else x }

  /** `max(lo, min(hi, x))`, the clamp written in both sources. */
  function Clamp(x: real, lo: real, hi: real): (r: real)
    requires lo <= hi
    ensures lo <= r <= hi
    ensures lo <= x <= hi ==> r == x
    ensures x <= lo ==> r == lo
    ensures hi <= x ==> r == hi
  {
    Max(lo, Min(hi, x))
  }

  /** The linear interpolation `current + (target - current) * factor` of the web
      client's vibe store; the feature extractor's exponential smoothing steps
      (`x += (t - x) * k`) are this same expression. */
  function Lerp(current: real, target: real, factor: real): real
  {
    current + (target - current) * factor
  }

  /** Factor 0 keeps the current value and factor 1 lands on the target. */
  lemma LerpEndpoints(current: real, target: real)
    ensures Lerp(current, target, 0.0) == current
    ensures Lerp(current, target, 1.0) == target
  {
  }

  /** For a factor in [0,1] the result lies between current and target. */
  lemma LerpBetween(current: real, target: real, factor: real)
    requires 0.0 <= factor <= 1.0
    ensures Min(current, target) <= Lerp(current, target, factor) <= Max(current, target)
  {
    var d := target - current;
    assert Lerp(current, target, factor) == current + factor * d;
    if d >= 0.0 {
      MulMonotone(0.0, factor, d);
      MulMonotone(factor, 1.0, d);
      assert 0.0 <= factor * d <= d;
    } else {
      MulMonotone(0.0, factor, -d);
      MulMonotone(factor, 1.0, -d);
      assert 0.0 <= factor * -d <= -d;
      assert factor * -d == -(factor * d);
    }
  }

  /** Each step leaves `(1 - factor)` of the distance to the target. */
  lemma LerpDistance(current: real, target: real, factor: real)
    requires factor <= 1.0
    ensures RealAbs(Lerp(current, target, factor) - target) == (1.0 - factor) * RealAbs(current - target)
  {
    var e := current - target;
    var g := 1.0 - factor;
    assert (target - current) * factor == -(e * factor);
    assert Lerp(current, target, factor) - target == e * g;
    if e < 0.0 {
      MulMonotone(e, 0.0, g);
      assert RealAbs(e * g) == -(e * g) == g * -e;
    } else {
      MulMonotone(0.0, e, g);
      assert RealAbs(e * g) == g * e;
    }
  }

  lemma MulLess(a: real, b: real, c: real)
    requires a < b && 0.0 < c
    ensures a * c < b * c
  {
  }

  lemma MulMonotone(a: real, b: real, c: real)
    requires a <= b && 0.0 <= c
    ensures a * c <= b * c
  {
    if a < b && 0.0 < c {
      MulLess(a, b, c);
    }
  }

  lemma DivMonotone(a: real, b: real, d: real)
    requires a <= b && 0.0 < d
    ensures a / d <= b / d
  {
    MulMonotone(a, b, 1.0 / d);
  }

  lemma SquareNonNegative(x: real)
    ensures 0.0 <= x * x
  {
    if x < 0.0 {
      MulLess(x, 0.0, -x);
    }
  }

  lemma SquarePositive(d: real)
    requires d != 0.0
    ensures 0.0 < d * d
  {
    if d > 0.0 {
      MulLess(0.0, d, d);
    } else {
      MulLess(0.0, -d, -d);
    }
  }

  lemma ProductSquare(q: real, d: real, a: real)
    requires q * d == a
    ensures (q * q) * (d * d) == a * a
  {
    assert (q * q) * (d * d) == (q * d) * (q * d);
  }

  lemma MulCancel(x: real, y: real, v: real)
    requires v != 0.0 && x * v == y * v
    ensures x == y
  {
    assert (x - y) * v == 0.0;
  }

  lemma ZeroProduct(x: real, d: real)
    requires d != 0.0 && x * d == 0.0
    ensures x == 0.0
  {
  }

  lemma ZeroFactor(x: real, d: real)
    requires x * d == 0.0
    ensures x == 0.0 || d == 0.0
  {
  }

  lemma MulDivCancel(x: real, v: real)
    requires v != 0.0
    ensures (x * v) / v == x && (x / v) * v == x
  {
  }

  /** Dividing by a larger positive number gives a smaller quotient. */
  lemma DivAntitone(f: real, a: real, b: real)
    requires 0.0 <= f && 0.0 < a <= b
    ensures f / b <= f / a
  {
    var x := f / b;
    var y := f / a;
    assert x * b == f && y * a == f;
    assert 0.0 <= x;
    assert x * a <= x * b;
    assert x * a <= y * a;
  }

  function RealAbs(x: real): real { if x < 0.0 then -x else x }

  /** The square-root function the sources call, left uninterpreted: any function
      that gives the non-negative root of a non-negative argument. */
  ghost predicate IsSqrt(root: real -> real)
  {
    forall x :: 0.0 <= x ==> 0.0 <= root(x) && root(x) * root(x) == x
  }

  /** Left-to-right running sum, as an accumulating loop computes it. */
  function Sum(s: seq<real>): real
  {
    if s == [] then 0.0 else Sum(s[..|s| - 1]) + s[|s| - 1]
  }

  /** The largest element, or 0 when every element is below 0 (the running
      `maxVal = max(maxVal, x)` that starts from 0). */
  function MaxOrZero(s: seq<real>): (m: real)
    ensures 0.0 <= m
  {
    if s == [] then 0.0 else Max(MaxOrZero(s[..|s| - 1]), s[|s| - 1])
  }

  /** The running maximum bounds every element and, when positive, is one of them. */
  lemma {:induction false} MaxOrZeroBounds(s: seq<real>)
    ensures forall k :: 0 <= k < |s| ==> s[k] <= MaxOrZero(s)
    ensures 0.0 < MaxOrZero(s) ==> exists k :: 0 <= k < |s| && s[k] == MaxOrZero(s)
  {
    if s != [] {
      var init := s[..|s| - 1];
      MaxOrZeroBounds(init);
      assert forall k :: 0 <= k < |init| ==> init[k] == s[k];
      if 0.0 < MaxOrZero(s) && MaxOrZero(s) != s[|s| - 1] {
        var k :| 0 <= k < |init| && init[k] == MaxOrZero(init);
        assert s[k] == MaxOrZero(s);
      }
    }
  }

  /** A rolling buffer's update: append the newest entry, then drop the oldest one
      if the buffer has outgrown its capacity (`append` followed by one
      `removeFirst`). */
  function PushBounded<T>(s: seq<T>, x: T, cap: nat): (r: seq<T>)
    requires 0 < cap
    ensures |s| <= cap ==> |r| == MinInt(|s| + 1, cap)
    ensures 0 < |r| <= |s| + 1 && r[|r| - 1] == x
    ensures r == (s + [x])[|s| + 1 - |r|..]
  {
    if |s| + 1 > cap then (s + [x])[1..] else s + [x]
  }

  /** Every entry of the updated buffer was already in it or is the new one. */
  lemma PushBoundedMembers<T>(s: seq<T>, x: T, cap: nat)
    requires 0 < cap
    ensures forall y :: y in PushBounded(s, x, cap) ==> y in s || y == x
  {
    var t := s + [x];
    if |s| + 1 > cap {
      forall y | y in t[1..] ensures y in t {
        var k :| 0 <= k < |t| - 1 && t[1..][k] == y;
        assert t[k + 1] == y;
      }
    }
  }

  /** `b <= n / d < b + 1` multiplied out. */
  lemma QuotientBracket(n: real, d: real, b: real)
    requires 0.0 < d && b <= n / d < b + 1.0
    ensures b * d <= n < (b + 1.0) * d
  {
    MulDivCancel(n, d);
    LowerBracket(n / d, d, b, n);
    UpperBracket(n / d, d, b + 1.0, n);
  }

  lemma LowerBracket(x: real, d: real, b: real, n: real)
    requires 0.0 < d && b <= x && x * d == n
    ensures b * d <= n
  {
    MulMonotone(b, x, d);
  }

  lemma UpperBracket(x: real, d: real, c: real, n: real)
    requires 0.0 < d && x < c && x * d == n
    ensures n < c * d
  {
    MulLess(x, c, d);
  }

  /** Every row of `rows` has at least `n` entries. */
  ghost predicate RowsCover(rows: seq<seq<real>>, n: nat)
  {
    forall r :: 0 <= r < |rows| ==> n <= |rows[r]|
  }

  /** Sum of column `i` over all rows, rows taken in order. */
  function ColumnSum(rows: seq<seq<real>>, i: nat): real
    requires forall r :: 0 <= r < |rows| ==> i < |rows[r]|
  {
    if rows == [] then 0.0 else ColumnSum(rows[..|rows| - 1], i) + rows[|rows| - 1][i]
  }

  /** The bin-by-bin mean of `rows` over the first `n` bins. */
  function ColumnMean(rows: seq<seq<real>>, n: nat): (m: seq<real>)
    requires |rows| > 0 && RowsCover(rows, n)
    ensures |m| == n
  {
    seq(n, i requires 0 <= i < n => ColumnSum(rows, i) / |rows| as real)
  }

  /** A column sum lies between `|rows|` times the column's lower and upper bounds. */
  lemma {:induction false} ColumnSumBounds(rows: seq<seq<real>>, i: nat, lo: real, hi: real)
    requires forall r :: 0 <= r < |rows| ==> i < |rows[r]| && lo <= rows[r][i] <= hi
    ensures |rows| as real * lo <= ColumnSum(rows, i) <= |rows| as real * hi
  {
    if rows != [] {
      ColumnSumBounds(rows[..|rows| - 1], i, lo, hi);
    }
  }

  /** So the mean of each bin lies within the bounds of that bin's values: the mean
      of non-negative spectra is non-negative, and a constant bin keeps its value. */
  lemma ColumnMeanBounds(rows: seq<seq<real>>, n: nat, i: nat, lo: real, hi: real)
    requires |rows| > 0 && RowsCover(rows, n) && i < n
    requires forall r :: 0 <= r < |rows| ==> lo <= rows[r][i] <= hi
    ensures lo <= ColumnMean(rows, n)[i] <= hi
  {
    ColumnSumBounds(rows, i, lo, hi);
    MeanBetween(ColumnSum(rows, i), |rows| as real, lo, hi);
  }

  /** A total between `count` times two bounds gives a mean between them. */
  lemma MeanBetween(total: real, count: real, lo: real, hi: real)
    requires 0.0 < count && count * lo <= total <= count * hi
    ensures lo <= total / count <= hi
  {
    var inv := 1.0 / count;
    MulMonotone(count * lo, total, inv);
    MulMonotone(total, count * hi, inv);
    assert count * inv == 1.0;
    assert (count * lo) * inv == lo * (count * inv);
    assert (count * hi) * inv == hi * (count * inv);
    assert total * inv == total / count;
  }

  // ---------------------------------------------------------------------------
  // Sorting: Swift's `sorted(by:)`/`sort(by:)` and JavaScript's `Array.prototype.sort`
  // are modelled as a stable insertion sort by an ascending key.

  ghost predicate SortedBy<T>(s: seq<T>, key: T -> real)
  {
    forall i, j :: 0 <= i < j < |s| ==> key(s[i]) <= key(s[j])
  }

  /** No element occurs twice. */
  ghost predicate Distinct<T>(s: seq<T>)
  {
    forall i, j :: 0 <= i < j < |s| ==> s[i] != s[j]
  }

  function InsertBy<T>(x: T, t: seq<T>, key: T -> real): seq<T>
  {
    if t == [] || key(x) <= key(t[0]) then [x] + t else [t[0]] + InsertBy(x, t[1..], key)
  }

  function SortBy<T>(s: seq<T>, key: T -> real): seq<T>
  {
    if s == [] then [] else InsertBy(s[0], SortBy(s[1..], key), key)
  }

  lemma {:induction false} InsertByPermutes<T>(x: T, t: seq<T>, key: T -> real)
    ensures multiset(InsertBy(x, t, key)) == multiset([x]) + multiset(t)
  {
    if t != [] && key(x) > key(t[0]) {
      InsertByPermutes(x, t[1..], key);
      assert t == [t[0]] + t[1..];
    }
  }

  lemma {:induction false} InsertBySorted<T>(x: T, t: seq<T>, key: T -> real)
    requires SortedBy(t, key)
    ensures SortedBy(InsertBy(x, t, key), key)
  {
    if t != [] && key(x) > key(t[0]) {
      InsertBySorted(x, t[1..], key);
      InsertByPermutes(x, t[1..], key);
      var r := InsertBy(x, t[1..], key);
      forall k | 0 <= k < |r| ensures key(t[0]) <= key(r[k]) {
        assert r[k] in multiset(r);
        assert r[k] == x || r[k] in multiset(t[1..]);
      }
    }
  }

  lemma {:induction false} InsertByDistinct<T>(x: T, t: seq<T>, key: T -> real)
    requires Distinct(t) && x !in t
    ensures Distinct(InsertBy(x, t, key))
  {
    if t != [] && key(x) > key(t[0]) {
      InsertByDistinct(x, t[1..], key);
      InsertByPermutes(x, t[1..], key);
      var r := InsertBy(x, t[1..], key);
      forall k | 0 <= k < |r| ensures r[k] != t[0] {
        assert r[k] in multiset(r);
      }
    }
  }

  /** The sort returns a permutation of its input ... */
  lemma {:induction false} SortByPermutes<T>(s: seq<T>, key: T -> real)
    ensures multiset(SortBy(s, key)) == multiset(s)
    ensures |SortBy(s, key)| == |s|
  {
    if s != [] {
      SortByPermutes(s[1..], key);
      InsertByPermutes(s[0], SortBy(s[1..], key), key);
      assert s == [s[0]] + s[1..];
    }
    assert |multiset(SortBy(s, key))| == |multiset(s)|;
  }

  /** ... in ascending key order ... */
  lemma {:induction false} SortBySorted<T>(s: seq<T>, key: T -> real)
    ensures SortedBy(SortBy(s, key), key)
  {
    if s != [] {
      SortBySorted(s[1..], key);
      InsertBySorted(s[0], SortBy(s[1..], key), key);
    }
  }

  /** ... and keeps a duplicate-free input duplicate-free. */
  lemma {:induction false} SortByDistinct<T>(s: seq<T>, key: T -> real)
    requires Distinct(s)
    ensures Distinct(SortBy(s, key))
  {
    if s != [] {
      assert Distinct(s[1..]);
      SortByDistinct(s[1..], key);
      SortByPermutes(s[1..], key);
      assert s[0] !in multiset(s[1..]);
      assert s[0] !in SortBy(s[1..], key);
      InsertByDistinct(s[0], SortBy(s[1..], key), key);
    }
  }

  /** Membership is the same before and after sorting. */
  lemma SortByMembers<T>(s: seq<T>, key: T -> real)
    ensures forall x :: x in SortBy(s, key) <==> x in s
  {
    SortByPermutes(s, key);
    forall x ensures x in SortBy(s, key) <==> x in s {
      assert x in SortBy(s, key) <==> x in multiset(SortBy(s, key));
    }
  }

  // ---------------------------------------------------------------------------
  // Filtering: Swift's `removeAll(where:)`, JavaScript's `Array.prototype.filter`.

  function Filter<T>(s: seq<T>, keep: T -> bool): seq<T>
  {
    if s == [] then []
    else Filter(s[..|s| - 1], keep) + (if keep(s[|s| - 1]) then [s[|s| - 1]] else [])
  }

  /** An element survives exactly when it was present and is kept. */
  lemma {:induction false} FilterMembers<T>(s: seq<T>, keep: T -> bool)
    ensures forall x :: x in Filter(s, keep) ==> x in s && keep(x)
    ensures forall x :: x in s && keep(x) ==> x in Filter(s, keep)
    ensures |Filter(s, keep)| <= |s|
  {
    if s != [] {
      FilterMembers(s[..|s| - 1], keep);
      assert s == s[..|s| - 1] + [s[|s| - 1]];
    }
  }

  /** Survivors keep their relative order: any relation that held between earlier
      and later elements still holds between them afterwards. */
  lemma {:induction false} FilterKeepsOrder<T>(s: seq<T>, keep: T -> bool, before: (T, T) -> bool)
    requires forall i, j :: 0 <= i < j < |s| ==> before(s[i], s[j])
    ensures forall i, j :: 0 <= i < j < |Filter(s, keep)| ==> before(Filter(s, keep)[i], Filter(s, keep)[j])
  {
    if s != [] {
      var init := s[..|s| - 1];
      var last := s[|s| - 1];
      FilterKeepsOrder(init, keep, before);
      FilterMembers(init, keep);
      var f := Filter(init, keep);
      forall k | 0 <= k < |f| ensures before(f[k], last) {
        assert f[k] in f;
        assert f[k] in init;
        var i :| 0 <= i < |init| && init[i] == f[k];
        assert s[i] == f[k];
      }
    }
  }
}
