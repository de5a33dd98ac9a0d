/** Generic sequence operations that the JavaScript code expresses with
    `filter`, `reduce`, `Math.min`/`Math.max` and `Array.prototype.sort`. */
module Seqs {

  datatype Option<T> = None | Some(value: T)

  // ---------------------------------------------------------------------
  // filter

  /** `s.filter(p)`: the elements of `s` that satisfy `p`, in their order. */
  function Filter<T>(s: seq<T>, p: T -> bool): (r: seq<T>)
    ensures |r| <= |s|
    ensures forall i :: 0 <= i < |r| ==> r[i] in s && p(r[i])
    ensures forall i :: 0 <= i < |s| && p(s[i]) ==> s[i] in r
  {
    if s == [] then []
    else if p(s[0]) then [s[0]] + Filter(s[1..], p)
    else Filter(s[1..], p)
  }

  /** `a` is `b` with some elements dropped, the others kept in order. */
  ghost predicate IsSubsequence<T>(a: seq<T>, b: seq<T>)
  {
    if b == [] then a == []
    else (a != [] && a[0] == b[0] && IsSubsequence(a[1..], b[1..])) || IsSubsequence(a, b[1..])
  }

  /** Filtering keeps the original order and every satisfying element with
      its multiplicity: it is the unique subsequence with these counts. */
  lemma FilterKeepsOrder<T>(s: seq<T>, p: T -> bool)
    ensures IsSubsequence(Filter(s, p), s)
    ensures forall x :: multiset(Filter(s, p))[x] == if p(x) then multiset(s)[x] else 0
  {
    FilterIsSubsequence(s, p);
    FilterMultiset(s, p);
  }

  lemma {:induction false} FilterIsSubsequence<T>(s: seq<T>, p: T -> bool)
    ensures IsSubsequence(Filter(s, p), s)
  {
    if s != [] {
      FilterIsSubsequence(s[1..], p);
      if p(s[0]) {
        assert Filter(s, p)[1..] == Filter(s[1..], p);
      }
    }
  }

  lemma {:induction false} FilterMultiset<T>(s: seq<T>, p: T -> bool)
    ensures forall x :: multiset(Filter(s, p))[x] == if p(x) then multiset(s)[x] else 0
  {
    if s != [] {
      FilterMultiset(s[1..], p);
      assert s == [s[0]] + s[1..];
    }
  }

  /** Filtering twice with the same predicate changes nothing more. */
  lemma {:induction false} FilterIdempotent<T>(s: seq<T>, p: T -> bool)
    ensures Filter(Filter(s, p), p) == Filter(s, p)
  {
    if s != [] {
      FilterIdempotent(s[1..], p);
    }
  }

  /** When every element satisfies `p`, the filter returns its input. */
  lemma {:induction false} FilterAll<T>(s: seq<T>, p: T -> bool)
    requires forall i :: 0 <= i < |s| ==> p(s[i])
    ensures Filter(s, p) == s
  {
    if s != [] {
      FilterAll(s[1..], p);
    }
  }

  /** Filtering a concatenation filters each part. */
  lemma {:induction false} FilterAppend<T>(a: seq<T>, b: seq<T>, p: T -> bool)
    ensures Filter(a + b, p) == Filter(a, p) + Filter(b, p)
  {
    if a == [] {
      assert a + b == b;
    } else {
      var h := if p(a[0]) then [a[0]] else [];
      calc {
        Filter(a + b, p);
        { assert (a + b)[0] == a[0]; FilterHead(a + b, p); }
        h + Filter((a + b)[1..], p);
        { assert (a + b)[1..] == a[1..] + b; }
        h + Filter(a[1..] + b, p);
        { FilterAppend(a[1..], b, p); }
        h + (Filter(a[1..], p) + Filter(b, p));
        (h + Filter(a[1..], p)) + Filter(b, p);
        { FilterHead(a, p); }
        Filter(a, p) + Filter(b, p);
      }
    }
  }

  /** Filtering a non-empty sequence: its head, when it qualifies, then the
      filtered rest. */
  lemma FilterHead<T>(s: seq<T>, p: T -> bool)
    requires s != []
    ensures Filter(s, p) == (if p(s[0]) then [s[0]] else []) + Filter(s[1..], p)
  {
    if !p(s[0]) {
      assert [] + Filter(s[1..], p) == Filter(s[1..], p);
    }
  }

  // ---------------------------------------------------------------------
  // counting

  /** `s.filter(p).length`. */
  function Count<T>(s: seq<T>, p: T -> bool): (n: nat)
    ensures n <= |s|
  {
    |Filter(s, p)|
  }

  /** Three predicates that split every element into exactly one class
      count up to the length of the sequence. */
  lemma {:induction false} CountPartition<T>(s: seq<T>, p: T -> bool, q: T -> bool, r: T -> bool)
    requires forall x :: (p(x) && !q(x) && !r(x)) || (!p(x) && q(x) && !r(x)) || (!p(x) && !q(x) && r(x))
    ensures Count(s, p) + Count(s, q) + Count(s, r) == |s|
  {
    if s != [] {
      CountPartition(s[1..], p, q, r);
    }
  }

  /** Two complementary predicates split the sequence. */
  lemma {:induction false} CountComplement<T>(s: seq<T>, p: T -> bool, q: T -> bool)
    requires forall x :: p(x) != q(x)
    ensures Count(s, p) + Count(s, q) == |s|
  {
    if s != [] {
      CountComplement(s[1..], p, q);
    }
  }

  /** The count is the whole length exactly when every element satisfies `p`. */
  lemma {:induction false} CountAllIff<T>(s: seq<T>, p: T -> bool)
    ensures Count(s, p) == |s| <==> forall i :: 0 <= i < |s| ==> p(s[i])
  {
    if s != [] {
      CountAllIff(s[1..], p);
      if !p(s[0]) {
        assert Count(s, p) <= |s[1..]|;
      } else {
        assert forall i :: 1 <= i < |s| ==> s[i] == s[1..][i - 1];
      }
    }
  }

  /** The count is positive exactly when some element satisfies `p`. */
  lemma {:induction false} CountPositiveIff<T>(s: seq<T>, p: T -> bool)
    ensures Count(s, p) > 0 <==> exists i :: 0 <= i < |s| && p(s[i])
  {
    if Count(s, p) > 0 {
      var r := Filter(s, p);
      assert r[0] in s;
    }
  }

  // ---------------------------------------------------------------------
  // sums, extremes and means of integer sequences

  /** `xs.reduce((a, b) => a + b, 0)`. */
  function Sum(xs: seq<int>): int
  {
    if xs == [] then 0 else xs[0] + Sum(xs[1..])
  }

  /** `Math.min(...xs)` on a non-empty list. */
  function Min(xs: seq<int>): (m: int)
    requires xs != []
    ensures m in xs
    ensures forall i :: 0 <= i < |xs| ==> m <= xs[i]
  {
    if |xs| == 1 then xs[0]
    else
      var rest := Min(xs[1..]);
      assert forall i :: 1 <= i < |xs| ==> xs[i] == xs[1..][i - 1];
      if xs[0] <= rest then xs[0] else rest
  }

  /** `Math.max(...xs)` on a non-empty list. */
  function Max(xs: seq<int>): (m: int)
    requires xs != []
    ensures m in xs
    ensures forall i :: 0 <= i < |xs| ==> xs[i] <= m
  {
    if |xs| == 1 then xs[0]
    else
      var rest := Max(xs[1..]);
      assert forall i :: 1 <= i < |xs| ==> xs[i] == xs[1..][i - 1];
      if xs[0] >= rest then xs[0] else rest
  }

  /** Arithmetic mean: the sum divided by the length, as an exact rational. */
  function Mean(xs: seq<int>): real
    requires xs != []
  {
    Sum(xs) as real / |xs| as real
  }

  /** A lower bound of every element bounds the sum from below, an upper
      bound from above. */
  lemma {:induction false} SumBounds(xs: seq<int>, lo: int, hi: int)
    requires forall i :: 0 <= i < |xs| ==> lo <= xs[i] <= hi
    ensures |xs| * lo <= Sum(xs) <= |xs| * hi
  {
    if xs != [] {
      assert forall i :: 1 <= i < |xs| ==> xs[i] == xs[1..][i - 1];
      SumBounds(xs[1..], lo, hi);
      assert |xs| * lo == lo + |xs[1..]| * lo;
      assert |xs| * hi == hi + |xs[1..]| * hi;
    }
  }

  /** The mean lies between the minimum and the maximum. */
  lemma {:induction false} MeanBetweenExtremes(xs: seq<int>)
    requires xs != []
    ensures Min(xs) as real <= Mean(xs) <= Max(xs) as real
  {
    MeanWithin(xs, Min(xs), Max(xs));
  }

  /** Bounds on every element bound the mean. */
  lemma {:induction false} MeanWithin(xs: seq<int>, lo: int, hi: int)
    requires xs != []
    requires forall i :: 0 <= i < |xs| ==> lo <= xs[i] <= hi
    ensures lo as real <= Mean(xs) <= hi as real
  {
    SumBounds(xs, lo, hi);
    var n := |xs|;
    ProductAsReal(n, lo);
    ProductAsReal(n, hi);
    DivideBounds(Sum(xs) as real, n as real, lo as real, hi as real);
  }

  lemma ProductAsReal(a: int, b: int)
    ensures (a * b) as real == a as real * b as real
  {
  }

  /** `n * lo <= s <= n * hi` with `n > 0` gives `lo <= s / n <= hi`. */
  lemma DivideBounds(s: real, n: real, lo: real, hi: real)
    requires n > 0.0
    requires n * lo <= s <= n * hi
    ensures lo <= s / n <= hi
  {
    var q := s / n;
    assert q * n == s;
    assert n * (q - lo) >= 0.0;
    assert n * (hi - q) >= 0.0;
  }

  /** All elements are equal. */
  ghost predicate AllEqual(xs: seq<int>)
  {
    forall i, j :: 0 <= i < |xs| && 0 <= j < |xs| ==> xs[i] == xs[j]
  }

  /** The sum of `n` copies of `c` is `n * c`. */
  lemma {:induction false} SumConstant(xs: seq<int>, c: int)
    requires forall i :: 0 <= i < |xs| ==> xs[i] == c
    ensures Sum(xs) == |xs| * c
  {
    if xs != [] {
      assert forall i :: 0 <= i < |xs[1..]| ==> xs[1..][i] == xs[i + 1];
      SumConstant(xs[1..], c);
    }
  }

  /** The mean of equal values is that value. */
  lemma {:induction false} MeanOfEqual(xs: seq<int>)
    requires xs != []
    requires AllEqual(xs)
    ensures Mean(xs) == xs[0] as real
  {
    SumConstant(xs, xs[0]);
    assert (|xs| * xs[0]) as real == |xs| as real * xs[0] as real;
  }

  /** Sum of a concatenation. */
  lemma {:induction false} SumAppend(a: seq<int>, b: seq<int>)
    ensures Sum(a + b) == Sum(a) + Sum(b)
  {
    if a != [] {
      assert (a + b)[1..] == a[1..] + b;
      SumAppend(a[1..], b);
    } else {
      assert a + b == b;
    }
  }

  // ---------------------------------------------------------------------
  // dispersion around the mean
  //
  // With `n == |xs|` and `s == Sum(xs)`, the deviation of `v` from the mean
  // is `(n * v - s) / n`; the numerators are integers, so the sums below are
  // kept on integers and divided once at the end.

  function AbsInt(x: int): nat { if x < 0 then -x else x }

  function Square(x: int): nat { x * x }

  /** The sum of `|n * y - s|` over `ys`. */
  function AbsDevSum(ys: seq<int>, n: int, s: int): nat
  {
    if ys == [] then 0 else AbsInt(n * ys[0] - s) + AbsDevSum(ys[1..], n, s)
  }

  /** The sum of `(n * y - s)^2` over `ys`. */
  function SqDevSum(ys: seq<int>, n: int, s: int): nat
  {
    if ys == [] then 0 else Square(n * ys[0] - s) + SqDevSum(ys[1..], n, s)
  }

  /** Population variance, `xs.reduce((sq, v) => sq + Math.pow(v - mean, 2), 0) / n`. */
  function Variance(xs: seq<int>): (v: real)
    requires xs != []
    ensures v >= 0.0
  {
    var n := |xs|;
    SqDevSum(xs, n, Sum(xs)) as real / (n * n * n) as real
  }

  /** Mean absolute deviation, `xs.reduce((acc, v) => acc + Math.abs(v - mean), 0) / n`. */
  function MeanAbsDeviation(xs: seq<int>): (d: real)
    requires xs != []
    ensures d >= 0.0
  {
    var n := |xs|;
    AbsDevSum(xs, n, Sum(xs)) as real / (n * n) as real
  }

  /** A sum of absolute deviations vanishes exactly when every term does. */
  lemma {:induction false} AbsDevSumZeroIff(ys: seq<int>, n: int, s: int)
    ensures AbsDevSum(ys, n, s) == 0 <==> forall i :: 0 <= i < |ys| ==> n * ys[i] == s
  {
    if ys != [] {
      AbsDevSumZeroIff(ys[1..], n, s);
      assert forall i :: 1 <= i < |ys| ==> ys[i] == ys[1..][i - 1];
    }
  }

  /** A sum of squared deviations vanishes exactly when every term does. */
  lemma {:induction false} SqDevSumZeroIff(ys: seq<int>, n: int, s: int)
    ensures SqDevSum(ys, n, s) == 0 <==> forall i :: 0 <= i < |ys| ==> n * ys[i] == s
  {
    if ys != [] {
      SqDevSumZeroIff(ys[1..], n, s);
      assert forall i :: 1 <= i < |ys| ==> ys[i] == ys[1..][i - 1];
      var d := n * ys[0] - s;
      assert SqDevSum(ys, n, s) == Square(d) + SqDevSum(ys[1..], n, s);
      if d != 0 {
        SquarePositive(d);
      }
    }
  }

  lemma SquarePositive(d: int)
    requires d != 0
    ensures d * d > 0
  {
  }

  /** Every value sits at the mean exactly when all values are equal. */
  lemma AtMeanIffAllEqual(xs: seq<int>)
    requires xs != []
    ensures (forall i :: 0 <= i < |xs| ==> |xs| * xs[i] == Sum(xs)) <==> AllEqual(xs)
  {
    var n := |xs|;
    if AllEqual(xs) {
      SumConstant(xs, xs[0]);
    }
    if forall i :: 0 <= i < n ==> n * xs[i] == Sum(xs) {
      forall i, j | 0 <= i < n && 0 <= j < n
        ensures xs[i] == xs[j]
      {
        Cancel(n, xs[i], xs[j]);
      }
    }
  }

  lemma Cancel(n: int, a: int, b: int)
    requires n > 0 && n * a == n * b
    ensures a == b
  {
  }

  /** The mean absolute deviation is zero exactly when all values are equal. */
  lemma MeanAbsDeviationZeroIff(xs: seq<int>)
    requires xs != []
    ensures MeanAbsDeviation(xs) == 0.0 <==> AllEqual(xs)
  {
    var n := |xs|;
    var d := n * n;
    CubePositive(n);
    assert MeanAbsDeviation(xs) == AbsDevSum(xs, n, Sum(xs)) as real / d as real;
    AbsDevSumZeroIff(xs, n, Sum(xs));
    AtMeanIffAllEqual(xs);
    QuotientZeroIff(AbsDevSum(xs, n, Sum(xs)), d);
  }

  /** The variance is zero exactly when all values are equal. */
  lemma VarianceZeroIff(xs: seq<int>)
    requires xs != []
    ensures Variance(xs) == 0.0 <==> AllEqual(xs)
  {
    var n := |xs|;
    var d := n * n * n;
    CubePositive(n);
    assert Variance(xs) == SqDevSum(xs, n, Sum(xs)) as real / d as real;
    SqDevSumZeroIff(xs, n, Sum(xs));
    AtMeanIffAllEqual(xs);
    QuotientZeroIff(SqDevSum(xs, n, Sum(xs)), d);
  }

  // ---------------------------------------------------------------------
  // the same dispersion measures computed directly on reals, as the
  // programs do: `Σ |v - mean| / n` and `Σ (v - mean)^2 / n`

  function AbsReal(x: real): real { if x < 0.0 then -x else x }

  /** The sum of `|y - m|` over `ys`. */
  function AbsDevReal(ys: seq<int>, m: real): real
  {
    if ys == [] then 0.0 else AbsReal(ys[0] as real - m) + AbsDevReal(ys[1..], m)
  }

  function SquareReal(x: real): real { x * x }

  /** The sum of `(y - m)^2` over `ys`. */
  function SqDevReal(ys: seq<int>, m: real): real
  {
    if ys == [] then 0.0 else SquareReal(ys[0] as real - m) + SqDevReal(ys[1..], m)
  }

  /** The mean absolute deviation is the mean of the distances to the mean
    * `m`, the real number with `n * m == Sum(xs)`. */
  lemma MeanAbsDeviationReference(xs: seq<int>, m: real)
    requires xs != [] && |xs| as real * m == Sum(xs) as real
    ensures MeanAbsDeviation(xs) == AbsDevReal(xs, m) / |xs| as real
  {
    var n := |xs|;
    AbsDevScaled(xs, n, Sum(xs), m);
    ProductAsReal(n, n);
    CancelPositive(AbsDevSum(xs, n, Sum(xs)) as real, (n * n) as real, AbsDevReal(xs, m), n as real, n as real);
  }

  /** The variance is the mean of the squared distances to the mean `m`. */
  lemma VarianceReference(xs: seq<int>, m: real)
    requires xs != [] && |xs| as real * m == Sum(xs) as real
    ensures Variance(xs) == SqDevReal(xs, m) / |xs| as real
  {
    var n := |xs|;
    SqDevScaled(xs, n, Sum(xs), m);
    CubePositive(n);
    ProductAsReal(n * n, n);
    CancelPositive(SqDevSum(xs, n, Sum(xs)) as real, (n * n * n) as real, SqDevReal(xs, m), n as real, (n * n) as real);
  }

  /** The mean is the real number `m` with `n * m == Sum(xs)`. */
  lemma MeanTimesCount(xs: seq<int>)
    requires xs != []
    ensures |xs| as real * Mean(xs) == Sum(xs) as real
  {
  }

  /** `k * x`, as a function so that equal arguments give equal products. */
  function Scale(k: real, x: real): real { k * x }

  /** Scaling by `n` turns the real distances into the integer ones. */
  lemma {:induction false} AbsDevScaled(ys: seq<int>, n: int, s: int, m: real)
    requires n > 0 && n as real * m == s as real
    ensures AbsDevSum(ys, n, s) as real == Scale(n as real, AbsDevReal(ys, m))
  {
    if ys != [] {
      AbsDevScaled(ys[1..], n, s, m);
      AbsTermScaled(ys[0], n, s, m);
      ScaledSum(AbsDevSum(ys, n, s), AbsInt(n * ys[0] - s), AbsDevSum(ys[1..], n, s), n as real,
        AbsReal(ys[0] as real - m), AbsDevReal(ys[1..], m), AbsDevReal(ys, m));
    }
  }

  /** Scaling by `n * n` turns the real squares into the integer ones. */
  lemma {:induction false} SqDevScaled(ys: seq<int>, n: int, s: int, m: real)
    requires n > 0 && n as real * m == s as real
    ensures SqDevSum(ys, n, s) as real == Scale((n * n) as real, SqDevReal(ys, m))
  {
    if ys != [] {
      SqDevScaled(ys[1..], n, s, m);
      SqTermScaled(ys[0], n, s, m);
      ScaledSum(SqDevSum(ys, n, s), Square(n * ys[0] - s), SqDevSum(ys[1..], n, s), (n * n) as real,
        SquareReal(ys[0] as real - m), SqDevReal(ys[1..], m), SqDevReal(ys, m));
    }
  }

  /** Two scaled terms add up to the scaled sum. */
  lemma ScaledSum(x: int, a: int, b: int, k: real, t: real, resto: real, total: real)
    requires x == a + b && total == t + resto
    requires a as real == Scale(k, t) && b as real == Scale(k, resto)
    ensures x as real == Scale(k, total)
  {
  }

  lemma AbsTermScaled(y: int, n: int, s: int, m: real)
    requires n > 0 && n as real * m == s as real
    ensures AbsInt(n * y - s) as real == Scale(n as real, AbsReal(y as real - m))
  {
    var d := y as real - m;
    ProductAsReal(n, y);
    assert (n * y - s) as real == n as real * d;
    SignOfProduct(d, n as real);
  }

  lemma SqTermScaled(y: int, n: int, s: int, m: real)
    requires n > 0 && n as real * m == s as real
    ensures Square(n * y - s) as real == Scale((n * n) as real, SquareReal(y as real - m))
  {
    var d := y as real - m;
    ProductAsReal(n, y);
    ProductAsReal(n, n);
    ProductAsReal(n * y - s, n * y - s);
    assert (n * y - s) as real == n as real * d;
  }

  /** A common positive factor cancels: `(c * a) / (c * b) == a / b`. */
  lemma CancelPositive(x: real, y: real, a: real, b: real, c: real)
    requires b > 0.0 && c > 0.0 && x == Scale(c, a) && y == c * b
    ensures x / y == a / b
  {
    var q := a / b;
    assert a == q * b;
    var cb := c * b;
    SignOfProduct(c, b);
    assert c * a == c * (q * b);
    assert c * (q * b) == q * cb;
    DivideExact(c * a, cb, q);
  }

  /** A quotient is determined by the product it reverses. */
  lemma DivideExact(x: real, y: real, q: real)
    requires y > 0.0 && x == q * y
    ensures x / y == q
  {
    var p := x / y;
    assert p * y == x;
    assert (q - p) * y == q * y - p * y;
    SignOfProduct(q - p, y);
  }

  lemma CubePositive(n: int)
    requires n > 0
    ensures n * n > 0 && n * n * n > 0
  {
    assert n * n >= n;
    assert n * n * n >= n * n;
  }

  lemma QuotientZeroIff(q: nat, d: int)
    requires d > 0
    ensures q as real / d as real == 0.0 <==> q == 0
  {
    var r := q as real / d as real;
    assert r * d as real == q as real;
  }

  // ---------------------------------------------------------------------
  // reversal

  /** `s` in the opposite order. */
  function Reverse<T>(s: seq<T>): (r: seq<T>)
    ensures |r| == |s|
    ensures forall i :: 0 <= i < |s| ==> r[i] == s[|s| - 1 - i]
  {
    if s == [] then [] else Reverse(s[1..]) + [s[0]]
  }

  /** Reversal keeps the sum. */
  lemma {:induction false} SumReverse(xs: seq<int>)
    ensures Sum(Reverse(xs)) == Sum(xs)
  {
    if xs != [] {
      SumReverse(xs[1..]);
      SumAppend(Reverse(xs[1..]), [xs[0]]);
    }
  }

  /** The first `k` elements of the reversal are the reversal of the last `k`. */
  lemma {:induction false} ReverseSlices<T>(s: seq<T>, k: nat)
    requires k <= |s|
    ensures Reverse(s)[..k] == Reverse(s[|s| - k..])
    ensures Reverse(s)[|s| - k..] == Reverse(s[..k])
  {
    var r, n := Reverse(s), |s|;
    var tail, head := s[n - k..], s[..k];
    var rt, rh := Reverse(tail), Reverse(head);
    forall i | 0 <= i < k
      ensures r[..k][i] == rt[i]
    {
      assert rt[i] == tail[k - 1 - i] == s[n - 1 - i];
    }
    forall i | 0 <= i < k
      ensures r[n - k..][i] == rh[i]
    {
      assert rh[i] == head[k - 1 - i] == s[k - 1 - i];
      assert r[n - k + i] == s[n - 1 - (n - k + i)];
    }
  }

  // ---------------------------------------------------------------------
  // stable sort by an integer key (Array.prototype.sort with a comparator)

  /** Sorted in non-decreasing order of `key`. */
  ghost predicate SortedBy<T>(s: seq<T>, key: T -> int)
  {
    forall i, j :: 0 <= i < j < |s| ==> key(s[i]) <= key(s[j])
  }

  /** Insert `x` before the first element whose key is not smaller, which
      keeps `x` ahead of the elements with an equal key. */
  function Insert<T>(x: T, s: seq<T>, key: T -> int): (r: seq<T>)
    ensures multiset(r) == multiset(s) + multiset{x}
    ensures |r| == |s| + 1
    ensures forall i :: 0 <= i < |r| ==> r[i] == x || r[i] in s
  {
    if s == [] then [x]
    else if key(x) <= key(s[0]) then [x] + s
    else
      assert s == [s[0]] + s[1..];
      [s[0]] + Insert(x, s[1..], key)
  }

  lemma {:induction false} InsertSorted<T>(x: T, s: seq<T>, key: T -> int)
    requires SortedBy(s, key)
    ensures SortedBy(Insert(x, s, key), key)
  {
    if s != [] && key(x) > key(s[0]) {
      InsertSorted(x, s[1..], key);
      var rest := Insert(x, s[1..], key);
      assert forall j :: 0 <= j < |rest| ==> key(s[0]) <= key(rest[j]);
      assert Insert(x, s, key) == [s[0]] + rest;
    }
  }

  /** A stable insertion sort: `s` ordered by `key`, equal keys in input order. */
  function SortBy<T>(s: seq<T>, key: T -> int): (r: seq<T>)
    ensures |r| == |s|
    ensures multiset(r) == multiset(s)
  {
    if s == [] then []
    else
      assert s == [s[0]] + s[1..];
      Insert(s[0], SortBy(s[1..], key), key)
  }

  /** The sort returns a sorted permutation of its input. */
  lemma {:induction false} SortByCorrect<T>(s: seq<T>, key: T -> int)
    ensures SortedBy(SortBy(s, key), key)
    ensures multiset(SortBy(s, key)) == multiset(s)
  {
    if s != [] {
      SortByCorrect(s[1..], key);
      InsertSorted(s[0], SortBy(s[1..], key), key);
    }
  }

  /** Two sorted permutations of each other are equal when no two distinct
      elements share a key. */
  lemma {:induction false} SortedUnique<T>(a: seq<T>, b: seq<T>, key: T -> int)
    requires SortedBy(a, key) && SortedBy(b, key)
    requires multiset(a) == multiset(b)
    requires forall x, y :: x in a && y in a && key(x) == key(y) ==> x == y
    ensures a == b
  {
    if a != [] {
      SameHead(a, b, key);
      SameTails(a, b, key);
      SortedUnique(a[1..], b[1..], key);
      assert a == [a[0]] + a[1..] && b == [b[0]] + b[1..];
    }
  }

  /** Removing the common head keeps the premises of `SortedUnique`. */
  lemma SameTails<T>(a: seq<T>, b: seq<T>, key: T -> int)
    requires a != [] && b != [] && a[0] == b[0]
    requires SortedBy(a, key) && SortedBy(b, key)
    requires multiset(a) == multiset(b)
    requires forall x, y :: x in a && y in a && key(x) == key(y) ==> x == y
    ensures SortedBy(a[1..], key) && SortedBy(b[1..], key)
    ensures multiset(a[1..]) == multiset(b[1..])
    ensures forall x, y :: x in a[1..] && y in a[1..] && key(x) == key(y) ==> x == y
  {
    TailMultiset(a);
    TailMultiset(b);
    assert forall x :: x in a[1..] ==> x in a;
  }

  /** Sorted permutations without shared keys start with the same element. */
  lemma SameHead<T>(a: seq<T>, b: seq<T>, key: T -> int)
    requires a != []
    requires SortedBy(a, key) && SortedBy(b, key)
    requires multiset(a) == multiset(b)
    requires forall x, y :: x in a && y in a && key(x) == key(y) ==> x == y
    ensures b != [] && a[0] == b[0]
  {
    assert a[0] in multiset(b);
    assert b != [] && b[0] in multiset(a);
    var i :| 0 <= i < |b| && b[i] == a[0];
    var j :| 0 <= j < |a| && a[j] == b[0];
    assert key(a[0]) <= key(a[j]) && key(b[0]) <= key(b[i]);
  }

  lemma TailMultiset<T>(a: seq<T>)
    requires a != []
    ensures multiset(a[1..]) == multiset(a) - multiset{a[0]}
  {
    assert a == [a[0]] + a[1..];
  }

  /** Filtering permutations of each other gives permutations of each other. */
  lemma FilterPermutation<T>(s: seq<T>, t: seq<T>, p: T -> bool)
    requires multiset(s) == multiset(t)
    ensures multiset(Filter(s, p)) == multiset(Filter(t, p))
  {
    FilterKeepsOrder(s, p);
    FilterKeepsOrder(t, p);
  }

  /** Quotients by the same positive divisor subtract as their dividends. */
  lemma QuotientDifference(a: int, b: int, k: int)
    requires k > 0
    ensures a as real / k as real - b as real / k as real == (a - b) as real / k as real
  {
    var p, q := a as real / k as real, b as real / k as real;
    assert p * k as real == a as real;
    assert q * k as real == b as real;
    assert (p - q) * k as real == (a - b) as real;
  }

  /** Comparing a quotient by a positive divisor with a whole number is
      comparing the dividend with a multiple of the divisor. */
  lemma QuotientCompare(x: int, k: int, c: int)
    requires k > 0
    ensures x as real / k as real > c as real <==> x > c * k
    ensures x as real / k as real < c as real <==> x < c * k
  {
    var q := x as real / k as real;
    assert q * k as real == x as real;
    assert (c * k) as real == c as real * k as real;
    assert (q - c as real) * k as real == (x - c * k) as real;
    SignOfProduct(q - c as real, k as real);
  }

  lemma SignOfProduct(a: real, b: real)
    requires b > 0.0
    ensures a > 0.0 <==> a * b > 0.0
    ensures a < 0.0 <==> a * b < 0.0
  {
  }

  /** No element occurs twice. */
  ghost predicate Distinct<T>(s: seq<T>)
  {
    forall i, j :: 0 <= i < j < |s| ==> s[i] != s[j]
  }

  /** Filtering a list without repetitions gives a list without repetitions. */
  lemma {:induction false} FilterDistinct<T>(s: seq<T>, p: T -> bool)
    requires Distinct(s)
    ensures Distinct(Filter(s, p))
  {
    if s != [] {
      var rest := s[1..];
      assert Distinct(rest);
      FilterDistinct(rest, p);
      if p(s[0]) {
        assert s[0] !in rest;
        assert s[0] !in Filter(rest, p);
        var r := Filter(s, p);
        assert r == [s[0]] + Filter(rest, p);
      }
    }
  }

  /** An element that satisfies `p` is counted with others exactly when
      some other position satisfies `p` too. */
  lemma CountOthers<T>(s: seq<T>, p: T -> bool, i: nat)
    requires i < |s| && p(s[i])
    ensures Count(s, p) > 1 <==> exists j :: 0 <= j < |s| && j != i && p(s[j])
  {
    CountAround(s, p, i);
    CountPositiveIff(s[..i], p);
    CountPositiveIff(s[i + 1..], p);
    OthersAround(s, p, i, s[..i], s[i + 1..]);
  }

  /** Counting around a satisfying position. */
  lemma CountAround<T>(s: seq<T>, p: T -> bool, i: nat)
    requires i < |s| && p(s[i])
    ensures Count(s, p) == Count(s[..i], p) + 1 + Count(s[i + 1..], p)
  {
    var a, b := s[..i], s[i + 1..];
    assert s == a + [s[i]] + b;
    FilterAppend(a + [s[i]], b, p);
    FilterAppend(a, [s[i]], p);
    assert Filter([s[i]], p) == [s[i]];
  }

  /** Another satisfying position lies before `i`, in `a`, or after it,
      in `b`. */
  lemma OthersAround<T>(s: seq<T>, p: T -> bool, i: nat, a: seq<T>, b: seq<T>)
    requires i < |s| && a == s[..i] && b == s[i + 1..]
    ensures (exists j :: 0 <= j < |s| && j != i && p(s[j])) <==>
      (exists k :: 0 <= k < |a| && p(a[k])) || (exists k :: 0 <= k < |b| && p(b[k]))
  {
    if exists j :: 0 <= j < |s| && j != i && p(s[j]) {
      var j :| 0 <= j < |s| && j != i && p(s[j]);
      if j < i {
        assert a[j] == s[j];
      } else {
        assert b[j - i - 1] == s[j];
      }
    }
    if exists k :: 0 <= k < |a| && p(a[k]) {
      var k :| 0 <= k < |a| && p(a[k]);
      assert s[k] == a[k];
    }
    if exists k :: 0 <= k < |b| && p(b[k]) {
      var k :| 0 <= k < |b| && p(b[k]);
      assert s[i + 1 + k] == b[k];
    }
  }

}
