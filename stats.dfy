/**
 * Reductions over sequences of rainfall magnitudes (modelled as `real`):
 * sums, means, extrema, and the half-to-even decimal rounding used by
 * `round` and `np.round`.
 */
module Stats {

  function Sum(s: seq<real>): real
  {
    if s == [] then 0.0 else s[0] + Sum(s[1..])
  }

  /** Arithmetic mean; pandas never averages an empty group or window here. */
  function Mean(s: seq<real>): real
    requires s != []
  {
    Sum(s) / |s| as real
  }

  function Min(s: seq<real>): (m: real)
    requires s != []
    ensures m in s && forall x :: x in s ==> m <= x
  {
    if |s| == 1 then s[0]
    else
      var rest := Min(s[1..]);
      assert forall x :: x in s ==> x == s[0] || x in s[1..];
      if s[0] <= rest then s[0] else rest
  }

  function Max(s: seq<real>): (m: real)
    requires s != []
    ensures m in s && forall x :: x in s ==> x <= m
  {
    if |s| == 1 then s[0]
    else
      var rest := Max(s[1..]);
      assert forall x :: x in s ==> x == s[0] || x in s[1..];
      if s[0] >= rest then s[0] else rest
  }

  /** No value occurs twice. */
  predicate NoDuplicates<T(==)>(s: seq<T>)
  {
    forall x | x in s :: multiset(s)[x] == 1
  }

  lemma {:induction false} SumAppend(a: seq<real>, b: seq<real>)
    ensures Sum(a + b) == Sum(a) + Sum(b)
  {
    if a == [] {
      assert a + b == b;
    } else {
      assert (a + b)[1..] == a[1..] + b;
      SumAppend(a[1..], b);
    }
  }

  /** Every value lies in [lo, hi], so the sum lies in [|s| * lo, |s| * hi]. */
  lemma {:induction false} SumBounds(s: seq<real>, lo: real, hi: real)
    requires forall x :: x in s ==> lo <= x <= hi
    ensures |s| as real * lo <= Sum(s) <= |s| as real * hi
  {
    if s != [] {
      assert s[0] in s;
      assert forall x :: x in s[1..] ==> x in s;
      SumBounds(s[1..], lo, hi);
      var m := |s[1..]| as real;
      assert |s| as real == m + 1.0;
      Distribute(m, lo);
      assert |s| as real * lo == m * lo + lo;
      Distribute(m, hi);
      assert |s| as real * hi == m * hi + hi;
    }
  }

  lemma Distribute(m: real, x: real)
    ensures (m + 1.0) * x == m * x + x
  {
  }

  lemma QuotientBounds(lo: real, total: real, hi: real, n: real)
    requires n > 0.0 && n * lo <= total <= n * hi
    ensures lo <= total / n <= hi
  {
    assert total / n * n == total;
  }

  /** A mean lies between the smallest and the largest value averaged. */
  lemma MeanBetweenMinMax(s: seq<real>)
    requires s != []
    ensures Min(s) <= Mean(s) <= Max(s)
  {
    SumBounds(s, Min(s), Max(s));
    QuotientBounds(Min(s), Sum(s), Max(s), |s| as real);
  }

  /** The whole number of grid steps nearest to y, ties to the even one. */
  function NearestEven(y: real): (n: int)
    ensures y - 0.5 <= n as real <= y + 0.5
  {
    var f := y.Floor;
    var d := y - f as real;
    if d < 0.5 then f else if d > 0.5 then f + 1 else if f % 2 == 0 then f else f + 1
  }

  /** `round(x, 1)`: nearest multiple of 0.1, ties to the even neighbour, on exact reals. */
  function Round1(x: real): (r: real)
    ensures x - 0.05 <= r <= x + 0.05
  {
    NearestEven(x * 10.0) as real / 10.0
  }

  /** `np.round(x, 2)`: nearest multiple of 0.01, ties to the even neighbour, on exact reals. */
  function Round2(x: real): (r: real)
    ensures x - 0.005 <= r <= x + 0.005
  {
    NearestEven(x * 100.0) as real / 100.0
  }

  lemma NearestEvenGridSide(y: real, K: int)
    ensures y >= K as real ==> NearestEven(y) >= K
    ensures y < K as real - 0.5 ==> NearestEven(y) <= K - 1
  {
  }

  /**
   * Two-decimal rounding never moves a value from a hundredth-grid point g
   * or above to below g, and lifts a value onto g only from within half a
   * hundredth below it.
   */
  lemma {:induction false} Round2GridSide(x: real, K: int)
    ensures x >= K as real / 100.0 ==> Round2(x) >= K as real / 100.0
    ensures x < (K as real - 0.5) / 100.0 ==> Round2(x) < K as real / 100.0
  {
    NearestEvenGridSide(x * 100.0, K);
  }

  lemma NoDuplicatesCons<T>(x: T, xs: seq<T>)
    ensures NoDuplicates([x] + xs) <==> x !in xs && NoDuplicates(xs)
  {
    var s := [x] + xs;
    assert s[1..] == xs;
    if NoDuplicates(s) {
      assert multiset(s)[x] == 1;
      forall y | y in xs
        ensures multiset(xs)[y] == 1
      {
        assert y in s;
      }
    }
    if x !in xs && NoDuplicates(xs) {
      forall y | y in s
        ensures multiset(s)[y] == 1
      {
        if y != x {
          assert y in xs;
        }
      }
    }
  }
}
