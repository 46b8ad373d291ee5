/** Price series helpers shared by the indicators: the last price, the
    trailing window of a series, its sum, and the bound and constancy
    predicates the indicator properties are stated with. A price series is a
    chronological `seq<real>`; floating-point rounding is not modelled. */
module Series {

  /** The most recent price, Python's `prices[-1]`. */
  function Last(s: seq<real>): real
    requires |s| > 0
  {
    s[|s| - 1]
  }

  /** `prices[-1] if prices else 0`: the fallback every short-input branch uses. */
  function LastOrZero(s: seq<real>): (r: real)
    ensures |s| == 0 ==> r == 0.0
    ensures |s| > 0 ==> r == s[|s| - 1]
  {
    if |s| > 0 then Last(s) else 0.0
  }

  /** The trailing `n` prices, Python's `prices[-n:]` for `1 <= n <= len(prices)`. */
  function Window(s: seq<real>, n: nat): (w: seq<real>)
    requires n <= |s|
    ensures |w| == n
    ensures forall i :: 0 <= i < n ==> w[i] == s[|s| - n + i]
  {
    s[|s| - n..]
  }

  /** A window of a series inherits every bound of the series. */
  lemma WindowInBounds(s: seq<real>, n: nat, lo: real, hi: real)
    requires n <= |s| && InBounds(s, lo, hi)
    ensures InBounds(Window(s, n), lo, hi)
  {
    var w := Window(s, n);
    forall i | 0 <= i < |w| ensures lo <= w[i] <= hi {
      assert w[i] == s[|s| - n + i];
    }
  }

  /** Left-to-right sum, as Python's `sum`. */
  function Sum(s: seq<real>): real
  {
    if |s| == 0 then 0.0 else Sum(s[..|s| - 1]) + s[|s| - 1]
  }

  /** Every price of `s` lies in `[lo, hi]`. */
  ghost predicate InBounds(s: seq<real>, lo: real, hi: real)
  {
    forall i :: 0 <= i < |s| ==> lo <= s[i] <= hi
  }

  /** Every price of `s` equals `c`. */
  ghost predicate Constant(s: seq<real>, c: real)
  {
    forall i :: 0 <= i < |s| ==> s[i] == c
  }

  // Sign facts about real products, which the solver does not find unaided.

  lemma MulNonneg(a: real, b: real)
    requires a >= 0.0 && b >= 0.0
    ensures a * b >= 0.0
  {
  }

  lemma MulAtMost(a: real, b: real)
    requires a >= 0.0 && 0.0 <= b <= 1.0
    ensures a * b <= a
  {
  }

  lemma MulNegate(a: real, b: real)
    ensures (-a) * b == -(a * b)
  {
  }

  /** `x / n` lies in `[lo, hi]` when `x` lies in `[n * lo, n * hi]`. */
  lemma QuotientBounds(x: real, n: real, lo: real, hi: real)
    requires n > 0.0
    requires n * lo <= x <= n * hi
    ensures lo <= x / n <= hi
  {
  }

  lemma SquareNonneg(x: real)
    ensures x * x >= 0.0
  {
  }

  /** A sum of `n` prices in `[lo, hi]` lies in `[n * lo, n * hi]`. */
  lemma {:induction false} SumBounds(s: seq<real>, lo: real, hi: real)
    requires InBounds(s, lo, hi)
    ensures (|s| as real) * lo <= Sum(s) <= (|s| as real) * hi
    decreases |s|
  {
    if |s| > 0 {
      var init := s[..|s| - 1];
      assert InBounds(init, lo, hi) by {
        forall i | 0 <= i < |init| ensures lo <= init[i] <= hi {
          assert init[i] == s[i];
        }
      }
      SumBounds(init, lo, hi);
      assert (|s| as real) * lo == (|init| as real) * lo + lo;
      assert (|s| as real) * hi == (|init| as real) * hi + hi;
    }
  }

  /** The mean of a non-empty series lies between any lower and upper bound of it. */
  lemma MeanBounds(s: seq<real>, lo: real, hi: real)
    requires |s| > 0
    requires InBounds(s, lo, hi)
    ensures lo <= Sum(s) / (|s| as real) <= hi
  {
    SumBounds(s, lo, hi);
    QuotientBounds(Sum(s), |s| as real, lo, hi);
  }

  /** The mean of a constant series is that constant. */
  lemma MeanOfConstant(s: seq<real>, c: real)
    requires |s| > 0
    requires Constant(s, c)
    ensures Sum(s) / (|s| as real) == c
  {
    MeanBounds(s, c, c);
  }
}
