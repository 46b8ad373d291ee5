/** The technical indicators of the mobile indicator engine: simple and
    exponential moving averages, a simple-average RSI, MACD and Bollinger
    bands, each a pure function of a chronological price series. */
module Indicators {
  import opened Series

  // Simple moving average

  /** Mean of the last `period` prices; the last price (or 0 for no prices)
      when the series is shorter than `period`. */
  function Sma(s: seq<real>, period: nat): (r: real)
    requires period >= 1
    ensures |s| < period ==> r == LastOrZero(s)
    ensures |s| >= period ==> r * (period as real) == Sum(Window(s, period))
  {
    if |s| < period then LastOrZero(s)
    else Sum(Window(s, period)) / (period as real)
  }

  /** A full-window SMA lies between any bounds of its window, and a constant
      window yields that constant. */
  lemma SmaWithinWindow(s: seq<real>, period: nat, lo: real, hi: real)
    requires period >= 1 && |s| >= period
    requires InBounds(Window(s, period), lo, hi)
    ensures lo <= Sma(s, period) <= hi
  {
    MeanBounds(Window(s, period), lo, hi);
  }

  lemma SmaOfConstantWindow(s: seq<real>, period: nat, c: real)
    requires period >= 1 && |s| >= period
    requires Constant(Window(s, period), c)
    ensures Sma(s, period) == c
  {
    MeanOfConstant(Window(s, period), c);
  }

  // Exponential moving average

  /** The smoothing factor `2 / (period + 1)`. */
  function Multiplier(period: nat): (k: real)
    requires period >= 1
    ensures 0.0 < k <= 1.0
  {
    2.0 / (period as real + 1.0)
  }

  /** One smoothing step: move `ema` towards `p` by the fraction `k`. */
  function EmaStep(ema: real, p: real, k: real): real
  {
    (p - ema) * k + ema
  }

  /** Folds `EmaStep` over `ps` from left to right, starting at `ema`. */
  function EmaFrom(ema: real, ps: seq<real>, k: real): real
    decreases |ps|
  {
    if |ps| == 0 then ema else EmaFrom(EmaStep(ema, ps[0], k), ps[1..], k)
  }

  /** EMA over the whole series seeded with the first price; the last price
      (or 0 for no prices) when the series is shorter than `period`. */
  function Ema(s: seq<real>, period: nat): (r: real)
    requires period >= 1
    ensures |s| < period ==> r == LastOrZero(s)
  {
    if |s| < period then LastOrZero(s)
    else EmaFrom(s[0], s[1..], Multiplier(period))
  }

  /** A step with `k` in `[0, 1]` lands between the old value and the new price. */
  lemma EmaStepUp(ema: real, p: real, k: real)
    requires 0.0 <= k <= 1.0 && ema <= p
    ensures ema <= EmaStep(ema, p, k) <= p
  {
    MulNonneg(p - ema, k);
    MulAtMost(p - ema, k);
  }

  lemma EmaStepDown(ema: real, p: real, k: real)
    requires 0.0 <= k <= 1.0 && p < ema
    ensures p <= EmaStep(ema, p, k) <= ema
  {
    var d := ema - p;
    MulNonneg(d, k);
    MulAtMost(d, k);
    MulNegate(d, k);
    assert -d == p - ema;
  }

  lemma EmaStepBounded(ema: real, p: real, k: real, lo: real, hi: real)
    requires 0.0 <= k <= 1.0
    requires lo <= ema <= hi && lo <= p <= hi
    ensures lo <= EmaStep(ema, p, k) <= hi
  {
    if ema <= p {
      EmaStepUp(ema, p, k);
    } else {
      EmaStepDown(ema, p, k);
    }
  }

  lemma {:induction false} EmaFromBounded(ema: real, ps: seq<real>, k: real, lo: real, hi: real)
    requires 0.0 <= k <= 1.0
    requires lo <= ema <= hi && InBounds(ps, lo, hi)
    ensures lo <= EmaFrom(ema, ps, k) <= hi
    decreases |ps|
  {
    if |ps| > 0 {
      EmaStepBounded(ema, ps[0], k, lo, hi);
      assert InBounds(ps[1..], lo, hi) by {
        forall i | 0 <= i < |ps[1..]| ensures lo <= ps[1..][i] <= hi {
          assert ps[1..][i] == ps[i + 1];
        }
      }
      EmaFromBounded(EmaStep(ema, ps[0], k), ps[1..], k, lo, hi);
    }
  }

  /** Folding one more price is one more step: the loop body of the source. */
  lemma {:induction false} EmaFromSnoc(ema: real, ps: seq<real>, p: real, k: real)
    ensures EmaFrom(ema, ps + [p], k) == EmaStep(EmaFrom(ema, ps, k), p, k)
    decreases |ps|
  {
    if |ps| == 0 {
      assert ([] + [p])[1..] == [];
    } else {
      assert (ps + [p])[0] == ps[0];
      assert (ps + [p])[1..] == ps[1..] + [p];
      EmaFromSnoc(EmaStep(ema, ps[0], k), ps[1..], p, k);
    }
  }

  /** The EMA of a non-empty series lies between any bounds of the series. */
  lemma EmaWithinSeries(s: seq<real>, period: nat, lo: real, hi: real)
    requires period >= 1 && |s| > 0
    requires InBounds(s, lo, hi)
    ensures lo <= Ema(s, period) <= hi
  {
    if |s| >= period {
      assert InBounds(s[1..], lo, hi) by {
        forall i | 0 <= i < |s[1..]| ensures lo <= s[1..][i] <= hi {
          assert s[1..][i] == s[i + 1];
        }
      }
      EmaFromBounded(s[0], s[1..], Multiplier(period), lo, hi);
    }
  }

  /** The EMA of a non-empty constant series is that constant. */
  lemma EmaOfConstant(s: seq<real>, period: nat, c: real)
    requires period >= 1 && |s| > 0
    requires Constant(s, c)
    ensures Ema(s, period) == c
  {
    EmaWithinSeries(s, period, c, c);
  }

  /** The source's loop: seed with the first price, then smooth towards
      each later price in turn; it computes `Ema`. */
  method EmaLoop(s: seq<real>, period: nat) returns (ema: real)
    requires period >= 1
    ensures ema == Ema(s, period)
  {
    if |s| < period {
      return LastOrZero(s);
    }
    var k := 2.0 / (period as real + 1.0);
    ema := s[0];
    var j := 1;
    while j < |s|
      invariant 1 <= j <= |s|
      invariant ema == EmaFrom(s[0], s[1..j], k)
    {
      EmaFromSnoc(s[0], s[1..j], s[j], k);
      assert s[1..j + 1] == s[1..j] + [s[j]];
      ema := (s[j] - ema) * k + ema;
      j := j + 1;
    }
    assert s[1..j] == s[1..];
  }

  // Relative strength index (simple averages, not Wilder-smoothed)

  /** The `i`-th most recent price change, `prices[-i] - prices[-i-1]`. */
  function Change(s: seq<real>, i: nat): real
    requires 1 <= i < |s|
  {
    s[|s| - i] - s[|s| - i - 1]
  }

  /** Sum of the rises among the `m` most recent changes. */
  function GainSum(s: seq<real>, m: nat): (g: real)
    requires m < |s|
    ensures g >= 0.0
  {
    if m == 0 then 0.0
    else GainSum(s, m - 1) + (if Change(s, m) > 0.0 then Change(s, m) else 0.0)
  }

  /** Sum of the falls (as positive amounts) among the `m` most recent changes;
      a zero change lands on this side, adding nothing. */
  function LossSum(s: seq<real>, m: nat): (l: real)
    requires m < |s|
    ensures l >= 0.0
  {
    if m == 0 then 0.0
    else LossSum(s, m - 1) - (if Change(s, m) > 0.0 then 0.0 else Change(s, m))
  }

  /** None of the `m` most recent changes is a fall. */
  ghost predicate NoFall(s: seq<real>, m: nat)
    requires m < |s|
  {
    forall i :: 1 <= i <= m ==> Change(s, i) >= 0.0
  }

  /** None of the `m` most recent changes is a rise. */
  ghost predicate NoRise(s: seq<real>, m: nat)
    requires m < |s|
  {
    forall i :: 1 <= i <= m ==> Change(s, i) <= 0.0
  }

  lemma {:induction false} LossSumZeroIff(s: seq<real>, m: nat)
    requires m < |s|
    ensures LossSum(s, m) == 0.0 <==> NoFall(s, m)
  {
    if m > 0 {
      LossSumZeroIff(s, m - 1);
    }
  }

  lemma {:induction false} GainSumZeroIff(s: seq<real>, m: nat)
    requires m < |s|
    ensures GainSum(s, m) == 0.0 <==> NoRise(s, m)
  {
    if m > 0 {
      GainSumZeroIff(s, m - 1);
    }
  }

  /** RSI from the averages of the last `period` gains and losses: 50 for too
      few prices, 100 when there is no loss, `100 - 100 / (1 + rs)` otherwise. */
  function Rsi(s: seq<real>, period: nat): (r: real)
    requires period >= 1
    ensures |s| < period + 1 ==> r == 50.0
    ensures 0.0 <= r <= 100.0
  {
    if |s| < period + 1 then 50.0
    else
      var avgGain := GainSum(s, period) / (period as real);
      var avgLoss := LossSum(s, period) / (period as real);
      if avgLoss == 0.0 then 100.0
      else
        var rs := avgGain / avgLoss;
        assert rs >= 0.0;
        assert 0.0 < 100.0 / (1.0 + rs) <= 100.0;
        100.0 - 100.0 / (1.0 + rs)
  }

  /** With enough prices, RSI is exactly 100 iff no change in the window is a fall. */
  lemma RsiHundredIff(s: seq<real>, period: nat)
    requires period >= 1 && |s| >= period + 1
    ensures Rsi(s, period) == 100.0 <==> NoFall(s, period)
  {
    LossSumZeroIff(s, period);
    var g := GainSum(s, period) / (period as real);
    var l := LossSum(s, period) / (period as real);
    if l != 0.0 {
      var rs := g / l;
      assert rs >= 0.0;
      assert 100.0 / (1.0 + rs) > 0.0;
    } else {
      assert LossSum(s, period) == l * (period as real);
    }
  }

  /** With enough prices, RSI is exactly 0 iff no change in the window is a
      rise and at least one is a fall. */
  lemma RsiZeroIff(s: seq<real>, period: nat)
    requires period >= 1 && |s| >= period + 1
    ensures Rsi(s, period) == 0.0 <==> NoRise(s, period) && !NoFall(s, period)
  {
    LossSumZeroIff(s, period);
    GainSumZeroIff(s, period);
    var p := period as real;
    var g := GainSum(s, period) / p;
    var l := LossSum(s, period) / p;
    assert LossSum(s, period) == l * p;
    assert GainSum(s, period) == g * p;
    if l != 0.0 {
      var rs := g / l;
      assert rs * l == g;
      assert 100.0 / (1.0 + rs) * (1.0 + rs) == 100.0;
    }
  }

  /** A series that never falls over the window, in particular a flat one,
      has RSI 100, not the neutral 50. */
  lemma RsiOfConstant(s: seq<real>, period: nat, c: real)
    requires period >= 1 && |s| >= period + 1
    requires Constant(s, c)
    ensures Rsi(s, period) == 100.0
  {
    assert NoFall(s, period) by {
      forall i | 1 <= i <= period ensures Change(s, i) >= 0.0 {
        assert s[|s| - i] == c && s[|s| - i - 1] == c;
      }
    }
    RsiHundredIff(s, period);
  }

  /** The source's loop over `i = 1 .. period`, accumulating gains and losses. */
  method RsiLoop(s: seq<real>, period: nat) returns (rsi: real)
    requires period >= 1
    ensures rsi == Rsi(s, period)
  {
    if |s| < period + 1 {
      return 50.0;
    }
    var gains, losses := 0.0, 0.0;
    var i := 1;
    while i <= period
      invariant 1 <= i <= period + 1
      invariant gains == GainSum(s, i - 1) && losses == LossSum(s, i - 1)
    {
      var change := s[|s| - i] - s[|s| - i - 1];
      if change > 0.0 {
        gains := gains + change;
      } else {
        losses := losses - change;
      }
      i := i + 1;
    }
    var avgGain := gains / (period as real);
    var avgLoss := losses / (period as real);
    if avgLoss == 0.0 {
      return 100.0;
    }
    var rs := avgGain / avgLoss;
    rsi := 100.0 - 100.0 / (1.0 + rs);
  }

  // MACD

  datatype Macd = Macd(line: real, signal: real, histogram: real)

  /** MACD line = 12-period EMA minus 26-period EMA. The signal line is the
      9-period EMA of the one-element list `[line]`, which is shorter than 9 and
      so returns `line` itself: the signal equals the line and the histogram is 0. */
  function MacdOf(s: seq<real>): (m: Macd)
    ensures m.line == Ema(s, 12) - Ema(s, 26)
    ensures m.signal == m.line
    ensures m.histogram == 0.0
  {
    var line := Ema(s, 12) - Ema(s, 26);
    var signal := Ema([line], 9);
    Macd(line, signal, line - signal)
  }

  /** With fewer than 12 prices both EMAs fall back to the last price. */
  lemma MacdShortIsZero(s: seq<real>)
    requires |s| < 12
    ensures MacdOf(s) == Macd(0.0, 0.0, 0.0)
  {
  }

  /** A non-empty constant series has a zero MACD line. */
  lemma MacdOfConstant(s: seq<real>, c: real)
    requires |s| > 0 && Constant(s, c)
    ensures MacdOf(s).line == 0.0
  {
    EmaOfConstant(s, 12, c);
    EmaOfConstant(s, 26, c);
  }

  // Bollinger bands

  datatype Bands = Bands(upper: real, middle: real, lower: real)

  /** `sqrt` behaves as the square root on the non-negative reals: its result
      is non-negative, squares back to the argument, and is exactly 0 at 0.
      It stands for `math.sqrt`, which the model takes as a parameter. */
  ghost predicate IsSqrt(sqrt: real -> real)
  {
    && (forall x :: 0.0 <= x ==> 0.0 <= sqrt(x) && sqrt(x) * sqrt(x) == x)
    && sqrt(0.0) == 0.0
  }

  /** Sum of squared deviations of `w` from `m`. */
  function SquaredDeviations(w: seq<real>, m: real): (d: real)
    ensures d >= 0.0
  {
    if |w| == 0 then 0.0
    else
      var dev := w[|w| - 1] - m;
      SquareNonneg(dev);
      SquaredDeviations(w[..|w| - 1], m) + dev * dev
  }

  lemma {:induction false} SquaredDeviationsOfConstant(w: seq<real>, c: real)
    requires Constant(w, c)
    ensures SquaredDeviations(w, c) == 0.0
    decreases |w|
  {
    if |w| > 0 {
      var init := w[..|w| - 1];
      assert Constant(init, c) by {
        forall i | 0 <= i < |init| ensures init[i] == c {
          assert init[i] == w[i];
        }
      }
      SquaredDeviationsOfConstant(init, c);
    }
  }

  /** Bands at the SMA plus and minus two population standard deviations of
      the last `period` prices; all three at the last price when the series is
      shorter than `period`. */
  function Bollinger(s: seq<real>, period: nat, sqrt: real -> real): (b: Bands)
    requires |s| > 0 && period >= 1
    requires IsSqrt(sqrt)
    ensures b.lower <= b.middle <= b.upper
    ensures b.upper - b.middle == b.middle - b.lower
    ensures |s| < period ==> b == Bands(Last(s), Last(s), Last(s))
    ensures |s| >= period ==> b.middle == Sma(s, period)
    ensures |s| >= period ==>
      var halfWidth := b.upper - b.middle;
      halfWidth * halfWidth == 4.0 * (SquaredDeviations(Window(s, period), b.middle) / (period as real))
  {
    if |s| < period then Bands(Last(s), Last(s), Last(s))
    else
      var sma := Sma(s, period);
      var variance := SquaredDeviations(Window(s, period), sma) / (period as real);
      assert variance >= 0.0;
      var std := sqrt(variance);
      assert std * std == variance;
      assert (2.0 * std) * (2.0 * std) == 4.0 * (std * std);
      Bands(sma + 2.0 * std, sma, sma - 2.0 * std)
  }

  /** A constant window collapses all three bands onto that constant. */
  lemma BollingerOfConstantWindow(s: seq<real>, period: nat, sqrt: real -> real, c: real)
    requires |s| >= period >= 1
    requires IsSqrt(sqrt)
    requires Constant(Window(s, period), c)
    ensures Bollinger(s, period, sqrt) == Bands(c, c, c)
  {
    SmaOfConstantWindow(s, period, c);
    SquaredDeviationsOfConstant(Window(s, period), c);
    assert SquaredDeviations(Window(s, period), c) / (period as real) == 0.0;
  }

  /** The middle band lies between any bounds of the window. */
  lemma BollingerMiddleWithinWindow(s: seq<real>, period: nat, sqrt: real -> real, lo: real, hi: real)
    requires |s| >= period >= 1
    requires IsSqrt(sqrt)
    requires InBounds(Window(s, period), lo, hi)
    ensures lo <= Bollinger(s, period, sqrt).middle <= hi
  {
    SmaWithinWindow(s, period, lo, hi);
  }
}
