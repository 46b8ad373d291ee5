# Crypto indicator engine — a Dafny model

This project models the pure indicator engine of a mobile crypto dashboard
(`analysis.py`). The engine computes a simple moving average, an exponential
moving average, a simple-average RSI, MACD and Bollinger bands from a price
list. On top of those, `analyze_all` makes a rule-based Buy/Sell/Hold
decision and derives a confidence, an entry price, a stop-loss and a
take-profit. Every operation is a deterministic function of a price list
with no state or I/O. It is total on every input `analyze_all` passes, but
`calculate_bollinger` raises `IndexError` on an empty list, and `calculate_sma`
and `calculate_bollinger` divide by zero when `period` is 0. The model is
written as pure functions over reals:

- `series.dfy` (module `Series`): the last price, the trailing window
  `prices[-n:]`, a left-to-right `Sum`, the bound and constancy predicates, and
  small facts about real products.
- `indicators.dfy` (module `Indicators`): `Sma`, `Ema` (a recursive left fold
  `EmaFrom`, plus `EmaLoop`, the loop as written, proved equal to it), `Rsi`
  (the recursive `GainSum`/`LossSum`, plus `RsiLoop`, proved equal to it),
  `MacdOf`, and `Bollinger`.
- `analysis.dfy` (module `Analysis`): `analyze_all` as
  `Decide`, `AnalyzeAll` and the `Report` record.

Python's `prices[-i]` is `s[|s| - i]`. Every `period` must be at least 1.
For the SMA, the RSI and the bands this is what the code needs, since they
divide by `period`. For the EMA it is a restriction of the model (see
"## Left out"). The input dictionary is a `map<string, seq<real>>`. A missing
`"prices"` key reads as the empty list, as `data.get("prices", [])` does.
`math.sqrt` is a parameter `sqrt: real -> real`. It is constrained by the
predicate `IsSqrt`: non-negative results, each squaring back to its argument,
and exactly 0 at 0.

Where the code differs from the usual textbook definitions of these
indicators, the model follows the code:

- The RSI is a plain average of the last 14 gains and losses. It is not
  Wilder-smoothed.
- With at least `period + 1` prices, a series with no fall in the last
  `period` changes gives an RSI of 100, not 50. This includes a flat series.
  With fewer prices the RSI is 50.
- The EMA is seeded with the first price, not with an SMA.
- The MACD signal line is the 9-period EMA of the one-element list
  `[macd]`. That list is shorter than 9, so the EMA returns `macd` itself.
  The signal therefore always equals the line, and the histogram is always 0.
- Short non-empty inputs get fixed fallbacks (the last price, or 50 for the
  RSI) rather than an error. An empty list gives 0 for the SMA and the EMA and
  50 for the RSI, while `calculate_bollinger` raises `IndexError` on it.
- In the RSI loop a change of exactly 0 takes the loss branch and adds
  nothing to the losses.
- The decision uses only the RSI and the bands.
- The stop-loss is `0.99 × entry` for every decision, so for a Sell with a
  positive entry it is below the entry.

## Model

| member | source | states |
|---|---|---|
| Indicators.Sma | analysis.py:8-10 | With fewer than `period` prices the result is the last price, or 0 when there are none. Otherwise `period` times the result is the sum of the last `period` prices, i.e. their mean. |
| Indicators.SmaWithinWindow | analysis.py:8-10 | A full-window SMA lies between any lower and upper bound of the last `period` prices. |
| Indicators.SmaOfConstantWindow | analysis.py:8-10 | When the last `period` prices all equal `c`, the SMA is `c`. |
| Indicators.Multiplier | analysis.py:14 | The smoothing factor `2/(period+1)` lies in (0, 1] for every period of at least 1. |
| Indicators.Ema | analysis.py:12-13 | With fewer than `period` prices the EMA is the last price, or 0 when there are none. |
| Indicators.EmaStepBounded | analysis.py:16 | One smoothing step with a factor in [0, 1] stays inside any interval that holds both the old value and the new price. |
| Indicators.EmaFromBounded | analysis.py:15-17 | Folding the smoothing step over prices that are all in [lo, hi], from a seed in [lo, hi], ends in [lo, hi]. |
| Indicators.EmaFromSnoc | analysis.py:16 | Folding one more price onto the sequence applies exactly one more smoothing step to the previous result. |
| Indicators.EmaWithinSeries | analysis.py:12-17 | The EMA of a non-empty series lies within any bounds of the whole series, in both the short case and the full case. |
| Indicators.EmaOfConstant | analysis.py:12-17 | A non-empty constant series has that constant as its EMA. |
| Indicators.EmaLoop | analysis.py:12-17 | The loop is seeded with `prices[0]` and updates `ema = (p - ema) * k + ema` over the remaining prices. It returns the same value as the recursive `Ema`. |
| Indicators.GainSum | analysis.py:21-24 | The summed gains of the most recent changes are never negative. |
| Indicators.LossSum | analysis.py:21-25 | The summed losses of the most recent changes are never negative. |
| Indicators.LossSumZeroIff | analysis.py:22-25 | The summed losses are 0 exactly when none of the `m` most recent changes is a fall. |
| Indicators.GainSumZeroIff | analysis.py:22-24 | The summed gains are 0 exactly when none of the `m` most recent changes is a rise. |
| Indicators.Rsi | analysis.py:19-30 | With fewer than `period + 1` prices the RSI is exactly 50. In every case the RSI lies in [0, 100]. |
| Indicators.RsiHundredIff | analysis.py:26-30 | With enough prices, the RSI is 100 exactly when no change in the last `period` steps is negative. |
| Indicators.RsiZeroIff | analysis.py:26-30 | With enough prices, the RSI is 0 exactly when no change in the window is a rise and at least one is a fall. |
| Indicators.RsiOfConstant | analysis.py:28 | A flat series with enough prices has an RSI of 100, not 50. |
| Indicators.RsiLoop | analysis.py:19-30 | The accumulating loop over `i = 1..period` returns the same value as the recursive `Rsi`. |
| Indicators.MacdOf | analysis.py:32-37 | The MACD line is the 12-period EMA minus the 26-period EMA. The signal line always equals the MACD line, so the histogram is always 0. This is because `calculate_ema([macd], 9)` takes the short-input branch. |
| Indicators.MacdShortIsZero | analysis.py:32-37 | With fewer than 12 prices, the line, the signal and the histogram are all 0. |
| Indicators.MacdOfConstant | analysis.py:32-35 | A non-empty constant series has a MACD line of 0. |
| Indicators.SquaredDeviations | analysis.py:42 | The sum of squared deviations from the SMA, the numerator of the variance, is never negative. |
| Indicators.SquaredDeviationsOfConstant | analysis.py:42 | A window that is constant at the SMA value has zero squared deviations. |
| Indicators.Bollinger | analysis.py:39-44 | lower ≤ middle ≤ upper, and upper − middle = middle − lower. With fewer than `period` prices all three bands are the last price. Otherwise the middle band is the SMA over `period` prices, and the squared half-width is 4 times the population variance of the window, i.e. the half-width is 2 standard deviations. |
| Indicators.BollingerOfConstantWindow | analysis.py:41-44 | A window that is constant at `c` puts all three bands at `c`. |
| Indicators.BollingerMiddleWithinWindow | analysis.py:41-44 | The middle band lies within any bounds of the window. |
| Analysis.Decide | analysis.py:62-64 | The decision is Buy exactly when rsi < 30 and the price is below the lower band. It is Sell exactly when rsi > 70 and the price is above the upper band. Otherwise it is Hold, so the two conditions never both hold. |
| Analysis.AnalyzeAll | analysis.py:46-73 | The result is empty exactly when there are no prices. Otherwise `sma14`, `ema14` and `rsi` are the 14-period SMA, EMA and RSI of the prices, `macd` is their MACD, and `bands` are the 20-period Bollinger bands. The RSI is in [0, 100], the bands are ordered and the histogram is 0. The decision follows from the record's own RSI, entry and bands. Confidence is 75 for Buy or Sell and 50 for Hold. The entry is the last price and the stop-loss is 0.99 × entry. Take-profit is 1.02 × entry for Buy and 0.98 × entry otherwise. |
| Analysis.TargetsAroundEntry | analysis.py:70-72 | For a positive price, Buy gives stop-loss < entry < take-profit. Sell and Hold give take-profit < stop-loss < entry. |
| Analysis.ShortSeriesHolds | analysis.py:40 | With 1 to 19 prices the bands sit on the price, so the decision is always Hold with confidence 50. |
| Analysis.BuyNeedsFall | analysis.py:28 | A Buy needs at least 20 prices and at least one fall among the last 14 changes. |
| Analysis.AveragesWithinPrices | analysis.py:50-56 | The 14-period SMA, the 14-period EMA and the middle band all lie within any bounds of the price list. |
| Analysis.FlatSeries | analysis.py:46-73 | For a flat list at `c`: the SMA, the EMA and all three bands equal `c`, and the MACD line is 0. The RSI is 100 from 15 prices on and 50 below that. The decision is always Hold. |

## Left out

- Floating-point rounding: every quantity is a mathematical real. No claim is made about bit-exact float results. In particular `0.99 * price` and the division chains of the RSI are exact here.
- `math.sqrt` is a parameter. The model relies only on what `IsSqrt` states: non-negative results, each squaring back to its argument, and exactly 0 at 0.
- `calculate_bollinger` on an empty list raises `IndexError` in the source. `Bollinger` requires a non-empty series instead, because `analyze_all` never calls it with an empty list.
- The dictionary shape of the result and the `**indicators` spreading are left out. The result is the `Report` datatype, with `Empty` for `{}` and `Full` for a filled result. Non-list values under `"prices"` are not modelled.
- Indicators.Ema: requires `period >= 1`. With `period` 0 the source divides by `period + 1` and runs with multiplier 2, or raises `IndexError` on an empty list. Every call in the source uses 9, 12, 14 or 26.
- Data fetching, caching and display around this engine are not part of this model. They are I/O- and UI-bound.
