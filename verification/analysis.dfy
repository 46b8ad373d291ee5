/** The rule-based decision of the indicator engine: `analyze_all` computes
    every indicator over the price list, decides Buy, Sell or Hold from the
    RSI and the Bollinger bands, and derives a confidence and the entry,
    stop-loss and take-profit prices. */
module Analysis {
  import opened Series
  import opened Indicators

  datatype Decision = Buy | Sell | Hold

  /** The result record: `Empty` stands for the empty dictionary returned
      when there are no prices, `Full` for the indicators plus the decision. */
  datatype Report =
    | Empty
    | Full(sma14: real, ema14: real, rsi: real, macd: Macd, bands: Bands,
             decision: Decision, confidence: nat,
             entry: real, stoploss: real, takeProfit: real)

  /** Buy when oversold below the lower band, Sell when overbought above the
      upper band, Hold otherwise. */
  function Decide(rsi: real, price: real, bands: Bands): (d: Decision)
    ensures d == Buy <==> rsi < 30.0 && price < bands.lower
    ensures d == Sell <==> rsi > 70.0 && price > bands.upper
    ensures d == Hold <==> !(rsi < 30.0 && price < bands.lower) && !(rsi > 70.0 && price > bands.upper)
  {
    if rsi < 30.0 && price < bands.lower then Buy
    else if rsi > 70.0 && price > bands.upper then Sell
    else Hold
  }

  function Confidence(d: Decision): nat
  {
    if d != Hold then 75 else 50
  }

  function TakeProfitFactor(d: Decision): real
  {
    if d == Buy then 1.02 else 0.98
  }

  /** `data.get("prices", [])`: a missing key reads as no prices. */
  function PricesOf(data: map<string, seq<real>>): seq<real>
  {
    if "prices" in data then data["prices"] else []
  }

  /** The whole analysis; `sqrt` stands for `math.sqrt`. The ensures tie each
      indicator field to its period (14 for SMA, EMA and RSI, 20 for the bands)
      and state the record's internal consistency: its decision is derivable
      from its own RSI, entry and bands, and its confidence and targets from
      its decision and entry. */
  function AnalyzeAll(data: map<string, seq<real>>, sqrt: real -> real): (r: Report)
    requires IsSqrt(sqrt)
    ensures r.Empty? <==> |PricesOf(data)| == 0
    ensures r.Full? ==> r.sma14 == Sma(PricesOf(data), 14) && r.ema14 == Ema(PricesOf(data), 14)
    ensures r.Full? ==> r.rsi == Rsi(PricesOf(data), 14)
    ensures r.Full? ==> r.macd == MacdOf(PricesOf(data))
    ensures r.Full? ==> r.bands == Bollinger(PricesOf(data), 20, sqrt)
    ensures r.Full? ==> r.entry == Last(PricesOf(data))
    ensures r.Full? ==> 0.0 <= r.rsi <= 100.0
    ensures r.Full? ==> r.bands.lower <= r.bands.middle <= r.bands.upper
    ensures r.Full? ==> r.macd.histogram == 0.0 && r.macd.signal == r.macd.line
    ensures r.Full? ==> (r.decision == Buy <==> r.rsi < 30.0 && r.entry < r.bands.lower)
    ensures r.Full? ==> (r.decision == Sell <==> r.rsi > 70.0 && r.entry > r.bands.upper)
    ensures r.Full? ==> r.confidence == (if r.decision == Hold then 50 else 75)
    ensures r.Full? ==> r.stoploss == 0.99 * r.entry
    ensures r.Full? ==> r.takeProfit == (if r.decision == Buy then 1.02 else 0.98) * r.entry
  {
    var prices := PricesOf(data);
    if |prices| == 0 then Empty
    else
      var rsi := Rsi(prices, 14);
      var bands := Bollinger(prices, 20, sqrt);
      var price := Last(prices);
      var decision := Decide(rsi, price, bands);
      Full(Sma(prices, 14), Ema(prices, 14), rsi, MacdOf(prices), bands,
             decision, Confidence(decision),
             price, price * 0.99, price * TakeProfitFactor(decision))
  }

  /** For a positive price, Buy brackets the entry between stop-loss and
      take-profit; Sell and Hold put both targets below the entry, the
      take-profit lowest. */
  lemma TargetsAroundEntry(data: map<string, seq<real>>, sqrt: real -> real)
    requires IsSqrt(sqrt)
    requires |PricesOf(data)| > 0 && Last(PricesOf(data)) > 0.0
    ensures var r := AnalyzeAll(data, sqrt);
      && (r.decision == Buy ==> r.stoploss < r.entry < r.takeProfit)
      && (r.decision != Buy ==> r.takeProfit < r.stoploss < r.entry)
  {
  }

  /** With fewer than 20 prices the bands sit on the last price, which can
      then be neither below the lower nor above the upper band: always Hold. */
  lemma ShortSeriesHolds(data: map<string, seq<real>>, sqrt: real -> real)
    requires IsSqrt(sqrt)
    requires 0 < |PricesOf(data)| < 20
    ensures AnalyzeAll(data, sqrt).decision == Hold
    ensures AnalyzeAll(data, sqrt).confidence == 50
  {
  }

  /** A Buy needs at least 20 prices and at least one fall among the last
      14 changes (otherwise the RSI is 100). */
  lemma BuyNeedsFall(data: map<string, seq<real>>, sqrt: real -> real)
    requires IsSqrt(sqrt)
    requires |PricesOf(data)| > 0
    requires AnalyzeAll(data, sqrt).decision == Buy
    ensures |PricesOf(data)| >= 20
    ensures !NoFall(PricesOf(data), 14)
  {
    var prices := PricesOf(data);
    if |prices| < 20 {
      ShortSeriesHolds(data, sqrt);
    } else {
      RsiHundredIff(prices, 14);
    }
  }

  /** The moving averages and the middle band stay within any bounds of the
      price series. */
  lemma AveragesWithinPrices(data: map<string, seq<real>>, sqrt: real -> real, lo: real, hi: real)
    requires IsSqrt(sqrt)
    requires |PricesOf(data)| > 0 && InBounds(PricesOf(data), lo, hi)
    ensures var r := AnalyzeAll(data, sqrt);
      && lo <= r.sma14 <= hi
      && lo <= r.ema14 <= hi
      && lo <= r.bands.middle <= hi
  {
    var prices := PricesOf(data);
    EmaWithinSeries(prices, 14, lo, hi);
    if |prices| >= 14 {
      WindowInBounds(prices, 14, lo, hi);
      SmaWithinWindow(prices, 14, lo, hi);
    }
    if |prices| >= 20 {
      WindowInBounds(prices, 20, lo, hi);
      BollingerMiddleWithinWindow(prices, 20, sqrt, lo, hi);
    }
  }

  /** A flat price list at `c` gives averages and bands at `c`, a zero MACD
      line, RSI 100 once there are 15 prices (50 before), and always Hold. */
  lemma FlatSeries(data: map<string, seq<real>>, sqrt: real -> real, c: real)
    requires IsSqrt(sqrt)
    requires |PricesOf(data)| > 0 && Constant(PricesOf(data), c)
    ensures var r := AnalyzeAll(data, sqrt);
      && r.sma14 == c && r.ema14 == c
      && r.bands == Bands(c, c, c)
      && r.macd.line == 0.0
      && r.rsi == (if |PricesOf(data)| >= 15 then 100.0 else 50.0)
      && r.decision == Hold
  {
    var prices := PricesOf(data);
    AveragesWithinPrices(data, sqrt, c, c);
    MacdOfConstant(prices, c);
    if |prices| >= 15 {
      RsiOfConstant(prices, 14, c);
    }
    if |prices| >= 20 {
      assert Constant(Window(prices, 20), c);
      BollingerOfConstantWindow(prices, 20, sqrt, c);
    }
  }
}
