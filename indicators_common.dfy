/** The indicator wrappers' length guards, VWAP, and the rounding helpers
    (indicators/common.go). The TA-Lib series computations are opaque
    functions that yield the latest value of each series. */
module IndicatorsCommon {
  import opened Wrappers
  import opened Numeric
  import opened BinanceKlines
  import opened IndicatorTypes

  /** A decimal parser: `strconv.ParseFloat`, `None` on a parse error. */
  type Parser = string -> Option<real>

  /** The latest values TA-Lib produces for each indicator. */
  datatype TaLib = TaLib(
    ema: (seq<real>, int) -> real,
    macd: seq<real> -> (real, real, real),
    rsi: (seq<real>, int) -> real,
    bbands: (seq<real>, int, real) -> (real, real, real),
    atr: (seq<real>, seq<real>, seq<real>, int) -> real,
    adx: (seq<real>, seq<real>, seq<real>, int) -> real,
    stochRsi: (seq<real>, int) -> (real, real))

  /** `v, _ := strconv.ParseFloat(s, 64)`: a parse error leaves 0. */
  function ParseOrZero(parse: Parser, s: string): (v: real)
    ensures parse(s).None? ==> v == 0.0
    ensures parse(s).Some? ==> v == parse(s).value
  {
    parse(s).GetOr(0.0)
  }

  /** Prices and percentages are kept to two decimals. */
  function FormatPrice(value: real): (r: real)
    ensures -0.005 <= r - value <= 0.005
  {
    Round2(value)
  }

  function FormatPercent(value: real): (r: real)
    ensures -0.005 <= r - value <= 0.005
  {
    Round2(value)
  }

  /** MACD values are kept to four decimals. */
  function FormatMACD(value: real): (r: real)
    ensures -0.00005 <= r - value <= 0.00005
  {
    Round4(value)
  }

  /** The two two-decimal formats agree everywhere and are idempotent. */
  lemma FormatsAgree(value: real)
    ensures FormatPrice(value) == FormatPercent(value)
    ensures FormatPrice(FormatPrice(value)) == FormatPrice(value)
  {
    Round2Idempotent(value);
  }

  /** The closing prices of the candles. */
  function Closes(parse: Parser, klines: seq<Kline>): (r: seq<real>)
    ensures |r| == |klines|
    ensures forall i :: 0 <= i < |klines| ==> r[i] == ParseOrZero(parse, klines[i].close)
  {
    seq(|klines|, i requires 0 <= i < |klines| => ParseOrZero(parse, klines[i].close))
  }

  function Highs(parse: Parser, klines: seq<Kline>): (r: seq<real>)
    ensures |r| == |klines|
    ensures forall i :: 0 <= i < |klines| ==> r[i] == ParseOrZero(parse, klines[i].high)
  {
    seq(|klines|, i requires 0 <= i < |klines| => ParseOrZero(parse, klines[i].high))
  }

  function Lows(parse: Parser, klines: seq<Kline>): (r: seq<real>)
    ensures |r| == |klines|
    ensures forall i :: 0 <= i < |klines| ==> r[i] == ParseOrZero(parse, klines[i].low)
  {
    seq(|klines|, i requires 0 <= i < |klines| => ParseOrZero(parse, klines[i].low))
  }

  /** Fills a fresh array with the closing prices. */
  method ExtractCloses(parse: Parser, klines: seq<Kline>) returns (closes: array<real>)
    ensures fresh(closes)
    ensures closes[..] == Closes(parse, klines)
  {
    closes := new real[|klines|];
    for i := 0 to |klines|
      invariant forall j :: 0 <= j < i ==> closes[j] == ParseOrZero(parse, klines[j].close)
    {
      closes[i] := ParseOrZero(parse, klines[i].close);
    }
  }

  /** Fills three fresh arrays with the high, low and closing prices. */
  method ExtractHLC(parse: Parser, klines: seq<Kline>) returns (highs: array<real>, lows: array<real>, closes: array<real>)
    ensures fresh(highs) && fresh(lows) && fresh(closes)
    ensures highs[..] == Highs(parse, klines)
    ensures lows[..] == Lows(parse, klines)
    ensures closes[..] == Closes(parse, klines)
  {
    highs := new real[|klines|];
    lows := new real[|klines|];
    closes := new real[|klines|];
    for i := 0 to |klines|
      invariant forall j :: 0 <= j < i ==> highs[j] == ParseOrZero(parse, klines[j].high)
      invariant forall j :: 0 <= j < i ==> lows[j] == ParseOrZero(parse, klines[j].low)
      invariant forall j :: 0 <= j < i ==> closes[j] == ParseOrZero(parse, klines[j].close)
    {
      highs[i] := ParseOrZero(parse, klines[i].high);
      lows[i] := ParseOrZero(parse, klines[i].low);
      closes[i] := ParseOrZero(parse, klines[i].close);
    }
  }

  /** EMA of the closes, or 0 with fewer than `period` candles. */
  function CalculateEMA(parse: Parser, lib: TaLib, klines: seq<Kline>, period: int): (r: real)
    ensures |klines| < period ==> r == 0.0
    ensures |klines| >= period ==> r == FormatPrice(lib.ema(Closes(parse, klines), period))
  {
    if |klines| < period then 0.0 else FormatPrice(lib.ema(Closes(parse, klines), period))
  }

  /** MACD(12, 26, 9), or none with fewer than 26 candles. */
  function CalculateMACD(parse: Parser, lib: TaLib, klines: seq<Kline>): (r: Option<MACDData>)
    ensures r.None? <==> |klines| < 26
    ensures r.Some? ==> var m := lib.macd(Closes(parse, klines));
      r.value == MACDData(FormatMACD(m.0), FormatMACD(m.1), FormatMACD(m.2))
  {
    if |klines| < 26 then None
    else
      var m := lib.macd(Closes(parse, klines));
      Some(MACDData(FormatMACD(m.0), FormatMACD(m.1), FormatMACD(m.2)))
  }

  /** RSI, or 0 with `period` candles or fewer. */
  function CalculateRSI(parse: Parser, lib: TaLib, klines: seq<Kline>, period: int): (r: real)
    ensures |klines| < period + 1 ==> r == 0.0
    ensures |klines| >= period + 1 ==> r == FormatPercent(lib.rsi(Closes(parse, klines), period))
  {
    if |klines| < period + 1 then 0.0 else FormatPercent(lib.rsi(Closes(parse, klines), period))
  }

  /** Bollinger bands, or none with fewer than `period` candles. */
  function CalculateBollingerBands(parse: Parser, lib: TaLib, klines: seq<Kline>, period: int, stdDev: real)
    : (r: Option<BBData>)
    ensures r.None? <==> |klines| < period
    ensures r.Some? ==> var b := lib.bbands(Closes(parse, klines), period, stdDev);
      r.value == BBData(FormatPrice(b.0), FormatPrice(b.1), FormatPrice(b.2))
  {
    if |klines| < period then None
    else
      var b := lib.bbands(Closes(parse, klines), period, stdDev);
      Some(BBData(FormatPrice(b.0), FormatPrice(b.1), FormatPrice(b.2)))
  }

  /** ATR, or 0 with `period` candles or fewer. */
  function CalculateATR(parse: Parser, lib: TaLib, klines: seq<Kline>, period: int): (r: real)
    ensures |klines| < period + 1 ==> r == 0.0
    ensures |klines| >= period + 1 ==>
      r == FormatPrice(lib.atr(Highs(parse, klines), Lows(parse, klines), Closes(parse, klines), period))
  {
    if |klines| < period + 1 then 0.0
    else FormatPrice(lib.atr(Highs(parse, klines), Lows(parse, klines), Closes(parse, klines), period))
  }

  /** ADX, or 0 with fewer than twice `period` candles. */
  function CalculateADX(parse: Parser, lib: TaLib, klines: seq<Kline>, period: int): (r: real)
    ensures |klines| < period * 2 ==> r == 0.0
    ensures |klines| >= period * 2 ==>
      r == FormatPercent(lib.adx(Highs(parse, klines), Lows(parse, klines), Closes(parse, klines), period))
  {
    if |klines| < period * 2 then 0.0
    else FormatPercent(lib.adx(Highs(parse, klines), Lows(parse, klines), Closes(parse, klines), period))
  }

  /** Stochastic RSI, or none with fewer than twice `period` candles. */
  function CalculateStochRSI(parse: Parser, lib: TaLib, klines: seq<Kline>, period: int): (r: Option<StochRSIData>)
    ensures r.None? <==> |klines| < period * 2
    ensures r.Some? ==> var s := lib.stochRsi(Closes(parse, klines), period);
      r.value == StochRSIData(FormatPercent(s.0), FormatPercent(s.1))
  {
    if |klines| < period * 2 then None
    else
      var s := lib.stochRsi(Closes(parse, klines), period);
      Some(StochRSIData(FormatPercent(s.0), FormatPercent(s.1)))
  }

  /** A candle's typical price, (high + low + close) / 3. */
  function TypicalPrice(parse: Parser, k: Kline): real
  {
    (ParseOrZero(parse, k.high) + ParseOrZero(parse, k.low) + ParseOrZero(parse, k.close)) / 3.0
  }

  function Volume(parse: Parser, k: Kline): real
  {
    ParseOrZero(parse, k.volume)
  }

  /** Sum of typical price times volume. */
  function TotalPV(parse: Parser, klines: seq<Kline>): real
  {
    if |klines| == 0 then 0.0
    else TotalPV(parse, klines[..|klines| - 1])
         + TypicalPrice(parse, klines[|klines| - 1]) * Volume(parse, klines[|klines| - 1])
  }

  /** Sum of volumes. */
  function TotalVolume(parse: Parser, klines: seq<Kline>): real
  {
    if |klines| == 0 then 0.0
    else TotalVolume(parse, klines[..|klines| - 1]) + Volume(parse, klines[|klines| - 1])
  }

  /** The volume-weighted average of typical prices, to two decimals; 0 for no
      candles or no volume. */
  function Vwap(parse: Parser, klines: seq<Kline>): real
  {
    if |klines| == 0 then 0.0
    else if TotalVolume(parse, klines) == 0.0 then 0.0
    else FormatPrice(TotalPV(parse, klines) / TotalVolume(parse, klines))
  }

  /** The VWAP accumulation loop. */
  method CalculateVWAP(parse: Parser, klines: seq<Kline>) returns (r: real)
    ensures r == Vwap(parse, klines)
  {
    if |klines| == 0 {
      return 0.0;
    }
    var totalPV := 0.0;
    var totalVolume := 0.0;
    for i := 0 to |klines|
      invariant totalPV == TotalPV(parse, klines[..i])
      invariant totalVolume == TotalVolume(parse, klines[..i])
    {
      assert klines[..i + 1][..i] == klines[..i];
      var high := ParseOrZero(parse, klines[i].high);
      var low := ParseOrZero(parse, klines[i].low);
      var close := ParseOrZero(parse, klines[i].close);
      var volume := ParseOrZero(parse, klines[i].volume);
      var typicalPrice := (high + low + close) / 3.0;
      totalPV := totalPV + typicalPrice * volume;
      totalVolume := totalVolume + volume;
    }
    assert klines[..|klines|] == klines;
    if totalVolume == 0.0 {
      return 0.0;
    }
    return FormatPrice(totalPV / totalVolume);
  }

  /** With non-negative volumes, the weighted sum lies between the lowest and
      highest typical price times the total volume. */
  lemma {:induction false} TotalPVBounds(parse: Parser, klines: seq<Kline>, lo: real, hi: real)
    requires forall i :: 0 <= i < |klines| ==> Volume(parse, klines[i]) >= 0.0
    requires forall i :: 0 <= i < |klines| ==> lo <= TypicalPrice(parse, klines[i]) <= hi
    ensures lo * TotalVolume(parse, klines) <= TotalPV(parse, klines) <= hi * TotalVolume(parse, klines)
    ensures TotalVolume(parse, klines) >= 0.0
  {
    if |klines| > 0 {
      var init := klines[..|klines| - 1];
      var last := klines[|klines| - 1];
      assert forall i :: 0 <= i < |init| ==> init[i] == klines[i];
      TotalPVBounds(parse, init, lo, hi);
      var v := Volume(parse, last);
      var t := TypicalPrice(parse, last);
      var tv, pv := TotalVolume(parse, init), TotalPV(parse, init);
      assert TotalVolume(parse, klines) == tv + v;
      assert TotalPV(parse, klines) == pv + t * v;
      ScaleWithin(lo, t, hi, v);
      AddWithin(lo, hi, tv, pv, v, t * v);
    }
  }

  /** Adding one weighted term keeps the weighted sum within its bounds. */
  lemma AddWithin(lo: real, hi: real, tv: real, pv: real, v: real, x: real)
    requires lo * tv <= pv <= hi * tv && lo * v <= x <= hi * v
    ensures lo * (tv + v) <= pv + x <= hi * (tv + v)
  {
    assert lo * (tv + v) == lo * tv + lo * v;
    assert hi * (tv + v) == hi * tv + hi * v;
  }

  lemma ScaleWithin(lo: real, t: real, hi: real, v: real)
    requires v >= 0.0 && lo <= t <= hi
    ensures lo * v <= t * v <= hi * v
  {
  }

  lemma DivideWithin(lo: real, pv: real, hi: real, tv: real)
    requires tv > 0.0 && lo * tv <= pv <= hi * tv
    ensures lo <= pv / tv <= hi
  {
  }

  /** With non-negative volumes and some volume, the unrounded VWAP lies
      between the lowest and the highest typical price. */
  lemma VwapWithinTypicalRange(parse: Parser, klines: seq<Kline>, lo: real, hi: real)
    requires forall i :: 0 <= i < |klines| ==> Volume(parse, klines[i]) >= 0.0
    requires forall i :: 0 <= i < |klines| ==> lo <= TypicalPrice(parse, klines[i]) <= hi
    requires TotalVolume(parse, klines) != 0.0
    ensures lo <= TotalPV(parse, klines) / TotalVolume(parse, klines) <= hi
  {
    TotalPVBounds(parse, klines, lo, hi);
    DivideWithin(lo, TotalPV(parse, klines), hi, TotalVolume(parse, klines));
  }

  /** The last candle's volume, to two decimals. */
  function GetVolume(parse: Parser, k: Kline): (r: real)
    ensures -0.005 <= r - Volume(parse, k) <= 0.005
  {
    FormatPrice(ParseOrZero(parse, k.volume))
  }

  /** The last value of a series, or 0 for an empty one. */
  function LatestValue(values: seq<real>): (r: real)
    ensures |values| == 0 ==> r == 0.0
    ensures |values| > 0 ==> r == values[|values| - 1]
  {
    if |values| == 0 then 0.0 else values[|values| - 1]
  }
}
