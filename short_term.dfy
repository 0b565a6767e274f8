/** The short-term snapshot: a 55-candle gate over the 1h, 15m and 5m series,
    per-timeframe indicators, and the market data attached afterwards
    (indicators/short_term.go). */
module ShortTerm {
  import opened Wrappers
  import opened BinanceKlines
  import opened BinanceMarket
  import opened OICaches
  import opened IndicatorTypes
  import opened IndicatorsCommon
  import opened MarketMetrics

  /** The fewest candles any series needs before a snapshot is built. */
  const MinCandles := 55

  /** The optional second-stage indicators need this many candles. */
  const SecondStageCandles := 28

  /** One timeframe's indicators from its candle series: none for an empty
      series; prices of the latest candle to two decimals; ADX and VWAP only
      from 28 candles on and only when positive; Stochastic RSI only from 28
      candles on; the reserved slots stay empty. */
  function CalculateTimeframeData(parse: Parser, lib: TaLib, klines: seq<Kline>): (r: Option<TimeframeData>)
    ensures r.None? <==> |klines| == 0
    ensures r.Some? ==>
      var last := klines[|klines| - 1];
      var d := r.value;
      d.closePrice == FormatPrice(ParseOrZero(parse, last.close)) &&
      d.highPrice == FormatPrice(ParseOrZero(parse, last.high)) &&
      d.lowPrice == FormatPrice(ParseOrZero(parse, last.low)) &&
      d.openPrice == FormatPrice(ParseOrZero(parse, last.open)) &&
      d.volume == GetVolume(parse, last) &&
      d.ema9 == CalculateEMA(parse, lib, klines, 9) &&
      d.ema21 == CalculateEMA(parse, lib, klines, 21) &&
      d.ema55 == CalculateEMA(parse, lib, klines, 55) &&
      d.macd == CalculateMACD(parse, lib, klines) &&
      d.rsi == CalculateRSI(parse, lib, klines, 14) &&
      d.bb == CalculateBollingerBands(parse, lib, klines, 20, 2.0) &&
      d.atr == CalculateATR(parse, lib, klines, 14) &&
      (d.adx.Some? <==> |klines| >= SecondStageCandles && CalculateADX(parse, lib, klines, 14) > 0.0) &&
      (d.adx.Some? ==> d.adx.value == CalculateADX(parse, lib, klines, 14)) &&
      (d.vwap.Some? <==> |klines| >= SecondStageCandles && Vwap(parse, klines) > 0.0) &&
      (d.vwap.Some? ==> d.vwap.value == Vwap(parse, klines)) &&
      (d.stochRsi.Some? <==> |klines| >= SecondStageCandles) &&
      (d.stochRsi.Some? ==> d.stochRsi == CalculateStochRSI(parse, lib, klines, 14)) &&
      d.ichimoku.None? && d.cvd.None?
  {
    if |klines| == 0 then None
    else
      var latest := |klines| - 1;
      var closePrice := ParseOrZero(parse, klines[latest].close);
      var highPrice := ParseOrZero(parse, klines[latest].high);
      var lowPrice := ParseOrZero(parse, klines[latest].low);
      var openPrice := ParseOrZero(parse, klines[latest].open);
      var adxValue := CalculateADX(parse, lib, klines, 14);
      var vwapValue := Vwap(parse, klines);
      var secondStage := |klines| >= 28;
      Some(TimeframeData(
        FormatPrice(closePrice), FormatPrice(highPrice), FormatPrice(lowPrice), FormatPrice(openPrice),
        CalculateEMA(parse, lib, klines, 9), CalculateEMA(parse, lib, klines, 21), CalculateEMA(parse, lib, klines, 55),
        CalculateMACD(parse, lib, klines), CalculateRSI(parse, lib, klines, 14),
        CalculateBollingerBands(parse, lib, klines, 20, 2.0), CalculateATR(parse, lib, klines, 14),
        GetVolume(parse, klines[latest]),
        if secondStage && adxValue > 0.0 then Some(adxValue) else None,
        if secondStage && vwapValue > 0.0 then Some(vwapValue) else None,
        if secondStage then CalculateStochRSI(parse, lib, klines, 14) else None,
        None, None))
  }

  /** A series that passes the gate has every guarded indicator computed from
      TA-Lib rather than defaulted. */
  lemma GatedSeriesComputesAll(parse: Parser, lib: TaLib, klines: seq<Kline>)
    requires |klines| >= MinCandles
    ensures var d := CalculateTimeframeData(parse, lib, klines).value;
      var closes := Closes(parse, klines);
      d.ema55 == FormatPrice(lib.ema(closes, 55)) &&
      d.rsi == FormatPercent(lib.rsi(closes, 14)) &&
      d.macd.Some? && d.bb.Some? && d.stochRsi.Some?
  {
  }

  /** The timeframe snapshot of the short-term roles. */
  function ShortTermTimeframesOf(parse: Parser, lib: TaLib, klines1h: seq<Kline>, klines15m: seq<Kline>, klines5m: seq<Kline>)
    : ShortTermTimeframes
  {
    ShortTermTimeframes(
      CalculateTimeframeData(parse, lib, klines1h),
      CalculateTimeframeData(parse, lib, klines15m),
      CalculateTimeframeData(parse, lib, klines5m))
  }

  /** The snapshot exists exactly when every series has 55 candles; each role
      is computed from its own series, and no market data is attached yet. */
  function CalculateShortTermIndicators(parse: Parser, lib: TaLib, symbol: string,
                                        klines1h: seq<Kline>, klines15m: seq<Kline>, klines5m: seq<Kline>, now: int)
    : (r: Option<ShortTermIndicators>)
    ensures r.None? <==> |klines1h| < MinCandles || |klines15m| < MinCandles || |klines5m| < MinCandles
    ensures r.Some? ==>
      r.value.symbol == symbol && r.value.timestamp == now && r.value.marketData.None? &&
      r.value.timeframes.h1 == CalculateTimeframeData(parse, lib, klines1h) &&
      r.value.timeframes.m15 == CalculateTimeframeData(parse, lib, klines15m) &&
      r.value.timeframes.m5 == CalculateTimeframeData(parse, lib, klines5m) &&
      r.value.timeframes.h1.Some? && r.value.timeframes.m15.Some? && r.value.timeframes.m5.Some?
  {
    if |klines1h| < 55 || |klines15m| < 55 || |klines5m| < 55 then None
    else Some(ShortTermIndicators(symbol, now, None, ShortTermTimeframesOf(parse, lib, klines1h, klines15m, klines5m)))
  }

  /** The price the market data is valued at: the 5m role's close. */
  function EntryPrice(base: ShortTermIndicators): real
    requires base.timeframes.m5.Some?
  {
    base.timeframes.m5.value.closePrice
  }

  /** The snapshot with market data, as written: no snapshot without the
      gate; market data attached when it could be computed; otherwise the
      log statement that follows dereferences the missing market data and
      the process panics. */
  function CalculateShortTermIndicatorsWithMarket(
    parse: Parser, lib: TaLib, symbol: string,
    klines1h: seq<Kline>, klines15m: seq<Kline>, klines5m: seq<Kline>, now: int,
    fetches: MarketFetches, oiCache: Option<OICache>)
    : (r: Outcome<Option<ShortTermIndicators>>)
    ensures var base := CalculateShortTermIndicators(parse, lib, symbol, klines1h, klines15m, klines5m, now);
      (base.None? ==> r == Returned(None)) &&
      (base.Some? ==>
        var md := CalculateMarketData(parse, EntryPrice(base.value), fetches, oiCache);
        (r.Panicked? <==> md.None?) &&
        (md.Some? ==> r == Returned(Some(base.value.(marketData := md)))))
  {
    var base := CalculateShortTermIndicators(parse, lib, symbol, klines1h, klines15m, klines5m, now);
    if base.None? then Returned(None)
    else
      var marketData := CalculateMarketData(parse, EntryPrice(base.value), fetches, oiCache);
      if marketData.None? then Panicked("invalid memory address or nil pointer dereference")
      else Returned(Some(base.value.(marketData := marketData)))
  }

  /** The evidently intended behaviour: a snapshot without market data when
      the market queries fail. */
  function CalculateShortTermIndicatorsWithMarketGraceful(
    parse: Parser, lib: TaLib, symbol: string,
    klines1h: seq<Kline>, klines15m: seq<Kline>, klines5m: seq<Kline>, now: int,
    fetches: MarketFetches, oiCache: Option<OICache>)
    : (r: Option<ShortTermIndicators>)
    ensures var base := CalculateShortTermIndicators(parse, lib, symbol, klines1h, klines15m, klines5m, now);
      (r.None? <==> base.None?) &&
      (base.Some? ==> r.value == base.value.(marketData := CalculateMarketData(parse, EntryPrice(base.value), fetches, oiCache)))
  {
    var base := CalculateShortTermIndicators(parse, lib, symbol, klines1h, klines15m, klines5m, now);
    if base.None? then None
    else
      var marketData := CalculateMarketData(parse, EntryPrice(base.value), fetches, oiCache);
      Some(base.value.(marketData := marketData))
  }

  /** Whenever the code as written returns, it returns what the intended
      version does; it differs only by panicking where that one degrades. */
  lemma GracefulAgreesWhenNoPanic(
    parse: Parser, lib: TaLib, symbol: string,
    klines1h: seq<Kline>, klines15m: seq<Kline>, klines5m: seq<Kline>, now: int,
    fetches: MarketFetches, oiCache: Option<OICache>)
    ensures var asWritten := CalculateShortTermIndicatorsWithMarket(parse, lib, symbol, klines1h, klines15m, klines5m, now, fetches, oiCache);
      var graceful := CalculateShortTermIndicatorsWithMarketGraceful(parse, lib, symbol, klines1h, klines15m, klines5m, now, fetches, oiCache);
      (asWritten.Returned? ==> asWritten.value == graceful) &&
      (asWritten.Panicked? ==> graceful.Some? && graceful.value.marketData.None?)
  {
  }

  /** A failed open-interest query with a full set of candles: the code as
      written panics. */
  lemma FailedMarketQueryPanics(parse: Parser, lib: TaLib, k: Kline, premium: Result<PremiumIndex>,
                                history: Result<seq<FundingRate>>, now: int)
    ensures var candles := seq(55, _ => k);
      CalculateShortTermIndicatorsWithMarket(parse, lib, "BTCUSDT", candles, candles, candles, now,
        MarketFetches(Err("获取持仓量失败: timeout"), premium, history), None).Panicked?
  {
  }
}
