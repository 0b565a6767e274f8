/** The long-term snapshot: a 55-candle gate over the 4h, 1h and 15m series,
    and the market data attached afterwards (indicators/long_term.go). The
    per-timeframe computation is shared with the short-term snapshot. */
module LongTerm {
  import opened Wrappers
  import opened BinanceKlines
  import opened BinanceMarket
  import opened OICaches
  import opened IndicatorTypes
  import opened IndicatorsCommon
  import opened MarketMetrics
  import opened ShortTerm

  /** The snapshot exists exactly when every series has 55 candles; each role
      is computed from its own series, and no market data is attached yet. */
  function CalculateLongTermIndicators(parse: Parser, lib: TaLib, symbol: string,
                                       klines4h: seq<Kline>, klines1h: seq<Kline>, klines15m: seq<Kline>, now: int)
    : (r: Option<LongTermIndicators>)
    ensures r.None? <==> |klines4h| < MinCandles || |klines1h| < MinCandles || |klines15m| < MinCandles
    ensures r.Some? ==>
      r.value.symbol == symbol && r.value.timestamp == now && r.value.marketData.None? &&
      r.value.timeframes.h4 == CalculateTimeframeData(parse, lib, klines4h) &&
      r.value.timeframes.h1 == CalculateTimeframeData(parse, lib, klines1h) &&
      r.value.timeframes.m15 == CalculateTimeframeData(parse, lib, klines15m) &&
      r.value.timeframes.h4.Some? && r.value.timeframes.h1.Some? && r.value.timeframes.m15.Some?
  {
    if |klines4h| < 55 || |klines1h| < 55 || |klines15m| < 55 then None
    else Some(LongTermIndicators(symbol, now, None, LongTermTimeframes(
      CalculateTimeframeData(parse, lib, klines4h),
      CalculateTimeframeData(parse, lib, klines1h),
      CalculateTimeframeData(parse, lib, klines15m))))
  }

  /** The price the market data is valued at: the 15m role's close. */
  function LongEntryPrice(base: LongTermIndicators): real
    requires base.timeframes.m15.Some?
  {
    base.timeframes.m15.value.closePrice
  }

  /** The snapshot with market data, as written: no snapshot without the
      gate; market data attached when it could be computed; otherwise the
      following log statement dereferences the missing market data and the
      process panics. */
  function CalculateLongTermIndicatorsWithMarket(
    parse: Parser, lib: TaLib, symbol: string,
    klines4h: seq<Kline>, klines1h: seq<Kline>, klines15m: seq<Kline>, now: int,
    fetches: MarketFetches, oiCache: Option<OICache>)
    : (r: Outcome<Option<LongTermIndicators>>)
    ensures var base := CalculateLongTermIndicators(parse, lib, symbol, klines4h, klines1h, klines15m, now);
      (base.None? ==> r == Returned(None)) &&
      (base.Some? ==>
        var md := CalculateMarketData(parse, LongEntryPrice(base.value), fetches, oiCache);
        (r.Panicked? <==> md.None?) &&
        (md.Some? ==> r == Returned(Some(base.value.(marketData := md)))))
  {
    var base := CalculateLongTermIndicators(parse, lib, symbol, klines4h, klines1h, klines15m, now);
    if base.None? then Returned(None)
    else
      var marketData := CalculateMarketData(parse, LongEntryPrice(base.value), fetches, oiCache);
      if marketData.None? then Panicked("invalid memory address or nil pointer dereference")
      else Returned(Some(base.value.(marketData := marketData)))
  }

  /** The evidently intended behaviour: a snapshot without market data when
      the market queries fail. */
  function CalculateLongTermIndicatorsWithMarketGraceful(
    parse: Parser, lib: TaLib, symbol: string,
    klines4h: seq<Kline>, klines1h: seq<Kline>, klines15m: seq<Kline>, now: int,
    fetches: MarketFetches, oiCache: Option<OICache>)
    : (r: Option<LongTermIndicators>)
    ensures var base := CalculateLongTermIndicators(parse, lib, symbol, klines4h, klines1h, klines15m, now);
      (r.None? <==> base.None?) &&
      (base.Some? ==> r.value == base.value.(marketData := CalculateMarketData(parse, LongEntryPrice(base.value), fetches, oiCache)))
  {
    var base := CalculateLongTermIndicators(parse, lib, symbol, klines4h, klines1h, klines15m, now);
    if base.None? then None
    else Some(base.value.(marketData := CalculateMarketData(parse, LongEntryPrice(base.value), fetches, oiCache)))
  }

  /** Whenever the code as written returns, it returns what the intended
      version does. */
  lemma LongGracefulAgreesWhenNoPanic(
    parse: Parser, lib: TaLib, symbol: string,
    klines4h: seq<Kline>, klines1h: seq<Kline>, klines15m: seq<Kline>, now: int,
    fetches: MarketFetches, oiCache: Option<OICache>)
    ensures var asWritten := CalculateLongTermIndicatorsWithMarket(parse, lib, symbol, klines4h, klines1h, klines15m, now, fetches, oiCache);
      var graceful := CalculateLongTermIndicatorsWithMarketGraceful(parse, lib, symbol, klines4h, klines1h, klines15m, now, fetches, oiCache);
      (asWritten.Returned? ==> asWritten.value == graceful) &&
      (asWritten.Panicked? ==> graceful.Some? && graceful.value.marketData.None?)
  {
  }

  /** A failed premium-index query with a full set of candles and a
      parseable open interest: the code as written panics. */
  lemma LongFailedFundingQueryPanics(lib: TaLib, k: Kline, now: int)
    ensures var candles := seq(55, _ => k);
      var parse: Parser := _ => Some(1.0);
      CalculateLongTermIndicatorsWithMarket(parse, lib, "ETHUSDT", candles, candles, candles, now,
        MarketFetches(Ok(OpenInterest("ETHUSDT", "1000", now)), Err("获取溢价指数失败: timeout"), Ok([])), None).Panicked?
  {
  }
}
