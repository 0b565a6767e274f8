/** The indicator snapshot records (indicators/types.go). An absent pointer
    field is `None`; an absent slice is the empty sequence. */
module IndicatorTypes {
  import opened Wrappers

  datatype MACDData = MACDData(dif: real, dea: real, histogram: real)

  datatype BBData = BBData(upper: real, middle: real, lower: real)

  datatype StochRSIData = StochRSIData(k: real, d: real)

  datatype IchimokuData = IchimokuData(
    tenkanSen: real, kijunSen: real, senkouSpanA: real, senkouSpanB: real, chikouSpan: real)

  /** One timeframe's indicators; the Ichimoku and CVD slots are reserved and
      never filled. */
  datatype TimeframeData = TimeframeData(
    closePrice: real, highPrice: real, lowPrice: real, openPrice: real,
    ema9: real, ema21: real, ema55: real,
    macd: Option<MACDData>, rsi: real,
    bb: Option<BBData>, atr: real,
    volume: real,
    adx: Option<real>, vwap: Option<real>, stochRsi: Option<StochRSIData>,
    ichimoku: Option<IchimokuData>, cvd: Option<real>)

  /** Open interest (millions of USD), its recent history and change rates,
      and funding rates (percent). */
  datatype MarketData = MarketData(
    oiCurrent: real,
    oiHistory: seq<real>,
    oiChange5m: Option<real>, oiChange15m: Option<real>, oiChange25m: Option<real>,
    oiChange45m: Option<real>, oiChange75m: Option<real>,
    fundingRate: real, fundingAvg3: real)

  /** The short-term roles: 1h direction filter, 15m main analysis, 5m entry. */
  datatype ShortTermTimeframes = ShortTermTimeframes(
    h1: Option<TimeframeData>, m15: Option<TimeframeData>, m5: Option<TimeframeData>)

  /** The long-term roles: 4h trend, 1h main analysis, 15m entry. */
  datatype LongTermTimeframes = LongTermTimeframes(
    h4: Option<TimeframeData>, h1: Option<TimeframeData>, m15: Option<TimeframeData>)

  datatype ShortTermIndicators = ShortTermIndicators(
    symbol: string, timestamp: int, marketData: Option<MarketData>, timeframes: ShortTermTimeframes)

  datatype LongTermIndicators = LongTermIndicators(
    symbol: string, timestamp: int, marketData: Option<MarketData>, timeframes: LongTermTimeframes)
}
