/** Open-interest and funding metrics, the market snapshot with its change
    rates, and the two threshold classifiers (indicators/market.go). The
    exchange replies the snapshot depends on are inputs. */
module MarketMetrics {
  import opened Wrappers
  import opened Numeric
  import opened BinanceMarket
  import opened OICaches
  import opened IndicatorTypes
  import opened IndicatorsCommon

  /** What the three market queries returned for one symbol. */
  datatype MarketFetches = MarketFetches(
    openInterest: Result<OpenInterest>,
    premiumIndex: Result<PremiumIndex>,
    fundingHistory: Result<seq<FundingRate>>)

  datatype FundingMetrics = FundingMetrics(current: real, avg3: real)

  /** Percentage change against `previous`, to two decimals; 0 against a zero
      baseline. */
  function ChangeRate(current: real, previous: real): (r: real)
    ensures previous == 0.0 ==> r == 0.0
  {
    if previous == 0.0 then 0.0 else FormatPercent(((current - previous) / previous) * 100.0)
  }

  /** The indicator package's change rate is the client package's unrounded
      change, rounded to two decimals. */
  lemma ChangeRateRoundsOIChange(current: real, previous: real)
    ensures ChangeRate(current, previous) == (if previous == 0.0 then 0.0 else Round2(CalculateOIChange(current, previous)))
  {
  }

  /** Against a positive baseline a positive rate means growth and a negative
      one a fall; an unchanged value has rate 0. */
  lemma ChangeRateSign(current: real, previous: real)
    requires previous > 0.0
    ensures ChangeRate(current, previous) > 0.0 ==> current > previous
    ensures ChangeRate(current, previous) < 0.0 ==> current < previous
    ensures ChangeRate(previous, previous) == 0.0
  {
    var x := ((current - previous) / previous) * 100.0;
    OIChangeSign(current, previous);
    assert CalculateOIChange(current, previous) == x;
    if current <= previous {
      Round2Monotone(x, 0.0);
      RoundOfInteger(0);
    }
    if current >= previous {
      Round2Monotone(0.0, x);
      RoundOfInteger(0);
    }
    RoundOfInteger(0);
  }

  /** The open interest's USD value to two decimals, or none when the query
      failed or its amount does not parse. */
  function CalculateOIMetrics(parse: Parser, openInterest: Result<OpenInterest>, currentPrice: real): (r: Option<real>)
    ensures r.Some? <==> openInterest.Ok? && parse(openInterest.value.openInterest).Some?
    ensures r.Some? ==> r.value == FormatPrice(parse(openInterest.value.openInterest).value * currentPrice)
  {
    if openInterest.Err? || parse(openInterest.value.openInterest).None? then None
    else Some(FormatPrice(parse(openInterest.value.openInterest).value * currentPrice))
  }

  /** The rates that parse, in order. */
  function ParsedRates(parse: Parser, rates: seq<FundingRate>): (r: seq<real>)
    ensures |r| <= |rates|
  {
    if |rates| == 0 then []
    else
      var last := rates[|rates| - 1];
      ParsedRates(parse, rates[..|rates| - 1]) + (if parse(last.fundingRate).Some? then [parse(last.fundingRate).value] else [])
  }

  function Sum(xs: seq<real>): real
  {
    if |xs| == 0 then 0.0 else Sum(xs[..|xs| - 1]) + xs[|xs| - 1]
  }

  /** The arithmetic mean, 0 for no values. */
  function Mean(xs: seq<real>): real
  {
    if |xs| == 0 then 0.0 else Sum(xs) / (|xs| as real)
  }

  /** The averaging loop: unparseable rates are skipped. */
  method AverageParsed(parse: Parser, fundingRates: seq<FundingRate>) returns (avg3: real)
    ensures avg3 == Mean(ParsedRates(parse, fundingRates))
  {
    var sum := 0.0;
    var count := 0;
    ghost var parsed: seq<real> := [];
    for i := 0 to |fundingRates|
      invariant parsed == ParsedRates(parse, fundingRates[..i])
      invariant sum == Sum(parsed) && count == |parsed|
    {
      assert fundingRates[..i + 1][..i] == fundingRates[..i];
      var rate := parse(fundingRates[i].fundingRate);
      if rate.Some? {
        assert (parsed + [rate.value])[..|parsed|] == parsed;
        parsed := parsed + [rate.value];
        sum := sum + rate.value;
        count := count + 1;
      }
    }
    assert fundingRates[..|fundingRates|] == fundingRates;
    avg3 := 0.0;
    if count > 0 {
      avg3 := sum / (count as real);
    }
  }

  /** Every value bounded by `lo` and `hi` bounds the sum by the count. */
  lemma {:induction false} SumBounds(xs: seq<real>, lo: real, hi: real)
    requires forall i :: 0 <= i < |xs| ==> lo <= xs[i] <= hi
    ensures (|xs| as real) * lo <= Sum(xs) <= (|xs| as real) * hi
  {
    if |xs| > 0 {
      SumBounds(xs[..|xs| - 1], lo, hi);
      assert ((|xs| - 1) as real) * lo + lo == (|xs| as real) * lo;
      assert ((|xs| - 1) as real) * hi + hi == (|xs| as real) * hi;
    }
  }

  /** The mean of values within [lo, hi] lies within [lo, hi]. */
  lemma MeanWithin(xs: seq<real>, lo: real, hi: real)
    requires |xs| > 0
    requires forall i :: 0 <= i < |xs| ==> lo <= xs[i] <= hi
    ensures lo <= Mean(xs) <= hi
  {
    SumBounds(xs, lo, hi);
    DivideWithin(lo, Sum(xs), hi, |xs| as real);
  }

  /** The parsed rates are exactly the rates that parse. */
  lemma {:induction false} ParsedRatesMembers(parse: Parser, rates: seq<FundingRate>, x: real)
    ensures x in ParsedRates(parse, rates) <==> exists i :: 0 <= i < |rates| && parse(rates[i].fundingRate) == Some(x)
  {
    if |rates| > 0 {
      var init := rates[..|rates| - 1];
      ParsedRatesMembers(parse, init, x);
      if exists i :: 0 <= i < |rates| && parse(rates[i].fundingRate) == Some(x) {
        var i :| 0 <= i < |rates| && parse(rates[i].fundingRate) == Some(x);
        if i < |rates| - 1 {
          assert init[i] == rates[i];
        }
      }
      if exists i :: 0 <= i < |init| && parse(init[i].fundingRate) == Some(x) {
        var i :| 0 <= i < |init| && parse(init[i].fundingRate) == Some(x);
        assert rates[i] == init[i];
      }
    }
  }

  /** Funding metrics from the premium index and the last three rates: none
      when the premium query failed or its rate does not parse; a failed
      history query leaves the average 0. Rates are shown in percent. */
  function FundingMetricsOf(parse: Parser, premiumIndex: Result<PremiumIndex>, fundingHistory: Result<seq<FundingRate>>)
    : (r: Option<FundingMetrics>)
    ensures r.Some? <==> premiumIndex.Ok? && parse(premiumIndex.value.lastFundingRate).Some?
    ensures r.Some? ==> r.value.current == FormatPercent(parse(premiumIndex.value.lastFundingRate).value * 100.0)
    ensures r.Some? && fundingHistory.Err? ==> r.value.avg3 == 0.0
    ensures r.Some? && fundingHistory.Ok? ==>
      r.value.avg3 == FormatPercent(Mean(ParsedRates(parse, fundingHistory.value)) * 100.0)
  {
    if premiumIndex.Err? then None
    else
      match parse(premiumIndex.value.lastFundingRate)
      case None => None
      case Some(currentRate) =>
        if fundingHistory.Err? then Some(FundingMetrics(FormatPercent(currentRate * 100.0), 0.0))
        else Some(FundingMetrics(FormatPercent(currentRate * 100.0),
                                 FormatPercent(Mean(ParsedRates(parse, fundingHistory.value)) * 100.0)))
  }

  /** `CalculateFundingMetrics`, with its averaging loop. */
  method CalculateFundingMetrics(parse: Parser, premiumIndex: Result<PremiumIndex>, fundingHistory: Result<seq<FundingRate>>)
    returns (r: Option<FundingMetrics>)
    ensures r == FundingMetricsOf(parse, premiumIndex, fundingHistory)
  {
    if premiumIndex.Err? {
      return None;
    }
    var currentRate := parse(premiumIndex.value.lastFundingRate);
    if currentRate.None? {
      return None;
    }
    if fundingHistory.Err? {
      return Some(FundingMetrics(FormatPercent(currentRate.value * 100.0), 0.0));
    }
    var avg3 := AverageParsed(parse, fundingHistory.value);
    return Some(FundingMetrics(FormatPercent(currentRate.value * 100.0), FormatPercent(avg3 * 100.0)));
  }

  /** The cached history the snapshot sees: none for a missing cache. */
  function HistoryOf(oiCache: Option<OICache>): seq<real>
  {
    if oiCache.Some? then oiCache.value.history else []
  }

  /** A change rate against history slot `slot`, present once the history has
      `need` entries. */
  function ChangeAt(current: real, history: seq<real>, need: nat, slot: nat): (r: Option<real>)
    requires slot < need
    ensures r.Some? <==> |history| >= need
    ensures r.Some? ==> r.value == ChangeRate(current, history[slot])
  {
    if |history| >= need then Some(ChangeRate(current, history[slot])) else None
  }

  /** The market snapshot: none when either the open-interest or the funding
      metrics are missing; the current open interest in millions of USD; the
      cached history, when non-empty, with change rates against its slots
      0 (5m, needs 2 entries), 2 (15m, needs 4) and 4 (25m and 45m, need 5). */
  function CalculateMarketData(parse: Parser, currentPrice: real, fetches: MarketFetches, oiCache: Option<OICache>)
    : (r: Option<MarketData>)
    ensures r.Some? <==>
      CalculateOIMetrics(parse, fetches.openInterest, currentPrice).Some? &&
      FundingMetricsOf(parse, fetches.premiumIndex, fetches.fundingHistory).Some?
    ensures r.Some? ==>
      var oi := CalculateOIMetrics(parse, fetches.openInterest, currentPrice).value / 1000000.0;
      var funding := FundingMetricsOf(parse, fetches.premiumIndex, fetches.fundingHistory).value;
      var h := HistoryOf(oiCache);
      var md := r.value;
      md.oiCurrent == FormatPrice(oi) &&
      md.fundingRate == funding.current && md.fundingAvg3 == funding.avg3 &&
      md.oiHistory == h &&
      md.oiChange5m == ChangeAt(oi, h, 2, 0) &&
      md.oiChange15m == ChangeAt(oi, h, 4, 2) &&
      md.oiChange25m == ChangeAt(oi, h, 5, 4) &&
      md.oiChange45m == ChangeAt(oi, h, 5, 4) &&
      md.oiChange75m == None
  {
    match CalculateOIMetrics(parse, fetches.openInterest, currentPrice)
    case None => None
    case Some(oiCurrent) =>
      match FundingMetricsOf(parse, fetches.premiumIndex, fetches.fundingHistory)
      case None => None
      case Some(funding) =>
        var base := MarketData(FormatPrice(oiCurrent / 1000000.0), [], None, None, None, None, None,
                               funding.current, funding.avg3);
        if oiCache.Some? && |oiCache.value.history| > 0 then
          var h := oiCache.value.history;
          var oi := oiCurrent / 1000000.0;
          Some(base.(oiHistory := h,
                     oiChange5m := if |h| >= 2 then Some(ChangeRate(oi, h[0])) else None,
                     oiChange15m := if |h| >= 4 then Some(ChangeRate(oi, h[2])) else None,
                     oiChange25m := if |h| >= 5 then Some(ChangeRate(oi, h[4])) else None,
                     oiChange45m := if |h| >= 5 then Some(ChangeRate(oi, h[4])) else None))
        else Some(base)
  }

  /** The 25m and 45m rates are always the same, and a rate that is present
      implies every shorter-window rate is present. */
  lemma ChangeWindowsNested(parse: Parser, currentPrice: real, fetches: MarketFetches, oiCache: Option<OICache>)
    requires CalculateMarketData(parse, currentPrice, fetches, oiCache).Some?
    ensures var md := CalculateMarketData(parse, currentPrice, fetches, oiCache).value;
      md.oiChange25m == md.oiChange45m &&
      (md.oiChange25m.Some? ==> md.oiChange15m.Some?) &&
      (md.oiChange15m.Some? ==> md.oiChange5m.Some?) &&
      (md.oiChange5m.Some? ==> |md.oiHistory| >= 2)
  {
  }

  /** On a cold start, with no cache entry or an empty one, the snapshot has
      no history and no change rates. */
  lemma ColdStartHasNoChanges(parse: Parser, currentPrice: real, fetches: MarketFetches, oiCache: Option<OICache>)
    requires oiCache.None? || |oiCache.value.history| == 0
    requires CalculateMarketData(parse, currentPrice, fetches, oiCache).Some?
    ensures var md := CalculateMarketData(parse, currentPrice, fetches, oiCache).value;
      md.oiHistory == [] && md.oiChange5m.None? && md.oiChange15m.None? &&
      md.oiChange25m.None? && md.oiChange45m.None? && md.oiChange75m.None?
  {
  }

  /** With a bound of at least five, as the shared cache has, a symbol updated
      at least `maxSize` times gives the next computation its 25m and 45m
      rates, both against the fifth newest sample. */
  lemma FullHistoryGivesLongWindows(parse: Parser, price: real, fetches: MarketFetches, caches: map<string, OICache>,
                                    maxSize: nat, symbol: string, ois: seq<real>, ts: seq<int>)
    requires maxSize >= 5 && |ois| == |ts| >= maxSize
    requires symbol in caches ==> WellFormed(caches[symbol], maxSize)
    ensures var c := UpdatedAll(caches, maxSize, symbol, ois, ts);
      symbol in c &&
      var md := CalculateMarketData(parse, price, fetches, Some(c[symbol]));
      md.Some? ==>
        var oi := CalculateOIMetrics(parse, fetches.openInterest, price).value / 1000000.0;
        md.value.oiChange25m == Some(ChangeRate(oi, ois[|ois| - 5])) &&
        md.value.oiChange45m == Some(ChangeRate(oi, ois[|ois| - 5]))
  {
    UpdatedAllKeepsLatest(caches, maxSize, symbol, ois, ts);
    var e := UpdatedAll(caches, maxSize, symbol, ois, ts)[symbol];
    assert e.history[4] == ois[|ois| - 5];
    LongWindowsFromSlot4(parse, price, fetches, e);
  }

  /** An entry with five samples gives the 25m and 45m rates against slot 4. */
  lemma LongWindowsFromSlot4(parse: Parser, price: real, fetches: MarketFetches, e: OICache)
    requires |e.history| >= 5
    ensures var md := CalculateMarketData(parse, price, fetches, Some(e));
      md.Some? ==>
        var oi := CalculateOIMetrics(parse, fetches.openInterest, price).value / 1000000.0;
        md.value.oiChange25m == Some(ChangeRate(oi, e.history[4])) &&
        md.value.oiChange45m == Some(ChangeRate(oi, e.history[4]))
  {
    assert HistoryOf(Some(e)) == e.history;
  }

  /** Under a bound below five no cache entry reaches slot 4, so the 25m and
      45m rates never appear. */
  lemma SmallBoundHasNoLongWindows(parse: Parser, price: real, fetches: MarketFetches, entry: OICache, maxSize: nat)
    requires maxSize < 5 && WellFormed(entry, maxSize)
    requires CalculateMarketData(parse, price, fetches, Some(entry)).Some?
    ensures CalculateMarketData(parse, price, fetches, Some(entry)).value.oiChange25m.None?
    ensures CalculateMarketData(parse, price, fetches, Some(entry)).value.oiChange45m.None?
  {
  }

  /** The history slot each named interval compares against. */
  function IntervalSlot(interval: string): (r: Option<nat>)
    ensures r.Some? <==> interval in {"1h", "4h", "24h"}
  {
    if interval == "1h" then Some(0)
    else if interval == "4h" then Some(3)
    else if interval == "24h" then Some(23)
    else None
  }

  /** Change against the interval's history slot; 0 for no history, an unknown
      interval, too short a history or a zero reference. */
  function CalculateOIChangeWithHistory(currentOI: real, historicalOI: seq<real>, interval: string): (r: real)
    ensures |historicalOI| == 0 ==> r == 0.0
    ensures IntervalSlot(interval).None? ==> r == 0.0
    ensures IntervalSlot(interval).Some? && |historicalOI| <= IntervalSlot(interval).value ==> r == 0.0
    ensures IntervalSlot(interval).Some? && |historicalOI| > IntervalSlot(interval).value ==>
      r == ChangeRate(currentOI, historicalOI[IntervalSlot(interval).value])
  {
    if |historicalOI| == 0 then 0.0
    else
      var previousOI :=
        if interval == "1h" then (if |historicalOI| >= 1 then historicalOI[0] else 0.0)
        else if interval == "4h" then (if |historicalOI| >= 4 then historicalOI[3] else 0.0)
        else if interval == "24h" then (if |historicalOI| >= 24 then historicalOI[23] else 0.0)
        else 0.0;
      if IntervalSlot(interval).None? || previousOI == 0.0 then 0.0
      else FormatPercent(((currentOI - previousOI) / previousOI) * 100.0)
  }

  /** Long is refused above 0.05 and short below -0.05; any other direction is
      refused. */
  function ShouldTradeBasedOnFunding(fundingRate: real, direction: string): (r: (bool, string))
    ensures r.0 <==> (direction == "long" && fundingRate <= 0.05) || (direction == "short" && fundingRate >= -0.05)
    ensures direction == "long" && fundingRate > 0.1 ==> r.1 == "资金费率极高，市场过度做多，不适合开多"
    ensures direction == "long" && 0.05 < fundingRate <= 0.1 ==> r.1 == "资金费率偏高，多头拥挤，建议谨慎"
    ensures direction == "short" && fundingRate < -0.1 ==> r.1 == "资金费率极低，市场过度做空，不适合开空"
    ensures direction == "short" && -0.1 <= fundingRate < -0.05 ==> r.1 == "资金费率偏低，空头拥挤，建议谨慎"
    ensures direction == "long" && r.0 ==> r.1 == "资金费率正常，可以做多"
    ensures direction == "short" && r.0 ==> r.1 == "资金费率正常，可以做空"
    ensures direction != "long" && direction != "short" ==> r.1 == "未知交易方向"
  {
    var extremeHigh, high, low, extremeLow := 0.1, 0.05, -0.05, -0.1;
    if direction == "long" then
      if fundingRate > extremeHigh then (false, "资金费率极高，市场过度做多，不适合开多")
      else if fundingRate > high then (false, "资金费率偏高，多头拥挤，建议谨慎")
      else (true, "资金费率正常，可以做多")
    else if direction == "short" then
      if fundingRate < extremeLow then (false, "资金费率极低，市场过度做空，不适合开空")
      else if fundingRate < low then (false, "资金费率偏低，空头拥挤，建议谨慎")
      else (true, "资金费率正常，可以做空")
    else (false, "未知交易方向")
  }

  /** No funding rate allows both a long and a short outside [-0.05, 0.05]:
      when both are allowed the rate lies within it. */
  lemma BothDirectionsOnlyInBand(fundingRate: real)
    ensures ShouldTradeBasedOnFunding(fundingRate, "long").0 && ShouldTradeBasedOnFunding(fundingRate, "short").0
            <==> -0.05 <= fundingRate <= 0.05
  {
  }

  const Rising := "价格上涨+OI增加：真实多头趋势，新资金进场"
  const ShortCovering := "价格上涨+OI减少：空头平仓推动，可能反转"
  const Falling := "价格下跌+OI增加：真实空头趋势，新空单进场"
  const LongLiquidation := "价格下跌+OI减少：多头平仓推动，可能反转"
  const Ranging := "价格和OI无明显变化，市场震荡"

  /** Price and open-interest moves read as one of four regimes, or as a
      range when either move is zero. */
  function AnalyzeOIAndPrice(priceChange: real, oiChange: real): (r: string)
    ensures r == Ranging <==> priceChange == 0.0 || oiChange == 0.0
    ensures r == Rising <==> priceChange > 0.0 && oiChange > 0.0
    ensures r == ShortCovering <==> priceChange > 0.0 && oiChange < 0.0
    ensures r == Falling <==> priceChange < 0.0 && oiChange > 0.0
    ensures r == LongLiquidation <==> priceChange < 0.0 && oiChange < 0.0
  {
    if priceChange > 0.0 && oiChange > 0.0 then Rising
    else if priceChange > 0.0 && oiChange < 0.0 then ShortCovering
    else if priceChange < 0.0 && oiChange > 0.0 then Falling
    else if priceChange < 0.0 && oiChange < 0.0 then LongLiquidation
    else Ranging
  }
}
