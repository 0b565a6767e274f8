/** Open-interest, funding-rate and premium-index requests, and the unrounded
    open-interest change (binance/market.go). */
module BinanceMarket {
  import opened Wrappers
  import opened Text
  import opened BinanceClient

  datatype OpenInterest = OpenInterest(symbol: string, openInterest: string, time: int)

  datatype FundingRate = FundingRate(symbol: string, fundingRate: string, fundingTime: int, time: int)

  datatype PremiumIndex = PremiumIndex(
    symbol: string, markPrice: string, indexPrice: string, lastFundingRate: string,
    nextFundingTime: int, time: int)

  /** The open-interest and premium-index requests send the symbol alone. */
  function SymbolParams(symbol: string): (p: Params)
    ensures p.Keys == {"symbol"} && p["symbol"] == symbol
  {
    map["symbol" := symbol]
  }

  /** The funding-history request sends the symbol, and the limit only when positive. */
  function FundingRateParams(symbol: string, limit: int): (p: Params)
    ensures "symbol" in p && p["symbol"] == symbol
    ensures ("limit" in p) <==> limit > 0
    ensures "limit" in p ==> p["limit"] == IntToDecimal(limit)
    ensures p.Keys <= {"symbol", "limit"}
  {
    if limit > 0 then map["symbol" := symbol, "limit" := IntToDecimal(limit)]
    else map["symbol" := symbol]
  }

  /** How a request's failure and a decoding failure become the returned error. */
  function Wrap<T>(reply: Reply<T>, requestPrefix: string, decodePrefix: string): (r: Result<T>)
    ensures reply.Body? <==> r.Ok?
    ensures reply.Body? ==> r.value == reply.value
    ensures reply.RequestFailed? ==> r == Err(requestPrefix + reply.msg)
    ensures reply.Malformed? ==> r == Err(decodePrefix + reply.msg)
  {
    match reply
    case RequestFailed(m) => Err(requestPrefix + m)
    case Malformed(m) => Err(decodePrefix + m)
    case Body(v) => Ok(v)
  }

  /** `GetOpenInterest`: the parameters sent and the result given the reply. */
  function GetOpenInterest(symbol: string, reply: Reply<OpenInterest>): (r: (Params, Result<OpenInterest>))
    ensures r.0 == SymbolParams(symbol)
    ensures r.1 == Wrap(reply, "获取持仓量失败: ", "解析持仓量数据失败: ")
  {
    (SymbolParams(symbol), Wrap(reply, "获取持仓量失败: ", "解析持仓量数据失败: "))
  }

  /** `GetFundingRateHistory`: the parameters sent and the result given the reply. */
  function GetFundingRateHistory(symbol: string, limit: int, reply: Reply<seq<FundingRate>>)
    : (r: (Params, Result<seq<FundingRate>>))
    ensures r.0 == FundingRateParams(symbol, limit)
    ensures r.1 == Wrap(reply, "获取资金费率历史失败: ", "解析资金费率数据失败: ")
  {
    (FundingRateParams(symbol, limit), Wrap(reply, "获取资金费率历史失败: ", "解析资金费率数据失败: "))
  }

  /** `GetPremiumIndex`: the parameters sent and the result given the reply. */
  function GetPremiumIndex(symbol: string, reply: Reply<PremiumIndex>): (r: (Params, Result<PremiumIndex>))
    ensures r.0 == SymbolParams(symbol)
    ensures r.1 == Wrap(reply, "获取溢价指数失败: ", "解析溢价指数数据失败: ")
  {
    (SymbolParams(symbol), Wrap(reply, "获取溢价指数失败: ", "解析溢价指数数据失败: "))
  }

  /** Percentage change of open interest, unrounded; 0 against a zero baseline. */
  function CalculateOIChange(current: real, previous: real): (r: real)
    ensures previous == 0.0 ==> r == 0.0
    ensures previous != 0.0 ==> r * previous == (current - previous) * 100.0
  {
    if previous == 0.0 then 0.0 else ((current - previous) / previous) * 100.0
  }

  /** No movement is no change. */
  lemma OIChangeOfSame(c: real)
    ensures CalculateOIChange(c, c) == 0.0
  {
  }

  /** Against a positive baseline the change has the sign of the movement. */
  lemma OIChangeSign(current: real, previous: real)
    requires previous > 0.0
    ensures CalculateOIChange(current, previous) > 0.0 <==> current > previous
    ensures CalculateOIChange(current, previous) < 0.0 <==> current < previous
  {
    var r := CalculateOIChange(current, previous);
    assert r * previous == (current - previous) * 100.0;
    if r > 0.0 { assert r * previous > 0.0; }
    if r < 0.0 { assert r * previous < 0.0; }
    if r == 0.0 { assert r * previous == 0.0; }
  }
}
