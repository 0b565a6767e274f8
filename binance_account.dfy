/** Account queries: USDT extraction, balance search, the open-position
    filter and the position-risk parameters (binance/account.go). */
module BinanceAccount {
  import opened Wrappers
  import opened BinanceClient

  datatype Asset = Asset(
    asset: string, walletBalance: string, unrealizedProfit: string, marginBalance: string,
    maintMargin: string, initialMargin: string, positionInitialMargin: string,
    openOrderInitialMargin: string, maxWithdrawAmount: string, crossWalletBalance: string,
    crossUnPnl: string, availableBalance: string)

  /** Go's zero value of `Asset`. */
  const ZeroAsset := Asset("", "", "", "", "", "", "", "", "", "", "", "")

  /** A position as reported by the account and position-risk endpoints, which
      share one field list. */
  datatype Position = Position(
    symbol: string, positionAmt: string, entryPrice: string, markPrice: string,
    unRealizedProfit: string, liquidationPrice: string, leverage: string,
    maxNotionalValue: string, marginType: string, isolatedMargin: string,
    isAutoAddMargin: string, positionSide: string, notional: string,
    isolatedWallet: string, updateTime: int)

  type PositionRisk = Position

  datatype Balance = Balance(asset: string, balance: string, availableBalance: string, unrealizedProfit: string)

  /** The decoded account reply. */
  datatype AccountInfoResponse = AccountInfoResponse(
    totalWalletBalance: string, totalUnrealizedProfit: string, totalMarginBalance: string,
    availableBalance: string, assets: seq<Asset>, positions: seq<Position>)

  /** The account as handed to callers, with the USDT asset picked out. */
  datatype AccountInfo = AccountInfo(
    totalWalletBalance: string, totalUnrealizedProfit: string, totalMarginBalance: string,
    availableBalance: string, asset: Asset, positions: seq<Position>)

  /** `a` is the first USDT asset of `assets`, or the zero asset when there is none. */
  predicate IsFirstUSDT(assets: seq<Asset>, a: Asset)
  {
    (exists i :: 0 <= i < |assets| && assets[i] == a && a.asset == "USDT" &&
                 forall j :: 0 <= j < i ==> assets[j].asset != "USDT") ||
    ((forall i :: 0 <= i < |assets| ==> assets[i].asset != "USDT") && a == ZeroAsset)
  }

  /** The search loop over the reply's assets, stopping at the first USDT entry. */
  method FindUSDTAsset(assets: seq<Asset>) returns (usdtAsset: Asset)
    ensures IsFirstUSDT(assets, usdtAsset)
  {
    usdtAsset := ZeroAsset;
    var i := 0;
    while i < |assets|
      invariant 0 <= i <= |assets|
      invariant forall j :: 0 <= j < i ==> assets[j].asset != "USDT"
      invariant usdtAsset == ZeroAsset
    {
      if assets[i].asset == "USDT" {
        usdtAsset := assets[i];
        break;
      }
      i := i + 1;
    }
  }

  /** The account fields are the reply's, unchanged, and the asset is its
      first USDT entry. */
  predicate CopiesResponse(resp: AccountInfoResponse, info: AccountInfo)
  {
    info.totalWalletBalance == resp.totalWalletBalance &&
    info.totalUnrealizedProfit == resp.totalUnrealizedProfit &&
    info.totalMarginBalance == resp.totalMarginBalance &&
    info.availableBalance == resp.availableBalance &&
    info.positions == resp.positions &&
    IsFirstUSDT(resp.assets, info.asset)
  }

  /** `GetAccountInfo` given the signed request's reply. */
  method GetAccountInfo(reply: Reply<AccountInfoResponse>) returns (r: Result<AccountInfo>)
    ensures reply.RequestFailed? ==> r == Err("获取账户信息失败: " + reply.msg)
    ensures reply.Malformed? ==> r == Err("解析账户信息失败: " + reply.msg)
    ensures reply.Body? <==> r.Ok?
    ensures reply.Body? ==> CopiesResponse(reply.value, r.value)
  {
    match reply {
      case RequestFailed(m) => return Err("获取账户信息失败: " + m);
      case Malformed(m) => return Err("解析账户信息失败: " + m);
      case Body(resp) =>
        var usdtAsset := FindUSDTAsset(resp.assets);
        return Ok(AccountInfo(resp.totalWalletBalance, resp.totalUnrealizedProfit,
                              resp.totalMarginBalance, resp.availableBalance,
                              usdtAsset, resp.positions));
    }
  }

  /** `GetBalance` given the signed request's reply: the first USDT balance,
      or an error when there is none. */
  method GetBalance(reply: Reply<seq<Balance>>) returns (r: Result<Balance>)
    ensures reply.RequestFailed? ==> r == Err("获取账户余额失败: " + reply.msg)
    ensures reply.Malformed? ==> r == Err("解析账户余额失败: " + reply.msg)
    ensures reply.Body? && r.Ok? ==>
      exists i :: 0 <= i < |reply.value| && reply.value[i] == r.value && r.value.asset == "USDT" &&
                  forall j :: 0 <= j < i ==> reply.value[j].asset != "USDT"
    ensures reply.Body? && r.Err? ==>
      r.msg == "未找到USDT余额" && forall i :: 0 <= i < |reply.value| ==> reply.value[i].asset != "USDT"
  {
    match reply {
      case RequestFailed(m) => return Err("获取账户余额失败: " + m);
      case Malformed(m) => return Err("解析账户余额失败: " + m);
      case Body(balances) =>
        var i := 0;
        while i < |balances|
          invariant 0 <= i <= |balances|
          invariant forall j :: 0 <= j < i ==> balances[j].asset != "USDT"
        {
          if balances[i].asset == "USDT" {
            return Ok(balances[i]);
          }
          i := i + 1;
        }
        return Err("未找到USDT余额");
    }
  }

  /** The position amounts the filter treats as no position. */
  predicate IsFlat(positionAmt: string)
  {
    positionAmt == "0" || positionAmt == "0.0" || positionAmt == "0.00" || positionAmt == "0.000"
  }

  /** The open positions, in the order the account lists them. */
  function OpenPositions(ps: seq<Position>): (r: seq<Position>)
    ensures |r| <= |ps|
    ensures forall i :: 0 <= i < |r| ==> !IsFlat(r[i].positionAmt)
  {
    if |ps| == 0 then []
    else OpenPositions(ps[..|ps| - 1]) + (if IsFlat(ps[|ps| - 1].positionAmt) then [] else [ps[|ps| - 1]])
  }

  /** A position is kept exactly when it is listed and not flat. */
  lemma {:induction false} OpenPositionsMembers(ps: seq<Position>, p: Position)
    ensures p in OpenPositions(ps) <==> p in ps && !IsFlat(p.positionAmt)
  {
    if |ps| > 0 {
      OpenPositionsMembers(ps[..|ps| - 1], p);
      assert ps == ps[..|ps| - 1] + [ps[|ps| - 1]];
    }
  }

  /** The filter works list by list, so it keeps the account's order. */
  lemma {:induction false} OpenPositionsConcat(a: seq<Position>, b: seq<Position>)
    ensures OpenPositions(a + b) == OpenPositions(a) + OpenPositions(b)
  {
    if |b| > 0 {
      var b' := b[..|b| - 1];
      assert (a + b)[..|a + b| - 1] == a + b';
      OpenPositionsConcat(a, b');
    } else {
      assert a + b == a;
    }
  }

  /** Filtering twice keeps what filtering once kept. */
  lemma {:induction false} OpenPositionsIdempotent(ps: seq<Position>)
    ensures OpenPositions(OpenPositions(ps)) == OpenPositions(ps)
  {
    if |ps| > 0 {
      var init := ps[..|ps| - 1];
      var last := ps[|ps| - 1];
      OpenPositionsIdempotent(init);
      var tail := if IsFlat(last.positionAmt) then [] else [last];
      OpenPositionsConcat(OpenPositions(init), tail);
      if tail != [] {
        assert OpenPositions(tail) == OpenPositions([]) + [last] by { assert tail[..0] == []; }
      }
    }
  }

  /** `GetPositions` given the account query's result: its error as is, or the
      filter of its positions. */
  method GetPositions(accountInfo: Result<AccountInfo>) returns (r: Result<seq<Position>>)
    ensures accountInfo.Err? ==> r == Err(accountInfo.msg)
    ensures accountInfo.Ok? ==> r == Ok(OpenPositions(accountInfo.value.positions))
  {
    if accountInfo.Err? {
      return Err(accountInfo.msg);
    }
    var all := accountInfo.value.positions;
    var positions: seq<Position> := [];
    var i := 0;
    while i < |all|
      invariant 0 <= i <= |all|
      invariant positions == OpenPositions(all[..i])
    {
      assert all[..i + 1][..i] == all[..i];
      var pos := all[i];
      if !IsFlat(pos.positionAmt) {
        positions := positions + [pos];
      }
      i := i + 1;
    }
    assert all[..i] == all;
    return Ok(positions);
  }

  /** The position-risk request names the symbol only when one is given. */
  function PositionRiskParams(symbol: string): (p: Params)
    ensures ("symbol" in p) <==> symbol != ""
    ensures "symbol" in p ==> p["symbol"] == symbol
    ensures p.Keys <= {"symbol"}
  {
    if symbol != "" then map["symbol" := symbol] else map[]
  }

  /** `GetPositionRisk` given the signed request's reply. */
  function GetPositionRisk(symbol: string, reply: Reply<seq<PositionRisk>>): (r: (Params, Result<seq<PositionRisk>>))
    ensures r.0 == PositionRiskParams(symbol)
    ensures r.1.Ok? <==> reply.Body?
    ensures reply.Body? ==> r.1.value == reply.value
    ensures reply.RequestFailed? ==> r.1 == Err("获取持仓风险失败: " + reply.msg)
    ensures reply.Malformed? ==> r.1 == Err("解析持仓风险失败: " + reply.msg)
  {
    var result := match reply
      case RequestFailed(m) => Err("获取持仓风险失败: " + m)
      case Malformed(m) => Err("解析持仓风险失败: " + m)
      case Body(v) => Ok(v);
    (PositionRiskParams(symbol), result)
  }
}
