/** Candle requests and the conversion of the exchange's raw candle rows
    (binance/klines.go). */
module BinanceKlines {
  import opened Wrappers
  import opened Text
  import opened Numeric
  import opened BinanceClient

  /** One candle; prices and volumes are kept as the exchange's decimal text. */
  datatype Kline = Kline(
    openTime: int,
    open: string,
    high: string,
    low: string,
    close: string,
    volume: string,
    closeTime: int,
    quoteAssetVolume: string,
    numberOfTrades: int,
    takerBuyBaseAssetVolume: string,
    takerBuyQuoteAssetVolume: string)

  /** A value decoded by `json.Unmarshal` into `interface{}`. */
  datatype Json = JNull | JBool(b: bool) | JNumber(n: real) | JString(s: string)
                | JArray(items: seq<Json>) | JObject(fields: map<string, Json>)

  /** `GetKlines` parameters: `limit` is sent only when positive. */
  function KlineParams(symbol: string, interval: string, limit: int): (p: Params)
    ensures "symbol" in p && p["symbol"] == symbol
    ensures "interval" in p && p["interval"] == interval
    ensures ("limit" in p) <==> limit > 0
    ensures "limit" in p ==> p["limit"] == IntToDecimal(limit)
    ensures p.Keys <= {"symbol", "interval", "limit"}
  {
    var p := map["symbol" := symbol, "interval" := interval];
    if limit > 0 then p["limit" := IntToDecimal(limit)] else p
  }

  const PositionsOfNumbers: set<int> := {0, 6, 8}

  /** Every field of a full row has the JSON type its position calls for:
      positions 0, 6 and 8 are numbers, positions 1-5, 7, 9 and 10 strings. */
  predicate WellTyped(row: seq<Json>)
    requires |row| >= 11
  {
    forall i :: 0 <= i < 11 ==> if i in PositionsOfNumbers then row[i].JNumber? else row[i].JString?
  }

  /** The conversion of one full row; a field of the wrong type is a failed
      Go type assertion, that is, a panic. */
  function DecodeRow(row: seq<Json>): (r: Outcome<Kline>)
    requires |row| >= 11
    ensures r.Returned? <==> WellTyped(row)
    ensures r.Returned? ==> r.value == Kline(
      TruncToward0(row[0].n), row[1].s, row[2].s, row[3].s, row[4].s, row[5].s,
      TruncToward0(row[6].n), row[7].s, TruncToward0(row[8].n), row[9].s, row[10].s)
  {
    if WellTyped(row) then
      assert row[0].JNumber? && row[6].JNumber? && row[8].JNumber?;
      assert forall i :: i in {1, 2, 3, 4, 5, 7, 9, 10} ==> row[i].JString?;
      Returned(Kline(
        TruncToward0(row[0].n), row[1].s, row[2].s, row[3].s, row[4].s, row[5].s,
        TruncToward0(row[6].n), row[7].s, TruncToward0(row[8].n), row[9].s, row[10].s))
    else
      Panicked("interface conversion")
  }

  /** The conversion loop as a function of the rows seen so far: rows shorter
      than 11 are skipped, the rest converted in order, the first ill-typed row
      panics. */
  function DecodeRows(rows: seq<seq<Json>>): Outcome<seq<Kline>>
  {
    if |rows| == 0 then Returned([])
    else
      var last := rows[|rows| - 1];
      match DecodeRows(rows[..|rows| - 1])
      case Panicked(why) => Panicked(why)
      case Returned(ks) =>
        if |last| < 11 then Returned(ks)
        else match DecodeRow(last)
          case Panicked(why) => Panicked(why)
          case Returned(k) => Returned(ks + [k])
  }

  /** The full rows, in input order. */
  function FullRows(rows: seq<seq<Json>>): (r: seq<seq<Json>>)
    ensures |r| <= |rows|
    ensures forall i :: 0 <= i < |r| ==> |r[i]| >= 11
  {
    if |rows| == 0 then []
    else
      var last := rows[|rows| - 1];
      FullRows(rows[..|rows| - 1]) + (if |last| < 11 then [] else [last])
  }

  /** Conversion succeeds exactly when every full row is well typed; then each
      candle is the conversion of the full row at the same place, so there are
      at most as many candles as rows. */
  lemma {:induction false} DecodeRowsSpec(rows: seq<seq<Json>>)
    ensures DecodeRows(rows).Returned? <==> forall i :: 0 <= i < |FullRows(rows)| ==> WellTyped(FullRows(rows)[i])
    ensures DecodeRows(rows).Returned? ==>
      var ks := DecodeRows(rows).value;
      |ks| == |FullRows(rows)| <= |rows| &&
      forall i :: 0 <= i < |ks| ==> DecodeRow(FullRows(rows)[i]) == Returned(ks[i])
  {
    if |rows| > 0 {
      var init := rows[..|rows| - 1];
      var last := rows[|rows| - 1];
      DecodeRowsSpec(init);
      var f := FullRows(init);
      if |last| >= 11 {
        assert FullRows(rows) == f + [last];
        assert forall i :: 0 <= i < |f| ==> FullRows(rows)[i] == f[i];
        if !WellTyped(last) {
          assert !WellTyped(FullRows(rows)[|f|]);
        }
      } else {
        assert FullRows(rows) == f;
      }
    }
  }

  /** The conversion loop of `GetKlines`. */
  method ConvertRows(rawKlines: seq<seq<Json>>) returns (r: Outcome<seq<Kline>>)
    ensures r == DecodeRows(rawKlines)
  {
    var klines: seq<Kline> := [];
    var i := 0;
    while i < |rawKlines|
      invariant 0 <= i <= |rawKlines|
      invariant DecodeRows(rawKlines[..i]) == Returned(klines)
    {
      var raw := rawKlines[i];
      assert rawKlines[..i + 1][..i] == rawKlines[..i];
      if |raw| < 11 {
        i := i + 1;
        continue;
      }
      var kline := DecodeRow(raw);
      if kline.Panicked? {
        assert DecodeRows(rawKlines[..i + 1]).Panicked?;
        DecodeRowsPanicSticks(rawKlines, i + 1);
        assert rawKlines[..|rawKlines|] == rawKlines;
        return Panicked(kline.reason);
      }
      klines := klines + [kline.value];
      i := i + 1;
    }
    assert rawKlines[..i] == rawKlines;
    r := Returned(klines);
  }

  /** Once a prefix of the rows panics, every longer prefix panics with it. */
  lemma {:induction false} DecodeRowsPanicSticks(rows: seq<seq<Json>>, n: nat)
    requires n <= |rows| && DecodeRows(rows[..n]).Panicked?
    ensures forall m :: n <= m <= |rows| ==> DecodeRows(rows[..m]) == DecodeRows(rows[..n])
    decreases |rows| - n
  {
    if n < |rows| {
      assert rows[..n + 1][..n] == rows[..n];
      DecodeRowsPanicSticks(rows, n + 1);
    }
  }

  /** What `GetKlines` returns for a reply: the candles, the transport or
      decoding error under its prefix, or the panic of an ill-typed row. */
  function FetchedKlines(reply: Reply<seq<seq<Json>>>): (r: Outcome<Result<seq<Kline>>>)
    ensures r.Panicked? <==> reply.Body? && DecodeRows(reply.value).Panicked?
    ensures r.Returned? && r.value.Ok? <==> reply.Body? && DecodeRows(reply.value).Returned?
    ensures r.Returned? && r.value.Ok? ==> r.value.value == DecodeRows(reply.value).value
    ensures reply.RequestFailed? ==> r == Returned(Err("获取K线数据失败: " + reply.msg))
    ensures reply.Malformed? ==> r == Returned(Err("解析K线数据失败: " + reply.msg))
  {
    match reply
    case RequestFailed(m) => Returned(Err("获取K线数据失败: " + m))
    case Malformed(m) => Returned(Err("解析K线数据失败: " + m))
    case Body(rows) =>
      match DecodeRows(rows)
      case Panicked(why) => Panicked(why)
      case Returned(klines) => Returned(Ok(klines))
  }

  /** `GetKlines` given what the request produced: the parameters sent, and the
      candles, a wrapped error, or a panic on an ill-typed row. */
  method GetKlines(symbol: string, interval: string, limit: int, reply: Reply<seq<seq<Json>>>)
    returns (params: Params, r: Outcome<Result<seq<Kline>>>)
    ensures params == KlineParams(symbol, interval, limit)
    ensures reply.RequestFailed? ==> r == Returned(Err("获取K线数据失败: " + reply.msg))
    ensures reply.Malformed? ==> r == Returned(Err("解析K线数据失败: " + reply.msg))
    ensures reply.Body? ==> (r.Panicked? <==> DecodeRows(reply.value).Panicked?)
    ensures reply.Body? && r.Returned? ==> r.value == Ok(DecodeRows(reply.value).value)
    ensures r == FetchedKlines(reply)
  {
    params := map["symbol" := symbol, "interval" := interval];
    if limit > 0 {
      params := params["limit" := IntToDecimal(limit)];
    }
    match reply {
      case RequestFailed(m) => return params, Returned(Err("获取K线数据失败: " + m));
      case Malformed(m) => return params, Returned(Err("解析K线数据失败: " + m));
      case Body(rows) =>
        var converted := ConvertRows(rows);
        match converted {
          case Panicked(why) => r := Panicked(why);
          case Returned(klines) => r := Returned(Ok(klines));
        }
    }
  }
}
