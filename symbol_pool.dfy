/** The tradable symbol pool: defaults, plus well-scored symbols from an
    external ranking, minus exclusions (utils/symbols.go). */
module SymbolPool {
  import opened Wrappers
  import opened Text

  datatype CoinInfo = CoinInfo(pair: string, score: real)

  /** The decoded ranking reply. */
  datatype ExternalSymbolsResponse = ExternalSymbolsResponse(
    success: bool, topCoins: seq<CoinInfo>, bottomCoins: seq<CoinInfo>)

  /** The named pairs of `coins` scoring at least `minScore`. */
  function Qualifying(coins: seq<CoinInfo>, minScore: real): (r: set<string>)
    ensures forall p :: p in r <==> exists i :: 0 <= i < |coins| && coins[i].pair == p && p != "" && coins[i].score >= minScore
  {
    set i | 0 <= i < |coins| && coins[i].pair != "" && coins[i].score >= minScore :: coins[i].pair
  }

  /** Adds every symbol of `symbols` to `symbolMap`. */
  method AddAll(symbolMap: set<string>, symbols: seq<string>) returns (r: set<string>)
    ensures r == symbolMap + Elements(symbols)
  {
    r := symbolMap;
    for i := 0 to |symbols|
      invariant r == symbolMap + Elements(symbols[..i])
    {
      ElementsConcat(symbols[..i], [symbols[i]]);
      ElementsSmall([symbols[i]]);
      assert symbols[..i + 1] == symbols[..i] + [symbols[i]];
      r := r + {symbols[i]};
    }
    assert symbols[..|symbols|] == symbols;
  }

  /** Lists the members of `symbolMap`, each once, in no particular order. */
  method Collect(symbolMap: set<string>) returns (symbols: seq<string>)
    ensures Elements(symbols) == symbolMap
    ensures |symbols| == |symbolMap|
    ensures forall i, j :: 0 <= i < j < |symbols| ==> symbols[i] != symbols[j]
  {
    symbols := [];
    var remaining := symbolMap;
    while remaining != {}
      invariant remaining <= symbolMap
      invariant Elements(symbols) == symbolMap - remaining
      invariant |symbols| + |remaining| == |symbolMap|
      invariant forall i, j :: 0 <= i < j < |symbols| ==> symbols[i] != symbols[j]
      decreases |remaining|
    {
      var symbol :| symbol in remaining;
      ElementsConcat(symbols, [symbol]);
      ElementsSmall([symbol]);
      symbols := symbols + [symbol];
      remaining := remaining - {symbol};
    }
  }

  /** Collects the pairs of one list that are named and score at least `minScore`. */
  method AddQualifying(symbolMap: set<string>, coins: seq<CoinInfo>, minScore: real) returns (r: set<string>)
    ensures r == symbolMap + Qualifying(coins, minScore)
  {
    r := symbolMap;
    for i := 0 to |coins|
      invariant r == symbolMap + Qualifying(coins[..i], minScore)
    {
      assert forall j :: 0 <= j < i ==> coins[..i + 1][j] == coins[..i][j];
      var coin := coins[i];
      if coin.pair != "" {
        if coin.score >= minScore {
          r := r + {coin.pair};
        }
      }
      assert Qualifying(coins[..i + 1], minScore) ==
        Qualifying(coins[..i], minScore) + (if coin.pair != "" && coin.score >= minScore then {coin.pair} else {});
    }
    assert coins[..|coins|] == coins;
  }

  /** The ranking reply: its transport or decoding error, an error when it
      reports failure, or the qualifying pairs of both lists, each once. */
  method FetchExternalSymbols(reply: Result<ExternalSymbolsResponse>, minScore: real) returns (r: Result<seq<string>>)
    ensures reply.Err? ==> r == Err(reply.msg)
    ensures reply.Ok? && !reply.value.success ==> r == Err("API返回失败")
    ensures reply.Ok? && reply.value.success ==>
      r.Ok? && Elements(r.value) == Qualifying(reply.value.topCoins, minScore) + Qualifying(reply.value.bottomCoins, minScore) &&
      forall i, j :: 0 <= i < j < |r.value| ==> r.value[i] != r.value[j]
  {
    if reply.Err? {
      return Err(reply.msg);
    }
    var response := reply.value;
    if !response.success {
      return Err("API返回失败");
    }
    var symbolMap := AddQualifying({}, response.topCoins, minScore);
    symbolMap := AddQualifying(symbolMap, response.bottomCoins, minScore);
    var symbols := Collect(symbolMap);
    return Ok(symbols);
  }

  /** Whether the external ranking is consulted. */
  predicate UsesExternal(externalURL: string, useExternal: bool)
  {
    useExternal && externalURL != ""
  }

  /** The pool as a set: defaults, plus the fetched external symbols when the
      ranking is used and answered, minus the exclusions. */
  ghost function PoolOf(defaultSymbols: seq<string>, excludeSymbols: seq<string>, external: Option<set<string>>): set<string>
  {
    (Elements(defaultSymbols) + (if external.Some? then external.value else {})) - Elements(excludeSymbols)
  }

  /** The qualifying pairs of a successful ranking, from both lists. */
  function RankedPairs(response: ExternalSymbolsResponse, minScore: real): set<string>
  {
    Qualifying(response.topCoins, minScore) + Qualifying(response.bottomCoins, minScore)
  }

  /** `GetSymbolPool`, given what the ranking request would return. A failed
      ranking is only logged, so the error result is always absent. */
  method GetSymbolPool(defaultSymbols: seq<string>, excludeSymbols: seq<string>, externalURL: string,
                       useExternal: bool, minScore: real, ranking: Result<ExternalSymbolsResponse>)
    returns (symbols: seq<string>, err: Option<string>)
    ensures err.None?
    ensures forall i, j :: 0 <= i < j < |symbols| ==> symbols[i] != symbols[j]
    ensures !UsesExternal(externalURL, useExternal) ==> Elements(symbols) == PoolOf(defaultSymbols, excludeSymbols, None)
    ensures UsesExternal(externalURL, useExternal) && ranking.Ok? && ranking.value.success ==>
      Elements(symbols) == PoolOf(defaultSymbols, excludeSymbols, Some(RankedPairs(ranking.value, minScore)))
    ensures UsesExternal(externalURL, useExternal) && (ranking.Err? || !ranking.value.success) ==>
      Elements(symbols) == PoolOf(defaultSymbols, excludeSymbols, None)
    ensures forall s :: s in excludeSymbols ==> s !in symbols
  {
    var symbolMap := AddAll({}, defaultSymbols);
    ghost var fetched: Option<set<string>> := None;
    if UsesExternal(externalURL, useExternal) {
      var externalSymbols := FetchExternalSymbols(ranking, minScore);
      if externalSymbols.Ok? {
        symbolMap := AddAll(symbolMap, externalSymbols.value);
        fetched := Some(Elements(externalSymbols.value));
      }
    }
    for i := 0 to |excludeSymbols|
      invariant symbolMap == PoolOf(defaultSymbols, excludeSymbols[..i], fetched)
    {
      ElementsConcat(excludeSymbols[..i], [excludeSymbols[i]]);
      ElementsSmall([excludeSymbols[i]]);
      assert excludeSymbols[..i + 1] == excludeSymbols[..i] + [excludeSymbols[i]];
      symbolMap := symbolMap - {excludeSymbols[i]};
    }
    assert excludeSymbols[..|excludeSymbols|] == excludeSymbols;
    symbols := Collect(symbolMap);
    ElementsMembers(symbols);
    ElementsMembers(excludeSymbols);
    err := None;
  }

  /** The pool size is bounded by the defaults and the external list, and an
      exclusion of every default and external symbol empties it. */
  lemma PoolBounds(defaultSymbols: seq<string>, excludeSymbols: seq<string>, external: set<string>)
    ensures PoolOf(defaultSymbols, excludeSymbols, Some(external)) <= Elements(defaultSymbols) + external
    ensures PoolOf(defaultSymbols, excludeSymbols, None) <= PoolOf(defaultSymbols, excludeSymbols, Some(external))
    ensures Elements(defaultSymbols) + external <= Elements(excludeSymbols) ==>
      PoolOf(defaultSymbols, excludeSymbols, Some(external)) == {}
  {
  }

  /** A configured minimum score of 0 means the default of 75. */
  function MinScoreOrDefault(minScore: real): (r: real)
    ensures minScore == 0.0 ==> r == 75.0
    ensures minScore != 0.0 ==> r == minScore
  {
    if minScore == 0.0 then 75.0 else minScore
  }
}
