/** The poll passes of the main program: per symbol, fetch three candle
    series, read the shared open-interest cache, compute the snapshot and
    write the new sample back; and the dispatch of accounts to passes by
    strategy (main.go). Exchange replies and clock readings are inputs. */
module Scheduler {
  import opened Wrappers
  import opened BinanceKlines
  import opened BinanceClient
  import opened OICaches
  import opened IndicatorTypes
  import opened IndicatorsCommon
  import opened MarketMetrics
  import opened ShortTerm
  import opened LongTerm
  import opened Accounts
  import opened Config

  /** The parser and indicator library the computation runs with. */
  datatype Env = Env(parse: Parser, lib: TaLib)

  /** What one iteration of a pass observes for its symbol: the exchange's
      raw reply to each candle request, the market queries, and the clock. */
  datatype SymbolFeed = SymbolFeed(
    candles: Params -> Reply<seq<seq<Json>>>,
    market: MarketFetches, now: int)

  /** The observations of iteration `i`, on symbol `s`, for account `id`. */
  type Feed = (string, nat, string) -> SymbolFeed

  datatype Strategy = ShortTermStrategy | LongTermStrategy

  datatype Snapshot = Short(short: ShortTermIndicators) | Long(long: LongTermIndicators)

  function MarketDataOf(s: Snapshot): Option<MarketData>
  {
    match s
    case Short(x) => x.marketData
    case Long(x) => x.marketData
  }

  /** Which attachment of market data a pass runs: the code as written, whose
      log statement dereferences missing market data and panics, or the
      guarded version that keeps the snapshot without market data. */
  datatype Build = AsWritten | Guarded

  /** Every pass asks for 100 candles per series. */
  const CandleLimit := 100

  /** The candle intervals a strategy fetches, in role order. */
  function Intervals(strategy: Strategy): (r: seq<string>)
    ensures |r| == 3
  {
    match strategy
    case ShortTermStrategy => ["1h", "15m", "5m"]
    case LongTermStrategy => ["4h", "1h", "15m"]
  }

  /** The reply to the `k`-th candle request of a strategy for a symbol. */
  function CandleReply(f: SymbolFeed, strategy: Strategy, symbol: string, k: nat): Reply<seq<seq<Json>>>
    requires k < 3
  {
    f.candles(KlineParams(symbol, Intervals(strategy)[k], CandleLimit))
  }

  /** A reply whose rows all convert. */
  predicate Decodes(reply: Reply<seq<seq<Json>>>)
  {
    reply.Body? && DecodeRows(reply.value).Returned?
  }

  /** A reply with an ill-typed row, whose conversion panics. */
  predicate DecodePanics(reply: Reply<seq<seq<Json>>>)
  {
    reply.Body? && DecodeRows(reply.value).Panicked?
  }

  /** The three candle fetches of one iteration, in order: a panic ends the
      process, an error skips the symbol without fetching the later series,
      and otherwise the three series. */
  function FetchAll(strategy: Strategy, symbol: string, f: SymbolFeed): (r: Outcome<Option<seq<seq<Kline>>>>)
    ensures r.Returned? && r.value.Some? ==> |r.value.value| == 3
  {
    match FetchedKlines(CandleReply(f, strategy, symbol, 0))
    case Panicked(why) => Panicked(why)
    case Returned(Err(_)) => Returned(None)
    case Returned(Ok(k1)) =>
      match FetchedKlines(CandleReply(f, strategy, symbol, 1))
      case Panicked(why) => Panicked(why)
      case Returned(Err(_)) => Returned(None)
      case Returned(Ok(k2)) =>
        match FetchedKlines(CandleReply(f, strategy, symbol, 2))
        case Panicked(why) => Panicked(why)
        case Returned(Err(_)) => Returned(None)
        case Returned(Ok(k3)) => Returned(Some([k1, k2, k3]))
  }

  /** The fetches panic exactly when some reply panics after the earlier ones
      decoded; they yield the series exactly when all three decode, and then
      each series is its reply's rows converted. */
  lemma FetchAllSpec(strategy: Strategy, symbol: string, f: SymbolFeed)
    ensures var r := FetchAll(strategy, symbol, f);
      (r.Panicked? <==>
         exists k :: 0 <= k < 3 && DecodePanics(CandleReply(f, strategy, symbol, k)) &&
           forall j :: 0 <= j < k ==> Decodes(CandleReply(f, strategy, symbol, j))) &&
      (r.Returned? && r.value.Some? <==> forall k :: 0 <= k < 3 ==> Decodes(CandleReply(f, strategy, symbol, k))) &&
      (r.Returned? && r.value.Some? ==>
         forall k :: 0 <= k < 3 ==> r.value.value[k] == DecodeRows(CandleReply(f, strategy, symbol, k).value).value)
  {
    var r := FetchAll(strategy, symbol, f);
    var r0, r1, r2 := CandleReply(f, strategy, symbol, 0), CandleReply(f, strategy, symbol, 1), CandleReply(f, strategy, symbol, 2);
    if r.Panicked? {
      if DecodePanics(r0) {
      } else if DecodePanics(r1) {
        assert forall j :: 0 <= j < 1 ==> Decodes(CandleReply(f, strategy, symbol, j));
      } else {
        assert forall j :: 0 <= j < 2 ==> Decodes(CandleReply(f, strategy, symbol, j));
      }
    }
    if !(forall k :: 0 <= k < 3 ==> Decodes(CandleReply(f, strategy, symbol, k))) {
      assert !Decodes(r0) || !Decodes(r1) || !Decodes(r2);
    }
  }

  /** `client.GetKlines(symbol, interval, 100)` for each interval in turn, as
      at the head of both passes. */
  method FetchCandles(strategy: Strategy, symbol: string, f: SymbolFeed) returns (r: Outcome<Option<seq<seq<Kline>>>>)
    ensures r == FetchAll(strategy, symbol, f)
  {
    var intervals := Intervals(strategy);
    var params1, klines1 := GetKlines(symbol, intervals[0], CandleLimit, CandleReply(f, strategy, symbol, 0));
    if klines1.Panicked? {
      return Panicked(klines1.reason);
    }
    if klines1.value.Err? {
      return Returned(None);
    }
    var params2, klines2 := GetKlines(symbol, intervals[1], CandleLimit, CandleReply(f, strategy, symbol, 1));
    if klines2.Panicked? {
      return Panicked(klines2.reason);
    }
    if klines2.value.Err? {
      return Returned(None);
    }
    var params3, klines3 := GetKlines(symbol, intervals[2], CandleLimit, CandleReply(f, strategy, symbol, 2));
    if klines3.Panicked? {
      return Panicked(klines3.reason);
    }
    if klines3.value.Err? {
      return Returned(None);
    }
    return Returned(Some([klines1.value.value, klines2.value.value, klines3.value.value]));
  }

  /** The strategy's snapshot with market data, from the three series. */
  function Compute(build: Build, strategy: Strategy, env: Env, symbol: string, cs: seq<seq<Kline>>, f: SymbolFeed, cache: OICache)
    : Outcome<Option<Snapshot>>
    requires |cs| == 3
  {
    match (build, strategy)
    case (AsWritten, ShortTermStrategy) =>
      (match CalculateShortTermIndicatorsWithMarket(env.parse, env.lib, symbol, cs[0], cs[1],
                                                    cs[2], f.now, f.market, Some(cache))
       case Panicked(why) => Panicked(why)
       case Returned(None) => Returned(None)
       case Returned(Some(x)) => Returned(Some(Short(x))))
    case (AsWritten, LongTermStrategy) =>
      (match CalculateLongTermIndicatorsWithMarket(env.parse, env.lib, symbol, cs[0], cs[1],
                                                   cs[2], f.now, f.market, Some(cache))
       case Panicked(why) => Panicked(why)
       case Returned(None) => Returned(None)
       case Returned(Some(x)) => Returned(Some(Long(x))))
    case (Guarded, ShortTermStrategy) =>
      (match CalculateShortTermIndicatorsWithMarketGraceful(env.parse, env.lib, symbol, cs[0], cs[1],
                                                            cs[2], f.now, f.market, Some(cache))
       case None => Returned(None)
       case Some(x) => Returned(Some(Short(x))))
    case (Guarded, LongTermStrategy) =>
      (match CalculateLongTermIndicatorsWithMarketGraceful(env.parse, env.lib, symbol, cs[0], cs[1],
                                                           cs[2], f.now, f.market, Some(cache))
       case None => Returned(None)
       case Some(x) => Returned(Some(Long(x))))
  }

  /** The cache entry a symbol is computed against: its own, or an empty one
      under its name. */
  function CachedOrEmpty(caches: map<string, OICache>, symbol: string): OICache
  {
    if symbol in caches then caches[symbol] else EmptyCache(symbol)
  }

  /** One iteration: fetch the candles, panicking on an ill-typed row and
      skipping the symbol on a failed fetch; otherwise compute against the
      cached history, write the new open interest back when the snapshot
      carries market data, and emit the snapshot. */
  function Step(build: Build, strategy: Strategy, env: Env, caches: map<string, OICache>, maxSize: nat, symbol: string, f: SymbolFeed)
    : Outcome<(map<string, OICache>, Option<Snapshot>)>
  {
    match FetchAll(strategy, symbol, f)
    case Panicked(why) => Panicked(why)
    case Returned(None) => Returned((caches, None))
    case Returned(Some(cs)) =>
      match Compute(build, strategy, env, symbol, cs, f, CachedOrEmpty(caches, symbol))
      case Panicked(why) => Panicked(why)
      case Returned(None) => Returned((caches, None))
      case Returned(Some(snapshot)) =>
        var md := MarketDataOf(snapshot);
        if md.Some? then Returned((Updated(caches, maxSize, symbol, md.value.oiCurrent, f.now), Some(snapshot)))
        else Returned((caches, Some(snapshot)))
  }

  /** A pass over `symbols` for one account: the final cache and the emitted
      snapshots, or the panic that ends the process. */
  function Pass(build: Build, strategy: Strategy, env: Env, caches: map<string, OICache>, maxSize: nat,
                accountID: string, symbols: seq<string>, feed: Feed)
    : Outcome<(map<string, OICache>, seq<Snapshot>)>
  {
    if |symbols| == 0 then Returned((caches, []))
    else
      var n := |symbols| - 1;
      match Pass(build, strategy, env, caches, maxSize, accountID, symbols[..n], feed)
      case Panicked(why) => Panicked(why)
      case Returned((c, out)) =>
        match Step(build, strategy, env, c, maxSize, symbols[n], feed(accountID, n, symbols[n]))
        case Panicked(why) => Panicked(why)
        case Returned((c', emitted)) => Returned((c', if emitted.Some? then out + [emitted.value] else out))
  }

  /** Once a prefix of the pass panics, so does every longer prefix. */
  lemma {:induction false} PassPanicSticks(build: Build, strategy: Strategy, env: Env, caches: map<string, OICache>, maxSize: nat,
                                           accountID: string, symbols: seq<string>, feed: Feed, n: nat)
    requires n <= |symbols| && Pass(build, strategy, env, caches, maxSize, accountID, symbols[..n], feed).Panicked?
    ensures Pass(build, strategy, env, caches, maxSize, accountID, symbols, feed).Panicked?
    decreases |symbols| - n
  {
    if n < |symbols| {
      assert symbols[..n + 1][..n] == symbols[..n];
      PassPanicSticks(build, strategy, env, caches, maxSize, accountID, symbols, feed, n + 1);
    } else {
      assert symbols[..n] == symbols;
    }
  }

  /** One more iteration extends the pass by one step. */
  lemma PassExtends(build: Build, strategy: Strategy, env: Env, caches: map<string, OICache>, maxSize: nat,
                    accountID: string, symbols: seq<string>, feed: Feed, i: nat,
                    c: map<string, OICache>, out: seq<Snapshot>)
    requires i < |symbols|
    requires Pass(build, strategy, env, caches, maxSize, accountID, symbols[..i], feed) == Returned((c, out))
    ensures Pass(build, strategy, env, caches, maxSize, accountID, symbols[..i + 1], feed) ==
      match Step(build, strategy, env, c, maxSize, symbols[i], feed(accountID, i, symbols[i]))
      case Panicked(why) => Panicked(why)
      case Returned((c', emitted)) => Returned((c', if emitted.Some? then out + [emitted.value] else out))
  {
    assert symbols[..i + 1][..i] == symbols[..i];
  }

  /** One iteration of either pass, on the shared cache. */
  method ProcessSymbol(build: Build, strategy: Strategy, env: Env, symbol: string, mgr: OICacheManager, f: SymbolFeed)
    returns (outcome: Outcome<Option<Snapshot>>)
    requires mgr.Valid()
    modifies mgr
    ensures mgr.Valid()
    ensures outcome.Panicked? ==> Step(build, strategy, env, old(mgr.caches), mgr.maxSize, symbol, f).Panicked?
    ensures outcome.Returned? ==> Step(build, strategy, env, old(mgr.caches), mgr.maxSize, symbol, f) == Returned((mgr.caches, outcome.value))
  {
    var candles := FetchCandles(strategy, symbol, f);
    if candles.Panicked? {
      return Panicked(candles.reason);
    }
    if candles.value.None? {
      return Returned(None);
    }
    var cached := mgr.Get(symbol);
    var oiCache := if cached.Some? then cached.value else OICache(symbol, [], []);
    assert oiCache == CachedOrEmpty(old(mgr.caches), symbol);
    var result := Compute(build, strategy, env, symbol, candles.value.value, f, oiCache);
    if result.Panicked? {
      return Panicked(result.reason);
    }
    if result.value.None? {
      return Returned(None);
    }
    var snapshot := result.value.value;
    var marketData := MarketDataOf(snapshot);
    if marketData.Some? {
      mgr.Update(symbol, marketData.value.oiCurrent, f.now);
    }
    return Returned(Some(snapshot));
  }

  /** The loop shared by the short and the long pass. */
  method RunPass(build: Build, strategy: Strategy, env: Env, symbols: seq<string>, mgr: OICacheManager, accountID: string, feed: Feed)
    returns (outcome: Outcome<seq<Snapshot>>)
    requires mgr.Valid()
    modifies mgr
    ensures mgr.Valid()
    ensures var p := Pass(build, strategy, env, old(mgr.caches), mgr.maxSize, accountID, symbols, feed);
      (outcome.Panicked? <==> p.Panicked?) &&
      (p.Returned? ==> mgr.caches == p.value.0 && outcome.value == p.value.1)
  {
    ghost var start := mgr.caches;
    var emitted: seq<Snapshot> := [];
    var i := 0;
    while i < |symbols|
      invariant 0 <= i <= |symbols|
      invariant mgr.Valid()
      invariant Pass(build, strategy, env, start, mgr.maxSize, accountID, symbols[..i], feed) == Returned((mgr.caches, emitted))
    {
      ghost var before := mgr.caches;
      var result := ProcessSymbol(build, strategy, env, symbols[i], mgr, feed(accountID, i, symbols[i]));
      if result.Panicked? {
        PassStepPanics(build, strategy, env, start, mgr.maxSize, accountID, symbols, feed, i, before, emitted);
        return Panicked(result.reason);
      }
      PassStepReturns(build, strategy, env, start, mgr.maxSize, accountID, symbols, feed, i, before, emitted, mgr.caches, result.value);
      if result.value.Some? {
        emitted := emitted + [result.value.value];
      }
      i := i + 1;
    }
    assert symbols[..i] == symbols;
    return Returned(emitted);
  }

  /** A step that panics ends the whole pass in a panic. */
  lemma PassStepPanics(build: Build, strategy: Strategy, env: Env, caches: map<string, OICache>, maxSize: nat,
                       accountID: string, symbols: seq<string>, feed: Feed, i: nat, c: map<string, OICache>, out: seq<Snapshot>)
    requires i < |symbols|
    requires Pass(build, strategy, env, caches, maxSize, accountID, symbols[..i], feed) == Returned((c, out))
    requires Step(build, strategy, env, c, maxSize, symbols[i], feed(accountID, i, symbols[i])).Panicked?
    ensures Pass(build, strategy, env, caches, maxSize, accountID, symbols, feed).Panicked?
  {
    PassExtends(build, strategy, env, caches, maxSize, accountID, symbols, feed, i, c, out);
    PassPanicSticks(build, strategy, env, caches, maxSize, accountID, symbols, feed, i + 1);
  }

  /** A step that returns extends the pass by its cache and its snapshot. */
  lemma PassStepReturns(build: Build, strategy: Strategy, env: Env, caches: map<string, OICache>, maxSize: nat,
                        accountID: string, symbols: seq<string>, feed: Feed, i: nat, c: map<string, OICache>, out: seq<Snapshot>,
                        c': map<string, OICache>, emitted: Option<Snapshot>)
    requires i < |symbols|
    requires Pass(build, strategy, env, caches, maxSize, accountID, symbols[..i], feed) == Returned((c, out))
    requires Step(build, strategy, env, c, maxSize, symbols[i], feed(accountID, i, symbols[i])) == Returned((c', emitted))
    ensures Pass(build, strategy, env, caches, maxSize, accountID, symbols[..i + 1], feed) ==
      Returned((c', if emitted.Some? then out + [emitted.value] else out))
  {
    PassExtends(build, strategy, env, caches, maxSize, accountID, symbols, feed, i, c, out);
  }

  /** `processShortTermStrategy`. */
  method ProcessShortTermStrategy(build: Build, env: Env, symbols: seq<string>, mgr: OICacheManager, accountID: string, feed: Feed)
    returns (outcome: Outcome<seq<Snapshot>>)
    requires mgr.Valid()
    modifies mgr
    ensures mgr.Valid()
    ensures var p := Pass(build, ShortTermStrategy, env, old(mgr.caches), mgr.maxSize, accountID, symbols, feed);
      (outcome.Panicked? <==> p.Panicked?) &&
      (p.Returned? ==> mgr.caches == p.value.0 && outcome.value == p.value.1)
  {
    outcome := RunPass(build, ShortTermStrategy, env, symbols, mgr, accountID, feed);
  }

  /** `processLongTermStrategy`. */
  method ProcessLongTermStrategy(build: Build, env: Env, symbols: seq<string>, mgr: OICacheManager, accountID: string, feed: Feed)
    returns (outcome: Outcome<seq<Snapshot>>)
    requires mgr.Valid()
    modifies mgr
    ensures mgr.Valid()
    ensures var p := Pass(build, LongTermStrategy, env, old(mgr.caches), mgr.maxSize, accountID, symbols, feed);
      (outcome.Panicked? <==> p.Panicked?) &&
      (p.Returned? ==> mgr.caches == p.value.0 && outcome.value == p.value.1)
  {
    outcome := RunPass(build, LongTermStrategy, env, symbols, mgr, accountID, feed);
  }

  /** A candle fetch that fails after the earlier ones decoded skips the
      symbol, whatever the later replies hold: no cache write and no output. */
  lemma FailedFetchSkips(build: Build, strategy: Strategy, env: Env, caches: map<string, OICache>, maxSize: nat,
                         symbol: string, f: SymbolFeed, k: nat)
    requires k < 3 && !CandleReply(f, strategy, symbol, k).Body?
    requires forall j :: 0 <= j < k ==> Decodes(CandleReply(f, strategy, symbol, j))
    ensures Step(build, strategy, env, caches, maxSize, symbol, f) == Returned((caches, None))
  {
    if k == 1 {
      assert Decodes(CandleReply(f, strategy, symbol, 0));
    } else if k == 2 {
      assert Decodes(CandleReply(f, strategy, symbol, 0)) && Decodes(CandleReply(f, strategy, symbol, 1));
    }
  }

  /** A candle reply with an ill-typed row ends the step in a panic in either
      build; with the guard, that is the only way a step panics. */
  lemma StepPanics(build: Build, strategy: Strategy, env: Env, caches: map<string, OICache>, maxSize: nat,
                   symbol: string, f: SymbolFeed)
    ensures FetchAll(strategy, symbol, f).Panicked? ==> Step(build, strategy, env, caches, maxSize, symbol, f).Panicked?
    ensures build == Guarded && Step(build, strategy, env, caches, maxSize, symbol, f).Panicked? ==>
      FetchAll(strategy, symbol, f).Panicked?
  {
    var r := FetchAll(strategy, symbol, f);
    if build == Guarded && r.Returned? && r.value.Some? {
      var cs := r.value.value;
      assert Compute(Guarded, strategy, env, symbol, cs, f, CachedOrEmpty(caches, symbol)).Returned?;
    }
  }

  /** A step writes only its own symbol, and only when it emits a snapshot
      that carries market data: then the snapshot's open interest at the
      feed's clock. As written, every emitted snapshot carries market data
      (its absence is a panic). */
  lemma StepWrites(build: Build, strategy: Strategy, env: Env, caches: map<string, OICache>, maxSize: nat, symbol: string, f: SymbolFeed)
    requires Step(build, strategy, env, caches, maxSize, symbol, f).Returned?
    ensures var (c, emitted) := Step(build, strategy, env, caches, maxSize, symbol, f).value;
      (emitted.None? ==> c == caches) &&
      (emitted.Some? && MarketDataOf(emitted.value).None? ==> c == caches) &&
      (emitted.Some? && MarketDataOf(emitted.value).Some? ==>
         c == Updated(caches, maxSize, symbol, MarketDataOf(emitted.value).value.oiCurrent, f.now)) &&
      (build == AsWritten && emitted.Some? ==> MarketDataOf(emitted.value).Some?)
  {
    var fetched := FetchAll(strategy, symbol, f);
    if fetched.Returned? && fetched.value.Some? {
      var cs := fetched.value.value;
      var r := Compute(build, strategy, env, symbol, cs, f, CachedOrEmpty(caches, symbol));
      assert Step(build, strategy, env, caches, maxSize, symbol, f) ==
        match r
        case Panicked(why) => Panicked(why)
        case Returned(None) => Returned((caches, None))
        case Returned(Some(snapshot)) =>
          if MarketDataOf(snapshot).Some? then
            Returned((Updated(caches, maxSize, symbol, MarketDataOf(snapshot).value.oiCurrent, f.now), Some(snapshot)))
          else Returned((caches, Some(snapshot)));
      if build == AsWritten {
        AsWrittenAttachesMarketData(strategy, env, symbol, cs, f, CachedOrEmpty(caches, symbol));
      }
    }
  }

  /** As written, a computed snapshot always carries market data: its
      absence is a panic. */
  lemma AsWrittenAttachesMarketData(strategy: Strategy, env: Env, symbol: string, cs: seq<seq<Kline>>, f: SymbolFeed, cache: OICache)
    requires |cs| == 3
    ensures var r := Compute(AsWritten, strategy, env, symbol, cs, f, cache);
      r.Returned? && r.value.Some? ==> MarketDataOf(r.value.value).Some?
  {
    match strategy
    case ShortTermStrategy =>
      var r := CalculateShortTermIndicatorsWithMarket(env.parse, env.lib, symbol, cs[0], cs[1],
                                                      cs[2], f.now, f.market, Some(cache));
      assert r.Returned? && r.value.Some? ==> r.value.value.marketData.Some?;
    case LongTermStrategy =>
      var r := CalculateLongTermIndicatorsWithMarket(env.parse, env.lib, symbol, cs[0], cs[1],
                                                     cs[2], f.now, f.market, Some(cache));
      assert r.Returned? && r.value.Some? ==> r.value.value.marketData.Some?;
  }

  /** A symbol missing from the cache is computed against an empty history,
      so its snapshot's market data carries no history and no change rates. */
  lemma ColdSymbolHasNoChanges(build: Build, strategy: Strategy, env: Env, caches: map<string, OICache>, maxSize: nat, symbol: string, f: SymbolFeed)
    requires symbol !in caches
    requires Step(build, strategy, env, caches, maxSize, symbol, f).Returned?
    requires Step(build, strategy, env, caches, maxSize, symbol, f).value.1.Some?
    ensures var md := MarketDataOf(Step(build, strategy, env, caches, maxSize, symbol, f).value.1.value);
      md.Some? ==> md.value.oiHistory == [] && md.value.oiChange5m.None? && md.value.oiChange15m.None? &&
                   md.value.oiChange25m.None? && md.value.oiChange45m.None? && md.value.oiChange75m.None?
  {
    var cs := FetchAll(strategy, symbol, f).value.value;
    assert CachedOrEmpty(caches, symbol) == EmptyCache(symbol);
    ColdComputeHasNoChanges(build, strategy, env, symbol, cs, f);
  }

  /** `ColdSymbolHasNoChanges` for one computation against an empty entry. */
  lemma ColdComputeHasNoChanges(build: Build, strategy: Strategy, env: Env, symbol: string, cs: seq<seq<Kline>>, f: SymbolFeed)
    requires |cs| == 3
    ensures var r := Compute(build, strategy, env, symbol, cs, f, EmptyCache(symbol));
      r.Returned? && r.value.Some? && MarketDataOf(r.value.value).Some? ==>
        var md := MarketDataOf(r.value.value).value;
        md.oiHistory == [] && md.oiChange5m.None? && md.oiChange15m.None? &&
        md.oiChange25m.None? && md.oiChange45m.None? && md.oiChange75m.None?
  {
    var cache := EmptyCache(symbol);
    forall price: real | CalculateMarketData(env.parse, price, f.market, Some(cache)).Some?
      ensures var md := CalculateMarketData(env.parse, price, f.market, Some(cache)).value;
        md.oiHistory == [] && md.oiChange5m.None? && md.oiChange15m.None? &&
        md.oiChange25m.None? && md.oiChange45m.None? && md.oiChange75m.None?
    {
      ColdStartHasNoChanges(env.parse, price, f.market, Some(cache));
    }
    var r := Compute(build, strategy, env, symbol, cs, f, cache);
    if r.Returned? && r.value.Some? && MarketDataOf(r.value.value).Some? {
      match strategy
      case ShortTermStrategy =>
        var base := CalculateShortTermIndicators(env.parse, env.lib, symbol, cs[0], cs[1], cs[2], f.now);
        assert MarketDataOf(r.value.value) == CalculateMarketData(env.parse, EntryPrice(base.value), f.market, Some(cache));
      case LongTermStrategy =>
        var base := CalculateLongTermIndicators(env.parse, env.lib, symbol, cs[0], cs[1], cs[2], f.now);
        assert MarketDataOf(r.value.value) == CalculateMarketData(env.parse, LongEntryPrice(base.value), f.market, Some(cache));
    }
  }

  /** Some iteration of the pass meets a candle reply with an ill-typed row
      (after the earlier replies of that iteration decoded). */
  predicate CandlesPanicIn(strategy: Strategy, accountID: string, symbols: seq<string>, feed: Feed)
  {
    exists i :: 0 <= i < |symbols| && FetchAll(strategy, symbols[i], feed(accountID, i, symbols[i])).Panicked?
  }

  lemma CandlesPanicInSnoc(strategy: Strategy, accountID: string, symbols: seq<string>, feed: Feed)
    requires |symbols| > 0
    ensures var n := |symbols| - 1;
      CandlesPanicIn(strategy, accountID, symbols, feed) <==>
        CandlesPanicIn(strategy, accountID, symbols[..n], feed) ||
        FetchAll(strategy, symbols[n], feed(accountID, n, symbols[n])).Panicked?
  {
    var n := |symbols| - 1;
    if CandlesPanicIn(strategy, accountID, symbols, feed) {
      var i :| 0 <= i < |symbols| && FetchAll(strategy, symbols[i], feed(accountID, i, symbols[i])).Panicked?;
      if i < n {
        assert symbols[..n][i] == symbols[i];
      }
    }
    if CandlesPanicIn(strategy, accountID, symbols[..n], feed) {
      var i :| 0 <= i < n && FetchAll(strategy, symbols[..n][i], feed(accountID, i, symbols[..n][i])).Panicked?;
      assert symbols[..n][i] == symbols[i];
    }
  }

  /** A candle reply with an ill-typed row ends the pass in a panic in either
      build; with the guard, no pass panics otherwise. */
  lemma {:induction false} PassPanics(build: Build, strategy: Strategy, env: Env, caches: map<string, OICache>, maxSize: nat,
                                      accountID: string, symbols: seq<string>, feed: Feed)
    ensures CandlesPanicIn(strategy, accountID, symbols, feed) ==>
      Pass(build, strategy, env, caches, maxSize, accountID, symbols, feed).Panicked?
    ensures build == Guarded && Pass(build, strategy, env, caches, maxSize, accountID, symbols, feed).Panicked? ==>
      CandlesPanicIn(strategy, accountID, symbols, feed)
  {
    if |symbols| > 0 {
      var n := |symbols| - 1;
      PassPanics(build, strategy, env, caches, maxSize, accountID, symbols[..n], feed);
      CandlesPanicInSnoc(strategy, accountID, symbols, feed);
      var p := Pass(build, strategy, env, caches, maxSize, accountID, symbols[..n], feed);
      if p.Returned? {
        StepPanics(build, strategy, env, p.value.0, maxSize, symbols[n], feed(accountID, n, symbols[n]));
      }
    } else {
      assert !CandlesPanicIn(strategy, accountID, symbols, feed);
    }
  }

  /** A pass leaves the entries of symbols it does not visit untouched. */
  lemma {:induction false} PassFrame(build: Build, strategy: Strategy, env: Env, caches: map<string, OICache>, maxSize: nat,
                                     accountID: string, symbols: seq<string>, feed: Feed, k: string)
    requires k !in symbols
    requires Pass(build, strategy, env, caches, maxSize, accountID, symbols, feed).Returned?
    ensures var c := Pass(build, strategy, env, caches, maxSize, accountID, symbols, feed).value.0;
      (k in c <==> k in caches) && (k in caches ==> c[k] == caches[k])
  {
    if |symbols| > 0 {
      var n := |symbols| - 1;
      assert symbols[n] != k;
      assert k !in symbols[..n];
      PassFrame(build, strategy, env, caches, maxSize, accountID, symbols[..n], feed, k);
      var c := Pass(build, strategy, env, caches, maxSize, accountID, symbols[..n], feed).value.0;
      var f := feed(accountID, n, symbols[n]);
      StepWrites(build, strategy, env, c, maxSize, symbols[n], f);
      var emitted := Step(build, strategy, env, c, maxSize, symbols[n], f).value.1;
      if emitted.Some? && MarketDataOf(emitted.value).Some? {
        UpdatedFrame(c, maxSize, symbols[n], MarketDataOf(emitted.value).value.oiCurrent, f.now, k);
      }
    }
  }

  /** The number of samples a cache holds for `k`, 0 when absent. */
  function SampleCount(caches: map<string, OICache>, k: string): nat
  {
    if k in caches then |caches[k].history| else 0
  }

  /** Over distinct symbols, a pass adds at most one sample per symbol. */
  lemma {:induction false} PassAddsAtMostOne(build: Build, strategy: Strategy, env: Env, caches: map<string, OICache>, maxSize: nat,
                                             accountID: string, symbols: seq<string>, feed: Feed, k: string)
    requires forall i, j :: 0 <= i < j < |symbols| ==> symbols[i] != symbols[j]
    requires Pass(build, strategy, env, caches, maxSize, accountID, symbols, feed).Returned?
    ensures SampleCount(Pass(build, strategy, env, caches, maxSize, accountID, symbols, feed).value.0, k) <= SampleCount(caches, k) + 1
  {
    if |symbols| > 0 {
      var n := |symbols| - 1;
      var s := symbols[n];
      var init := symbols[..n];
      var c := Pass(build, strategy, env, caches, maxSize, accountID, init, feed).value.0;
      var f := feed(accountID, n, s);
      StepWrites(build, strategy, env, c, maxSize, s, f);
      var emitted := Step(build, strategy, env, c, maxSize, s, f).value.1;
      if k == s {
        assert s !in init;
        PassFrame(build, strategy, env, caches, maxSize, accountID, init, feed, s);
      } else {
        PassAddsAtMostOne(build, strategy, env, caches, maxSize, accountID, init, feed, k);
        if emitted.Some? && MarketDataOf(emitted.value).Some? {
          UpdatedFrame(c, maxSize, s, MarketDataOf(emitted.value).value.oiCurrent, f.now, k);
        }
      }
    }
  }

  /** All passes share one cache: two emitting steps on the same symbol, by
      two accounts of one strategy or by a short and a long pass, leave two
      samples, the later one first. A slot is therefore not a fixed number
      of minutes. */
  lemma SharedCacheTakesBothSamples(build: Build, env: Env, caches: map<string, OICache>, maxSize: nat, symbol: string,
                                    st1: Strategy, f1: SymbolFeed, c1: map<string, OICache>, s1: Snapshot,
                                    st2: Strategy, f2: SymbolFeed, c2: map<string, OICache>, s2: Snapshot)
    requires maxSize >= 2
    requires Step(build, st1, env, caches, maxSize, symbol, f1) == Returned((c1, Some(s1)))
    requires Step(build, st2, env, c1, maxSize, symbol, f2) == Returned((c2, Some(s2)))
    requires build == AsWritten || (MarketDataOf(s1).Some? && MarketDataOf(s2).Some?)
    ensures MarketDataOf(s1).Some? && MarketDataOf(s2).Some? &&
            symbol in c2 && |c2[symbol].history| >= 2 && |c2[symbol].timestamps| >= 2 &&
            c2[symbol].history[..2] == [MarketDataOf(s2).value.oiCurrent, MarketDataOf(s1).value.oiCurrent] &&
            c2[symbol].timestamps[..2] == [f2.now, f1.now]
  {
    StepWrites(build, st1, env, caches, maxSize, symbol, f1);
    StepWrites(build, st2, env, c1, maxSize, symbol, f2);
    UpdatedTwice(caches, maxSize, symbol, MarketDataOf(s1).value.oiCurrent, f1.now,
                 MarketDataOf(s2).value.oiCurrent, f2.now);
  }

  lemma UpdatedTwice(caches: map<string, OICache>, maxSize: nat, symbol: string, oi1: real, t1: int, oi2: real, t2: int)
    requires maxSize >= 2
    ensures var c := Updated(Updated(caches, maxSize, symbol, oi1, t1), maxSize, symbol, oi2, t2);
      symbol in c && |c[symbol].history| >= 2 && c[symbol].history[..2] == [oi2, oi1] &&
      c[symbol].timestamps[..2] == [t2, t1]
  {
    var e0 := CachedOrEmpty(caches, symbol);
    PushTwice(e0.history, oi1, oi2, maxSize);
    PushTwice(e0.timestamps, t1, t2, maxSize);
  }

  lemma PushTwice<T>(s: seq<T>, x: T, y: T, n: nat)
    requires n >= 2
    ensures var r := Push(Push(s, x, n), y, n); |r| >= 2 && r[..2] == [y, x]
  {
    var r := Push(Push(s, x, n), y, n);
    assert r[0] == y && r[1] == x;
  }

  /** Which tick the dispatch runs on. */
  datatype Tick = InitialTick | ShortTick | LongTick

  /** The pass an account's strategy string selects on a tick: both known
      strategies at start-up, only its own on each ticker, nothing for an
      unknown strategy. */
  function Route(tick: Tick, strategy: string): (r: Option<Strategy>)
    ensures r == Some(ShortTermStrategy) <==> strategy == "short_term" && tick != LongTick
    ensures r == Some(LongTermStrategy) <==> strategy == "long_term" && tick != ShortTick
  {
    match tick
    case InitialTick =>
      if strategy == "short_term" then Some(ShortTermStrategy)
      else if strategy == "long_term" then Some(LongTermStrategy)
      else None
    case ShortTick => if strategy == "short_term" then Some(ShortTermStrategy) else None
    case LongTick => if strategy == "long_term" then Some(LongTermStrategy) else None
  }

  /** The passes of one tick over the enabled accounts, in order. */
  function Dispatched(build: Build, tick: Tick, env: Env, caches: map<string, OICache>, maxSize: nat,
                      accounts: seq<Account>, symbols: seq<string>, feed: Feed)
    : Outcome<(map<string, OICache>, seq<Snapshot>)>
  {
    if |accounts| == 0 then Returned((caches, []))
    else
      var n := |accounts| - 1;
      match Dispatched(build, tick, env, caches, maxSize, accounts[..n], symbols, feed)
      case Panicked(why) => Panicked(why)
      case Returned((c, out)) =>
        match AccountTurn(build, tick, env, c, maxSize, accounts[n], symbols, feed)
        case Panicked(why) => Panicked(why)
        case Returned((c', more)) => Returned((c', out + more))
  }

  /** One account's turn on a tick: the pass its strategy selects, or nothing. */
  function AccountTurn(build: Build, tick: Tick, env: Env, caches: map<string, OICache>, maxSize: nat,
                       account: Account, symbols: seq<string>, feed: Feed)
    : Outcome<(map<string, OICache>, seq<Snapshot>)>
  {
    match Route(tick, account.strategy)
    case None => Returned((caches, []))
    case Some(strategy) => Pass(build, strategy, env, caches, maxSize, account.id, symbols, feed)
  }

  lemma {:induction false} DispatchedPanicSticks(build: Build, tick: Tick, env: Env, caches: map<string, OICache>, maxSize: nat,
                                                 accounts: seq<Account>, symbols: seq<string>, feed: Feed, n: nat)
    requires n <= |accounts| && Dispatched(build, tick, env, caches, maxSize, accounts[..n], symbols, feed).Panicked?
    ensures Dispatched(build, tick, env, caches, maxSize, accounts, symbols, feed).Panicked?
    decreases |accounts| - n
  {
    if n < |accounts| {
      assert accounts[..n + 1][..n] == accounts[..n];
      DispatchedPanicSticks(build, tick, env, caches, maxSize, accounts, symbols, feed, n + 1);
    } else {
      assert accounts[..n] == accounts;
    }
  }

  /** One more account extends the dispatch by its pass, if the tick routes it. */
  lemma DispatchedExtends(build: Build, tick: Tick, env: Env, caches: map<string, OICache>, maxSize: nat,
                          accounts: seq<Account>, symbols: seq<string>, feed: Feed, i: nat,
                          c: map<string, OICache>, out: seq<Snapshot>)
    requires i < |accounts|
    requires Dispatched(build, tick, env, caches, maxSize, accounts[..i], symbols, feed) == Returned((c, out))
    ensures Dispatched(build, tick, env, caches, maxSize, accounts[..i + 1], symbols, feed) ==
      match AccountTurn(build, tick, env, c, maxSize, accounts[i], symbols, feed)
      case Panicked(why) => Panicked(why)
      case Returned((c', more)) => Returned((c', out + more))
  {
    assert accounts[..i + 1][..i] == accounts[..i];
  }

  /** One account's turn on a tick: the pass its strategy selects, if any. */
  method ProcessAccount(build: Build, tick: Tick, env: Env, account: Account, symbols: seq<string>,
                        mgr: OICacheManager, feed: Feed)
    returns (outcome: Outcome<seq<Snapshot>>)
    requires mgr.Valid()
    modifies mgr
    ensures mgr.Valid()
    ensures var t := AccountTurn(build, tick, env, old(mgr.caches), mgr.maxSize, account, symbols, feed);
      (outcome.Panicked? <==> t.Panicked?) &&
      (t.Returned? ==> mgr.caches == t.value.0 && outcome.value == t.value.1)
  {
    var route := Route(tick, account.strategy);
    if route == Some(ShortTermStrategy) {
      outcome := ProcessShortTermStrategy(build, env, symbols, mgr, account.id, feed);
    } else if route == Some(LongTermStrategy) {
      outcome := ProcessLongTermStrategy(build, env, symbols, mgr, account.id, feed);
    } else {
      outcome := Returned([]);
    }
  }

  /** The account loop of the start-up pass and of each ticker. */
  method Dispatch(build: Build, tick: Tick, env: Env, enabled: seq<Account>, symbols: seq<string>, mgr: OICacheManager, feed: Feed)
    returns (outcome: Outcome<seq<Snapshot>>)
    requires mgr.Valid()
    modifies mgr
    ensures mgr.Valid()
    ensures var d := Dispatched(build, tick, env, old(mgr.caches), mgr.maxSize, enabled, symbols, feed);
      (outcome.Panicked? <==> d.Panicked?) &&
      (d.Returned? ==> mgr.caches == d.value.0 && outcome.value == d.value.1)
  {
    var emitted: seq<Snapshot> := [];
    var i := 0;
    while i < |enabled|
      invariant 0 <= i <= |enabled|
      invariant mgr.Valid()
      invariant Dispatched(build, tick, env, old(mgr.caches), mgr.maxSize, enabled[..i], symbols, feed) == Returned((mgr.caches, emitted))
    {
      ghost var before := mgr.caches;
      DispatchedExtends(build, tick, env, old(mgr.caches), mgr.maxSize, enabled, symbols, feed, i, before, emitted);
      var result := ProcessAccount(build, tick, env, enabled[i], symbols, mgr, feed);
      if result.Panicked? {
        DispatchedPanicSticks(build, tick, env, old(mgr.caches), mgr.maxSize, enabled, symbols, feed, i + 1);
        return Panicked(result.reason);
      }
      emitted := emitted + result.value;
      i := i + 1;
    }
    assert enabled[..i] == enabled;
    return Returned(emitted);
  }

  /** A ticker whose strategy no enabled account has leaves the cache as it
      was and emits nothing. */
  lemma {:induction false} IdleTickChangesNothing(build: Build, tick: Tick, env: Env, caches: map<string, OICache>, maxSize: nat,
                                                  accounts: seq<Account>, symbols: seq<string>, feed: Feed)
    requires forall i :: 0 <= i < |accounts| ==> Route(tick, accounts[i].strategy).None?
    ensures Dispatched(build, tick, env, caches, maxSize, accounts, symbols, feed) == Returned((caches, []))
  {
    if |accounts| > 0 {
      var n := |accounts| - 1;
      IdleTickChangesNothing(build, tick, env, caches, maxSize, accounts[..n], symbols, feed);
      assert forall out: seq<Snapshot> :: out + [] == out;
    }
  }

  /** The tick routes the account to a pass that meets an ill-typed candle row. */
  predicate TurnCandlesPanic(tick: Tick, account: Account, symbols: seq<string>, feed: Feed)
  {
    Route(tick, account.strategy).Some? &&
    CandlesPanicIn(Route(tick, account.strategy).value, account.id, symbols, feed)
  }

  /** Some account of the tick meets an ill-typed candle row. */
  predicate TickCandlesPanic(tick: Tick, accounts: seq<Account>, symbols: seq<string>, feed: Feed)
  {
    exists a :: 0 <= a < |accounts| && TurnCandlesPanic(tick, accounts[a], symbols, feed)
  }

  lemma TickCandlesPanicSnoc(tick: Tick, accounts: seq<Account>, symbols: seq<string>, feed: Feed)
    requires |accounts| > 0
    ensures var n := |accounts| - 1;
      TickCandlesPanic(tick, accounts, symbols, feed) <==>
        TickCandlesPanic(tick, accounts[..n], symbols, feed) || TurnCandlesPanic(tick, accounts[n], symbols, feed)
  {
    var n := |accounts| - 1;
    if TickCandlesPanic(tick, accounts, symbols, feed) {
      var a :| 0 <= a < |accounts| && TurnCandlesPanic(tick, accounts[a], symbols, feed);
      if a < n {
        assert accounts[..n][a] == accounts[a];
        assert TickCandlesPanic(tick, accounts[..n], symbols, feed);
      }
    }
    if TickCandlesPanic(tick, accounts[..n], symbols, feed) {
      var a :| 0 <= a < n && TurnCandlesPanic(tick, accounts[..n][a], symbols, feed);
      assert accounts[..n][a] == accounts[a];
      assert TickCandlesPanic(tick, accounts, symbols, feed);
    }
    if TurnCandlesPanic(tick, accounts[n], symbols, feed) {
      assert TickCandlesPanic(tick, accounts, symbols, feed);
    }
  }

  /** A tick whose routed passes meet an ill-typed candle row panics in either
      build; with the guard, no tick panics otherwise. */
  lemma {:induction false} DispatchPanics(build: Build, tick: Tick, env: Env, caches: map<string, OICache>, maxSize: nat,
                                          accounts: seq<Account>, symbols: seq<string>, feed: Feed)
    ensures TickCandlesPanic(tick, accounts, symbols, feed) ==>
      Dispatched(build, tick, env, caches, maxSize, accounts, symbols, feed).Panicked?
    ensures build == Guarded && Dispatched(build, tick, env, caches, maxSize, accounts, symbols, feed).Panicked? ==>
      TickCandlesPanic(tick, accounts, symbols, feed)
  {
    if |accounts| > 0 {
      var n := |accounts| - 1;
      DispatchPanics(build, tick, env, caches, maxSize, accounts[..n], symbols, feed);
      TickCandlesPanicSnoc(tick, accounts, symbols, feed);
      var d := Dispatched(build, tick, env, caches, maxSize, accounts[..n], symbols, feed);
      if d.Returned? {
        var route := Route(tick, accounts[n].strategy);
        if route.Some? {
          PassPanics(build, route.value, env, d.value.0, maxSize, accounts[n].id, symbols, feed);
        }
      }
    } else {
      assert !TickCandlesPanic(tick, accounts, symbols, feed);
    }
  }

  /** The one cache manager every pass shares holds five samples per symbol. */
  const SharedCacheSize := 5

  /** A run: the ticks in order, each dispatched with its own feed against
      the cache the previous tick left. */
  function Served(build: Build, env: Env, caches: map<string, OICache>, maxSize: nat, enabled: seq<Account>,
                  symbols: seq<string>, ticks: seq<Tick>, feeds: seq<Feed>)
    : Outcome<(map<string, OICache>, seq<Snapshot>)>
    requires |feeds| == |ticks|
  {
    if |ticks| == 0 then Returned((caches, []))
    else
      var n := |ticks| - 1;
      match Served(build, env, caches, maxSize, enabled, symbols, ticks[..n], feeds[..n])
      case Panicked(why) => Panicked(why)
      case Returned((c, out)) =>
        match Dispatched(build, ticks[n], env, c, maxSize, enabled, symbols, feeds[n])
        case Panicked(why) => Panicked(why)
        case Returned((c', more)) => Returned((c', out + more))
  }

  lemma ServedExtends(build: Build, env: Env, caches: map<string, OICache>, maxSize: nat, enabled: seq<Account>,
                      symbols: seq<string>, ticks: seq<Tick>, feeds: seq<Feed>, i: nat,
                      c: map<string, OICache>, out: seq<Snapshot>)
    requires |feeds| == |ticks| && i < |ticks|
    requires Served(build, env, caches, maxSize, enabled, symbols, ticks[..i], feeds[..i]) == Returned((c, out))
    ensures Served(build, env, caches, maxSize, enabled, symbols, ticks[..i + 1], feeds[..i + 1]) ==
      match Dispatched(build, ticks[i], env, c, maxSize, enabled, symbols, feeds[i])
      case Panicked(why) => Panicked(why)
      case Returned((c', more)) => Returned((c', out + more))
  {
    assert ticks[..i + 1][..i] == ticks[..i];
    assert feeds[..i + 1][..i] == feeds[..i];
  }

  lemma {:induction false} ServedPanicSticks(build: Build, env: Env, caches: map<string, OICache>, maxSize: nat, enabled: seq<Account>,
                                             symbols: seq<string>, ticks: seq<Tick>, feeds: seq<Feed>, n: nat)
    requires |feeds| == |ticks| && n <= |ticks|
    requires Served(build, env, caches, maxSize, enabled, symbols, ticks[..n], feeds[..n]).Panicked?
    ensures Served(build, env, caches, maxSize, enabled, symbols, ticks, feeds).Panicked?
    decreases |ticks| - n
  {
    if n < |ticks| {
      assert ticks[..n + 1][..n] == ticks[..n];
      assert feeds[..n + 1][..n] == feeds[..n];
      ServedPanicSticks(build, env, caches, maxSize, enabled, symbols, ticks, feeds, n + 1);
    } else {
      assert ticks[..n] == ticks && feeds[..n] == feeds;
    }
  }

  /** The main program after configuration: the shared cache manager is
      created with room for five samples, the start-up tick runs every
      enabled account, and then each ticker tick runs the accounts of its
      strategy, all against that one cache. */
  method Serve(build: Build, env: Env, enabled: seq<Account>, symbols: seq<string>, ticks: seq<Tick>, feeds: seq<Feed>)
    returns (mgr: OICacheManager, outcome: Outcome<seq<Snapshot>>)
    requires |feeds| == |ticks| && |ticks| > 0 && ticks[0] == InitialTick
    requires forall i :: 1 <= i < |ticks| ==> ticks[i] != InitialTick
    ensures fresh(mgr) && mgr.Valid() && mgr.maxSize == SharedCacheSize
    ensures var s := Served(build, env, map[], SharedCacheSize, enabled, symbols, ticks, feeds);
      (outcome.Panicked? <==> s.Panicked?) &&
      (s.Returned? ==> mgr.caches == s.value.0 && outcome.value == s.value.1)
  {
    mgr := new OICacheManager(SharedCacheSize);
    var emitted: seq<Snapshot> := [];
    var i := 0;
    while i < |ticks|
      invariant 0 <= i <= |ticks|
      invariant fresh(mgr) && mgr.Valid() && mgr.maxSize == SharedCacheSize
      invariant Served(build, env, map[], SharedCacheSize, enabled, symbols, ticks[..i], feeds[..i]) == Returned((mgr.caches, emitted))
    {
      ServedExtends(build, env, map[], SharedCacheSize, enabled, symbols, ticks, feeds, i, mgr.caches, emitted);
      var result := Dispatch(build, ticks[i], env, enabled, symbols, mgr, feeds[i]);
      if result.Panicked? {
        ServedPanicSticks(build, env, map[], SharedCacheSize, enabled, symbols, ticks, feeds, i + 1);
        return mgr, Panicked(result.reason);
      }
      emitted := emitted + result.value;
      i := i + 1;
    }
    assert ticks[..i] == ticks && feeds[..i] == feeds;
    return mgr, Returned(emitted);
  }

  /** The arguments of `NewClient(apiKey, apiSecret, baseURL, proxyURL)`. */
  datatype ClientArgs = ClientArgs(apiKey: string, apiSecret: string, baseURL: string, proxyURL: string)

  /** The client arguments the main program passes, as written: the futures
      URL first, then the key, the secret and the proxy. */
  function ClientArgsAsWritten(cfg: Config, account: Account): (r: ClientArgs)
    ensures r.apiKey == cfg.binance.futuresURL
    ensures r.apiSecret == account.apiKey
    ensures r.baseURL == account.apiSecret
  {
    ClientArgs(cfg.binance.futuresURL, account.apiKey, account.apiSecret, cfg.GetProxyURL())
  }

  /** The intended client arguments. */
  function ClientArgsFor(cfg: Config, account: Account): (r: ClientArgs)
    ensures r.apiKey == account.apiKey && r.apiSecret == account.apiSecret
    ensures r.baseURL == cfg.binance.futuresURL && r.proxyURL == cfg.GetProxyURL()
  {
    ClientArgs(account.apiKey, account.apiSecret, cfg.binance.futuresURL, cfg.GetProxyURL())
  }

  /** A concrete configuration on which the written call sends requests to
      the API secret instead of the exchange. */
  lemma ClientArgsMismatch()
    ensures var cfg := Config(ProxyConfig(false, "", 0), BinanceConfig("https://fapi.binance.com"), "accounts.yml", []);
      var account := Account("a1", "main", "short_term", "minimal", "key", "secret", true);
      ClientArgsAsWritten(cfg, account).baseURL == "secret" &&
      ClientArgsAsWritten(cfg, account) != ClientArgsFor(cfg, account) &&
      ClientArgsFor(cfg, account).baseURL == "https://fapi.binance.com"
  {
  }
}
