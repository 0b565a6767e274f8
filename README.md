# AITrader market-data core in Dafny

This project models the market-data aggregation core of AITrader, a Go trading
bot that polls Binance USDⓈ-M futures and assembles per-symbol indicator
snapshots for the accounts configured to trade them. The model covers:

- the per-symbol open-interest history cache (`OICacheManager`): newest-first
  values and timestamps, bounded by `maxSize`, with expiry and sweeping;
- change-rate derivation and the market snapshot (`CalculateMarketData`): open
  interest in millions, funding rate, three-rate funding average, and change
  rates against cache slots 0, 2 and 4;
- the short-term (1h/15m/5m) and long-term (4h/1h/15m) snapshot gates: 55
  candles per series, fixed roles, market data attached afterwards;
- the length guards of the TA-Lib wrappers, VWAP, and the rounding helpers;
- the main program: the shared five-sample cache; the poll passes (fetch and
  decode the candles, skip on a failed fetch, read the shared cache, compute,
  write the new sample back); and the dispatch of accounts to passes by
  strategy string on start-up and on each ticker;
- the deterministic parts of the exchange client: the query string, the
  signed and unsigned URLs, request parameters, candle-row decoding, USDT
  extraction and the position filter;
- the symbol pool set algebra and the account and configuration validators.

Exchange replies, clock readings, the float parser (`parse: string ->
Option<real>`), the TA-Lib functions, HMAC-SHA256 signing, URL escaping and URL
parsing are parameters. Go values become Dafny values:

- `float64` becomes `real`.
- `int64(f)` becomes truncation toward zero.
- `math.Round` becomes rounding half away from zero.
- A nil pointer becomes `Option`.
- A runtime panic becomes the `Panicked` case of `Outcome`.
- An `error` becomes `Result`.

Each Go file is one module:

| Module | Go file |
|---|---|
| `OICaches` | utils/cache.go |
| `MarketMetrics` | indicators/market.go |
| `IndicatorsCommon` | indicators/common.go |
| `IndicatorTypes` | indicators/types.go |
| `ShortTerm` | indicators/short_term.go |
| `LongTerm` | indicators/long_term.go |
| `Scheduler` | main.go |
| `BinanceClient` | binance/client.go |
| `BinanceKlines` | binance/klines.go |
| `BinanceMarket` | binance/market.go |
| `BinanceAccount` | binance/account.go |
| `SymbolPool` | utils/symbols.go |
| `Accounts` | config/accounts.go |
| `Config` | config/config.go |

`Wrappers`, `Numeric` and `Text` hold the option types, the rounding functions
and the decimal and ordering helpers they share.

The cache manager is a class. Its `caches` map is reassigned by `Update`,
`Clear`, `ClearAll` and `CleanExpired`, and its invariant `Valid()` says that
every entry has equally long histories of at most `maxSize`. Loops in the
source are methods, each proved equal to a specification function, and the
lemmas are stated about those functions.

## Model

Every member that models or states something about the source has a row. The remaining members only serve the proofs and have no row: `BinanceClient.PartsSnoc`, `BinanceClient.SameQueryKeys`, `BinanceClient.PartsAgree`, `IndicatorsCommon.AddWithin`, `Text.IsDigit`, `Text.AllDigits`, `Text.DecimalValue`, `Text.ParseDecimal`, `Text.Elements`, `Text.ConsSorted`, and the `Wrappers` accessors.

| member | source | states |
|---|---|---|
| Numeric.RoundHalfAway | indicators/common.go:232-234 | `math.Round`: the nearest integer, ties away from zero, on both signs |
| Numeric.TruncToward0 | binance/klines.go:76 | `int64(float64)`: truncation toward zero, on both signs |
| Numeric.Round2 | indicators/common.go:232-234 | two-decimal rounding is within 0.005 of its input and lands on a hundredth |
| Numeric.Round4 | indicators/common.go:237-239 | four-decimal rounding is within 0.00005 of its input and lands on a ten-thousandth |
| Numeric.RoundOfInteger | indicators/common.go:232-234 | rounding leaves an integer unchanged |
| Numeric.Round2Idempotent | indicators/common.go:232-234 | rounding an already rounded price changes nothing |
| Numeric.RoundHalfAwayMonotone | indicators/common.go:232-234 | rounding preserves order |
| Numeric.Round2Monotone | indicators/common.go:232-234 | two-decimal rounding preserves order |
| Numeric.Round2Odd | indicators/common.go:232-234 | half-away-from-zero rounding is symmetric: round(-x) = -round(x) |
| Text.DigitChar | binance/klines.go:52 | a digit's character is a decimal digit of that value |
| Text.NatToDecimal | binance/klines.go:52 | `strconv.Itoa` of a natural is non-empty and starts with a digit |
| Text.IntToDecimal | binance/klines.go:52 | `strconv.Itoa` is non-empty and starts with `-` exactly for negatives |
| Text.NatToDecimalRoundTrip | binance/klines.go:52 | the decimal text of a natural is all digits and reads back as that natural |
| Text.IntToDecimalRoundTrip | binance/client.go:87 | the decimal text of any integer parses back to it |
| Text.Join | binance/client.go:206 | `strings.Join` of no parts is empty, and of one part is that part |
| Text.BelowTotal | binance/client.go:197 | the byte order `sort.Strings` uses is total |
| Text.BelowAntisymmetric | binance/client.go:197 | the byte order is antisymmetric |
| Text.BelowTransitive | binance/client.go:197 | the byte order is transitive |
| Text.ElementsMembers | utils/symbols.go:74-77 | a string is in a list's element set iff it occurs in the list |
| Text.ElementsSmall | utils/symbols.go:74-77 | the empty list has no elements and a singleton list has exactly its one |
| Text.ElementsConcat | utils/symbols.go:46-49 | the elements of a concatenation are the union of the elements |
| Text.LeastExists | binance/client.go:197 | every non-empty set of keys has a least key |
| Text.SortedOf | binance/client.go:192-198 | every key set has a strictly sorted listing of exactly its keys |
| Text.StrictlySortedUnique | binance/client.go:192-198 | two strictly sorted listings of one key set are equal, so the query order is canonical |
| Text.InsertSorted | binance/client.go:192-198 | inserting a new key into a sorted listing keeps it sorted and adds just that key |
| Text.Below | binance/client.go:198 | the byte-wise lexicographic order that `sort.Strings` sorts keys by |
| Text.StrictlySorted | binance/client.go:192-198 | a listing in ascending key order without duplicates |
| BinanceClient.QueryString | binance/client.go:186-207 | the canonical query string: the non-signature keys ascending, each `k=escape(v)`, joined with `&`; its properties are the lemmas below |
| BinanceClient.Parts | binance/client.go:201-204 | one `k=escape(v)` part per key, in key order |
| BinanceClient.Part | binance/client.go:203 | one `key=escaped value` pair of the query string |
| BinanceClient.QueryKeys | binance/client.go:192-198 | the emitted keys are the parameter keys other than `signature`, strictly ascending |
| BinanceClient.WithTimestamp | binance/client.go:83-87 | a signed request adds `timestamp` in decimal milliseconds and keeps every other parameter |
| BinanceClient.JoinEmpty | binance/client.go:206 | joining non-empty parts gives `""` iff there are no parts |
| BinanceClient.QueryStringEmpty | binance/client.go:187-189 | the query string is empty iff there is no key besides `signature` |
| BinanceClient.QueryStringIgnoresSignature | binance/client.go:195-197 | a `signature` parameter never affects the query string |
| BinanceClient.QueryStringSingle | binance/client.go:186-207 | a single parameter renders as `k=escape(v)` with no separator |
| BinanceClient.Client.constructor | binance/client.go:38-59 | the client keeps its key, secret and base URL; a proxy is set only for a non-empty URL that parses |
| BinanceClient.Client.SetProxy | binance/client.go:62-78 | the proxy changes only for a non-empty URL that parses; otherwise it stays as it was |
| BinanceClient.Client.BuildQueryString | binance/client.go:186-207 | the loop's output equals the canonical query string |
| BinanceClient.Client.CollectKeys | binance/client.go:190-198 | collecting and sorting the keys yields exactly the sorted non-signature keys |
| BinanceClient.Client.BuildRequest | binance/client.go:81-127 | the API-key and content-type headers; signed URL with timestamp and trailing signature; unsigned URL with `?` only for parameters; a URL or method that `http.NewRequest` rejects gives its error under the request prefix |
| BinanceClient.Client.NewRequest | binance/client.go:118-125 | a rejected method or URL is an error under the request prefix; otherwise the request with the API-key and content-type headers |
| BinanceClient.Client.SignedURL | binance/client.go:90-97 | `base + endpoint + "?" + qs + "&signature=" + hmac(secret, qs)`, signed over the same `qs` |
| BinanceClient.Client.UnsignedURL | binance/client.go:112-116 | `base + endpoint`, with `"?" + qs` only when there are parameters |
| BinanceClient.Client.Sign | binance/client.go:173-183 | the signature is the HMAC, under the secret, of the canonical query string |
| BinanceKlines.KlineParams | binance/klines.go:46-53 | `symbol` and `interval` are always sent, and `limit` (in decimal) exactly when positive |
| BinanceKlines.WellTyped | binance/klines.go:75-87 | positions 0, 6 and 8 of a full row are numbers and the other eight strings |
| BinanceKlines.DecodeRow | binance/klines.go:75-87 | a row decodes iff positions 0, 6 and 8 are numbers and the others are strings, each field taken from its fixed position; otherwise the type assertion panics |
| BinanceKlines.DecodeRows | binance/klines.go:69-90 | the conversion loop over the rows so far: short rows skipped, the rest converted in order, the first ill-typed row a panic; characterised by `DecodeRowsSpec` |
| BinanceKlines.FullRows | binance/klines.go:71-73 | rows shorter than 11 are dropped; at most as many rows remain |
| BinanceKlines.DecodeRowsSpec | binance/klines.go:69-90 | decoding panics iff some full row is ill-typed; otherwise it decodes the full rows in input order, one candle each |
| BinanceKlines.ConvertRows | binance/klines.go:69-90 | the conversion loop computes exactly the decoding specification |
| BinanceKlines.DecodeRowsPanicSticks | binance/klines.go:69-90 | once a row panics, no later row changes the outcome |
| BinanceKlines.FetchedKlines | binance/klines.go:56-90 | panics iff the reply is a body with an ill-typed full row; candles iff it decodes, and then its rows converted; each failure under its prefix |
| BinanceKlines.GetKlines | binance/klines.go:38-98 | the parameters sent; a request failure and a decoding failure each yield their prefixed error; otherwise the decoded candles or the decoding panic |
| BinanceMarket.SymbolParams | binance/market.go:52-54 | exactly one parameter, `symbol` |
| BinanceMarket.FundingRateParams | binance/market.go:83-89 | `symbol` is always sent, and `limit` exactly when positive |
| BinanceMarket.Wrap | binance/market.go:57-64 | a body is returned unchanged; request and decoding failures get their own prefixes |
| BinanceMarket.GetOpenInterest | binance/market.go:49-72 | the symbol parameter, and the reply with the open-interest error prefixes |
| BinanceMarket.GetFundingRateHistory | binance/market.go:77-107 | the symbol and limit parameters, and the reply with the funding-history error prefixes |
| BinanceMarket.GetPremiumIndex | binance/market.go:111-135 | the symbol parameter, and the reply with the premium-index error prefixes |
| BinanceMarket.CalculateOIChange | binance/market.go:141-146 | 0 for a zero previous value; otherwise the unrounded percentage change, `r * previous = (current - previous) * 100` |
| BinanceMarket.OIChangeOfSame | binance/market.go:141-146 | no change gives 0 |
| BinanceMarket.OIChangeSign | binance/market.go:141-146 | for a positive reference, the change is positive iff the value rose, and negative iff it fell |
| BinanceAccount.FindUSDTAsset | binance/account.go:118-124 | the first asset named `USDT`, or the zero asset when there is none |
| BinanceAccount.IsFirstUSDT | binance/account.go:118-124 | the asset is the first one named `USDT`, or the zero asset when none is |
| BinanceAccount.GetAccountInfo | binance/account.go:104-144 | request and decoding errors are prefixed; on success the totals and positions are copied unchanged and the asset is the first USDT one |
| BinanceAccount.CopiesResponse | binance/account.go:117-134 | the account info carries the reply's totals and positions unchanged, and its asset is the reply's first USDT entry |
| BinanceAccount.GetBalance | binance/account.go:147-172 | the first USDT balance; the not-found error when there is none; request and decoding errors prefixed |
| BinanceAccount.IsFlat | binance/account.go:187 | the four spellings of a zero amount that the filter drops |
| BinanceAccount.OpenPositions | binance/account.go:185-190 | the kept positions are never flat, and there are no more of them than there were positions |
| BinanceAccount.OpenPositionsMembers | binance/account.go:185-190 | a position is kept iff it is present and its amount is not one of `0`, `0.0`, `0.00`, `0.000` |
| BinanceAccount.OpenPositionsConcat | binance/account.go:185-190 | the filter distributes over concatenation, so order is kept |
| BinanceAccount.OpenPositionsIdempotent | binance/account.go:185-190 | filtering twice is filtering once |
| BinanceAccount.GetPositions | binance/account.go:175-195 | an account-info error is propagated unchanged; otherwise the open positions in order |
| BinanceAccount.PositionRiskParams | binance/account.go:201-204 | `symbol` is sent iff it is non-empty |
| BinanceAccount.GetPositionRisk | binance/account.go:198-219 | the parameters, and the reply or its prefixed request or decoding error |
| OICaches.EmptyCache | utils/cache.go:65-74 | a new entry has the symbol's name and no samples |
| OICaches.WellFormed | utils/cache.go:76-84 | history and timestamps are equally long and within the bound, as every manager update keeps them |
| OICaches.Take | utils/cache.go:79-84 | truncation keeps the first `min(n, len)` elements |
| OICaches.Push | utils/cache.go:77-84 | the new value is first, the old sequence follows, and the length is `min(old + 1, maxSize)` |
| OICaches.Pushed | utils/cache.go:77-84 | values and timestamps are pushed together, and a well-formed entry stays well-formed |
| OICaches.Updated | utils/cache.go:61-91 | after an update the key set is the old one plus the symbol |
| OICaches.UpdatedFrame | utils/cache.go:61-91 | an update leaves every other symbol's entry, and its presence, unchanged |
| OICaches.UpdatedEntry | utils/cache.go:77-84 | after an update the newest value and timestamp are the new ones, the length is `min(old + 1, maxSize)`, and the tail is the old prefix |
| OICaches.UpdatedCreates | utils/cache.go:65-74 | updating an absent symbol creates an entry with that symbol and one sample |
| OICaches.Reversed | utils/cache.go:77-78 | reversal mirrors the indices |
| OICaches.PushTake | utils/cache.go:77-84 | pushing onto a truncated history is truncating the pushed one |
| OICaches.PushAllIsReversedPrefix | utils/cache.go:77-84 | a run of updates leaves the last `maxSize` values newest first, in insertion order |
| OICaches.PushAll | utils/cache.go:77-84 | a run of pushes applied in call order |
| OICaches.UpdatedAll | utils/cache.go:61-85 | a run of updates of one symbol, in order |
| OICaches.UpdatedAllHistory | utils/cache.go:65-84 | after a run of updates the history is the old one with each value pushed in turn |
| OICaches.UpdatedAllKeepsLatest | utils/cache.go:77-84 | at least `maxSize` updates leave exactly the last `maxSize` values, newest first, whatever was there before |
| OICaches.InsertionOrderNotTimeOrder | test/utils/test_symbols_cache.go:81-85 | samples inserted with falling timestamps still put the last inserted first; nothing sorts by time |
| OICaches.Expired | utils/cache.go:148-159 | an entry is expired iff it has no timestamps or its newest is more than `maxAge` old |
| OICaches.SymbolExpired | utils/cache.go:148-159 | a symbol is expired iff it has no entry or its entry is expired |
| OICaches.ExpiryBoundary | utils/cache.go:148-159 | an age of exactly `maxAge` is not expired and one more is; an absent entry or one with no timestamps is expired |
| OICaches.StaleKeys | utils/cache.go:163-189 | the stale keys are exactly the entries with no timestamps or a newest timestamp older than `maxAge` |
| OICaches.Swept | utils/cache.go:163-189 | the sweep removes exactly the stale keys and leaves every other entry untouched |
| OICaches.SweptFromParts | utils/cache.go:163-189 | any map with the same surviving keys and untouched entries is the sweep |
| OICaches.SweptCount | utils/cache.go:163-189 | survivors plus removed keys account for every key |
| OICaches.SweptIdempotent | utils/cache.go:163-189 | a second sweep at the same instant removes nothing |
| OICaches.SumOver | utils/cache.go:197-200 | the history lengths summed over a set of symbols |
| OICaches.TotalRecords | utils/cache.go:192-206 | the history lengths summed over every cached symbol |
| OICaches.SumOverRemove | utils/cache.go:197-200 | the record total splits off one symbol's history length |
| OICaches.SumOverBound | utils/cache.go:197-200 | over well-formed entries, the total is at most keys × `maxSize` |
| OICaches.OICacheManager.constructor | utils/cache.go:34-45 | the cache starts empty, and a non-positive `maxSize` becomes 5 |
| OICaches.OICacheManager.Valid | utils/cache.go:34-91 | the bound is positive and every entry sits under its own symbol and is well formed |
| OICaches.OICacheManager.Get | utils/cache.go:48-58 | the entry iff the symbol is present; nil otherwise, as for a symbol never updated or since cleared |
| OICaches.OICacheManager.Update | utils/cache.go:61-91 | the new cache is the specified update, and the invariant is kept |
| OICaches.OICacheManager.GetAll | utils/cache.go:94-105 | a copy of every entry |
| OICaches.OICacheManager.Clear | utils/cache.go:108-114 | exactly that key is removed |
| OICaches.OICacheManager.ClearAll | utils/cache.go:117-123 | no keys remain |
| OICaches.OICacheManager.GetCacheCount | utils/cache.go:126-131 | the number of keys |
| OICaches.OICacheManager.GetSymbols | utils/cache.go:134-144 | every cached symbol exactly once |
| OICaches.OICacheManager.IsExpired | utils/cache.go:148-159 | expired iff absent, without timestamps, or `now - newest > maxAge` |
| OICaches.OICacheManager.CleanExpired | utils/cache.go:163-189 | the cache becomes the sweep of the old cache, and the count returned is the number of stale keys |
| OICaches.OICacheManager.GetStats | utils/cache.go:192-206 | the symbol count, the sum of history lengths and `maxSize`; under the invariant, records ≤ symbols × `maxSize` |
| OICaches.UpdateOICache | indicators/market.go:287-306 | both slices get the sample prepended and are cut only when the history exceeds the bound; panics iff `maxSize` is negative or that cut reaches past the new timestamps' capacity; past their length the timestamps read zeros; on a well-formed cache it is one push, keeping well-formedness |
| OICaches.LongerHistoryReslices | indicators/market.go:295-302 | history of 5 and no timestamps, bound 5, capacity 1: the cut panics; history of 6 and 4 timestamps, bound 6, capacity 6: the timestamps end in a zero |
| IndicatorsCommon.ParseOrZero | indicators/common.go:209-212 | a parse failure reads as 0; otherwise the parsed value |
| IndicatorsCommon.FormatPrice | indicators/common.go:232-234 | a two-decimal rounding, within 0.005 |
| IndicatorsCommon.FormatPercent | indicators/common.go:242-244 | a two-decimal rounding, within 0.005 |
| IndicatorsCommon.FormatMACD | indicators/common.go:237-239 | a four-decimal rounding, within 0.00005 |
| IndicatorsCommon.FormatsAgree | indicators/common.go:232-244 | `formatPrice` and `formatPercent` agree, and formatting twice is formatting once |
| IndicatorsCommon.Closes | indicators/common.go:208-214 | one close per candle, in order |
| IndicatorsCommon.Highs | indicators/common.go:217-229 | one high per candle, in order |
| IndicatorsCommon.Lows | indicators/common.go:217-229 | one low per candle, in order |
| IndicatorsCommon.ExtractCloses | indicators/common.go:208-214 | the filled array holds the closes |
| IndicatorsCommon.ExtractHLC | indicators/common.go:217-229 | the three filled arrays hold the highs, lows and closes |
| IndicatorsCommon.CalculateEMA | indicators/common.go:31-44 | 0 below `period` candles; otherwise the library EMA of the closes, rounded |
| IndicatorsCommon.CalculateMACD | indicators/common.go:49-68 | nil iff fewer than 26 candles; otherwise the library MACD triple, rounded to 4 decimals |
| IndicatorsCommon.CalculateRSI | indicators/common.go:73-86 | 0 below `period + 1` candles; otherwise the library RSI, rounded |
| IndicatorsCommon.CalculateBollingerBands | indicators/common.go:92-111 | nil iff fewer than `period` candles; otherwise the library bands, rounded |
| IndicatorsCommon.CalculateATR | indicators/common.go:116-129 | 0 below `period + 1` candles; otherwise the library ATR, rounded |
| IndicatorsCommon.CalculateADX | indicators/common.go:134-147 | 0 below `2 * period` candles; otherwise the library ADX, rounded |
| IndicatorsCommon.CalculateStochRSI | indicators/common.go:152-170 | nil iff fewer than `2 * period` candles; otherwise the library K and D, rounded |
| IndicatorsCommon.TypicalPrice | indicators/common.go:183-189 | (high + low + close) / 3 of a candle's parsed prices |
| IndicatorsCommon.TotalPV | indicators/common.go:182-191 | Σ typical price × volume over the candles |
| IndicatorsCommon.TotalVolume | indicators/common.go:182-192 | Σ volume over the candles |
| IndicatorsCommon.Vwap | indicators/common.go:174-199 | 0 for no candles or zero volume, otherwise Σ(typical·volume)/Σvolume rounded to two decimals; bounded by `VwapWithinTypicalRange` |
| IndicatorsCommon.CalculateVWAP | indicators/common.go:174-199 | the accumulation loop computes the VWAP specification: 0 for no candles or zero volume, otherwise the rounded Σ(typical·volume)/Σvolume |
| IndicatorsCommon.TotalPVBounds | indicators/common.go:182-191 | with non-negative volumes and typical prices in [lo, hi], the weighted sum lies between lo and hi times the volume |
| IndicatorsCommon.ScaleWithin | indicators/common.go:182-191 | scaling by a non-negative volume keeps the bounds |
| IndicatorsCommon.DivideWithin | indicators/common.go:198 | dividing by positive volume keeps the bounds |
| IndicatorsCommon.VwapWithinTypicalRange | indicators/common.go:174-199 | the unrounded VWAP lies within the range of the typical prices |
| IndicatorsCommon.GetVolume | indicators/common.go:202-205 | the candle's volume, rounded to two decimals |
| IndicatorsCommon.Volume | indicators/common.go:186 | a candle's parsed volume, 0 when it does not parse |
| IndicatorsCommon.LatestValue | indicators/common.go:247-252 | 0 for an empty series, otherwise its last element |
| MarketMetrics.ChangeRate | indicators/market.go:273-279 | 0 for a zero reference value |
| MarketMetrics.ChangeRateRoundsOIChange | indicators/market.go:273-279 | the change rate is the exchange helper's percentage change rounded to two decimals |
| MarketMetrics.ChangeRateSign | indicators/market.go:273-279 | for a positive reference, a positive rate means the value rose and a negative one that it fell; no change gives 0 |
| MarketMetrics.CalculateOIMetrics | indicators/market.go:90-118 | present iff the open-interest query succeeded and parses; then the rounded notional value, open interest × price |
| MarketMetrics.ParsedRates | indicators/market.go:149-162 | at most one parsed value per funding record |
| MarketMetrics.AverageParsed | indicators/market.go:149-167 | the sum/count loop computes the mean of the parseable rates, 0 when none parse |
| MarketMetrics.Sum | indicators/market.go:149-157 | the rates added up in order |
| MarketMetrics.Mean | indicators/market.go:159-162 | the sum over the count, 0 when there are no rates |
| MarketMetrics.SumBounds | indicators/market.go:149-162 | a sum of terms in [lo, hi] lies within n·lo and n·hi |
| MarketMetrics.MeanWithin | indicators/market.go:164-167 | the funding average lies between the smallest and largest parsed rate |
| MarketMetrics.ParsedRatesMembers | indicators/market.go:149-162 | a value is averaged iff some rate parses to it |
| MarketMetrics.FundingMetricsOf | indicators/market.go:124-176 | present iff the premium index succeeded and parses; current rate in percent; a failed history gives an average of 0; otherwise the mean of the parseable rates in percent |
| MarketMetrics.CalculateFundingMetrics | indicators/market.go:124-176 | the method computes the funding specification |
| MarketMetrics.ChangeAt | indicators/market.go:66-79 | a change rate is present iff the history is long enough, and is the rate against the given slot |
| MarketMetrics.HistoryOf | indicators/market.go:62-63 | the cached history, empty without a cache |
| MarketMetrics.CalculateMarketData | indicators/market.go:42-83 | nil iff either metric is unavailable; history set from a non-empty cache; 5m from slot 0 with ≥ 2, 15m from slot 2 with ≥ 4, 25m and 45m from slot 4 with ≥ 5; 75m never set |
| MarketMetrics.ChangeWindowsNested | indicators/market.go:66-79 | 25m always equals 45m, and a longer window's rate implies the shorter ones' |
| MarketMetrics.ColdStartHasNoChanges | indicators/market.go:62-79 | with no cache or an empty one, no history and no change rates |
| MarketMetrics.FullHistoryGivesLongWindows | main.go:68 | with the shared cache's bound of 5 (or more), that many updates of a symbol give the next snapshot its 25m and 45m rates, both against the fifth newest sample |
| MarketMetrics.LongWindowsFromSlot4 | indicators/market.go:74-79 | an entry with five samples gives the 25m and 45m rates against slot 4 |
| MarketMetrics.SmallBoundHasNoLongWindows | indicators/market.go:74-79 | under a bound below 5 the 25m and 45m rates never appear |
| MarketMetrics.IntervalSlot | indicators/market.go:191-203 | only `1h`, `4h` and `24h` are known intervals |
| MarketMetrics.CalculateOIChangeWithHistory | indicators/market.go:183-212 | 0 for an empty history, an unknown interval or too short a history; otherwise the rate against the interval's slot |
| MarketMetrics.ShouldTradeBasedOnFunding | indicators/market.go:218-250 | long is allowed iff rate ≤ 0.05, short iff rate ≥ -0.05, any other direction never; the exact message of every branch |
| MarketMetrics.BothDirectionsOnlyInBand | indicators/market.go:218-250 | both directions are allowed iff the rate is within [-0.05, 0.05] |
| MarketMetrics.AnalyzeOIAndPrice | indicators/market.go:256-270 | each of the five readings holds exactly under its sign combination of price and open-interest change |
| ShortTerm.CalculateTimeframeData | indicators/short_term.go:99-170 | nil iff no candles; latest prices rounded; every guarded indicator from its wrapper; ADX and VWAP only from 28 candles and only when positive; StochRSI only from 28 candles |
| ShortTerm.GatedSeriesComputesAll | indicators/short_term.go:100-140 | past the 55-candle gate every guarded indicator is computed rather than defaulted |
| ShortTerm.CalculateShortTermIndicators | indicators/short_term.go:27-63 | nil iff any of the 1h, 15m or 5m series has fewer than 55 candles; otherwise the symbol and each role from its own series |
| ShortTerm.ShortTermTimeframesOf | indicators/short_term.go:48-52 | the 1h, 15m and 5m roles, each computed from its own series |
| ShortTerm.EntryPrice | indicators/short_term.go:81 | the 5m close is the price the market data is computed at |
| ShortTerm.CalculateShortTermIndicatorsWithMarket | indicators/short_term.go:73-96 | nil for a nil base without consulting market data; market data at the 5m close attached when present; panics when it is missing |
| ShortTerm.CalculateShortTermIndicatorsWithMarketGraceful | indicators/short_term.go:73-96 | with the nil check: the base snapshot with whatever market data there is |
| ShortTerm.GracefulAgreesWhenNoPanic | indicators/short_term.go:84-93 | where the written code returns, it returns the guarded result; where it panics, the guarded one yields a snapshot without market data |
| ShortTerm.FailedMarketQueryPanics | indicators/short_term.go:89-93 | 55 candles per series with a failed open-interest query: the written code panics |
| LongTerm.CalculateLongTermIndicators | indicators/long_term.go:26-62 | nil iff any of the 4h, 1h or 15m series has fewer than 55 candles; otherwise the symbol and each role from its own series |
| LongTerm.LongEntryPrice | indicators/long_term.go:80 | the 15m close is the price the market data is computed at |
| LongTerm.CalculateLongTermIndicatorsWithMarket | indicators/long_term.go:72-95 | nil for a nil base; market data at the 15m close attached when present; panics when it is missing |
| LongTerm.CalculateLongTermIndicatorsWithMarketGraceful | indicators/long_term.go:72-95 | with the nil check: the base snapshot with whatever market data there is |
| LongTerm.LongGracefulAgreesWhenNoPanic | indicators/long_term.go:83-92 | where the written code returns, it returns the guarded result; where it panics, the guarded one has no market data |
| LongTerm.LongFailedFundingQueryPanics | indicators/long_term.go:88-92 | 55 candles per series with a failed premium-index query: the written code panics |
| Scheduler.Intervals | main.go:149-165 | the short pass fetches 1h, 15m and 5m candles, the long pass 4h, 1h and 15m, in role order |
| Scheduler.CandleReply | main.go:149 | the reply to the `k`-th request `KlineParams(symbol, interval, 100)` |
| Scheduler.Decodes | binance/klines.go:75-87 | a reply is a body whose rows all convert |
| Scheduler.DecodePanics | binance/klines.go:75-87 | a reply is a body with an ill-typed row, whose conversion panics |
| Scheduler.FetchAll | main.go:149-165 | the three `GetKlines` calls in order: a decoding panic ends the process, an error skips the symbol before the later fetches, otherwise the three series |
| Scheduler.FetchAllSpec | main.go:149-165 | the fetches panic iff some reply has an ill-typed row after the earlier replies decoded; they yield the series iff all three replies decode, each series being its reply's rows converted |
| Scheduler.FetchCandles | main.go:149-165 | the three `GetKlines(symbol, interval, 100)` calls compute the fetch specification, panic included |
| Scheduler.Compute | main.go:185-192 | the strategy's snapshot from the three series, the market replies and the cached entry: as written through the panicking attachment, guarded through the nil-checked one |
| Scheduler.CachedOrEmpty | main.go:168-175 | the cached entry, or an empty one under the symbol's name |
| Scheduler.Step | main.go:147-206 | one iteration: fetch the candles, skip on an error, compute, write the open interest back when market data is present, emit the snapshot |
| Scheduler.Pass | main.go:144-207 | the iterations in order over the symbol list, threading the cache and collecting the emitted snapshots; a panic ends the pass |
| Scheduler.PassPanicSticks | main.go:147-207 | a panic in one symbol ends the pass |
| Scheduler.PassExtends | main.go:147-207 | each iteration extends the pass by one step |
| Scheduler.ProcessSymbol | main.go:147-206 | one iteration on the shared cache panics iff the step does, and otherwise leaves the cache and returns the snapshot the step specifies |
| Scheduler.PassStepPanics | main.go:147-207 | an iteration that panics ends the pass in a panic |
| Scheduler.PassStepReturns | main.go:147-207 | an iteration that returns extends the pass by its cache and its snapshot |
| Scheduler.RunPass | main.go:144-273 | the loop leaves the cache and the emitted snapshots as the pass specifies, panics exactly when it does, and keeps the cache invariant |
| Scheduler.ProcessShortTermStrategy | main.go:144-207 | the short pass, fetching 1h, 15m and 5m candles, as the pass specifies, decoding panic included |
| Scheduler.ProcessLongTermStrategy | main.go:210-273 | the long pass, fetching 4h, 1h and 15m candles, as the pass specifies, decoding panic included |
| Scheduler.FailedFetchSkips | main.go:149-165 | a candle fetch that fails after the earlier ones decoded skips the symbol whatever the later replies hold: no cache write and no output |
| Scheduler.StepPanics | binance/klines.go:75-87 | an ill-typed candle row ends the step in a panic in either build; with the nil check nothing else does |
| Scheduler.StepWrites | main.go:194-202 | the cache changes only for an emitted snapshot with market data, and then by one sample of its open interest; as written every emitted snapshot has market data |
| Scheduler.AsWrittenAttachesMarketData | indicators/short_term.go:84-93 | as written, every computed snapshot carries market data, because its absence panics |
| Scheduler.MarketDataOf | main.go:200 | the market data a short- or long-term snapshot carries |
| Scheduler.ColdComputeHasNoChanges | indicators/market.go:62-79 | a computation against an empty cache entry yields market data with no history and no change rates |
| Scheduler.ColdSymbolHasNoChanges | main.go:168-175 | a symbol missing from the cache is computed against an empty history: no history and no change rates |
| Scheduler.CandlesPanicInSnoc | main.go:147-207 | some iteration meets an ill-typed row iff an earlier one does or the last one does |
| Scheduler.CandlesPanicIn | main.go:147-165 | some iteration of the pass reaches a candle reply with an ill-typed row |
| Scheduler.PassPanics | main.go:147-207 | a pass that meets an ill-typed candle row panics in either build; with the nil check a pass panics only then |
| Scheduler.PassFrame | main.go:147-207 | a pass leaves symbols outside its list untouched |
| Scheduler.PassAddsAtMostOne | main.go:200-202 | over distinct symbols, a pass adds at most one sample per symbol |
| Scheduler.SampleCount | main.go:200-202 | the number of samples cached for a symbol, 0 when absent |
| Scheduler.SharedCacheTakesBothSamples | main.go:68 | two emitting steps on one symbol, by two accounts or by the short and the long pass, both land in the one cache, the later first |
| Scheduler.UpdatedTwice | utils/cache.go:77-84 | two updates leave the two newest values and timestamps, the later first |
| Scheduler.PushTwice | utils/cache.go:77-84 | two pushes with room for two leave both values, the later first |
| Scheduler.Route | main.go:100-133 | a short pass for `short_term` on start-up and on the short ticker, a long pass for `long_term` on start-up and on the long ticker, nothing otherwise |
| Scheduler.Dispatched | main.go:100-133 | the tick's accounts in order, each running its routed pass on the cache the previous one left; a panic ends the tick |
| Scheduler.AccountTurn | main.go:100-107 | the pass the account's strategy selects on the tick, or no change and no output |
| Scheduler.ProcessAccount | main.go:100-107 | an account's turn runs exactly the pass its strategy selects, or leaves the cache alone and emits nothing |
| Scheduler.DispatchedExtends | main.go:100-107 | each account extends the dispatch by its turn |
| Scheduler.DispatchedPanicSticks | main.go:100-107 | a panic in one account's pass ends the dispatch |
| Scheduler.Dispatch | main.go:100-133 | the account loop leaves the cache and output as the dispatch specifies, panicking exactly when it does |
| Scheduler.IdleTickChangesNothing | main.go:117-133 | a ticker for which no enabled account routes leaves the cache unchanged and emits nothing |
| Scheduler.TickCandlesPanicSnoc | main.go:100-133 | some account of the tick meets an ill-typed row iff an earlier one does or the last one does |
| Scheduler.TurnCandlesPanic | main.go:100-133 | the tick routes the account to a pass that reaches an ill-typed candle row |
| Scheduler.TickCandlesPanic | main.go:100-133 | some enabled account of the tick reaches an ill-typed candle row |
| Scheduler.DispatchPanics | main.go:100-133 | a tick whose routed passes meet an ill-typed candle row panics in either build; with the nil check a tick panics only then |
| Scheduler.Served | main.go:98-133 | a run: the start-up tick and then each ticker tick, dispatched in order against the cache the previous one left |
| Scheduler.ServedExtends | main.go:114-133 | each tick extends the run by its dispatch |
| Scheduler.ServedPanicSticks | main.go:114-133 | a panic in one tick ends the run |
| Scheduler.Serve | main.go:68-133 | the cache manager is created fresh with a bound of 5; the start-up tick and then the ticker ticks leave its cache and the output as the run specifies, panicking exactly when it does |
| Scheduler.ClientArgsAsWritten | main.go:73-79 | the written call passes the futures URL as the key, the key as the secret and the secret as the base URL |
| Scheduler.ClientArgsFor | binance/client.go:38 | the intended call passes the account's key and secret and the configured futures URL and proxy |
| Scheduler.ClientArgsMismatch | main.go:73-79 | on a concrete configuration the written wiring sends requests to the secret instead of the exchange URL |
| SymbolPool.Qualifying | utils/symbols.go:125-152 | a pair qualifies iff it is named and scores at least `minScore` |
| SymbolPool.RankedPairs | utils/symbols.go:125-152 | the qualifying pairs of both ranking lists |
| SymbolPool.AddAll | utils/symbols.go:46-49 | insertion adds exactly the listed symbols |
| SymbolPool.Collect | utils/symbols.go:74-77 | the listing holds each key exactly once |
| SymbolPool.AddQualifying | utils/symbols.go:125-152 | one list's loop adds exactly its qualifying pairs |
| SymbolPool.FetchExternalSymbols | utils/symbols.go:86-166 | an error passes through; an unsuccessful reply is an error; otherwise the qualifying pairs of both lists, each once |
| SymbolPool.UsesExternal | utils/symbols.go:52 | the ranking is consulted iff it is enabled and its URL is non-empty |
| SymbolPool.PoolOf | utils/symbols.go:42-71 | (defaults ∪ fetched external symbols when consulted and answered) minus exclusions |
| SymbolPool.GetSymbolPool | utils/symbols.go:42-81 | never an error; no duplicates; (defaults ∪ external pairs when used and answered) minus exclusions; exclusions never appear |
| SymbolPool.PoolBounds | utils/symbols.go:42-81 | the pool lies within defaults and external symbols, grows with the external list, and is empty when everything is excluded |
| SymbolPool.MinScoreOrDefault | main.go:50-53 | a configured minimum score of 0 becomes 75 |
| Accounts.Account.Validate | config/accounts.go:61-81 | nil iff all six checks pass; otherwise the message of the first that fails, in the order ID, name, strategy, prompt type, key, secret |
| Accounts.Account.IsValid | config/accounts.go:61-81 | ID, name, API key and secret are non-empty, and the strategy and prompt type are known values |
| Accounts.Account.GetStrategyName | config/accounts.go:84-93 | the display name of each strategy, `未知` otherwise |
| Accounts.Account.GetPromptTypeName | config/accounts.go:96-105 | the display name of each prompt type, `未知` otherwise |
| Accounts.Account.GetPromptTypeDescription | config/accounts.go:108-117 | the description of each prompt type, `未知类型` otherwise |
| Accounts.ValidAccountHasKnownNames | config/accounts.go:61-117 | a valid account never shows the unknown names |
| Accounts.FirstInvalid | config/accounts.go:51-55 | none iff every account is valid; otherwise the first invalid index and its message |
| Accounts.LoadAccounts | config/accounts.go:37-58 | a read or decoding error under its own prefix; an invalid account gives an error naming its index and no accounts; otherwise all accounts, all valid |
| Config.Config.Validate | config/config.go:86-98 | passes iff the futures URL is set and there is an account; the empty URL is reported first |
| Config.Config.GetProxyURL | config/config.go:101-106 | `""` when the proxy is off, otherwise `http://host:port` |
| Config.ProxyPortRoundTrip | config/config.go:101-106 | the port can be read back from the proxy URL |
| Config.EnabledAccounts | config/config.go:109-117 | only enabled accounts, no more than there were |
| Config.EnabledAccountsMembers | config/config.go:109-117 | an account is kept iff it is configured and enabled |
| Config.GetEnabledAccounts | config/config.go:109-117 | the append loop computes the order-preserving filter |
| Config.GetAccountByID | config/config.go:120-127 | nil iff no account has the ID; otherwise the first one that has it |
| Config.LoadConfig | config/config.go:45-78 | a read or decoding error under its own prefix; an accounts error gets its prefix; a parsed file whose accounts load is the configuration when it validates and otherwise the validation error under its prefix; without an accounts file validation fails under that prefix; on success the accounts are the loaded ones and the config is valid |
| Config.LoadedAccountsValid | config/config.go:59-75 | every account of a loaded configuration is valid |
| Config.ConfigStore.constructor | config/config.go:42 | no global configuration before loading |
| Config.ConfigStore.Load | config/config.go:45-78 | returns the load result, and sets the global configuration only on success |
| Config.ConfigStore.Get | config/config.go:81-83 | the current global configuration |

## Left out

- HTTP transport, `executeRequest`, and JSON and YAML decoding are not modelled. Decoded replies and their failures are inputs: `Reply` for the exchange client, `Result` for the files and the ranking API.
- HMAC-SHA256 signing, `url.QueryEscape`, `url.Parse` and `strconv.ParseFloat` are function parameters with no interpretation.
- The TA-Lib computations are uninterpreted function values. Only the repository's own guards, rounding and VWAP are modelled.
- IEEE-754 floating point is not modelled: values are exact reals.
- IndicatorsCommon.ParseOrZero: every parse failure reads as 0. For out-of-range text, Go's `strconv.ParseFloat` returns ±Inf together with the error that indicators/common.go:209-212 discards, so the code as written then yields ±Inf. Exact reals have no infinities, so the model does not capture that case.
- `int64` overflow is not modelled.
- The timing of the tickers, the signal handling that ends the loop, and the cache's `sync.RWMutex` are left out. `Serve` takes the sequence of ticks the `select` loop would see as an input, and the passes run sequentially.
- Logging (`utils/logger.go`) and `outputIndicators` (JSON printing) are left out. A pass returns the snapshots it would print.
- `time.Now` is the `now` of each iteration's feed. The snapshot's timestamp and the cache write of one iteration share that one reading.
- Scheduler.ProcessShortTermStrategy: the Binance client is not a parameter. Each iteration reads a feed keyed by account ID, iteration and symbol. The feed answers each candle request, keyed by its `KlineParams(symbol, interval, 100)`, with a raw reply, and the reply goes through the same decoding as `GetKlines`, ill-typed-row panic included. The feed also holds the already-decoded open-interest, premium-index and funding-history replies and the clock reading. `LoadAccounts` does not reject duplicate IDs, so two enabled accounts with the same ID on one tick read identical replies and the same clock; the model cannot give them different ones.
- The `timeframe` argument of `calculateTimeframeData` is only logged and is not modelled.
- The Ichimoku and CVD slots of `TimeframeData` are never set by the code. They are modelled as always empty.
- OICaches.UpdateOICache: returns a new value. It does not model the Go function's in-place update, which is visible to aliases of the cache. The capacity that `append` gives the new timestamps slice is chosen by the Go runtime, so it is the parameter `tsCapacity`. Only the zeroed spare capacity of a fresh `append` is modelled, and that is what Go reads past the length.
- OICaches.OICacheManager.GetAll: returns the cache map by value. Go returns a new map holding the same `*OICache` pointers (utils/cache.go:94-105), so a caller that mutates an entry changes the manager's cache; that aliasing is not modelled.
- The manager's `OICache` and the indicator package's `OICache` are two identical Go records, modelled as one datatype.
- `PositionRisk` has exactly the fields of `Position`, so it is a type synonym.
- Path joining of the accounts file in `Load` is left out. The decoded accounts file is an input.
- `main.go` reads `cfg.SymbolPool`, but `config/config.go` declares no such field. So the pool's inputs (defaults, exclusions, ranking URL, minimum score) are parameters.
- `Ping` and `GetServerTime` of the client are left out: they are I/O only.
- The order in which `GetSymbols`, `fetchExternalSymbols` and `GetSymbolPool` list map keys is unspecified. It is modelled as an arbitrary choice, and only the element sets are stated.

## Findings

| source | as written | input that shows it | evidently intended | confidence | as-written member | corrected member |
|---|---|---|---|---|---|---|
| indicators/short_term.go:84-93 | after attaching market data only when non-nil, the log call reads `marketData.OICurrent` unconditionally | 55 candles in each of the 1h, 15m and 5m series, and a failed open-interest query | keep the snapshot without market data, as the nil check above suggests | high, not executed | ShortTerm.FailedMarketQueryPanics | ShortTerm.CalculateShortTermIndicatorsWithMarketGraceful |
| indicators/long_term.go:83-92 | the same unconditional dereference in the long-term variant | 55 candles in each of the 4h, 1h and 15m series, and a failed premium-index query | keep the snapshot without market data | high, not executed | LongTerm.LongFailedFundingQueryPanics | LongTerm.CalculateLongTermIndicatorsWithMarketGraceful |
| main.go:73-79 | `NewClient(FuturesURL, APIKey, APISecret, proxy)` against the signature `NewClient(apiKey, apiSecret, baseURL, proxyURL)` | futures URL `https://fapi.binance.com`, API key `key`, API secret `secret` | `NewClient(APIKey, APISecret, FuturesURL, proxy)` | high, not executed | Scheduler.ClientArgsMismatch | Scheduler.ClientArgsFor |

The passes of `Scheduler` take a `Build`. `AsWritten` models the code as it
is, which panics and so ends the process. `Guarded` runs the corrected
market-data attachment (`CalculateShortTermIndicatorsWithMarketGraceful`,
`CalculateLongTermIndicatorsWithMarketGraceful`). With it, `PassPanics` and
`DispatchPanics` prove that a pass or a tick panics only when one of its
candle replies has an ill-typed row. `GetKlines` converts each row with
unchecked type assertions (binance/klines.go:75-87), and both builds keep
that panic.

With the client wiring as written, requests are addressed to the API secret
instead of the exchange URL. The passes therefore take the replies as inputs
(the feed), not a client. Wherever a candle fetch fails, `FailedFetchSkips`
shows that the symbol is skipped and the cache is left alone.

The one cache manager is created with a bound of 5 (main.go:68, `Serve`). That
is exactly what the 25m and 45m rates need. `FullHistoryGivesLongWindows` shows
that five updates of a symbol, that is, five emitting steps (`StepWrites`),
give the next snapshot both rates. `SmallBoundHasNoLongWindows` shows that
under a smaller bound they never appear.
