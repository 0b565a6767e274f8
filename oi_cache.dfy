/** The per-symbol open-interest history cache (utils/cache.go) and the
    free-standing cache update of the indicator package
    (indicators/market.go). */
module OICaches {
  import opened Wrappers

  /** A symbol's samples, newest first: open-interest values in millions of
      USD and the Unix seconds at which each was taken. */
  datatype OICache = OICache(symbol: string, history: seq<real>, timestamps: seq<int>)

  /** The empty cache a symbol starts from. */
  function EmptyCache(symbol: string): (c: OICache)
    ensures c.symbol == symbol && c.history == [] && c.timestamps == []
  {
    OICache(symbol, [], [])
  }

  /** At most the first `n` elements. */
  function Take<T>(s: seq<T>, n: nat): (r: seq<T>)
    ensures |r| == if |s| > n then n else |s|
    ensures r == s[..|r|]
  {
    if |s| > n then s[..n] else s
  }

  /** `x` prepended to `s`, which is then cut back to `n` elements. */
  function Push<T>(s: seq<T>, x: T, n: nat): (r: seq<T>)
    ensures |r| == if |s| + 1 > n then n else |s| + 1
    ensures n > 0 ==> r[0] == x
    ensures forall i :: 1 <= i < |r| ==> r[i] == s[i - 1]
  {
    Take([x] + s, n)
  }

  /** Values and timestamps pair up, and neither exceeds the bound. */
  predicate WellFormed(c: OICache, maxSize: nat)
  {
    |c.history| == |c.timestamps| <= maxSize
  }

  /** One sample added to a cache with bound `maxSize`. */
  function Pushed(c: OICache, oi: real, timestamp: int, maxSize: nat): (r: OICache)
    ensures r.symbol == c.symbol
    ensures r.history == Push(c.history, oi, maxSize)
    ensures r.timestamps == Push(c.timestamps, timestamp, maxSize)
    ensures WellFormed(c, maxSize) ==> WellFormed(r, maxSize)
  {
    c.(history := Push(c.history, oi, maxSize), timestamps := Push(c.timestamps, timestamp, maxSize))
  }

  /** The cache map after `Update(symbol, oi, timestamp)`. */
  function Updated(caches: map<string, OICache>, maxSize: nat, symbol: string, oi: real, timestamp: int)
    : (r: map<string, OICache>)
    ensures r.Keys == caches.Keys + {symbol}
  {
    var c := if symbol in caches then caches[symbol] else EmptyCache(symbol);
    caches[symbol := Pushed(c, oi, timestamp, maxSize)]
  }

  /** An update touches only its own symbol's entry. */
  lemma UpdatedFrame(caches: map<string, OICache>, maxSize: nat, symbol: string, oi: real, timestamp: int, other: string)
    requires other != symbol
    ensures other in Updated(caches, maxSize, symbol, oi, timestamp) <==> other in caches
    ensures other in caches ==> Updated(caches, maxSize, symbol, oi, timestamp)[other] == caches[other]
  {
  }

  /** After an update the new sample leads both sequences, both have grown by
      one up to the bound, and behind the new sample lies the old prefix. */
  lemma UpdatedEntry(caches: map<string, OICache>, maxSize: nat, symbol: string, oi: real, timestamp: int)
    requires maxSize > 0
    requires symbol in caches ==> WellFormed(caches[symbol], maxSize)
    ensures var e := Updated(caches, maxSize, symbol, oi, timestamp)[symbol];
      var old_h := if symbol in caches then caches[symbol].history else [];
      var old_t := if symbol in caches then caches[symbol].timestamps else [];
      e.history[0] == oi && e.timestamps[0] == timestamp &&
      |e.history| == |e.timestamps| == (if |old_h| + 1 > maxSize then maxSize else |old_h| + 1) &&
      e.history[1..] == old_h[..|e.history| - 1] &&
      e.timestamps[1..] == old_t[..|e.timestamps| - 1]
  {
    var e := Updated(caches, maxSize, symbol, oi, timestamp)[symbol];
    var old_h := if symbol in caches then caches[symbol].history else [];
    var old_t := if symbol in caches then caches[symbol].timestamps else [];
    assert e.history == Push(old_h, oi, maxSize);
    assert e.timestamps == Push(old_t, timestamp, maxSize);
  }

  /** An update of an absent symbol creates its entry under that symbol, holding
      the one sample. */
  lemma UpdatedCreates(caches: map<string, OICache>, maxSize: nat, symbol: string, oi: real, timestamp: int)
    requires maxSize > 0 && symbol !in caches
    ensures Updated(caches, maxSize, symbol, oi, timestamp)[symbol] == OICache(symbol, [oi], [timestamp])
  {
  }

  /** `s` reversed. */
  function Reversed<T>(s: seq<T>): (r: seq<T>)
    ensures |r| == |s|
    ensures forall i :: 0 <= i < |s| ==> r[i] == s[|s| - 1 - i]
  {
    if |s| == 0 then [] else [s[|s| - 1]] + Reversed(s[..|s| - 1])
  }

  /** `vs` pushed one after another, in order. */
  function PushAll<T>(s: seq<T>, vs: seq<T>, n: nat): seq<T>
  {
    if |vs| == 0 then s else Push(PushAll(s, vs[..|vs| - 1], n), vs[|vs| - 1], n)
  }

  lemma PushTake<T>(u: seq<T>, x: T, n: nat)
    ensures Push(Take(u, n), x, n) == Take([x] + u, n)
  {
    if |u| > n {
      assert ([x] + u[..n])[..n] == ([x] + u)[..n];
    }
  }

  /** Successive pushes keep the most recently pushed values first, whatever
      their timestamps: the history is the latest values in reverse order of
      insertion, in front of the old history, cut to the bound. */
  lemma {:induction false} PushAllIsReversedPrefix<T>(s: seq<T>, vs: seq<T>, n: nat)
    requires |s| <= n
    ensures PushAll(s, vs, n) == Take(Reversed(vs) + s, n)
  {
    if |vs| == 0 {
    } else {
      var init := vs[..|vs| - 1];
      var last := vs[|vs| - 1];
      PushAllIsReversedPrefix(s, init, n);
      PushTake(Reversed(init) + s, last, n);
      assert [last] + (Reversed(init) + s) == Reversed(vs) + s;
    }
  }

  /** `symbol` updated with each of `ois`, in order, at the matching time. */
  function UpdatedAll(caches: map<string, OICache>, maxSize: nat, symbol: string, ois: seq<real>, ts: seq<int>)
    : map<string, OICache>
    requires |ois| == |ts|
  {
    if |ois| == 0 then caches
    else
      var n := |ois| - 1;
      Updated(UpdatedAll(caches, maxSize, symbol, ois[..n], ts[..n]), maxSize, symbol, ois[n], ts[n])
  }

  lemma {:induction false} UpdatedAllHistory(caches: map<string, OICache>, maxSize: nat, symbol: string, ois: seq<real>, ts: seq<int>)
    requires |ois| == |ts| && |ois| > 0
    ensures symbol in UpdatedAll(caches, maxSize, symbol, ois, ts)
    ensures UpdatedAll(caches, maxSize, symbol, ois, ts)[symbol].history ==
      PushAll(if symbol in caches then caches[symbol].history else [], ois, maxSize)
  {
    var n := |ois| - 1;
    if n > 0 {
      UpdatedAllHistory(caches, maxSize, symbol, ois[..n], ts[..n]);
    } else {
      assert ois[..n] == [];
    }
  }

  /** At least `maxSize` updates of a symbol leave exactly the last `maxSize`
      values in its history, newest first, whatever it held before. */
  lemma UpdatedAllKeepsLatest(caches: map<string, OICache>, maxSize: nat, symbol: string, ois: seq<real>, ts: seq<int>)
    requires |ois| == |ts| >= maxSize > 0
    requires symbol in caches ==> WellFormed(caches[symbol], maxSize)
    ensures symbol in UpdatedAll(caches, maxSize, symbol, ois, ts)
    ensures var h := UpdatedAll(caches, maxSize, symbol, ois, ts)[symbol].history;
      |h| == maxSize && forall k :: 0 <= k < maxSize ==> h[k] == ois[|ois| - 1 - k]
  {
    var s := if symbol in caches then caches[symbol].history else [];
    UpdatedAllHistory(caches, maxSize, symbol, ois, ts);
    PushAllIsReversedPrefix(s, ois, maxSize);
    var h := UpdatedAll(caches, maxSize, symbol, ois, ts)[symbol].history;
    assert h == (Reversed(ois) + s)[..maxSize];
    forall k | 0 <= k < maxSize
      ensures h[k] == ois[|ois| - 1 - k]
    {
      assert h[k] == Reversed(ois)[k];
    }
  }

  /** Five samples inserted with falling timestamps, as the cache demo does:
      the last inserted value and timestamp come first, though that timestamp
      is the oldest. */
  lemma InsertionOrderNotTimeOrder(now: int)
    ensures var vs := [5300.0, 5310.0, 5320.0, 5330.0, 5340.0];
      var ts := [now, now - 300, now - 600, now - 900, now - 1200];
      PushAll([], vs, 5) == [5340.0, 5330.0, 5320.0, 5310.0, 5300.0] &&
      PushAll([], ts, 5) == [now - 1200, now - 900, now - 600, now - 300, now]
  {
    var vs := [5300.0, 5310.0, 5320.0, 5330.0, 5340.0];
    var ts := [now, now - 300, now - 600, now - 900, now - 1200];
    PushAllIsReversedPrefix([], vs, 5);
    PushAllIsReversedPrefix([], ts, 5);
    assert Reversed(vs) == [5340.0, 5330.0, 5320.0, 5310.0, 5300.0];
    assert Reversed(ts) == [now - 1200, now - 900, now - 600, now - 300, now];
  }

  /** A cache is stale when it holds no sample or its newest sample is more
      than `maxAge` seconds older than `now`. */
  predicate Expired(c: OICache, maxAge: int, now: int)
  {
    |c.timestamps| == 0 || now - c.timestamps[0] > maxAge
  }

  /** The expiry verdict for a symbol: an absent symbol counts as expired. */
  predicate SymbolExpired(caches: map<string, OICache>, symbol: string, maxAge: int, now: int)
  {
    symbol !in caches || Expired(caches[symbol], maxAge, now)
  }

  /** Expiry is strict: a sample exactly `maxAge` old is still fresh, one a
      second older is not; an absent or empty entry is always expired. */
  lemma ExpiryBoundary(caches: map<string, OICache>, symbol: string, maxAge: int, t: int)
    requires symbol in caches && |caches[symbol].timestamps| > 0 && caches[symbol].timestamps[0] == t
    ensures !SymbolExpired(caches, symbol, maxAge, t + maxAge)
    ensures SymbolExpired(caches, symbol, maxAge, t + maxAge + 1)
    ensures SymbolExpired(caches - {symbol}, symbol, maxAge, t)
    ensures SymbolExpired(caches[symbol := caches[symbol].(timestamps := [])], symbol, maxAge, t)
  {
  }

  /** The entries a sweep removes. */
  function StaleKeys(caches: map<string, OICache>, maxAge: int, now: int): (r: set<string>)
    ensures r <= caches.Keys
    ensures forall k :: k in r <==> k in caches && Expired(caches[k], maxAge, now)
  {
    set k | k in caches && Expired(caches[k], maxAge, now)
  }

  /** The cache map after a sweep: exactly the fresh entries, unchanged. */
  function Swept(caches: map<string, OICache>, maxAge: int, now: int): (r: map<string, OICache>)
    ensures r.Keys == caches.Keys - StaleKeys(caches, maxAge, now)
    ensures forall k :: k in r ==> r[k] == caches[k] && !Expired(r[k], maxAge, now)
  {
    map k | k in caches && !Expired(caches[k], maxAge, now) :: caches[k]
  }

  /** A map that keeps exactly the fresh keys, with their entries, is the sweep. */
  lemma SweptFromParts(before: map<string, OICache>, after: map<string, OICache>, maxAge: int, now: int)
    requires after.Keys == before.Keys - StaleKeys(before, maxAge, now)
    requires forall k :: k in after ==> after[k] == before[k]
    ensures after == Swept(before, maxAge, now)
  {
    var swept := Swept(before, maxAge, now);
    assert after.Keys == swept.Keys;
    assert forall k :: k in after ==> after[k] == swept[k];
  }

  /** Swept and removed entries partition the map, so the count removed plus
      the entries left is the entries before. */
  lemma SweptCount(caches: map<string, OICache>, maxAge: int, now: int)
    ensures |Swept(caches, maxAge, now).Keys| + |StaleKeys(caches, maxAge, now)| == |caches.Keys|
  {
    var kept := Swept(caches, maxAge, now).Keys;
    var stale := StaleKeys(caches, maxAge, now);
    assert kept + stale == caches.Keys;
    assert kept * stale == {};
  }

  /** A second sweep at the same moment removes nothing. */
  lemma SweptIdempotent(caches: map<string, OICache>, maxAge: int, now: int)
    ensures Swept(Swept(caches, maxAge, now), maxAge, now) == Swept(caches, maxAge, now)
    ensures StaleKeys(Swept(caches, maxAge, now), maxAge, now) == {}
  {
  }

  /** The number of samples held under the symbols of `keys`. */
  ghost function SumOver(caches: map<string, OICache>, keys: set<string>): nat
    requires keys <= caches.Keys
    decreases keys
  {
    if keys == {} then 0
    else
      var k :| k in keys;
      |caches[k].history| + SumOver(caches, keys - {k})
  }

  /** The number of samples held over all symbols. */
  ghost function TotalRecords(caches: map<string, OICache>): nat
  {
    SumOver(caches, caches.Keys)
  }

  /** The sum does not depend on which symbol is counted first. */
  lemma {:induction false} SumOverRemove(caches: map<string, OICache>, keys: set<string>, k: string)
    requires keys <= caches.Keys && k in keys
    ensures SumOver(caches, keys) == |caches[k].history| + SumOver(caches, keys - {k})
    decreases keys
  {
    var j :| j in keys && SumOver(caches, keys) == |caches[j].history| + SumOver(caches, keys - {j});
    if j != k {
      SumOverRemove(caches, keys - {j}, k);
      SumOverRemove(caches, keys - {k}, j);
      assert keys - {j} - {k} == keys - {k} - {j};
    }
  }

  /** With every entry well formed the sum is at most the symbol count times
      the bound. */
  lemma {:induction false} SumOverBound(caches: map<string, OICache>, keys: set<string>, maxSize: nat)
    requires keys <= caches.Keys
    requires forall k :: k in caches ==> WellFormed(caches[k], maxSize)
    ensures SumOver(caches, keys) <= |keys| * maxSize
    decreases keys
  {
    if keys != {} {
      var k :| k in keys;
      SumOverRemove(caches, keys, k);
      SumOverBound(caches, keys - {k}, maxSize);
    }
  }

  /** The statistics report. */
  datatype Stats = Stats(symbolCount: nat, totalRecords: nat, maxSize: nat)

  /** The cache manager: one entry per symbol and a fixed per-symbol bound. */
  class OICacheManager {
    var caches: map<string, OICache>
    const maxSize: nat

    /** Every entry sits under its own symbol and is well formed. */
    predicate Valid()
      reads this
    {
      maxSize > 0 &&
      forall k :: k in caches ==> caches[k].symbol == k && WellFormed(caches[k], maxSize)
    }

    /** A non-positive bound becomes 5. */
    constructor(maxSize: int)
      ensures this.maxSize == if maxSize <= 0 then 5 else maxSize
      ensures caches == map[]
      ensures Valid()
    {
      this.maxSize := if maxSize <= 0 then 5 else maxSize;
      caches := map[];
    }

    /** The entry of `symbol`, or nothing when it was never updated or has
        been cleared since. */
    method Get(symbol: string) returns (c: Option<OICache>)
      ensures c.Some? <==> symbol in caches
      ensures c.Some? ==> c.value == caches[symbol]
    {
      if symbol !in caches {
        return None;
      }
      return Some(caches[symbol]);
    }

    /** Prepends one sample to `symbol`'s entry, creating it when absent, and
        cuts both sequences back to the bound. */
    method Update(symbol: string, oi: real, timestamp: int)
      requires Valid()
      modifies this
      ensures caches == Updated(old(caches), maxSize, symbol, oi, timestamp)
      ensures Valid()
    {
      var cache: OICache;
      if symbol in caches {
        cache := caches[symbol];
      } else {
        cache := OICache(symbol, [], []);
        caches := caches[symbol := cache];
      }
      var history := [oi] + cache.history;
      var timestamps := [timestamp] + cache.timestamps;
      if |history| > maxSize {
        history := history[..maxSize];
        timestamps := timestamps[..maxSize];
      }
      caches := caches[symbol := cache.(history := history, timestamps := timestamps)];
    }

    /** A copy of the whole map. */
    method GetAll() returns (result: map<string, OICache>)
      ensures result == caches
    {
      result := map[];
      var remaining := caches.Keys;
      while remaining != {}
        invariant remaining <= caches.Keys
        invariant result.Keys == caches.Keys - remaining
        invariant forall k :: k in result ==> result[k] == caches[k]
        decreases |remaining|
      {
        var symbol :| symbol in remaining;
        result := result[symbol := caches[symbol]];
        remaining := remaining - {symbol};
      }
    }

    /** Removes `symbol`'s entry alone. */
    method Clear(symbol: string)
      modifies this
      ensures caches == old(caches) - {symbol}
      ensures old(Valid()) ==> Valid()
    {
      caches := caches - {symbol};
    }

    /** Removes every entry. */
    method ClearAll()
      modifies this
      ensures caches == map[]
      ensures old(Valid()) ==> Valid()
    {
      caches := map[];
    }

    /** The number of symbols held. */
    method GetCacheCount() returns (n: nat)
      ensures n == |caches|
    {
      return |caches|;
    }

    /** The cached symbols, each once, in no particular order. */
    method GetSymbols() returns (symbols: seq<string>)
      ensures |symbols| == |caches|
      ensures forall s :: s in symbols <==> s in caches
      ensures forall i, j :: 0 <= i < j < |symbols| ==> symbols[i] != symbols[j]
    {
      symbols := [];
      var remaining := caches.Keys;
      while remaining != {}
        invariant remaining <= caches.Keys
        invariant forall s :: s in symbols <==> s in caches.Keys - remaining
        invariant forall i, j :: 0 <= i < j < |symbols| ==> symbols[i] != symbols[j]
        invariant |symbols| + |remaining| == |caches|
        decreases |remaining|
      {
        var symbol :| symbol in remaining;
        assert symbol !in symbols;
        ghost var prev := symbols;
        symbols := symbols + [symbol];
        assert forall i :: 0 <= i < |prev| ==> symbols[i] == prev[i];
        remaining := remaining - {symbol};
      }
    }

    /** Whether `symbol` lacks a sample fresher than `maxAge` seconds at `now`. */
    method IsExpired(symbol: string, maxAge: int, now: int) returns (expired: bool)
      ensures expired <==> SymbolExpired(caches, symbol, maxAge, now)
    {
      var cache := Get(symbol);
      if cache.None? || |cache.value.timestamps| == 0 {
        return true;
      }
      var latestTimestamp := cache.value.timestamps[0];
      return now - latestTimestamp > maxAge;
    }

    /** Removes every stale entry and reports how many were removed. */
    method CleanExpired(maxAge: int, now: int) returns (cleaned: nat)
      modifies this
      ensures caches == Swept(old(caches), maxAge, now)
      ensures cleaned == |StaleKeys(old(caches), maxAge, now)|
      ensures old(Valid()) ==> Valid()
    {
      var entries := caches;
      ghost var removed: set<string> := {};
      cleaned := 0;
      var remaining := caches.Keys;
      while remaining != {}
        invariant remaining <= caches.Keys
        invariant forall k :: k in removed <==> k in caches && k !in remaining && Expired(caches[k], maxAge, now)
        invariant entries.Keys == caches.Keys - removed
        invariant forall k :: k in entries ==> entries[k] == caches[k]
        invariant cleaned == |removed|
        decreases |remaining|
      {
        var symbol :| symbol in remaining;
        var cache := entries[symbol];
        if |cache.timestamps| == 0 || now - cache.timestamps[0] > maxAge {
          entries := entries - {symbol};
          removed := removed + {symbol};
          cleaned := cleaned + 1;
        }
        remaining := remaining - {symbol};
      }
      assert removed == StaleKeys(caches, maxAge, now);
      SweptFromParts(caches, entries, maxAge, now);
      caches := entries;
    }

    /** The symbol count, the number of samples held and the bound. */
    method GetStats() returns (stats: Stats)
      ensures stats.symbolCount == |caches|
      ensures stats.totalRecords == TotalRecords(caches)
      ensures stats.maxSize == maxSize
      ensures Valid() ==> stats.totalRecords <= stats.symbolCount * stats.maxSize
    {
      var totalRecords := 0;
      var remaining := caches.Keys;
      while remaining != {}
        invariant remaining <= caches.Keys
        invariant totalRecords + SumOver(caches, remaining) == TotalRecords(caches)
        decreases |remaining|
      {
        var symbol :| symbol in remaining;
        SumOverRemove(caches, remaining, symbol);
        totalRecords := totalRecords + |caches[symbol].history|;
        remaining := remaining - {symbol};
      }
      if Valid() {
        SumOverBound(caches, caches.Keys, maxSize);
      }
      return Stats(|caches|, totalRecords, maxSize);
    }
  }

  /** The free-standing update: a missing cache starts empty with no symbol.
      Both slices get the sample prepended, and both are cut only when the
      history exceeds the bound. A negative bound makes that cut panic. When
      the history is longer than the timestamps, the cut reslices the new
      timestamps past their length: it reads the zeroed spare capacity that
      `append` allocated (`tsCapacity`, at least the new length), and panics
      beyond it. */
  function UpdateOICache(cache: Option<OICache>, newOI: real, timestamp: int, maxSize: int, tsCapacity: nat)
    : (r: Outcome<OICache>)
    requires tsCapacity >= |(if cache.Some? then cache.value else OICache("", [], [])).timestamps| + 1
    ensures var c := if cache.Some? then cache.value else OICache("", [], []);
      r.Panicked? <==> maxSize < 0 || (|c.history| + 1 > maxSize && maxSize > tsCapacity)
    ensures r.Returned? ==>
      var c := if cache.Some? then cache.value else OICache("", [], []);
      r.value.symbol == c.symbol &&
      r.value.history == Push(c.history, newOI, maxSize) &&
      |r.value.timestamps| == (if |c.history| + 1 > maxSize then maxSize else |c.timestamps| + 1) &&
      (|r.value.timestamps| > 0 ==> r.value.timestamps[0] == timestamp) &&
      forall i :: 1 <= i < |r.value.timestamps| ==>
        r.value.timestamps[i] == (if i - 1 < |c.timestamps| then c.timestamps[i - 1] else 0)
    ensures r.Returned? && WellFormed(if cache.Some? then cache.value else OICache("", [], []), maxSize) ==>
      r.value == Pushed(if cache.Some? then cache.value else OICache("", [], []), newOI, timestamp, maxSize) &&
      WellFormed(r.value, maxSize)
  {
    var c := if cache.Some? then cache.value else OICache("", [], []);
    var history := [newOI] + c.history;
    var timestamps := [timestamp] + c.timestamps;
    if |history| <= maxSize then Returned(c.(history := history, timestamps := timestamps))
    else if maxSize < 0 || maxSize > tsCapacity then Panicked("slice bounds out of range")
    else if maxSize <= |timestamps| then Returned(c.(history := history[..maxSize], timestamps := timestamps[..maxSize]))
    else Returned(c.(history := history[..maxSize], timestamps := timestamps + seq(maxSize - |timestamps|, _ => 0)))
  }

  /** A history longer than the timestamps: the cut panics past the new
      timestamps' capacity, and within it reads a zero past their length. */
  lemma LongerHistoryReslices()
    ensures UpdateOICache(Some(OICache("BTCUSDT", [1.0, 2.0, 3.0, 4.0, 5.0], [])), 6.0, 7, 5, 1).Panicked?
    ensures UpdateOICache(Some(OICache("BTCUSDT", [1.0, 2.0, 3.0, 4.0, 5.0, 6.0], [11, 12, 13, 14])), 7.0, 15, 6, 6)
      == Returned(OICache("BTCUSDT", [7.0, 1.0, 2.0, 3.0, 4.0, 5.0], [15, 11, 12, 13, 14, 0]))
  {
    assert ([7.0] + [1.0, 2.0, 3.0, 4.0, 5.0, 6.0])[..6] == [7.0, 1.0, 2.0, 3.0, 4.0, 5.0];
    assert [15] + [11, 12, 13, 14] + seq(1, _ => 0) == [15, 11, 12, 13, 14, 0];
  }
}
