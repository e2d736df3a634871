/**
 * The sparkline cache (`SparklineService`): the closes of the last days of a
 * symbol, cached under `sparkline:<symbol>:<days>`, rebuilt by at most one
 * process at a time under a `<key>:lock` key; a cached entry that does not
 * parse is deleted and counts as a miss.
 *
 * The time-series provider's answer, the parser of decimal numbers, the JSON
 * codec of point lists and the commands other processes run while this one
 * sleeps or fetches are parameters.
 */
module Sparkline {
  import opened Common
  import opened Text
  import opened Json
  import opened KeyValue

  const LockTtlSeconds: nat := 10
  const EmptyTtlSeconds: nat := 60
  const DefaultTtlSeconds: nat := 21600
  const DefaultDays := 30

  /** One point of a sparkline: its position, oldest first, and the close. */
  datatype SparkPoint = SparkPoint(index: int, close: real)

  /** What fetching the time series ends with: the `values` closes (absent list = `null`), a rate-limit exception, or any other exception. */
  datatype SeriesAnswer = Series(closes: Option<seq<Option<string>>>) | SeriesRateLimited(message: string) | SeriesFailed

  function SparklineKey(symbol: string, days: int): (r: string)
    ensures |r| > |symbol|
  {
    "sparkline:" + symbol + ":" + IntToString(days)
  }

  function LockKey(key: string): string { key + ":lock" }

  /** A key and its lock key differ. */
  lemma LockKeyDiffers(key: string)
    ensures LockKey(key) != key
  {
    assert |LockKey(key)| == |key| + 5;
  }

  /** `parseDoubleSafe`: null or blank is no number; otherwise the parser decides. */
  function ParseClose(close: Option<string>, parseNumber: string -> Option<real>): Option<real> {
    if close.None? || IsBlank(close.value) then None else parseNumber(close.value)
  }

  /** The closes that parse, in the provider's order (newest first). */
  function ParsedCloses(closes: seq<Option<string>>, parseNumber: string -> Option<real>): (r: seq<real>)
    ensures |r| <= |closes|
    decreases |closes|
  {
    if |closes| == 0 then []
    else
      var rest := ParsedCloses(closes[1..], parseNumber);
      match ParseClose(closes[0], parseNumber)
      case Some(x) => [x] + rest
      case None => rest
  }

  /** `toSparkline`: fewer than two parsed closes is no sparkline; otherwise the closes oldest first, numbered from 0. */
  function Parsed(closes: Option<seq<Option<string>>>, parseNumber: string -> Option<real>): seq<real> {
    if closes.None? then [] else ParsedCloses(closes.value, parseNumber)
  }

  function ToSparkline(closes: Option<seq<Option<string>>>, parseNumber: string -> Option<real>): seq<SparkPoint> {
    var parsed := Parsed(closes, parseNumber);
    if |parsed| < 2 then []
    else seq(|parsed|, i requires 0 <= i < |parsed| => SparkPoint(i, parsed[|parsed| - 1 - i]))
  }

  /** Every close that is present, not blank and parses is kept, in order, and nothing else is. */
  lemma {:induction false} ParsedClosesExact(closes: seq<Option<string>>, parseNumber: string -> Option<real>)
    ensures forall x :: (x in ParsedCloses(closes, parseNumber)
      <==> exists i :: 0 <= i < |closes| && ParseClose(closes[i], parseNumber) == Some(x))
    ensures (forall i :: 0 <= i < |closes| ==> ParseClose(closes[i], parseNumber).Some?)
      ==> |ParsedCloses(closes, parseNumber)| == |closes|
    decreases |closes|
  {
    if |closes| > 0 {
      ParsedClosesExact(closes[1..], parseNumber);
      forall x ensures x in ParsedCloses(closes, parseNumber)
        <==> exists i :: 0 <= i < |closes| && ParseClose(closes[i], parseNumber) == Some(x)
      {
        if x in ParsedCloses(closes, parseNumber) && x !in ParsedCloses(closes[1..], parseNumber) {
          assert ParseClose(closes[0], parseNumber) == Some(x);
        }
        if x in ParsedCloses(closes[1..], parseNumber) {
          var i :| 0 <= i < |closes[1..]| && ParseClose(closes[1..][i], parseNumber) == Some(x);
          assert ParseClose(closes[i + 1], parseNumber) == Some(x);
        }
        if exists i :: 0 <= i < |closes| && ParseClose(closes[i], parseNumber) == Some(x) {
          var i :| 0 <= i < |closes| && ParseClose(closes[i], parseNumber) == Some(x);
          if i > 0 {
            assert ParseClose(closes[1..][i - 1], parseNumber) == Some(x);
          }
        }
      }
    }
  }

  /**
   * A sparkline is empty or has at least two points; point `i` has index `i`,
   * and read from the newest point back the closes are exactly the parsed
   * closes in the provider's order.
   */
  lemma ToSparklineReversesCloses(closes: Option<seq<Option<string>>>, parseNumber: string -> Option<real>)
    ensures var r, parsed := ToSparkline(closes, parseNumber), Parsed(closes, parseNumber);
      (r == [] <==> |parsed| < 2)
      && (r != [] ==> |r| == |parsed|
                      && (forall i :: 0 <= i < |r| ==> r[i].index == i)
                      && (forall j :: 0 <= j < |r| ==> r[|r| - 1 - j].close == parsed[j]))
  {
    var r, parsed := ToSparkline(closes, parseNumber), Parsed(closes, parseNumber);
    if |parsed| >= 2 {
      assert |r| == |parsed|;
      assert r[0].index == 0;
    }
  }

  /** `readCache`: a missing key is a miss; an entry that does not parse is deleted and is a miss. */
  function ReadCacheF(s: Snapshot, key: string, codec: Codec<seq<SparkPoint>>): (Option<seq<SparkPoint>>, Snapshot) {
    var json := GetF(s, key);
    if json.None? then (None, s)
    else match codec.parse(json.value)
      case Some(points) => (Some(points), s)
      case None => (None, DeleteF(s, key).0)
  }

  /** The result of a sparkline lookup, the store after it, and whether the provider was called. */
  datatype SparkOutcome = SparkOutcome(result: Result<seq<SparkPoint>>, after: Snapshot, providerCalled: bool)

  /**
   * What `getSparklineOnly` does on the store's content: a cache hit is
   * returned; otherwise the caller that takes the lock fetches, caches the
   * points (an empty sparkline as "[]" for one minute), and deletes the lock
   * whatever happened; a rate limit propagates and any other failure is an
   * empty sparkline. A caller that finds the lock taken waits once and
   * re-reads the cache, and otherwise answers an empty sparkline.
   */
  function SparkLookup(s0: Snapshot, symbol: string, days: int, ttlSeconds: nat, answer: SeriesAnswer,
                       parseNumber: string -> Option<real>, codec: Codec<seq<SparkPoint>>,
                       duringWait: seq<Op>, duringFetch: seq<Op>): SparkOutcome
  {
    var key := SparklineKey(symbol, days);
    var (cached, s1) := ReadCacheF(s0, key, codec);
    if cached.Some? then SparkOutcome(Ok(cached.value), s1, false)
    else
      var (s2, locked) := SetIfAbsentF(s1, LockKey(key), "1", Some(LockTtlSeconds));
      if !locked then
        var (again, s3) := ReadCacheF(ApplyOps(s2, duringWait), key, codec);
        SparkOutcome(Ok(if again.Some? then again.value else []), s3, false)
      else
        var s3 := ApplyOps(s2, duringFetch);
        match answer
        case SeriesRateLimited(m) => SparkOutcome(Err(RateLimited(m)), DeleteF(s3, LockKey(key)).0, true)
        case SeriesFailed => SparkOutcome(Ok([]), DeleteF(s3, LockKey(key)).0, true)
        case Series(closes) =>
          var points := ToSparkline(closes, parseNumber);
          var s4 := if points == [] then SetF(s3, key, "[]", Some(EmptyTtlSeconds))
                    else SetF(s3, key, codec.render(points), Some(ttlSeconds));
          SparkOutcome(Ok(points), DeleteF(s4, LockKey(key)).0, true)
  }

  /** A cache hit is returned as it is, without the lock or the provider, and the store is not written. */
  lemma SparkHitIsServedFromCache(s0: Snapshot, symbol: string, days: int, ttlSeconds: nat, answer: SeriesAnswer,
                                  parseNumber: string -> Option<real>, codec: Codec<seq<SparkPoint>>,
                                  duringWait: seq<Op>, duringFetch: seq<Op>)
    requires var json := GetF(s0, SparklineKey(symbol, days)); json.Some? && codec.parse(json.value).Some?
    ensures var o := SparkLookup(s0, symbol, days, ttlSeconds, answer, parseNumber, codec, duringWait, duringFetch);
      o.result == Ok(codec.parse(GetF(s0, SparklineKey(symbol, days)).value).value)
      && o.after == s0 && !o.providerCalled
  {
  }

  /** A cached entry that does not parse is deleted, and nothing else is touched. */
  lemma CorruptEntryIsDeleted(s: Snapshot, key: string, codec: Codec<seq<SparkPoint>>)
    requires GetF(s, key).Some? && codec.parse(GetF(s, key).value).None?
    ensures var (r, s1) := ReadCacheF(s, key, codec);
      r.None? && !Exists(s1, key) && forall k :: k != key ==> At(s1, k) == At(s, k)
  {
  }

  /** The provider is called exactly when the cache misses and no one holds the lock; a caller that finds the lock taken always answers, with what it re-reads or with nothing. */
  lemma SparkSingleFlight(s0: Snapshot, symbol: string, days: int, ttlSeconds: nat, answer: SeriesAnswer,
                          parseNumber: string -> Option<real>, codec: Codec<seq<SparkPoint>>,
                          duringWait: seq<Op>, duringFetch: seq<Op>)
    ensures var key := SparklineKey(symbol, days);
      var (cached, s1) := ReadCacheF(s0, key, codec);
      var o := SparkLookup(s0, symbol, days, ttlSeconds, answer, parseNumber, codec, duringWait, duringFetch);
      (o.providerCalled <==> cached.None? && !Exists(s1, LockKey(key)))
      && (!o.providerCalled ==> o.result.Ok?)
  {
  }

  /** The lock holder deletes the lock key on every path, whoever holds the lock by then. */
  lemma SparkLockAlwaysDeleted(s0: Snapshot, symbol: string, days: int, ttlSeconds: nat, answer: SeriesAnswer,
                               parseNumber: string -> Option<real>, codec: Codec<seq<SparkPoint>>,
                               duringWait: seq<Op>, duringFetch: seq<Op>)
    ensures var o := SparkLookup(s0, symbol, days, ttlSeconds, answer, parseNumber, codec, duringWait, duringFetch);
      o.providerCalled ==> !Exists(o.after, LockKey(SparklineKey(symbol, days)))
  {
  }

  /**
   * The lock holder's answer: a rate limit propagates, any other failure is an
   * empty sparkline, and a series becomes its sparkline, which then reads
   * back from the cache (an empty one for one minute, any other for
   * `ttlSeconds`).
   */
  lemma SparkFetchResult(s0: Snapshot, symbol: string, days: int, ttlSeconds: nat, answer: SeriesAnswer,
                         parseNumber: string -> Option<real>, codec: Codec<seq<SparkPoint>>,
                         duringWait: seq<Op>, duringFetch: seq<Op>)
    requires RoundTrips(codec) && codec.parse("[]") == Some([])
    ensures var key := SparklineKey(symbol, days);
      var o := SparkLookup(s0, symbol, days, ttlSeconds, answer, parseNumber, codec, duringWait, duringFetch);
      o.providerCalled ==>
        match answer
        case SeriesRateLimited(m) => o.result == Err(RateLimited(m))
        case SeriesFailed => o.result == Ok([])
        case Series(closes) =>
          var points := ToSparkline(closes, parseNumber);
          o.result == Ok(points)
          && ReadCacheF(o.after, key, codec).0 == Some(points)
          && o.after.ttls[key] == (if points == [] then EmptyTtlSeconds else ttlSeconds)
  {
    var key := SparklineKey(symbol, days);
    LockKeyDiffers(key);
  }

  /** `readCache`, on the shared store. */
  method ReadCache(store: Store, key: string, codec: Codec<seq<SparkPoint>>) returns (r: Option<seq<SparkPoint>>)
    modifies store
    ensures (r, store.State()) == ReadCacheF(old(store.State()), key, codec)
  {
    var json := store.Get(key);
    if json.None? {
      return None;
    }
    r := codec.parse(json.value);
    if r.None? {
      var _ := store.Delete(key);
    }
  }

  /** `getSparklineOnly`, step by step, against the shared store. */
  method GetSparklineOnly(store: Store, symbol: string, days: int, ttlSeconds: nat, answer: SeriesAnswer,
                          parseNumber: string -> Option<real>, codec: Codec<seq<SparkPoint>>,
                          duringWait: seq<Op>, duringFetch: seq<Op>)
    returns (r: Result<seq<SparkPoint>>, providerCalled: bool)
    modifies store
    ensures SparkOutcome(r, store.State(), providerCalled)
            == SparkLookup(old(store.State()), symbol, days, ttlSeconds, answer, parseNumber, codec, duringWait, duringFetch)
  {
    var key := SparklineKey(symbol, days);
    var cached := ReadCache(store, key, codec);
    if cached.Some? {
      return Ok(cached.value), false;
    }
    var lockKey := LockKey(key);
    var locked := store.SetIfAbsent(lockKey, "1", Some(LockTtlSeconds));
    if !locked {
      store.Interleave(duringWait);
      cached := ReadCache(store, key, codec);
      return Ok(if cached.Some? then cached.value else []), false;
    }
    providerCalled := true;
    store.Interleave(duringFetch);
    match answer {
      case SeriesRateLimited(m) =>
        r := Err(RateLimited(m));
      case SeriesFailed =>
        r := Ok([]);
      case Series(closes) =>
        var points := ToSparkline(closes, parseNumber);
        if points == [] {
          store.Set(key, "[]", Some(EmptyTtlSeconds));
        } else {
          store.Set(key, codec.render(points), Some(ttlSeconds));
        }
        r := Ok(points);
    }
    var _ := store.Delete(lockKey);
  }
}
