/**
 * The realtime quote cache (`MarketRealtimePriceService`): a fresh tier read
 * first, a single-flight lock so that only one process calls the quote
 * provider, a stale tier to fall back on, and a lock released by
 * compare-and-delete on the caller's own token.
 *
 * The provider's answer, the caller's random token and the commands other
 * processes run while this one fetches or waits are parameters.
 */
module RealtimePrice {
  import opened Common
  import opened Text
  import opened Json
  import opened KeyValue

  const FreshTtlSeconds: nat := 10
  const StaleTtlSeconds: nat := 600
  const LockTtlSeconds: nat := 10

  const FreshPrefix: string := "market:quote:fresh:"
  const StalePrefix: string := "market:quote:stale:"
  const LockPrefix: string := "market:quote:lock:"

  function FreshKey(symbol: string): string { FreshPrefix + symbol }
  function StaleKey(symbol: string): string { StalePrefix + symbol }
  function LockKey(symbol: string): string { LockPrefix + symbol }

  /** The message of a symbol that is null or blank. */
  const SymbolRequired: string := "symbol은 필수입니다."

  /** The message when the provider answers nothing and no stale quote is left. */
  function EmptyQuoteMessage(symbol: string): string { "Finnhub quote 응답이 비어있습니다. symbol=" + symbol }

  /** The message when another request holds the lock and neither tier can be read. */
  function NoQuoteMessage(symbol: string): string { "시세 캐시 미스/갱신중 및 stale 없음. symbol=" + symbol }

  /** The market summary of one symbol (prices as exact values). */
  datatype Summary = Summary(
    symbol: string, price: real, open: real, high: real, low: real,
    previousClose: real, change: real, changePercent: real, volume: int)

  /** What the quote provider call ends with. `NoQuote` is the empty answer the service guards against. */
  datatype ProviderAnswer = Fetched(summary: Summary) | NoQuote | ProviderThrew(failure: Failure)

  /** The three tiers of one symbol use three different keys, whatever the symbols. */
  lemma KeysDistinct(a: string, b: string)
    ensures FreshKey(a) != StaleKey(b) && FreshKey(a) != LockKey(b) && StaleKey(a) != LockKey(b)
  {
    assert FreshKey(a)[13] == 'f' && StaleKey(b)[13] == 's' && LockKey(b)[13] == 'l';
    assert StaleKey(a)[13] == 's';
  }

  /** The symbol trimmed and upper-cased; null or empty after trimming is an `IllegalArgumentException`. */
  function NormalizeSymbol(symbol: Option<string>): (r: Result<string>)
    ensures r.Ok? <==> symbol.Some? && Trim(symbol.value) != []
    ensures r.Err? ==> r.error.IllegalArgument?
    ensures r.Ok? ==> |r.value| > 0 && IsTrimmed(r.value) && ToUpper(r.value) == r.value
  {
    var s := if symbol.None? then "" else ToUpper(Trim(symbol.value));
    if s == [] then Err(IllegalArgument(SymbolRequired)) else
      TrimToUpperCommute(symbol.value);
      TrimIsTrimmedSlice(symbol.value);
      ToUpperIdempotent(Trim(symbol.value));
      Ok(s)
  }

  /** Normalising a normalised symbol gives it back. */
  lemma NormalizeSymbolIdempotent(symbol: Option<string>)
    requires NormalizeSymbol(symbol).Ok?
    ensures NormalizeSymbol(Some(NormalizeSymbol(symbol).value)) == NormalizeSymbol(symbol)
  {
    var s := NormalizeSymbol(symbol).value;
    TrimOfTrimmed(s);
  }

  /** A cached tier: a missing or blank entry, or one that does not parse, is a miss. */
  function CachedRead(s: Snapshot, key: string, codec: Codec<Summary>): Option<Summary> {
    var v := GetF(s, key);
    if v.None? || IsBlank(v.value) then None else codec.parse(v.value)
  }

  /** The result of a lookup, the store after it, and whether the provider was called. */
  datatype Outcome = Outcome(result: Result<Summary>, after: Snapshot, providerCalled: bool)

  /**
   * What one lookup does, on the store's content: a fresh hit is returned;
   * otherwise the caller that takes the lock fetches, writes both tiers on
   * success, falls back on the stale tier on an empty answer or a failure,
   * and releases the lock only while it still holds its token; a caller that
   * finds the lock taken returns the stale tier, or else waits and re-reads
   * the fresh tier.
   */
  function Lookup(s0: Snapshot, symbol: Option<string>, token: string, provider: ProviderAnswer,
                  codec: Codec<Summary>, duringFetch: seq<Op>, duringWait: seq<Op>): Outcome
  {
    match NormalizeSymbol(symbol)
    case Err(e) => Outcome(Err(e), s0, false)
    case Ok(sym) =>
      if CachedRead(s0, FreshKey(sym), codec).Some? then
        Outcome(Ok(CachedRead(s0, FreshKey(sym), codec).value), s0, false)
      else if Exists(s0, LockKey(sym)) then
        if CachedRead(s0, StaleKey(sym), codec).Some? then
          Outcome(Ok(CachedRead(s0, StaleKey(sym), codec).value), s0, false)
        else
          var s1 := ApplyOps(s0, duringWait);
          var again := CachedRead(s1, FreshKey(sym), codec);
          Outcome(if again.Some? then Ok(again.value) else Err(IllegalState(NoQuoteMessage(sym))), s1, false)
      else
        var s1 := ApplyOps(SetF(s0, LockKey(sym), token, Some(LockTtlSeconds)), duringFetch);
        match provider
        case Fetched(q) =>
          var s2 := SetF(SetF(s1, FreshKey(sym), codec.render(q), Some(FreshTtlSeconds)),
                         StaleKey(sym), codec.render(q), Some(StaleTtlSeconds));
          Outcome(Ok(q), DeleteIfValueMatchesF(s2, LockKey(sym), token).0, true)
        case NoQuote =>
          var stale := CachedRead(s1, StaleKey(sym), codec);
          Outcome(if stale.Some? then Ok(stale.value) else Err(IllegalState(EmptyQuoteMessage(sym))),
                  DeleteIfValueMatchesF(s1, LockKey(sym), token).0, true)
        case ProviderThrew(e) =>
          var stale := CachedRead(s1, StaleKey(sym), codec);
          Outcome(if stale.Some? then Ok(stale.value) else Err(e),
                  DeleteIfValueMatchesF(s1, LockKey(sym), token).0, true)
  }

  /** The store's content after this caller took the lock and others ran `duringFetch`. */
  function AfterFetch(s0: Snapshot, sym: string, token: string, duringFetch: seq<Op>): Snapshot {
    ApplyOps(SetF(s0, LockKey(sym), token, Some(LockTtlSeconds)), duringFetch)
  }

  /** A fresh hit is returned as it is: the provider is not called and the store is not written. */
  lemma FreshHitIsServedFromCache(s0: Snapshot, symbol: Option<string>, token: string, provider: ProviderAnswer,
                                  codec: Codec<Summary>, duringFetch: seq<Op>, duringWait: seq<Op>)
    requires NormalizeSymbol(symbol).Ok?
    requires CachedRead(s0, FreshKey(NormalizeSymbol(symbol).value), codec).Some?
    ensures var o := Lookup(s0, symbol, token, provider, codec, duringFetch, duringWait);
      o.result == Ok(CachedRead(s0, FreshKey(NormalizeSymbol(symbol).value), codec).value)
      && !o.providerCalled && o.after == s0
  {
  }

  /** Single flight: the provider is called exactly when the symbol is valid, the fresh tier misses and no one holds the lock. */
  lemma ProviderCalledOnlyUnderLock(s0: Snapshot, symbol: Option<string>, token: string, provider: ProviderAnswer,
                                    codec: Codec<Summary>, duringFetch: seq<Op>, duringWait: seq<Op>)
    ensures var o := Lookup(s0, symbol, token, provider, codec, duringFetch, duringWait);
      o.providerCalled <==>
        NormalizeSymbol(symbol).Ok?
        && CachedRead(s0, FreshKey(NormalizeSymbol(symbol).value), codec).None?
        && !Exists(s0, LockKey(NormalizeSymbol(symbol).value))
  {
  }

  /** A caller that finds the lock taken writes nothing: every change to the store comes from the other processes. */
  lemma LockLoserWritesNothing(s0: Snapshot, symbol: Option<string>, token: string, provider: ProviderAnswer,
                               codec: Codec<Summary>, duringFetch: seq<Op>, duringWait: seq<Op>)
    requires NormalizeSymbol(symbol).Ok?
    requires Exists(s0, LockKey(NormalizeSymbol(symbol).value))
    ensures var o := Lookup(s0, symbol, token, provider, codec, duringFetch, duringWait);
      o.after == s0 || o.after == ApplyOps(s0, duringWait)
  {
  }

  /** After a successful fetch both tiers read back as the fetched summary, with lifetimes of 10 seconds and 10 minutes. */
  lemma FetchWritesBothTiers(s0: Snapshot, symbol: Option<string>, token: string, q: Summary,
                             codec: Codec<Summary>, duringFetch: seq<Op>, duringWait: seq<Op>)
    requires RoundTrips(codec)
    requires NormalizeSymbol(symbol).Ok?
    requires CachedRead(s0, FreshKey(NormalizeSymbol(symbol).value), codec).None?
    requires !Exists(s0, LockKey(NormalizeSymbol(symbol).value))
    ensures var sym, o := NormalizeSymbol(symbol).value, Lookup(s0, symbol, token, Fetched(q), codec, duringFetch, duringWait);
      o.result == Ok(q)
      && CachedRead(o.after, FreshKey(sym), codec) == Some(q)
      && CachedRead(o.after, StaleKey(sym), codec) == Some(q)
      && o.after.ttls[FreshKey(sym)] == FreshTtlSeconds
      && o.after.ttls[StaleKey(sym)] == StaleTtlSeconds
  {
    var sym := NormalizeSymbol(symbol).value;
    KeysDistinct(sym, sym);
    var s1 := AfterFetch(s0, sym, token, duringFetch);
    var text := codec.render(q);
    var s2 := SetF(SetF(s1, FreshKey(sym), text, Some(FreshTtlSeconds)), StaleKey(sym), text, Some(StaleTtlSeconds));
    var s3 := DeleteIfValueMatchesF(s2, LockKey(sym), token).0;
    assert Lookup(s0, symbol, token, Fetched(q), codec, duringFetch, duringWait).after == s3;
    assert GetF(s3, FreshKey(sym)) == Some(text) && GetF(s3, StaleKey(sym)) == Some(text);
    assert s3.ttls[FreshKey(sym)] == FreshTtlSeconds && s3.ttls[StaleKey(sym)] == StaleTtlSeconds;
  }

  /**
   * The release never removes a lock another caller holds: if, while this
   * caller fetched, its lock ran out and someone else took the lock with a
   * different token, that lock is still there afterwards; if the caller still
   * holds its own lock, the lock is gone.
   */
  lemma ReleaseKeepsForeignLock(s0: Snapshot, symbol: Option<string>, token: string, provider: ProviderAnswer,
                                codec: Codec<Summary>, duringFetch: seq<Op>, duringWait: seq<Op>)
    requires NormalizeSymbol(symbol).Ok?
    requires CachedRead(s0, FreshKey(NormalizeSymbol(symbol).value), codec).None?
    requires !Exists(s0, LockKey(NormalizeSymbol(symbol).value))
    ensures var sym := NormalizeSymbol(symbol).value;
      var held := GetF(AfterFetch(s0, sym, token, duringFetch), LockKey(sym));
      var o := Lookup(s0, symbol, token, provider, codec, duringFetch, duringWait);
      GetF(o.after, LockKey(sym)) == (if held == Some(token) then None else held)
  {
    var sym := NormalizeSymbol(symbol).value;
    KeysDistinct(sym, sym);
  }

  /** When the provider fails or answers nothing, the caller answers from the stale tier if it can, and otherwise fails: with the provider's exception, or with an `IllegalStateException` for an empty answer. */
  lemma FailureFallsBackToStale(s0: Snapshot, symbol: Option<string>, token: string, provider: ProviderAnswer,
                                codec: Codec<Summary>, duringFetch: seq<Op>, duringWait: seq<Op>)
    requires !provider.Fetched?
    requires NormalizeSymbol(symbol).Ok?
    requires CachedRead(s0, FreshKey(NormalizeSymbol(symbol).value), codec).None?
    requires !Exists(s0, LockKey(NormalizeSymbol(symbol).value))
    ensures var sym := NormalizeSymbol(symbol).value;
      var stale := CachedRead(AfterFetch(s0, sym, token, duringFetch), StaleKey(sym), codec);
      var o := Lookup(s0, symbol, token, provider, codec, duringFetch, duringWait);
      o.result == (if stale.Some? then Ok(stale.value)
                   else if provider.ProviderThrew? then Err(provider.failure)
                   else Err(IllegalState(EmptyQuoteMessage(sym))))
  {
  }

  /** `getCached`. */
  method GetCached(store: Store, key: string, codec: Codec<Summary>) returns (r: Option<Summary>)
    ensures r == CachedRead(store.State(), key, codec)
  {
    var json := store.Get(key);
    if json.None? || IsBlank(json.value) {
      return None;
    }
    r := codec.parse(json.value);
  }

  /** `getRealtimePrice`: the lookup, step by step, against the shared store. */
  method GetRealtimePrice(store: Store, symbol: Option<string>, token: string, provider: ProviderAnswer,
                          codec: Codec<Summary>, duringFetch: seq<Op>, duringWait: seq<Op>)
    returns (r: Result<Summary>, providerCalled: bool)
    modifies store
    ensures Outcome(r, store.State(), providerCalled)
            == Lookup(old(store.State()), symbol, token, provider, codec, duringFetch, duringWait)
  {
    providerCalled := false;
    var normalized := NormalizeSymbol(symbol);
    if normalized.Err? {
      return Err(normalized.error), false;
    }
    var s := normalized.value;
    var freshKey, staleKey, lockKey := FreshKey(s), StaleKey(s), LockKey(s);

    var hit := GetCached(store, freshKey, codec);
    if hit.Some? {
      return Ok(hit.value), false;
    }

    var locked := store.SetIfAbsent(lockKey, token, Some(LockTtlSeconds));
    if locked {
      providerCalled := true;
      store.Interleave(duringFetch);
      match provider {
        case Fetched(q) =>
          store.Set(freshKey, codec.render(q), Some(FreshTtlSeconds));
          store.Set(staleKey, codec.render(q), Some(StaleTtlSeconds));
          r := Ok(q);
        case NoQuote =>
          var stale := GetCached(store, staleKey, codec);
          r := if stale.Some? then Ok(stale.value) else Err(IllegalState(EmptyQuoteMessage(s)));
        case ProviderThrew(e) =>
          var stale := GetCached(store, staleKey, codec);
          r := if stale.Some? then Ok(stale.value) else Err(e);
      }
      var _ := store.DeleteIfValueMatches(lockKey, token);
      return;
    }

    var stale := GetCached(store, staleKey, codec);
    if stale.Some? {
      return Ok(stale.value), false;
    }
    store.Interleave(duringWait);
    hit := GetCached(store, freshKey, codec);
    if hit.Some? {
      return Ok(hit.value), false;
    }
    r := Err(IllegalState(NoQuoteMessage(s)));
  }
}
