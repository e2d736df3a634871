/**
 * The daily-candle cache (`MarketCandleService`): the last 90 daily candles of
 * a symbol, cached for twelve hours under `market:candles:1day:<SYMBOL>`
 * whatever number of days is asked for, and cut to the requested tail on the
 * way out. A cached entry that does not read is deleted and refetched.
 *
 * The provider's answer, the parser of decimal numbers and the JSON codec of
 * candle lists are parameters.
 */
module MarketCandles {
  import opened Common
  import opened Text
  import opened Json
  import opened KeyValue

  const KeyPrefix: string := "market:candles:1day:"
  const MaxDays: int := 90
  const TtlSeconds: nat := 43200

  /** One daily candle as the service returns and caches it. */
  datatype Candle = Candle(date: Option<string>, open: real, high: real, low: real, close: real, volume: int)

  /** One entry of the provider's `values`, every field as the text it came as (absent = `null`). */
  datatype CandleValue = CandleValue(datetime: Option<string>, open: Option<string>, high: Option<string>,
                                     low: Option<string>, close: Option<string>, volume: Option<string>)

  /** `key(symbol)`: the prefix and the upper-cased symbol; the number of days plays no part. */
  function CandleKey(symbol: string): (r: string)
    ensures StartsWith(r, KeyPrefix) && r[|KeyPrefix|..] == ToUpper(symbol)
  {
    KeyPrefix + ToUpper(symbol)
  }

  /** Two symbols share a cache entry exactly when they upper-case to the same text. */
  lemma KeyDependsOnUpperCaseOnly(a: string, b: string)
    ensures CandleKey(a) == CandleKey(b) <==> ToUpper(a) == ToUpper(b)
    ensures CandleKey(ToUpper(a)) == CandleKey(a)
  {
    if CandleKey(a) == CandleKey(b) {
      assert CandleKey(a)[|KeyPrefix|..] == CandleKey(b)[|KeyPrefix|..];
    }
    ToUpperIdempotent(a);
  }

  /** `clamp(v, min, max)`: `Math.max(min, Math.min(max, v))`. */
  function Clamp(v: int, lo: int, hi: int): (r: int)
    ensures lo <= hi ==> lo <= r <= hi
    ensures lo <= v <= hi ==> r == v
    ensures r == v || r == lo || r == hi
  {
    Max(lo, Min(hi, v))
  }

  /** `sliceTail(all, days)`: the last `days` candles; all of them when there are no more, or when `days` is not positive. */
  function SliceTail(all: seq<Candle>, days: int): (r: seq<Candle>)
    ensures |r| == if days <= 0 then |all| else Min(|all|, days)
    ensures r == all[|all| - |r|..]
  {
    if |all| == 0 then []
    else if days <= 0 then all
    else if |all| <= days then all
    else all[|all| - days..]
  }

  /** A slice of at most `days` candles is its own tail of `days`: slicing again changes nothing. */
  lemma SliceTailIdempotent(all: seq<Candle>, days: int)
    ensures SliceTail(SliceTail(all, days), days) == SliceTail(all, days)
  {
  }

  /** The text of a number field that stands for no number: absent, blank or "null" in any case. */
  predicate IsNullText(s: Option<string>) {
    s.None? || IsBlank(s.value) || EqualsIgnoreCase(s.value, "null")
  }

  /** `d(s)`: the decimal the field holds, 0 when it holds none or does not parse. */
  function Decimal(s: Option<string>, parseNumber: string -> Option<real>): (r: real)
    ensures IsNullText(s) ==> r == 0.0
    ensures !IsNullText(s) && parseNumber(s.value).Some? ==> r == parseNumber(s.value).value
  {
    if IsNullText(s) then 0.0
    else match parseNumber(s.value)
      case Some(x) => x
      case None => 0.0
  }

  /** `l(s)`: the long the field holds, 0 when it holds none or does not parse. */
  function Long(s: Option<string>): (r: int)
    ensures MinLong <= r <= MaxLong
    ensures IsNullText(s) ==> r == 0
  {
    if IsNullText(s) then 0
    else match ParseLong(s.value)
      case Some(n) => n
      case None => 0
  }

  /** A long printed in decimal reads back as itself: the default 0 is only for fields that hold no long. */
  lemma LongOfPrinted(n: int)
    requires MinLong <= n <= MaxLong
    ensures Long(Some(IntToString(n))) == n
  {
    var s := IntToString(n);
    ParseLongOfIntToString(n);
    if n < 0 {
      NatToStringDigits(-n);
    } else {
      NatToStringDigits(n);
    }
    assert !IsWhitespace(s[|s| - 1]);
    assert ToUpper(s)[|s| - 1] == s[|s| - 1];
    assert ToUpper("null")[3] == 'L';
  }

  /** One provider entry as a candle. */
  function ToCandle(v: CandleValue, parseNumber: string -> Option<real>): Candle {
    Candle(v.datetime, Decimal(v.open, parseNumber), Decimal(v.high, parseNumber), Decimal(v.low, parseNumber),
           Decimal(v.close, parseNumber), Long(v.volume))
  }

  // ---------------------------------------------------------------------
  // Sorting by date

  /** `String.compareTo(a, b) <= 0`: character by character, a proper prefix first. */
  predicate TextLeq(a: string, b: string)
    decreases |a|
  {
    |a| == 0 || (|b| > 0 && (a[0] < b[0] || (a[0] == b[0] && TextLeq(a[1..], b[1..]))))
  }

  lemma {:induction false} TextLeqTotal(a: string, b: string)
    ensures TextLeq(a, b) || TextLeq(b, a)
    decreases |a|
  {
    if |a| > 0 && |b| > 0 && a[0] == b[0] {
      TextLeqTotal(a[1..], b[1..]);
    }
  }

  lemma {:induction false} TextLeqTransitive(a: string, b: string, c: string)
    requires TextLeq(a, b) && TextLeq(b, c)
    ensures TextLeq(a, c)
    decreases |a|
  {
    if |a| > 0 && a[0] == b[0] && b[0] == c[0] {
      TextLeqTransitive(a[1..], b[1..], c[1..]);
    }
  }

  /** The date a candle sorts by (only candles with a date are ever compared). */
  function DateOf(c: Candle): string {
    if c.date.Some? then c.date.value else ""
  }

  /** `Comparator.comparing(getDate)`: a candle is not after another whose date is not smaller. */
  function DateLeq(a: Candle, b: Candle): bool {
    TextLeq(DateOf(a), DateOf(b))
  }

  /** The date comparison orders every pair of candles, transitively. */
  lemma DateLeqIsPreorder()
    ensures TotalPreorder(DateLeq)
  {
    forall a: Candle, b: Candle
      ensures DateLeq(a, b) || DateLeq(b, a)
    {
      TextLeqTotal(DateOf(a), DateOf(b));
    }
    forall a: Candle, b: Candle, c: Candle | DateLeq(a, b) && DateLeq(b, c)
      ensures DateLeq(a, c)
    {
      TextLeqTransitive(DateOf(a), DateOf(b), DateOf(c));
    }
  }

  predicate SortedByDate(xs: seq<Candle>) {
    SortedBy(xs, DateLeq)
  }

  /** `sorted(Comparator.comparing(getDate))`: the candles in ascending order of date. */
  function SortByDate(xs: seq<Candle>): seq<Candle> {
    SortBy(xs, DateLeq)
  }

  /** Sorting gives the same candles in ascending order of date. */
  lemma SortByDateSorts(xs: seq<Candle>)
    ensures SortedByDate(SortByDate(xs)) && multiset(SortByDate(xs)) == multiset(xs)
  {
    DateLeqIsPreorder();
    SortBySorts(xs, DateLeq);
  }

  // ---------------------------------------------------------------------
  // The cached lookup

  /** The result of a candle lookup, the store after it, and whether the provider was called. */
  datatype CandleOutcome = CandleOutcome(result: Result<seq<Candle>>, after: Snapshot, providerCalled: bool)

  /** The provider's candles as the service builds them, or the exception sorting them throws: with two or more, a candle without a date makes the comparator fail. */
  function BuildSorted(values: seq<CandleValue>, parseNumber: string -> Option<real>): Result<seq<Candle>> {
    var built := seq(|values|, i requires 0 <= i < |values| => ToCandle(values[i], parseNumber));
    if |built| >= 2 && exists i :: 0 <= i < |values| && values[i].datetime.None? then Err(RuntimeFailure("NullPointerException"))
    else Ok(SortByDate(built))
  }

  /** The cache read: an entry with text that reads is a hit; one that does not read is deleted. */
  function ReadCachedF(s: Snapshot, key: string, codec: Codec<seq<Candle>>): (Option<seq<Candle>>, Snapshot) {
    var cached := GetF(s, key);
    if cached.None? || IsBlank(cached.value) then (None, s)
    else match codec.parse(cached.value)
      case Some(all) => (Some(all), s)
      case None => (None, DeleteF(s, key).0)
  }

  /**
   * `getDailyCandles(symbol, days)` on the store's content: the days are
   * clamped to 1..90; a cache hit is cut to its tail; otherwise the provider
   * is asked for 90 days (its exception propagates), no values is an empty
   * list with nothing cached, and the values are built, sorted by date,
   * cached whole for twelve hours and cut to their tail.
   */
  function CandlesLookup(s0: Snapshot, symbol: string, days: int, answer: Result<Option<seq<CandleValue>>>,
                         parseNumber: string -> Option<real>, codec: Codec<seq<Candle>>): CandleOutcome
  {
    var n := Clamp(days, 1, MaxDays);
    var key := CandleKey(symbol);
    var (hit, s1) := ReadCachedF(s0, key, codec);
    if hit.Some? then CandleOutcome(Ok(SliceTail(hit.value, n)), s1, false)
    else match answer
      case Err(e) => CandleOutcome(Err(e), s1, true)
      case Ok(None) => CandleOutcome(Ok([]), s1, true)
      case Ok(Some(values)) =>
        if |values| == 0 then CandleOutcome(Ok([]), s1, true)
        else match BuildSorted(values, parseNumber)
          case Err(e) => CandleOutcome(Err(e), s1, true)
          case Ok(all) => CandleOutcome(Ok(SliceTail(all, n)), SetF(s1, key, codec.render(all), Some(TtlSeconds)), true)
  }

  /** A hit returns the last `n` cached candles, `n` the days clamped to 1..90, without the provider and without writing. */
  lemma CandleHitIsSliced(s0: Snapshot, symbol: string, days: int, answer: Result<Option<seq<CandleValue>>>,
                          parseNumber: string -> Option<real>, codec: Codec<seq<Candle>>)
    requires var c := GetF(s0, CandleKey(symbol)); c.Some? && !IsBlank(c.value) && codec.parse(c.value).Some?
    ensures var all := codec.parse(GetF(s0, CandleKey(symbol)).value).value;
      var o := CandlesLookup(s0, symbol, days, answer, parseNumber, codec);
      o.result.Ok? && o.after == s0 && !o.providerCalled
      && |o.result.value| == Min(|all|, Clamp(days, 1, MaxDays)) && o.result.value == all[|all| - |o.result.value|..]
  {
  }

  /** An entry that does not read is deleted, and the provider is called in its place. */
  lemma CorruptCandlesRefetched(s0: Snapshot, symbol: string, days: int, answer: Result<Option<seq<CandleValue>>>,
                                parseNumber: string -> Option<real>, codec: Codec<seq<Candle>>)
    requires var c := GetF(s0, CandleKey(symbol)); c.Some? && !IsBlank(c.value) && codec.parse(c.value).None?
    ensures var o := CandlesLookup(s0, symbol, days, answer, parseNumber, codec);
      o.providerCalled && (answer == Ok(None) ==> !Exists(o.after, CandleKey(symbol)))
  {
  }

  /** No values from the provider is an empty list, and the cache is not written. */
  lemma EmptyAnswerWritesNothing(s0: Snapshot, symbol: string, days: int, parseNumber: string -> Option<real>,
                                 codec: Codec<seq<Candle>>)
    ensures var o := CandlesLookup(s0, symbol, days, Ok(Some([])), parseNumber, codec);
      var o2 := CandlesLookup(s0, symbol, days, Ok(None), parseNumber, codec);
      o.result.Ok? && o2.result.Ok? && o.after == o2.after
      && forall k :: k != CandleKey(symbol) ==> At(o.after, k) == At(s0, k)
  {
  }

  /** The built list holds one candle per provider entry, in ascending order of date. */
  lemma BuildSortedFacts(values: seq<CandleValue>, parseNumber: string -> Option<real>)
    requires BuildSorted(values, parseNumber).Ok?
    ensures var all := BuildSorted(values, parseNumber).value;
      SortedByDate(all) && |all| == |values|
      && multiset(all) == multiset(seq(|values|, i requires 0 <= i < |values| => ToCandle(values[i], parseNumber)))
  {
    var built := seq(|values|, i requires 0 <= i < |values| => ToCandle(values[i], parseNumber));
    SortByDateSorts(built);
    assert |SortByDate(built)| == |multiset(built)|;
  }

  /**
   * On a miss, a fetch caches the whole sorted list, for twelve hours, so that
   * the next lookup of any number of days is a hit that reads it back; the
   * answer is the tail of the same sorted list.
   */
  lemma FetchCachesSortedList(s0: Snapshot, symbol: string, days: int, values: seq<CandleValue>,
                              parseNumber: string -> Option<real>, codec: Codec<seq<Candle>>)
    requires RoundTrips(codec)
    requires ReadCachedF(s0, CandleKey(symbol), codec).0.None?
    requires |values| > 0 && BuildSorted(values, parseNumber).Ok?
    ensures var all := BuildSorted(values, parseNumber).value;
      var o := CandlesLookup(s0, symbol, days, Ok(Some(values)), parseNumber, codec);
      o.providerCalled
      && o.result == Ok(SliceTail(all, Clamp(days, 1, MaxDays)))
      && o.after.ttls[CandleKey(symbol)] == TtlSeconds
      && ReadCachedF(o.after, CandleKey(symbol), codec).0 == Some(all)
  {
    var all := BuildSorted(values, parseNumber).value;
    var key := CandleKey(symbol);
    var s1 := ReadCachedF(s0, key, codec).1;
    var s2 := SetF(s1, key, codec.render(all), Some(TtlSeconds));
    assert GetF(s2, key) == Some(codec.render(all));
    assert !IsBlank(codec.render(all)) && codec.parse(codec.render(all)) == Some(all);
  }

  /** `getDailyCandles`, step by step, against the shared store. */
  method GetDailyCandles(store: Store, symbol: string, days: int, answer: Result<Option<seq<CandleValue>>>,
                         parseNumber: string -> Option<real>, codec: Codec<seq<Candle>>)
    returns (r: Result<seq<Candle>>, providerCalled: bool)
    modifies store
    ensures CandleOutcome(r, store.State(), providerCalled)
            == CandlesLookup(old(store.State()), symbol, days, answer, parseNumber, codec)
  {
    var n := Clamp(days, 1, MaxDays);
    var key := CandleKey(symbol);
    var cached := store.Get(key);
    if cached.Some? && !IsBlank(cached.value) {
      var all := codec.parse(cached.value);
      if all.Some? {
        return Ok(SliceTail(all.value, n)), false;
      }
      var _ := store.Delete(key);
    }
    providerCalled := true;
    match answer {
      case Err(e) =>
        return Err(e), true;
      case Ok(None) =>
        return Ok([]), true;
      case Ok(Some(values)) =>
        if |values| == 0 {
          return Ok([]), true;
        }
        var sorted := BuildSorted(values, parseNumber);
        if sorted.Err? {
          return Err(sorted.error), true;
        }
        store.Set(key, codec.render(sorted.value), Some(TtlSeconds));
        r := Ok(SliceTail(sorted.value, n));
    }
  }
}
