/**
 * The catalog-based recommendations (`HomeRecommendationService`): a page of
 * the candidate pool read from an offset, and the handful of items the home
 * snapshot shows, bounded by a deadline and by a number of attempts.
 *
 * The candidate pool is given as the result of `getCandidatePool`, the quote
 * and sparkline services as a `Market`, and the clock as the sequence of its
 * readings: `clock(0)` is read to set the deadline, `clock(n)` by the n-th
 * deadline check.
 */
module HomeRecommendation {
  import opened Common
  import opened Text
  import opened StockCatalog
  import opened PoolReader

  const DefaultHomeSize := 5
  const DefaultPageSize := 10
  const DefaultCandidatePool := 120
  const DefaultDeadlineMs := 2500
  const DefaultMaxAttempts := 40

  datatype Settings = Settings(homeSize: int, pageSize: int, candidatePool: int, deadlineMs: int, maxAttempts: int)

  /** `isSafeCommonStockSymbol` of this service: `^[A-Z]{1,5}$` on the symbol as it is, with no trimming. */
  predicate IsPlainSymbol(symbol: Option<string>) {
    symbol.Some? && IsUpperLetters(symbol.value, 5)
  }

  /**
   * What one pool entry yields: nothing for a symbol that is not plain, or
   * whose quote or sparkline fails, or whose sparkline is empty; otherwise an
   * item under the symbol as listed.
   */
  function ItemAt(m: Market, entry: StockItem): (r: Option<RecommendedItem>)
    ensures r.Some? ==> IsPlainSymbol(entry.symbol) && r.value.symbol == entry.symbol.value && r.value.sparkline != []
  {
    if !IsPlainSymbol(entry.symbol) then None
    else
      var symbol := entry.symbol.value;
      match m.quote(symbol)
      case Err(_) => None
      case Ok(q) =>
        match m.sparkline(symbol)
        case Err(_) => None
        case Ok(points) =>
          if points == [] then None else Some(RecommendedItem(symbol, q.price, q.changePercent, points))
  }

  /** The entry's item as a list of zero or one items. */
  function Share(m: Market, entry: StockItem): seq<RecommendedItem> {
    match ItemAt(m, entry)
    case Some(x) => [x]
    case None => []
  }

  /** The entry's contribution to the attempts: one for a plain symbol. */
  function PlainShare(entry: StockItem): nat {
    if IsPlainSymbol(entry.symbol) then 1 else 0
  }

  /** The items that the entries `lo` to `hi` (exclusive) of the pool yield, in pool order. */
  function ItemsIn(m: Market, pool: seq<StockItem>, lo: nat, hi: nat): (r: seq<RecommendedItem>)
    requires lo <= hi <= |pool|
    ensures |r| <= hi - lo
    decreases hi - lo
  {
    if hi == lo then [] else ItemsIn(m, pool, lo, hi - 1) + Share(m, pool[hi - 1])
  }

  /** Every item comes from a plain symbol and has a sparkline. */
  lemma {:induction false} ItemsAreShown(m: Market, pool: seq<StockItem>, lo: nat, hi: nat)
    requires lo <= hi <= |pool|
    ensures forall k :: 0 <= k < |ItemsIn(m, pool, lo, hi)| ==>
      IsUpperLetters(ItemsIn(m, pool, lo, hi)[k].symbol, 5) && ItemsIn(m, pool, lo, hi)[k].sparkline != []
    decreases hi - lo
  {
    if hi > lo {
      ItemsAreShown(m, pool, lo, hi - 1);
      var x := ItemAt(m, pool[hi - 1]);
      assert x.Some? ==> IsUpperLetters(x.value.symbol, 5);
    }
  }

  /** How many of the entries `lo` to `hi` (exclusive) have a plain symbol. */
  function PlainCount(pool: seq<StockItem>, lo: nat, hi: nat): (r: nat)
    requires lo <= hi <= |pool|
    ensures r <= hi - lo
    decreases hi - lo
  {
    if hi == lo then 0 else PlainCount(pool, lo, hi - 1) + PlainShare(pool[hi - 1])
  }

  // ---------------------------------------------------------------------
  // getRecommendations(offset)

  /** Where the page loop ends: the index after the last entry read, and the items. */
  datatype Cut = Cut(end: nat, items: seq<RecommendedItem>)

  /** The page loop from index `i` with `items` gathered: read entries while some remain and the page is not full. */
  function MoreFrom(m: Market, pool: seq<StockItem>, pageSize: int, i: nat, items: seq<RecommendedItem>): (r: Cut)
    requires i <= |pool|
    ensures i <= r.end <= |pool|
    decreases |pool| - i
  {
    if i < |pool| && |items| < pageSize then
      MoreFrom(m, pool, pageSize, i + 1, items + Share(m, pool[i]))
    else Cut(i, items)
  }

  /**
   * `getRecommendations(offset)`: no items and no next offset for an empty
   * pool; otherwise the page loop from `max(0, offset)`, and the index after
   * the last entry read as the next offset while entries remain.
   */
  function Recommendations(pool: Result<seq<StockItem>>, offset: int, pageSize: int, m: Market): Result<Page> {
    match pool
    case Err(e) => Err(e)
    case Ok(entries) =>
      if entries == [] then Ok(Page([], None))
      else
        var start := Max(0, offset);
        if start >= |entries| then Ok(Page([], None))
        else
          var cut := MoreFrom(m, entries, pageSize, start, []);
          Ok(Page(cut.items, if cut.end < |entries| then Some(cut.end) else None))
  }

  /** The page loop from `i` adds exactly the items of the entries it reads, and stops early only on a full page. */
  lemma {:induction false} MoreCollects(m: Market, pool: seq<StockItem>, pageSize: int, start: nat, i: nat, items: seq<RecommendedItem>)
    requires start <= i <= |pool|
    requires items == ItemsIn(m, pool, start, i)
    ensures var r := MoreFrom(m, pool, pageSize, i, items);
      r.items == ItemsIn(m, pool, start, r.end) && (r.end < |pool| ==> |r.items| >= pageSize)
    decreases |pool| - i
  {
    if i < |pool| && |items| < pageSize {
      var more := items + Share(m, pool[i]);
      MoreCollects(m, pool, pageSize, start, i + 1, more);
      assert MoreFrom(m, pool, pageSize, i, items) == MoreFrom(m, pool, pageSize, i + 1, more);
    }
  }

  /** The page loop reads no entry once the page is full: before its last entry the page still had room. */
  lemma {:induction false} MoreStopsWhenFull(m: Market, pool: seq<StockItem>, pageSize: int, start: nat, i: nat, items: seq<RecommendedItem>)
    requires start <= i <= |pool|
    requires items == ItemsIn(m, pool, start, i)
    requires i > start ==> |ItemsIn(m, pool, start, i - 1)| < pageSize
    ensures var r := MoreFrom(m, pool, pageSize, i, items);
      r.end > start ==> |ItemsIn(m, pool, start, r.end - 1)| < pageSize
    decreases |pool| - i
  {
    if i < |pool| && |items| < pageSize {
      var more := items + Share(m, pool[i]);
      MoreStopsWhenFull(m, pool, pageSize, start, i + 1, more);
      var r := MoreFrom(m, pool, pageSize, i + 1, more);
      assert MoreFrom(m, pool, pageSize, i, items) == r;
      assert r.end > start ==> |ItemsIn(m, pool, start, r.end - 1)| < pageSize;
    }
  }

  /**
   * A page from a non-empty pool: at most `pageSize` items, each from a plain
   * symbol with a sparkline, exactly the items of the entries from
   * `max(0, offset)` up to the next offset (or the end), and a next offset
   * only when the page is full.
   */
  lemma PageRule(entries: seq<StockItem>, offset: int, pageSize: int, m: Market)
    requires entries != []
    ensures var r := Recommendations(Ok(entries), offset, pageSize, m);
      var start := Max(0, offset);
      var end := if r.value.nextOffset.Some? then r.value.nextOffset.value else |entries|;
      r.Ok?
      && |r.value.items| <= Max(pageSize, 0)
      && (start < |entries| ==> start <= end <= |entries| && r.value.items == ItemsIn(m, entries, start, end))
      && (r.value.nextOffset.Some? ==> start <= end < |entries| && |r.value.items| >= pageSize)
      && (forall k :: 0 <= k < |r.value.items| ==>
            IsUpperLetters(r.value.items[k].symbol, 5) && r.value.items[k].sparkline != [])
  {
    var start := Max(0, offset);
    if start < |entries| {
      assert entries[start..start] == [];
      MoreCollects(m, entries, pageSize, start, start, []);
      MoreStopsWhenFull(m, entries, pageSize, start, start, []);
      var cut := MoreFrom(m, entries, pageSize, start, []);
      if cut.end > start {
        assert |ItemsIn(m, entries, start, cut.end - 1)| < pageSize;
      }
      ItemsAreShown(m, entries, start, cut.end);
    }
  }

  /** The page loop of `getRecommendations`, as the service runs it. */
  method GetRecommendations(pool: Result<seq<StockItem>>, offset: int, pageSize: int, m: Market) returns (r: Result<Page>)
    ensures r == Recommendations(pool, offset, pageSize, m)
  {
    if pool.Err? {
      return Err(pool.error);
    }
    var entries := pool.value;
    if |entries| == 0 {
      return Ok(Page([], None));
    }
    var start := Max(0, offset);
    var items: seq<RecommendedItem> := [];
    var i := start;
    while i < |entries| && |items| < pageSize
      invariant start <= i
      invariant start >= |entries| ==> i == start && items == []
      invariant start < |entries| ==>
        i <= |entries| && MoreFrom(m, entries, pageSize, i, items) == MoreFrom(m, entries, pageSize, start, [])
      decreases |entries| - i
    {
      var entry := entries[i];
      assert MoreFrom(m, entries, pageSize, i, items) == MoreFrom(m, entries, pageSize, i + 1, items + Share(m, entry));
      i := i + 1;
      if !IsPlainSymbol(entry.symbol) {
        assert items + Share(m, entry) == items;
        continue;
      }
      var symbol := entry.symbol.value;
      var quote := m.quote(symbol);
      if quote.Err? {
        assert items + Share(m, entry) == items;
        continue;
      }
      var sparkline := m.sparkline(symbol);
      if sparkline.Err? || sparkline.value == [] {
        assert items + Share(m, entry) == items;
        continue;
      }
      items := items + [RecommendedItem(symbol, quote.value.price, quote.value.changePercent, sparkline.value)];
    }
    var nextOffset := if i < |entries| then Some(i) else None;
    return Ok(Page(items, nextOffset));
  }

  // ---------------------------------------------------------------------
  // getRecommendationsForHome()

  /** Where the home loop ends: the items, the attempts made, and the index of the entry it stopped at. */
  datatype HomeCut = HomeCut(items: seq<RecommendedItem>, attempts: nat, stop: nat)

  /**
   * The home loop at entry `k`: stop when the pool is exhausted, the items
   * reach `homeSize`, the clock's `(k+1)`-th reading is past the deadline, or
   * the attempts reach `maxAttempts`; skip a symbol that is not plain without
   * counting it; otherwise count an attempt and take the entry's item, if any.
   */
  function HomeFrom(m: Market, pool: seq<StockItem>, settings: Settings, deadline: int, clock: nat -> int,
                    k: nat, items: seq<RecommendedItem>, attempts: nat): (r: HomeCut)
    requires k <= |pool|
    ensures k <= r.stop <= |pool|
    decreases |pool| - k
  {
    if k == |pool| || |items| >= settings.homeSize || clock(k + 1) > deadline || attempts >= settings.maxAttempts then
      HomeCut(items, attempts, k)
    else if !IsPlainSymbol(pool[k].symbol) then
      HomeFrom(m, pool, settings, deadline, clock, k + 1, items, attempts)
    else
      HomeFrom(m, pool, settings, deadline, clock, k + 1, items + Share(m, pool[k]), attempts + 1)
  }

  /** `getRecommendationsForHome()`: nothing for an empty pool, else the home loop from the first entry. */
  function ForHome(pool: Result<seq<StockItem>>, settings: Settings, m: Market, clock: nat -> int): Result<HomeCut> {
    match pool
    case Err(e) => Err(e)
    case Ok(entries) =>
      if entries == [] then Ok(HomeCut([], 0, 0))
      else Ok(HomeFrom(m, entries, settings, clock(0) + settings.deadlineMs, clock, 0, [], 0))
  }

  /** The home loop gathers exactly the items of the entries it passed, and counts exactly their plain symbols as attempts. */
  lemma {:induction false} HomeCollects(m: Market, pool: seq<StockItem>, settings: Settings, deadline: int, clock: nat -> int,
                                        k: nat, items: seq<RecommendedItem>, attempts: nat)
    requires k <= |pool|
    requires items == ItemsIn(m, pool, 0, k) && attempts == PlainCount(pool, 0, k)
    ensures var r := HomeFrom(m, pool, settings, deadline, clock, k, items, attempts);
      r.items == ItemsIn(m, pool, 0, r.stop) && r.attempts == PlainCount(pool, 0, r.stop)
    decreases |pool| - k
  {
    if !(k == |pool| || |items| >= settings.homeSize || clock(k + 1) > deadline || attempts >= settings.maxAttempts) {
      if !IsPlainSymbol(pool[k].symbol) {
        HomeCollects(m, pool, settings, deadline, clock, k + 1, items, attempts);
      } else {
        HomeCollects(m, pool, settings, deadline, clock, k + 1, items + Share(m, pool[k]), attempts + 1);
      }
    }
  }

  /** The home loop never exceeds `homeSize` items nor `maxAttempts` attempts, and makes an attempt for every item. */
  lemma {:induction false} HomeBounds(m: Market, pool: seq<StockItem>, settings: Settings, deadline: int, clock: nat -> int,
                                      k: nat, items: seq<RecommendedItem>, attempts: nat)
    requires k <= |pool|
    requires |items| <= Max(settings.homeSize, 0) && attempts <= Max(settings.maxAttempts, 0) && |items| <= attempts
    ensures var r := HomeFrom(m, pool, settings, deadline, clock, k, items, attempts);
      |r.items| <= Max(settings.homeSize, 0) && r.attempts <= Max(settings.maxAttempts, 0) && |r.items| <= r.attempts
    decreases |pool| - k
  {
    if !(k == |pool| || |items| >= settings.homeSize || clock(k + 1) > deadline || attempts >= settings.maxAttempts) {
      if !IsPlainSymbol(pool[k].symbol) {
        HomeBounds(m, pool, settings, deadline, clock, k + 1, items, attempts);
      } else {
        HomeBounds(m, pool, settings, deadline, clock, k + 1, items + Share(m, pool[k]), attempts + 1);
      }
    }
  }

  /** When the home loop stops before the end of the pool, one of its three limits has been reached. */
  lemma {:induction false} HomeStopReason(m: Market, pool: seq<StockItem>, settings: Settings, deadline: int, clock: nat -> int,
                                          k: nat, items: seq<RecommendedItem>, attempts: nat)
    requires k <= |pool|
    ensures var r := HomeFrom(m, pool, settings, deadline, clock, k, items, attempts);
      r.stop < |pool| ==>
        |r.items| >= settings.homeSize || clock(r.stop + 1) > deadline || r.attempts >= settings.maxAttempts
    decreases |pool| - k
  {
    if !(k == |pool| || |items| >= settings.homeSize || clock(k + 1) > deadline || attempts >= settings.maxAttempts) {
      if !IsPlainSymbol(pool[k].symbol) {
        HomeStopReason(m, pool, settings, deadline, clock, k + 1, items, attempts);
      } else {
        HomeStopReason(m, pool, settings, deadline, clock, k + 1, items + Share(m, pool[k]), attempts + 1);
      }
    }
  }

  /**
   * The home list: at most `homeSize` items, no more than the attempts made,
   * at most `maxAttempts` attempts, each item from a plain symbol with a
   * sparkline, all of them the items of the entries passed, in pool order.
   */
  lemma ForHomeRule(entries: seq<StockItem>, settings: Settings, m: Market, clock: nat -> int)
    ensures var r := ForHome(Ok(entries), settings, m, clock);
      r.Ok?
      && r.value.items == ItemsIn(m, entries, 0, r.value.stop)
      && r.value.attempts == PlainCount(entries, 0, r.value.stop)
      && |r.value.items| <= Max(settings.homeSize, 0)
      && |r.value.items| <= r.value.attempts <= Max(settings.maxAttempts, 0)
      && (r.value.stop < |entries| ==>
            |r.value.items| >= settings.homeSize || clock(r.value.stop + 1) > clock(0) + settings.deadlineMs
            || r.value.attempts >= settings.maxAttempts)
      && (forall k :: 0 <= k < |r.value.items| ==>
            IsUpperLetters(r.value.items[k].symbol, 5) && r.value.items[k].sparkline != [])
  {
    if entries != [] {
      HomeCollects(m, entries, settings, clock(0) + settings.deadlineMs, clock, 0, [], 0);
      HomeBounds(m, entries, settings, clock(0) + settings.deadlineMs, clock, 0, [], 0);
      HomeStopReason(m, entries, settings, clock(0) + settings.deadlineMs, clock, 0, [], 0);
      var r := HomeFrom(m, entries, settings, clock(0) + settings.deadlineMs, clock, 0, [], 0);
      ItemsAreShown(m, entries, 0, r.stop);
    } else {
    }
  }

  /** With no limit reached before the end of the pool, every plain symbol of the pool was attempted. */
  lemma HomeReadsAllWhenUnhurried(entries: seq<StockItem>, settings: Settings, m: Market, clock: nat -> int)
    requires PlainCount(entries, 0, |entries|) < settings.maxAttempts
    requires |ItemsIn(m, entries, 0, |entries|)| < settings.homeSize
    requires forall n :: 0 < n <= |entries| ==> clock(n) <= clock(0) + settings.deadlineMs
    ensures ForHome(Ok(entries), settings, m, clock).value.items == ItemsIn(m, entries, 0, |entries|)
  {
    ForHomeRule(entries, settings, m, clock);
    var r := ForHome(Ok(entries), settings, m, clock).value;
    if r.stop < |entries| {
      StretchMonotone(m, entries, r.stop);
      assert false;
    }
  }

  /** A shorter stretch from the start yields no more items, and no more plain symbols, than the whole pool. */
  lemma {:induction false} StretchMonotone(m: Market, pool: seq<StockItem>, n: nat)
    requires n <= |pool|
    ensures |ItemsIn(m, pool, 0, n)| <= |ItemsIn(m, pool, 0, |pool|)| && PlainCount(pool, 0, n) <= PlainCount(pool, 0, |pool|)
    decreases |pool| - n
  {
    if n < |pool| {
      StretchMonotone(m, pool, n + 1);
    }
  }

  /** The home loop of `getRecommendationsForHome`, as the service runs it. */
  method GetRecommendationsForHome(pool: Result<seq<StockItem>>, settings: Settings, m: Market, clock: nat -> int)
    returns (r: Result<seq<RecommendedItem>>)
    ensures pool.Err? ==> r == Err(pool.error)
    ensures pool.Ok? ==> r == Ok(ForHome(pool, settings, m, clock).value.items)
  {
    if pool.Err? {
      return Err(pool.error);
    }
    var entries := pool.value;
    if |entries| == 0 {
      return Ok([]);
    }
    var deadline := clock(0) + settings.deadlineMs;
    var items: seq<RecommendedItem> := [];
    var attempts: nat := 0;
    var k := 0;
    while k < |entries|
      invariant k <= |entries|
      invariant HomeFrom(m, entries, settings, deadline, clock, k, items, attempts)
             == HomeFrom(m, entries, settings, deadline, clock, 0, [], 0)
      decreases |entries| - k
    {
      if |items| >= settings.homeSize { break; }
      if clock(k + 1) > deadline { break; }
      if attempts >= settings.maxAttempts { break; }
      var entry := entries[k];
      k := k + 1;
      if !IsPlainSymbol(entry.symbol) {
        continue;
      }
      assert HomeFrom(m, entries, settings, deadline, clock, k - 1, items, attempts)
          == HomeFrom(m, entries, settings, deadline, clock, k, items + Share(m, entry), attempts + 1);
      attempts := attempts + 1;
      var symbol := entry.symbol.value;
      var quote := m.quote(symbol);
      if quote.Err? {
        assert items + Share(m, entry) == items;
        continue;
      }
      var sparkline := m.sparkline(symbol);
      if sparkline.Err? || sparkline.value == [] {
        assert items + Share(m, entry) == items;
        continue;
      }
      items := items + [RecommendedItem(symbol, quote.value.price, quote.value.changePercent, sparkline.value)];
    }
    return Ok(items);
  }
}
