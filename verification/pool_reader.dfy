/**
 * Reading the recommendation pool page by page (`RecommendationPoolService`):
 * the version to read (today's pool, or yesterday's while today's is empty),
 * a scan of at most three pages' worth of pool symbols to fill one page,
 * turning each symbol into an item with its quote and sparkline, a stop at
 * the first rate limit, and the offset of the next page.
 *
 * The quote and sparkline answers per symbol are parameters (`Market`); the
 * background refill the reader may fire is reported, not run.
 */
module PoolReader {
  import opened Common
  import opened Text
  import opened KeyValue
  import opened RecommendationPool
  import RealtimePrice
  import Sparkline

  const DefaultPageSize := 10
  const DefaultPoolTarget := 20
  const DefaultRefillTriggerThreshold := 10
  const HomeItems := 5

  /** One recommended symbol, as the page shows it. */
  datatype RecommendedItem = RecommendedItem(
    symbol: string, price: real, changePercent: real, sparkline: seq<Sparkline.SparkPoint>)

  /** The answers of the quote service and of the sparkline service, per normalised symbol. */
  datatype Market = Market(
    quote: string -> Result<RealtimePrice.Summary>,
    sparkline: string -> Result<seq<Sparkline.SparkPoint>>)

  /** A page of recommendations and the offset to ask for next (`null` when there is none). */
  datatype Page = Page(items: seq<RecommendedItem>, nextOffset: Option<int>)

  /**
   * `buildItemSafe`: a blank symbol is no item; otherwise the symbol is
   * trimmed and upper-cased, its quote is taken (a failure propagates), then
   * its sparkline (a failure propagates), and an empty sparkline is no item.
   */
  function BuildItemSafe(m: Market, symbol: string): (r: Result<Option<RecommendedItem>>)
    ensures r.Ok? && r.value.Some? ==>
      r.value.value.symbol == ToUpper(Trim(symbol)) && r.value.value.sparkline != []
    ensures IsBlank(symbol) ==> r == Ok(None)
  {
    if IsBlank(symbol) then Ok(None)
    else
      var sym := ToUpper(Trim(symbol));
      match m.quote(sym)
      case Err(e) => Err(e)
      case Ok(q) =>
        match m.sparkline(sym)
        case Err(e) => Err(e)
        case Ok(points) =>
          if points == [] then Ok(None) else Ok(Some(RecommendedItem(sym, q.price, q.changePercent, points)))
  }

  /** What the scan does with one symbol: add its item, skip it (no item, or any failure but a rate limit), or stop (a rate limit). */
  datatype Visit = Added(item: RecommendedItem) | Skipped | Stopped

  function VisitOf(m: Market, symbol: string): Visit {
    match BuildItemSafe(m, symbol)
    case Err(e) => if e.RateLimited? then Stopped else Skipped
    case Ok(None) => Skipped
    case Ok(Some(item)) => Added(item)
  }

  /** The visit of every symbol in a market; the scan below is stated over any such function. */
  function Visits(m: Market): string -> Visit {
    sym => VisitOf(m, sym)
  }

  /** The items that the given symbols add, in order, when none of them stops the scan. */
  function Collected(visit: string -> Visit, symbols: seq<string>): seq<RecommendedItem>
    decreases |symbols|
  {
    if |symbols| == 0 then []
    else
      var init := Collected(visit, symbols[..|symbols| - 1]);
      match visit(symbols[|symbols| - 1])
      case Added(item) => init + [item]
      case _ => init
  }

  lemma {:induction false} CollectedAppend(visit: string -> Visit, a: seq<string>, b: seq<string>)
    ensures Collected(visit, a + b) == Collected(visit, a) + Collected(visit, b)
    decreases |b|
  {
    if |b| > 0 {
      var last := b[|b| - 1];
      assert (a + b)[..|a + b| - 1] == a + b[..|b| - 1];
      CollectedAppend(visit, a, b[..|b| - 1]);
    } else {
      assert a + b == a;
    }
  }

  /** The items of a stretch of the pool are those of its two halves. */
  lemma CollectedSplit(visit: string -> Visit, xs: seq<string>, i: nat, j: nat, k: nat)
    requires i <= j <= k <= |xs|
    ensures Collected(visit, xs[i..k]) == Collected(visit, xs[i..j]) + Collected(visit, xs[j..k])
  {
    assert xs[i..k] == xs[i..j] + xs[j..k];
    CollectedAppend(visit, xs[i..j], xs[j..k]);
  }

  /** Items collected up to a midpoint, then from it on, are the items collected over the whole stretch. */
  lemma CollectedChain(visit: string -> Visit, xs: seq<string>, i: nat, j: nat,
                       items: seq<RecommendedItem>, mid: seq<RecommendedItem>, e: ScanEnd)
    requires i <= j <= e.cursor <= |xs|
    requires mid == items + Collected(visit, xs[i..j])
    requires e.items == mid + Collected(visit, xs[j..e.cursor])
    ensures e.items == items + Collected(visit, xs[i..e.cursor])
  {
    CollectedSplit(visit, xs, i, j, e.cursor);
  }

  /** How the cursor moves past a batch: by the whole batch, as written, or by the symbols actually visited. */
  datatype Advance = WholeBatch | PerSymbol

  /** The state of the scan after one batch: the items so far, whether a rate limit stopped it, and how many symbols of the batch were visited. */
  datatype BatchEnd = BatchEnd(items: seq<RecommendedItem>, hitRateLimit: bool, visited: nat)

  /** The inner loop over one batch from its `j`-th symbol: stop when the page is full or at a rate limit. */
  function BatchFrom(visit: string -> Visit, batch: seq<string>, pageSize: int, j: nat, items: seq<RecommendedItem>): (r: BatchEnd)
    requires j <= |batch|
    ensures j <= r.visited <= |batch|
    ensures |items| <= |r.items|
    ensures |items| <= pageSize ==> |r.items| <= pageSize
    ensures !r.hitRateLimit && j < |batch| && |items| < pageSize ==> r.visited > j
    decreases |batch| - j
  {
    if j == |batch| || |items| >= pageSize then BatchEnd(items, false, j)
    else match visit(batch[j])
      case Stopped => BatchEnd(items, true, j)
      case Skipped => BatchFrom(visit, batch, pageSize, j + 1, items)
      case Added(item) => BatchFrom(visit, batch, pageSize, j + 1, items + [item])
  }

  /** Where the scan ends: the items, the cursor, and whether a rate limit stopped it. */
  datatype ScanEnd = ScanEnd(items: seq<RecommendedItem>, cursor: int, hitRateLimit: bool)

  /** The slice `range` returns for a batch (an empty one past the end of the pool). */
  function BatchAt(xs: seq<string>, cursor: nat, fetch: int): seq<string> {
    if cursor >= |xs| || fetch <= 0 then [] else xs[cursor..Min(cursor + fetch, |xs|)]
  }

  /** One pass of the outer loop: the scan ends here, or goes on from a later cursor. */
  datatype Step = Done(end: ScanEnd) | Next(cursor: nat, items: seq<RecommendedItem>)

  /** One pass of the outer loop from `cursor`: read a batch of at most a page, up to `maxScan`, and move the cursor past it. */
  function ScanStep(visit: string -> Visit, xs: seq<string>, maxScan: int, pageSize: int, advance: Advance,
                    cursor: nat, items: seq<RecommendedItem>): (r: Step)
    requires |items| <= Max(pageSize, 0)
    ensures r.Done? ==> cursor <= r.end.cursor <= Max(cursor, maxScan) && |items| <= |r.end.items| <= Max(pageSize, 0)
    ensures r.Next? ==> cursor < r.cursor <= maxScan && |items| <= |r.items| <= Max(pageSize, 0)
  {
    if !(cursor < maxScan && |items| < pageSize) then Done(ScanEnd(items, cursor, false))
    else
      var batch := BatchAt(xs, cursor, Min(pageSize, maxScan - cursor));
      if batch == [] then Done(ScanEnd(items, cursor, false))
      else
        var e := BatchFrom(visit, batch, pageSize, 0, items);
        var next := if advance == WholeBatch then cursor + |batch| else cursor + e.visited;
        if e.hitRateLimit then Done(ScanEnd(e.items, next, true))
        else Next(next, e.items)
  }

  /** The outer loop of the scan, from `cursor`, until a pass ends it. */
  function ScanFrom(visit: string -> Visit, xs: seq<string>, maxScan: int, pageSize: int, advance: Advance,
                    cursor: nat, items: seq<RecommendedItem>): (r: ScanEnd)
    requires |items| <= Max(pageSize, 0)
    ensures cursor <= r.cursor <= Max(cursor, maxScan)
    ensures |items| <= |r.items| <= Max(pageSize, 0)
    decreases maxScan - cursor
  {
    match ScanStep(visit, xs, maxScan, pageSize, advance, cursor, items)
    case Done(e) => e
    case Next(next, more) => ScanFrom(visit, xs, maxScan, pageSize, advance, next, more)
  }

  /** The offset of the next page: the cursor, when the pool goes on and the page has items or was stopped by a rate limit. */
  function NextOffset(e: ScanEnd, total: int): Option<int> {
    if e.cursor < total && (e.items != [] || e.hitRateLimit) then Some(e.cursor) else None
  }

  /** The clock's day is one whose day before is a day too. */
  predicate ClockDay(today: Date) {
    ValidDate(today) && today != Date(1, 1, 1)
  }

  /** `currentVersion`: today's pool while it has symbols, yesterday's otherwise. */
  function CurrentVersion(s: Snapshot, today: Date): (r: string)
    requires ClockDay(today)
    ensures r == TodayVersion(today) <==> ListLengthF(s, ListKey(TodayVersion(today))) > 0
    ensures r != TodayVersion(today) ==> r == YesterdayVersion(today)
  {
    YesterdayIsAnotherPool(today);
    if ListLengthF(s, ListKey(TodayVersion(today))) > 0 then TodayVersion(today) else YesterdayVersion(today)
  }

  /** The settings of the reader. */
  datatype Settings = Settings(pageSize: int, poolTarget: int, refillTriggerThreshold: int)

  /** A page and whether the reader fired a background refill of today's pool. */
  datatype Reading = Reading(page: Page, refillTriggered: bool)

  /** The version a request reads: the given one, or the current one when it is null or blank. */
  function RequestedVersion(s: Snapshot, today: Date, version: Option<string>): string
    requires ClockDay(today)
  {
    if version.None? || IsBlank(version.value) then CurrentVersion(s, today) else version.value
  }

  /** The first offset a request reads. */
  function StartOf(offset: int): nat { Max(0, offset) }

  /** The furthest a request's scan may go. */
  function MaxScan(total: int, start: int, pageSize: int): int { Min(total, start + pageSize * 3) }

  /**
   * `getRecommendationsFromPool(version, offset)` on the store's content:
   * an empty pool or an offset past its end gives an empty page (and fires a
   * refill while today's pool is below the threshold and its target);
   * otherwise, reading today's pool fires a refill below the threshold, and
   * the scan fills the page.
   */
  function FromPool(s: Snapshot, today: Date, version: Option<string>, offset: int, settings: Settings,
                    m: Market, advance: Advance): Reading
    requires ClockDay(today)
  {
    var start := StartOf(offset);
    var v := RequestedVersion(s, today, version);
    var xs := ListOf(s, ListKey(v));
    var total := |xs|;
    var todaySize := ListLengthF(s, ListKey(TodayVersion(today)));
    var trigger := todaySize < settings.refillTriggerThreshold;
    if total <= 0 || start >= total then
      Reading(Page([], None), todaySize < settings.poolTarget && trigger)
    else
      var e := ScanFrom(Visits(m), xs, MaxScan(total, start, settings.pageSize), settings.pageSize, advance, start, []);
      Reading(Page(e.items, NextOffset(e, total)), v == TodayVersion(today) && trigger)
  }

  /** The scan as the reader runs it from a start offset. */
  function Scan(visit: string -> Visit, xs: seq<string>, start: nat, pageSize: int, advance: Advance): ScanEnd {
    ScanFrom(visit, xs, MaxScan(|xs|, start, pageSize), pageSize, advance, start, [])
  }

  /**
   * A page has at most `pageSize` items, the scan never goes past three
   * pages' worth of the pool, and a next offset always lies past the first
   * offset read and inside the pool: paging always moves forward.
   */
  lemma PageBounds(s: Snapshot, today: Date, version: Option<string>, offset: int, settings: Settings, m: Market)
    requires ClockDay(today)
    ensures var r := FromPool(s, today, version, offset, settings, m, WholeBatch);
      var total := ListLengthF(s, ListKey(RequestedVersion(s, today, version)));
      |r.page.items| <= Max(settings.pageSize, 0)
      && (r.page.nextOffset.Some? ==>
            StartOf(offset) < r.page.nextOffset.value < total
            && r.page.nextOffset.value <= StartOf(offset) + 3 * settings.pageSize)
  {
    var start := StartOf(offset);
    var xs := ListOf(s, ListKey(RequestedVersion(s, today, version)));
    if 0 < |xs| && start < |xs| && 0 < settings.pageSize {
      WholeBatchAdvances(Visits(m), xs, MaxScan(|xs|, start, settings.pageSize), settings.pageSize, start, []);
    }
  }

  /**
   * The page as written holds exactly the items of one unbroken stretch of
   * the pool from the first offset read: every symbol in it that yields an
   * item shows, in pool order, and nothing else does.
   */
  lemma PageIsStretch(s: Snapshot, today: Date, version: Option<string>, offset: int, settings: Settings, m: Market)
    requires ClockDay(today)
    ensures var r := FromPool(s, today, version, offset, settings, m, WholeBatch);
      var xs := ListOf(s, ListKey(RequestedVersion(s, today, version)));
      StartOf(offset) < |xs| ==>
        var e := Scan(Visits(m), xs, StartOf(offset), settings.pageSize, PerSymbol);
        StartOf(offset) <= e.cursor <= |xs| && r.page.items == Collected(Visits(m), xs[StartOf(offset)..e.cursor])
  {
    var start := StartOf(offset);
    var xs := ListOf(s, ListKey(RequestedVersion(s, today, version)));
    if start < |xs| {
      var maxScan := MaxScan(|xs|, start, settings.pageSize);
      AdvanceKeepsItems(Visits(m), xs, maxScan, settings.pageSize, start, []);
      PerSymbolSkipsNothing(Visits(m), xs, maxScan, settings.pageSize, start, []);
    }
  }

  /** Inside the window and with room on the page, the scan as written ends past where it starts. */
  lemma WholeBatchAdvances(visit: string -> Visit, xs: seq<string>, maxScan: int, pageSize: int,
                           cursor: nat, items: seq<RecommendedItem>)
    requires cursor < maxScan <= |xs| && |items| < pageSize
    ensures cursor < ScanFrom(visit, xs, maxScan, pageSize, WholeBatch, cursor, items).cursor
  {
    WholeBatchStep(visit, xs, maxScan, pageSize, cursor, items);
  }

  /**
   * The home read with no version fires a refill exactly when today's pool
   * is non-empty and below the trigger threshold, or when today's and
   * yesterday's pools are both empty and the threshold and the target are
   * positive: while today's pool is empty and yesterday's is not, the home
   * page shows yesterday's pool and fires no refill.
   */
  lemma HomeRefillRule(s: Snapshot, today: Date, settings: Settings, m: Market)
    requires ClockDay(today)
    ensures var todaySize := |ListOf(s, ListKey(TodayVersion(today)))|;
      var yesterdaySize := |ListOf(s, ListKey(YesterdayVersion(today)))|;
      FromPool(s, today, None, 0, settings, m, WholeBatch).refillTriggered
      <==> (0 < todaySize < settings.refillTriggerThreshold)
           || (todaySize == 0 && yesterdaySize == 0 && 0 < settings.poolTarget && 0 < settings.refillTriggerThreshold)
  {
    YesterdayIsAnotherPool(today);
  }

  /**
   * The next offset is the cursor exactly when the pool goes on past it and
   * the page has items or was cut short by a rate limit; an empty pool or an
   * offset past its end gives an empty page with none.
   */
  lemma NextOffsetRule(s: Snapshot, today: Date, version: Option<string>, offset: int, settings: Settings,
                       m: Market, advance: Advance)
    requires ClockDay(today)
    ensures var r := FromPool(s, today, version, offset, settings, m, advance);
      var xs := ListOf(s, ListKey(RequestedVersion(s, today, version)));
      var e := Scan(Visits(m), xs, StartOf(offset), settings.pageSize, advance);
      (StartOf(offset) >= |xs| ==> r.page == Page([], None))
      && (StartOf(offset) < |xs| ==>
            r.page.items == e.items
            && (r.page.nextOffset.Some? <==> e.cursor < |xs| && (e.items != [] || e.hitRateLimit))
            && (r.page.nextOffset.Some? ==> r.page.nextOffset.value == e.cursor))
  {
  }

  /** A refill is fired only while today's pool is below the trigger threshold, and for an exhausted read only while it is also below its target. */
  lemma RefillTriggerRule(s: Snapshot, today: Date, version: Option<string>, offset: int, settings: Settings,
                          m: Market, advance: Advance)
    requires ClockDay(today)
    ensures var r := FromPool(s, today, version, offset, settings, m, advance);
      var todaySize := ListLengthF(s, ListKey(TodayVersion(today)));
      var xs := ListOf(s, ListKey(RequestedVersion(s, today, version)));
      (r.refillTriggered ==> todaySize < settings.refillTriggerThreshold)
      && (StartOf(offset) >= |xs| ==> (r.refillTriggered <==> todaySize < settings.poolTarget && todaySize < settings.refillTriggerThreshold))
      && (StartOf(offset) < |xs| ==> (r.refillTriggered <==> RequestedVersion(s, today, version) == TodayVersion(today) && todaySize < settings.refillTriggerThreshold))
  {
  }

  /** A null or blank version reads the current version; a negative offset reads from the start. */
  lemma DefaultsRule(s: Snapshot, today: Date, offset: int, settings: Settings, m: Market, advance: Advance)
    requires ClockDay(today)
    ensures FromPool(s, today, None, offset, settings, m, advance)
         == FromPool(s, today, Some(CurrentVersion(s, today)), offset, settings, m, advance)
    ensures offset < 0 ==> (FromPool(s, today, None, offset, settings, m, advance)
                            == FromPool(s, today, None, 0, settings, m, advance))
  {
  }

  /** `getRecommendationsForHome(version)`: the first five items of the first page. */
  function ForHome(s: Snapshot, today: Date, version: Option<string>, settings: Settings, m: Market): (r: seq<RecommendedItem>)
    requires ClockDay(today)
    ensures var items := FromPool(s, today, version, 0, settings, m, WholeBatch).page.items;
      |r| == Min(HomeItems, |items|) && r == items[..|r|]
  {
    var items := FromPool(s, today, version, 0, settings, m, WholeBatch).page.items;
    items[..Min(HomeItems, |items|)]
  }

  // ---------------------------------------------------------------------
  // The cursor: as written, and as evidently intended

  /**
   * As written, the cursor moves past a whole batch even when the page filled
   * up, or a rate limit struck, before its end. With four pool symbols, a page
   * of two, and a first symbol that yields no item, the first page shows the
   * second and third symbols and says there is no next page: the fourth is
   * never shown.
   */
  lemma WholeBatchSkipsSymbols()
    ensures var xs, visit := ["A", "B", "C", "D"], Visits(OnlyAHasNoSparkline());
      var e := Scan(visit, xs, 0, 2, WholeBatch);
      |e.items| == 2 && NextOffset(e, |xs|) == None
      && |Collected(visit, xs)| == 3 && Collected(visit, xs)[2] !in e.items
  {
    var xs, visit := ["A", "B", "C", "D"], Visits(OnlyAHasNoSparkline());
    ExampleVisits();
    var b, c, d := ItemFor("B"), ItemFor("C"), ItemFor("D");
    WholeBatchOnExample(visit, xs, b, c, d);
    assert d != b && d != c;
  }

  /** The scan as written over four symbols of which the first yields nothing and the others yield items, with a page of two. */
  lemma WholeBatchOnExample(visit: string -> Visit, xs: seq<string>, b: RecommendedItem, c: RecommendedItem, d: RecommendedItem)
    requires |xs| == 4 && visit(xs[0]) == Skipped
    requires visit(xs[1]) == Added(b) && visit(xs[2]) == Added(c) && visit(xs[3]) == Added(d)
    ensures Scan(visit, xs, 0, 2, WholeBatch) == ScanEnd([b, c], 4, false)
    ensures Collected(visit, xs) == [b, c, d]
  {
    WholeBatchStep(visit, xs, 4, 2, 0, []);
    var first := xs[0..2];
    assert first[0] == xs[0] && first[1] == xs[1];
    assert BatchFrom(visit, first, 2, 1, []) == BatchFrom(visit, first, 2, 2, [b]);
    assert BatchFrom(visit, first, 2, 0, []) == BatchEnd([b], false, 2);
    WholeBatchStep(visit, xs, 4, 2, 2, [b]);
    var second := xs[2..4];
    assert second[0] == xs[2];
    assert BatchFrom(visit, second, 2, 0, [b]) == BatchEnd([b, c], false, 1);
    assert ScanFrom(visit, xs, 4, 2, WholeBatch, 4, [b, c]) == ScanEnd([b, c], 4, false);
    assert xs[..3][..2][..1][..0] == [];
    assert xs[..3][..2][..1] == xs[..1] && xs[..3][..2] == xs[..2] && xs[..3] == xs[..|xs| - 1];
    assert Collected(visit, xs[..1]) == [];
    assert Collected(visit, xs[..2]) == [b];
    assert Collected(visit, xs[..3]) == [b, c];
  }

  /** A market in which every symbol has a quote and a sparkline except that "A" has an empty sparkline. */
  function OnlyAHasNoSparkline(): Market {
    Market(
      sym => Ok(RealtimePrice.Summary(sym, 1.0, 1.0, 1.0, 1.0, 1.0, 0.0, 0.0, 0)),
      sym => if sym == "A" then Ok([]) else Ok([Sparkline.SparkPoint(0, 1.0), Sparkline.SparkPoint(1, 1.0)]))
  }

  function ItemFor(sym: string): RecommendedItem {
    RecommendedItem(sym, 1.0, 0.0, [Sparkline.SparkPoint(0, 1.0), Sparkline.SparkPoint(1, 1.0)])
  }

  lemma ExampleVisits()
    ensures var visit := Visits(OnlyAHasNoSparkline());
      visit("A") == Skipped && visit("B") == Added(ItemFor("B"))
      && visit("C") == Added(ItemFor("C")) && visit("D") == Added(ItemFor("D"))
  {
    forall sym | sym in {"A", "B", "C", "D"}
      ensures Trim(sym) == sym && ToUpper(sym) == sym && !IsBlank(sym)
    {
      assert |sym| == 1 && 'A' <= sym[0] <= 'D';
      TrimOfTrimmed(sym);
    }
  }

  /** A batch read with a full page visits nothing more. */
  lemma FullPageEndsBatch(visit: string -> Visit, batch: seq<string>, pageSize: int, j: nat, items: seq<RecommendedItem>)
    requires j <= |batch| && |items| >= pageSize
    ensures BatchFrom(visit, batch, pageSize, j, items) == BatchEnd(items, false, j)
  {
  }

  /** The same four symbols, with the cursor moved past the visited symbols only: the first page offers the fourth symbol next. */
  lemma PerSymbolKeepsUnvisited()
    ensures var xs, visit := ["A", "B", "C", "D"], Visits(OnlyAHasNoSparkline());
      NextOffset(Scan(visit, xs, 0, 2, PerSymbol), |xs|) == Some(3)
  {
    var xs, visit := ["A", "B", "C", "D"], Visits(OnlyAHasNoSparkline());
    ExampleVisits();
    var b, c := ItemFor("B"), ItemFor("C");
    assert xs[0..2] == ["A", "B"];
    assert BatchAt(xs, 0, 2) == ["A", "B"];
    assert BatchFrom(visit, ["A", "B"], 2, 1, []) == BatchFrom(visit, ["A", "B"], 2, 2, [b]);
    assert BatchFrom(visit, ["A", "B"], 2, 0, []) == BatchEnd([b], false, 2);
    assert ScanStep(visit, xs, 4, 2, PerSymbol, 0, []) == Next(2, [b]);
    assert BatchAt(xs, 2, 2) == ["C", "D"];
    FullPageEndsBatch(visit, ["C", "D"], 2, 1, [b, c]);
    assert BatchFrom(visit, ["C", "D"], 2, 0, [b]) == BatchEnd([b, c], false, 1);
    assert ScanStep(visit, xs, 4, 2, PerSymbol, 2, [b]) == Next(3, [b, c]);
    assert ScanFrom(visit, xs, 4, 2, PerSymbol, 3, [b, c]) == ScanEnd([b, c], 3, false);
    assert ScanFrom(visit, xs, 4, 2, PerSymbol, 2, [b]) == ScanEnd([b, c], 3, false);
  }

  /** One batch adds exactly the items of the symbols it visited; when a rate limit stopped it, the symbol it stopped at is the next one. */
  lemma {:induction false} BatchCollects(visit: string -> Visit, batch: seq<string>, pageSize: int, j: nat, items: seq<RecommendedItem>)
    requires j <= |batch|
    ensures var e := BatchFrom(visit, batch, pageSize, j, items);
      e.items == items + Collected(visit, batch[j..e.visited])
      && (e.hitRateLimit ==> e.visited < |batch| && visit(batch[e.visited]) == Stopped)
    decreases |batch| - j
  {
    var e := BatchFrom(visit, batch, pageSize, j, items);
    if j == |batch| || |items| >= pageSize {
      assert batch[j..e.visited] == [];
    } else if visit(batch[j]).Stopped? {
      assert e == BatchEnd(items, true, j);
      assert batch[j..e.visited] == [];
    } else {
      var head := if visit(batch[j]).Added? then [visit(batch[j]).item] else [];
      var items1 := if visit(batch[j]).Added? then items + [visit(batch[j]).item] else items;
      assert items1 == items + head;
      assert e == BatchFrom(visit, batch, pageSize, j + 1, items1);
      BatchCollects(visit, batch, pageSize, j + 1, items1);
      assert j + 1 <= e.visited;
      CollectedFirst(visit, batch, j, e.visited);
      assert e.items == items + (head + Collected(visit, batch[j + 1..e.visited]));
    }
  }

  /** The items of a stretch of the pool: those of its first symbol, then those of the rest. */
  lemma CollectedFirst(visit: string -> Visit, batch: seq<string>, j: nat, k: nat)
    requires j < k <= |batch|
    ensures Collected(visit, batch[j..k])
            == (if visit(batch[j]).Added? then [visit(batch[j]).item] else []) + Collected(visit, batch[j + 1..k])
  {
    CollectedAppend(visit, [batch[j]], batch[j + 1..k]);
    assert batch[j..k] == [batch[j]] + batch[j + 1..k];
    assert [batch[j]][..0] == [];
  }

  /** A batch read inside the scanned window is a non-empty slice of the pool that ends inside the window, and the pass moves the cursor past it or past its visited symbols. */
  lemma StepInWindow(visit: string -> Visit, xs: seq<string>, maxScan: int, pageSize: int, advance: Advance,
                     cursor: nat, items: seq<RecommendedItem>)
    requires cursor < maxScan <= |xs| && |items| < pageSize
    ensures var batch := BatchAt(xs, cursor, Min(pageSize, maxScan - cursor));
      var e := BatchFrom(visit, batch, pageSize, 0, items);
      var next := if advance == WholeBatch then cursor + |batch| else cursor + e.visited;
      0 < |batch| && cursor + |batch| <= maxScan && batch == xs[cursor..cursor + |batch|]
      && ScanStep(visit, xs, maxScan, pageSize, advance, cursor, items)
         == if e.hitRateLimit then Done(ScanEnd(e.items, next, true)) else Next(next, e.items)
  {
  }

  /** One pass of the scan as written: the cursor moves past the whole batch, which is the next slice of the pool. */
  lemma WholeBatchStep(visit: string -> Visit, xs: seq<string>, maxScan: int, pageSize: int,
                       cursor: nat, items: seq<RecommendedItem>)
    requires cursor < maxScan <= |xs| && |items| < pageSize
    ensures var batch := BatchAt(xs, cursor, Min(pageSize, maxScan - cursor));
      var e := BatchFrom(visit, batch, pageSize, 0, items);
      0 < |batch| && batch == xs[cursor..Min(cursor + Min(pageSize, maxScan - cursor), |xs|)]
      && ScanFrom(visit, xs, maxScan, pageSize, WholeBatch, cursor, items)
         == if e.hitRateLimit then ScanEnd(e.items, cursor + |batch|, true)
            else ScanFrom(visit, xs, maxScan, pageSize, WholeBatch, cursor + |batch|, e.items)
  {
    StepInWindow(visit, xs, maxScan, pageSize, WholeBatch, cursor, items);
  }

  /** Once the window is used up or the page is full, the scan ends where it stands. */
  lemma ScanStops(visit: string -> Visit, xs: seq<string>, maxScan: int, pageSize: int, advance: Advance,
                  cursor: nat, items: seq<RecommendedItem>)
    requires |items| <= Max(pageSize, 0)
    requires !(cursor < maxScan && |items| < pageSize)
    ensures ScanFrom(visit, xs, maxScan, pageSize, advance, cursor, items) == ScanEnd(items, cursor, false)
  {
  }

  /** One pass with the cursor moved past the visited symbols adds exactly their items, and a rate limit leaves the cursor on the symbol that met it. */
  lemma PerSymbolStep(visit: string -> Visit, xs: seq<string>, maxScan: int, pageSize: int,
                      cursor: nat, items: seq<RecommendedItem>)
    requires cursor < maxScan <= |xs| && |items| < pageSize
    ensures match ScanStep(visit, xs, maxScan, pageSize, PerSymbol, cursor, items)
      case Done(e) =>
        cursor <= e.cursor < |xs| && e.hitRateLimit && visit(xs[e.cursor]) == Stopped
        && e.items == items + Collected(visit, xs[cursor..e.cursor])
      case Next(next, more) =>
        next <= maxScan && more == items + Collected(visit, xs[cursor..next])
  {
    StepInWindow(visit, xs, maxScan, pageSize, PerSymbol, cursor, items);
    var batch := BatchAt(xs, cursor, Min(pageSize, maxScan - cursor));
    var b := BatchFrom(visit, batch, pageSize, 0, items);
    BatchCollects(visit, batch, pageSize, 0, items);
    assert batch[0..b.visited] == xs[cursor..cursor + b.visited];
    if b.hitRateLimit {
      assert batch[b.visited] == xs[cursor + b.visited];
    }
  }

  /**
   * With the cursor moved past the visited symbols only, nothing is skipped:
   * the page holds exactly the items of the symbols from the start offset up
   * to the cursor, and when a rate limit stopped the scan the cursor is the
   * symbol that met it, so the next page retries it.
   */
  lemma {:induction false} PerSymbolSkipsNothing(visit: string -> Visit, xs: seq<string>, maxScan: int, pageSize: int,
                                                 cursor: nat, items: seq<RecommendedItem>)
    requires |items| <= Max(pageSize, 0)
    requires cursor <= |xs| && maxScan <= |xs|
    ensures var e := ScanFrom(visit, xs, maxScan, pageSize, PerSymbol, cursor, items);
      cursor <= e.cursor <= |xs|
      && e.items == items + Collected(visit, xs[cursor..e.cursor])
      && (e.hitRateLimit ==> e.cursor < |xs| && visit(xs[e.cursor]) == Stopped)
    decreases maxScan - cursor
  {
    var e := ScanFrom(visit, xs, maxScan, pageSize, PerSymbol, cursor, items);
    if cursor < maxScan && |items| < pageSize {
      PerSymbolStep(visit, xs, maxScan, pageSize, cursor, items);
      var st := ScanStep(visit, xs, maxScan, pageSize, PerSymbol, cursor, items);
      if st.Next? {
        var next := st.cursor;
        assert e == ScanFrom(visit, xs, maxScan, pageSize, PerSymbol, next, st.items);
        PerSymbolSkipsNothing(visit, xs, maxScan, pageSize, next, st.items);
        CollectedChain(visit, xs, cursor, next, items, st.items, e);
      }
    } else {
      assert xs[cursor..e.cursor] == [];
    }
  }

  /** Whichever way the cursor moves, a page holds the same items; only the next offset differs. */
  lemma {:induction false} AdvanceKeepsItems(visit: string -> Visit, xs: seq<string>, maxScan: int, pageSize: int,
                                             cursor: nat, items: seq<RecommendedItem>)
    requires |items| <= Max(pageSize, 0)
    requires maxScan <= |xs|
    ensures ScanFrom(visit, xs, maxScan, pageSize, WholeBatch, cursor, items).items
         == ScanFrom(visit, xs, maxScan, pageSize, PerSymbol, cursor, items).items
    decreases maxScan - cursor
  {
    if cursor < maxScan && |items| < pageSize {
      PassesAgree(visit, xs, maxScan, pageSize, cursor, items);
      var w := ScanStep(visit, xs, maxScan, pageSize, WholeBatch, cursor, items);
      var p := ScanStep(visit, xs, maxScan, pageSize, PerSymbol, cursor, items);
      if w.Done? {
        ScanDone(visit, xs, maxScan, pageSize, WholeBatch, cursor, items);
        ScanDone(visit, xs, maxScan, pageSize, PerSymbol, cursor, items);
      } else {
        ScanNext(visit, xs, maxScan, pageSize, WholeBatch, cursor, items);
        ScanNext(visit, xs, maxScan, pageSize, PerSymbol, cursor, items);
        if |w.items| >= pageSize {
          PageFullEndsScan(visit, xs, maxScan, pageSize, WholeBatch, w.cursor, w.items);
          PageFullEndsScan(visit, xs, maxScan, pageSize, PerSymbol, p.cursor, p.items);
        } else {
          AdvanceKeepsItems(visit, xs, maxScan, pageSize, w.cursor, w.items);
        }
      }
    }
  }

  /**
   * One pass inside the window, moving the cursor either way: both end with
   * the same items, or both go on with the same items, from the same cursor
   * unless the page is full.
   */
  lemma PassesAgree(visit: string -> Visit, xs: seq<string>, maxScan: int, pageSize: int,
                    cursor: nat, items: seq<RecommendedItem>)
    requires cursor < maxScan <= |xs| && |items| < pageSize
    ensures var w := ScanStep(visit, xs, maxScan, pageSize, WholeBatch, cursor, items);
      var p := ScanStep(visit, xs, maxScan, pageSize, PerSymbol, cursor, items);
      (w.Done? && p.Done? && w.end.items == p.end.items)
      || (w.Next? && p.Next? && w.items == p.items && (|w.items| >= pageSize || w.cursor == p.cursor))
  {
    StepInWindow(visit, xs, maxScan, pageSize, WholeBatch, cursor, items);
    StepInWindow(visit, xs, maxScan, pageSize, PerSymbol, cursor, items);
    var batch := BatchAt(xs, cursor, Min(pageSize, maxScan - cursor));
    BatchFullWhenCut(visit, batch, pageSize, 0, items);
  }

  /** A pass that ends the scan gives its end. */
  lemma ScanDone(visit: string -> Visit, xs: seq<string>, maxScan: int, pageSize: int, advance: Advance,
                 cursor: nat, items: seq<RecommendedItem>)
    requires |items| <= Max(pageSize, 0)
    requires ScanStep(visit, xs, maxScan, pageSize, advance, cursor, items).Done?
    ensures ScanFrom(visit, xs, maxScan, pageSize, advance, cursor, items)
            == ScanStep(visit, xs, maxScan, pageSize, advance, cursor, items).end
  {
  }

  /** A pass that goes on continues the scan from its cursor with its items. */
  lemma ScanNext(visit: string -> Visit, xs: seq<string>, maxScan: int, pageSize: int, advance: Advance,
                 cursor: nat, items: seq<RecommendedItem>)
    requires |items| <= Max(pageSize, 0)
    requires ScanStep(visit, xs, maxScan, pageSize, advance, cursor, items).Next?
    ensures var s := ScanStep(visit, xs, maxScan, pageSize, advance, cursor, items);
      ScanFrom(visit, xs, maxScan, pageSize, advance, cursor, items)
      == ScanFrom(visit, xs, maxScan, pageSize, advance, s.cursor, s.items)
  {
  }

  /** A batch that ends early without a rate limit ends with a full page. */
  lemma {:induction false} BatchFullWhenCut(visit: string -> Visit, batch: seq<string>, pageSize: int, j: nat, items: seq<RecommendedItem>)
    requires j <= |batch|
    ensures var e := BatchFrom(visit, batch, pageSize, j, items);
      !e.hitRateLimit && e.visited < |batch| ==> |e.items| >= pageSize
    decreases |batch| - j
  {
    if !(j == |batch| || |items| >= pageSize) {
      match visit(batch[j])
      case Stopped =>
      case Skipped => BatchFullWhenCut(visit, batch, pageSize, j + 1, items);
      case Added(item) => BatchFullWhenCut(visit, batch, pageSize, j + 1, items + [item]);
    }
  }

  lemma PageFullEndsScan(visit: string -> Visit, xs: seq<string>, maxScan: int, pageSize: int, advance: Advance,
                         cursor: nat, items: seq<RecommendedItem>)
    requires |items| <= Max(pageSize, 0) && |items| >= pageSize
    ensures ScanFrom(visit, xs, maxScan, pageSize, advance, cursor, items).items == items
  {
  }

  // ---------------------------------------------------------------------
  // The reader against the shared store

  /** `currentVersion`, on the shared store. */
  method CurrentVersionOf(store: Store, today: Date) returns (v: string)
    requires ClockDay(today)
    ensures v == CurrentVersion(store.State(), today)
  {
    var t := TodayVersion(today);
    var todaySize := Size(store, t);
    v := if todaySize > 0 then t else YesterdayVersion(today);
  }

  /**
   * `getRecommendationsFromPool(version, offset)`, step by step: the scan is
   * the source's pair of loops, with the cursor moved past each whole batch
   * (see `ScanBatch`).
   */
  method GetRecommendationsFromPool(store: Store, today: Date, version: Option<string>, offset: int,
                                    settings: Settings, m: Market)
    returns (page: Page, refillTriggered: bool)
    requires ClockDay(today)
    ensures Reading(page, refillTriggered) == FromPool(store.State(), today, version, offset, settings, m, WholeBatch)
  {
    var start := Max(0, offset);
    var v: string;
    if version.None? || IsBlank(version.value) {
      v := CurrentVersionOf(store, today);
    } else {
      v := version.value;
    }
    var total := Size(store, v);
    var t := TodayVersion(today);
    var todaySize := Size(store, t);
    if total <= 0 || start >= total {
      refillTriggered := todaySize < settings.poolTarget && todaySize < settings.refillTriggerThreshold;
      return Page([], None), refillTriggered;
    }
    refillTriggered := v == t && todaySize < settings.refillTriggerThreshold;

    var items, cursor, hitRateLimit := ScanPool(store, v, start, settings.pageSize, m);
    var nextOffset: Option<int> := if cursor < total && items != [] then Some(cursor) else None;
    if hitRateLimit && cursor < total {
      nextOffset := Some(cursor);
    }
    page := Page(items, nextOffset);
  }

  /** The outer loop of `getRecommendationsFromPool`: read batches of at most a page from `start`, up to three pages' worth of the pool, until the page is full or a rate limit strikes. */
  method ScanPool(store: Store, v: string, start: nat, pageSize: int, m: Market)
    returns (items: seq<RecommendedItem>, cursor: nat, hitRateLimit: bool)
    ensures ScanEnd(items, cursor, hitRateLimit) == Scan(Visits(m), ListOf(store.State(), ListKey(v)), start, pageSize, WholeBatch)
  {
    var total := Size(store, v);
    var maxScan := MaxScan(total, start, pageSize);
    items, cursor, hitRateLimit := ScanWindow(store, v, m, maxScan, pageSize, start);
  }

  /** The loop of `ScanPool` over the window of the pool that ends at `maxScan`. */
  method ScanWindow(store: Store, v: string, m: Market, maxScan: int, pageSize: int, start: nat)
    returns (items: seq<RecommendedItem>, cursor: nat, hitRateLimit: bool)
    requires maxScan <= |ListOf(store.State(), ListKey(v))|
    ensures ScanEnd(items, cursor, hitRateLimit)
            == ScanFrom(Visits(m), ListOf(store.State(), ListKey(v)), maxScan, pageSize, WholeBatch, start, [])
  {
    ghost var xs := ListOf(store.State(), ListKey(v));
    items, cursor, hitRateLimit := [], start, false;
    ghost var goal := ScanFrom(Visits(m), xs, maxScan, pageSize, WholeBatch, start, []);

    while cursor < maxScan && |items| < pageSize && !hitRateLimit
      invariant |items| <= Max(pageSize, 0)
      invariant goal == if hitRateLimit then ScanEnd(items, cursor, true)
                        else ScanFrom(Visits(m), xs, maxScan, pageSize, WholeBatch, cursor, items)
      decreases maxScan - cursor
    {
      cursor, items, hitRateLimit := ScanBatch(store, v, m, xs, maxScan, pageSize, cursor, items);
    }
    if !hitRateLimit {
      ScanStops(Visits(m), xs, maxScan, pageSize, WholeBatch, cursor, items);
    }
  }

  /**
   * One pass of the outer loop of `getRecommendationsFromPool`: fetch the
   * next batch of the pool, read it, and move the cursor past the whole
   * batch, however many of its symbols the inner loop visited; see
   * `WholeBatchSkipsSymbols` for what that loses. Inside the window the
   * batch is never empty, so the source's stop on an empty batch never
   * fires.
   */
  method ScanBatch(store: Store, v: string, m: Market, ghost xs: seq<string>, maxScan: int, pageSize: int,
                   cursor: nat, items0: seq<RecommendedItem>)
    returns (next: nat, items: seq<RecommendedItem>, hitRateLimit: bool)
    requires xs == ListOf(store.State(), ListKey(v))
    requires cursor < maxScan <= |xs| && |items0| < pageSize
    ensures cursor < next <= maxScan && |items| <= Max(pageSize, 0)
    ensures ScanFrom(Visits(m), xs, maxScan, pageSize, WholeBatch, cursor, items0)
            == if hitRateLimit then ScanEnd(items, next, true)
               else ScanFrom(Visits(m), xs, maxScan, pageSize, WholeBatch, next, items)
  {
    WholeBatchStep(Visits(m), xs, maxScan, pageSize, cursor, items0);
    var fetch := Min(pageSize, maxScan - cursor);
    var symbols := Range(store, v, cursor, fetch);
    assert symbols == BatchAt(xs, cursor, fetch);
    items, hitRateLimit := ReadBatch(m, symbols, pageSize, items0);
    next := cursor + |symbols|;
  }

  /** The inner loop of `getRecommendationsFromPool` over one batch: build each symbol's item until the page is full or a rate limit strikes; any other failure skips the symbol. */
  method ReadBatch(m: Market, symbols: seq<string>, pageSize: int, items0: seq<RecommendedItem>)
    returns (items: seq<RecommendedItem>, hitRateLimit: bool)
    ensures var e := BatchFrom(Visits(m), symbols, pageSize, 0, items0);
      items == e.items && hitRateLimit == e.hitRateLimit
  {
    items, hitRateLimit := items0, false;
    var j := 0;
    while j < |symbols|
      invariant 0 <= j <= |symbols|
      invariant BatchFrom(Visits(m), symbols, pageSize, 0, items0) == BatchFrom(Visits(m), symbols, pageSize, j, items)
    {
      if |items| >= pageSize {
        break;
      }
      var built := BuildItemSafe(m, symbols[j]);
      if built.Err? && built.error.RateLimited? {
        hitRateLimit := true;
        return;
      }
      if built.Ok? && built.value.Some? {
        items := items + [built.value.value];
      }
      j := j + 1;
    }
  }

  /** `getRecommendationsForHome(version)`, on the shared store: the first five items of the first page, and the refill that page fires. */
  method GetRecommendationsForHome(store: Store, today: Date, version: Option<string>, settings: Settings, m: Market)
    returns (items: seq<RecommendedItem>, refillTriggered: bool)
    requires ClockDay(today)
    ensures items == ForHome(store.State(), today, version, settings, m)
    ensures refillTriggered == FromPool(store.State(), today, version, 0, settings, m, WholeBatch).refillTriggered
  {
    var page0;
    page0, refillTriggered := GetRecommendationsFromPool(store, today, version, 0, settings, m);
    items := page0.items[..Min(HomeItems, |page0.items|)];
  }
}
