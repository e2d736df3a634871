/**
 * A user's portfolio, computed from their trade ledger (`PortfolioService`).
 * Each symbol is booked at average cost, and its realised P&L is recorded.
 * Held symbols are valued at their live quote. A missing quote or exchange
 * rate gives a warning instead of failing the whole response.
 *
 * Money is an exact decimal (`BigDecimal`), modelled as `real`. The HALF_UP
 * rounding of `divide(.., scale, HALF_UP)` and `setScale(scale, HALF_UP)` is
 * written out.
 */
module Portfolio {
  import opened Common

  // ---------------------------------------------------------------------
  // HALF_UP rounding

  function Pow10(places: nat): (r: nat)
    ensures r >= 1
  {
    if places == 0 then 1 else 10 * Pow10(places - 1)
  }

  /** Rounds to a whole number, with ties away from zero. */
  function RoundHalfUp(y: real): (n: int)
    ensures y - 0.5 <= n as real <= y + 0.5
    ensures y >= 0.0 ==> n >= 0
    ensures y <= 0.0 ==> n <= 0
  {
    if y >= 0.0 then (y + 0.5).Floor else -((-y) + 0.5).Floor
  }

  /** Rounds to a whole number of `1 / unit`s. */
  function RoundTo(unit: nat, x: real): (r: real)
    requires unit >= 1
    ensures r * unit as real == RoundHalfUp(x * unit as real) as real
  {
    RoundHalfUp(x * unit as real) as real / unit as real
  }

  /** Rounds to `places` decimal places, with ties away from zero (`RoundingMode.HALF_UP`). */
  function HalfUp(places: nat, x: real): real {
    RoundTo(Pow10(places), x)
  }

  lemma RoundToIsNearest(unit: nat, x: real)
    requires unit >= 1
    ensures var d := (RoundTo(unit, x) - x) * unit as real; -0.5 <= d <= 0.5
    ensures x >= 0.0 ==> RoundTo(unit, x) >= 0.0
    ensures x <= 0.0 ==> RoundTo(unit, x) <= 0.0
  {
    var s := unit as real;
    var h := RoundTo(unit, x);
    assert (h - x) * s == h * s - x * s;
    assert x >= 0.0 ==> x * s >= 0.0;
    assert x <= 0.0 ==> x * s <= 0.0;
  }

  /**
   * Rounding moves a value by at most half a unit in the last kept place, and
   * never across zero.
   */
  lemma HalfUpIsNearest(places: nat, x: real)
    ensures var d := (HalfUp(places, x) - x) * Pow10(places) as real; -0.5 <= d <= 0.5
    ensures x >= 0.0 ==> HalfUp(places, x) >= 0.0
    ensures x <= 0.0 ==> HalfUp(places, x) <= 0.0
  {
    var unit := Pow10(places);
    assert HalfUp(places, x) == RoundTo(unit, x);
    RoundToIsNearest(unit, x);
  }

  /** A value that already has at most `places` decimal places is left as it is. */
  lemma HalfUpKeepsExact(places: nat, x: real, units: int)
    requires x * Pow10(places) as real == units as real
    ensures HalfUp(places, x) == x
  {
    RoundToKeepsExact(Pow10(places), x, units);
  }

  lemma RoundToKeepsExact(unit: nat, x: real, units: int)
    requires unit >= 1 && x * unit as real == units as real
    ensures RoundTo(unit, x) == x
  {
    WholeStays(units);
    assert RoundHalfUp(x * unit as real) == units;
    Cancel(RoundTo(unit, x), x, unit as real);
  }

  lemma WholeStays(n: int)
    ensures RoundHalfUp(n as real) == n
  {
  }

  lemma Cancel(a: real, b: real, s: real)
    requires s > 0.0 && a * s == b * s
    ensures a == b
  {
    assert (a - b) * s == 0.0;
  }

  /** The value of `quantity` shares at `price` each. */
  function Amount(price: real, quantity: int): real {
    price * quantity as real
  }

  // ---------------------------------------------------------------------
  // The average-cost ledger of one symbol (`calculate`)

  datatype Side = Buy | Sell

  /** A ledger row as `calculate` reads it: its symbol, side, share count and unit price in USD. */
  datatype Trade = Trade(symbol: string, side: Side, quantity: int, priceUsd: real)

  /** The running state of `calculate`: shares held, their cost basis and the realised P&L so far. */
  datatype Book = Book(quantity: int, cost: real, realized: real)

  /** What `calculate` returns: shares held, average cost per share and realised P&L. */
  datatype PositionCalc = PositionCalc(quantity: int, avgCost: real, realized: real)

  const EmptyBook := Book(0, 0.0, 0.0)

  /** The cost basis per share held, `cost / quantity` rounded HALF_UP to 10 places. */
  function Average(cost: real, quantity: int): real
    requires quantity != 0
  {
    HalfUp(10, cost / quantity as real)
  }

  /**
   * One trade booked. A BUY adds its shares and what they cost. A SELL of
   * more shares than are held is refused. Otherwise it realises the gain over
   * the average cost and takes the shares out of the cost basis at that average.
   * With nothing held, the division by a zero quantity throws (only a SELL of
   * zero or fewer shares gets that far).
   */
  function Book1(b: Book, t: Trade): Result<Book> {
    match t.side
    case Buy => Ok(Book(b.quantity + t.quantity, b.cost + Amount(t.priceUsd, t.quantity), b.realized))
    case Sell =>
      if t.quantity > b.quantity then Err(BadRequest("SELL 수량이 보유수량보다 큽니다. symbol=" + t.symbol))
      else if b.quantity == 0 then Err(RuntimeFailure("ArithmeticException"))
      else
        var avg := Average(b.cost, b.quantity);
        Ok(Book(b.quantity - t.quantity, b.cost - Amount(avg, t.quantity),
                b.realized + Amount(t.priceUsd - avg, t.quantity)))
  }

  /** The book after the trades in order; the first refused trade ends it. */
  function BookOf(trades: seq<Trade>): Result<Book>
    decreases |trades|
  {
    if |trades| == 0 then Ok(EmptyBook)
    else
      match BookOf(trades[..|trades| - 1])
      case Err(e) => Err(e)
      case Ok(b) => Book1(b, trades[|trades| - 1])
  }

  /** What `calculate` returns for one symbol's trades, oldest first. */
  function Calculation(trades: seq<Trade>): Result<PositionCalc> {
    match BookOf(trades)
    case Err(e) => Err(e)
    case Ok(b) => Ok(PositionCalc(b.quantity, if b.quantity == 0 then 0.0 else Average(b.cost, b.quantity), b.realized))
  }

  /** Once a prefix of the ledger is refused, so is the whole ledger, with the same exception. */
  lemma {:induction false} RefusalSticks(trades: seq<Trade>, n: nat)
    requires n <= |trades| && BookOf(trades[..n]).Err?
    ensures BookOf(trades) == BookOf(trades[..n])
    decreases |trades| - n
  {
    if n < |trades| {
      assert trades[..n + 1][..n] == trades[..n];
      RefusalSticks(trades, n + 1);
    } else {
      assert trades[..n] == trades;
    }
  }

  /** `calculate`: books the trades one by one, then prices the shares left at their average cost. */
  method Calculate(trades: seq<Trade>) returns (r: Result<PositionCalc>)
    ensures r == Calculation(trades)
  {
    var quantity := 0;
    var costAmount := 0.0;
    var realized := 0.0;
    var i := 0;
    while i < |trades|
      invariant 0 <= i <= |trades|
      invariant BookOf(trades[..i]) == Ok(Book(quantity, costAmount, realized))
    {
      assert trades[..i + 1][..i] == trades[..i];
      var t := trades[i];
      assert BookOf(trades[..i + 1]) == Book1(Book(quantity, costAmount, realized), t);
      if t.side == Buy {
        quantity := quantity + t.quantity;
        costAmount := costAmount + Amount(t.priceUsd, t.quantity);
      } else {
        if t.quantity > quantity {
          RefusalSticks(trades, i + 1);
          return Err(BadRequest("SELL 수량이 보유수량보다 큽니다. symbol=" + t.symbol));
        }
        if quantity == 0 {
          RefusalSticks(trades, i + 1);
          return Err(RuntimeFailure("ArithmeticException"));
        }
        var avg := Average(costAmount, quantity);
        realized := realized + Amount(t.priceUsd - avg, t.quantity);
        quantity := quantity - t.quantity;
        costAmount := costAmount - Amount(avg, t.quantity);
      }
      i := i + 1;
    }
    assert trades[..i] == trades;
    var avgCost := if quantity == 0 then 0.0 else Average(costAmount, quantity);
    return Ok(PositionCalc(quantity, avgCost, realized));
  }

  /** Shares bought, and shares sold, over the ledger. */
  function Bought(trades: seq<Trade>): int
    decreases |trades|
  {
    if |trades| == 0 then 0
    else Bought(trades[..|trades| - 1]) + (if trades[|trades| - 1].side == Buy then trades[|trades| - 1].quantity else 0)
  }

  function Sold(trades: seq<Trade>): int
    decreases |trades|
  {
    if |trades| == 0 then 0
    else Sold(trades[..|trades| - 1]) + (if trades[|trades| - 1].side == Sell then trades[|trades| - 1].quantity else 0)
  }

  /** Money paid for purchases, and money received from sales, over the ledger. */
  function Spent(trades: seq<Trade>): real
    decreases |trades|
  {
    if |trades| == 0 then 0.0
    else
      var t := trades[|trades| - 1];
      Spent(trades[..|trades| - 1]) + (if t.side == Buy then Amount(t.priceUsd, t.quantity) else 0.0)
  }

  function Proceeds(trades: seq<Trade>): real
    decreases |trades|
  {
    if |trades| == 0 then 0.0
    else
      var t := trades[|trades| - 1];
      Proceeds(trades[..|trades| - 1]) + (if t.side == Sell then Amount(t.priceUsd, t.quantity) else 0.0)
  }

  /** The shares held are the shares bought less the shares sold. */
  lemma {:induction false} HeldIsBoughtLessSold(trades: seq<Trade>)
    requires BookOf(trades).Ok?
    ensures BookOf(trades).value.quantity == Bought(trades) - Sold(trades)
    decreases |trades|
  {
    if |trades| > 0 {
      HeldIsBoughtLessSold(trades[..|trades| - 1]);
    }
  }

  /**
   * Rounding the average never loses money: realised P&L less the cost basis
   * still on the book equals sale proceeds less purchase spend.
   */
  lemma {:induction false} CashBalances(trades: seq<Trade>)
    requires BookOf(trades).Ok?
    ensures BookOf(trades).value.realized - BookOf(trades).value.cost == Proceeds(trades) - Spent(trades)
    decreases |trades|
  {
    if |trades| > 0 {
      var init, t := trades[..|trades| - 1], trades[|trades| - 1];
      CashBalances(init);
      var b := BookOf(init).value;
      if t.side == Sell {
        var avg := Average(b.cost, b.quantity);
        assert Amount(t.priceUsd - avg, t.quantity) == Amount(t.priceUsd, t.quantity) - Amount(avg, t.quantity);
      }
    }
  }

  /** The shares a ledger leaves held (bought less sold). */
  function Holding(trades: seq<Trade>): int {
    Bought(trades) - Sold(trades)
  }

  /**
   * For trades of at least one share (all that `TradeService` accepts), the
   * ledger is booked iff no SELL exceeds the shares held just before it. The
   * only refusal is a BadRequest, and what is held is never negative.
   */
  lemma {:induction false} NoOverselling(trades: seq<Trade>)
    requires forall k :: 0 <= k < |trades| ==> trades[k].quantity > 0
    ensures BookOf(trades).Ok? <==>
      (forall k :: 0 <= k < |trades| && trades[k].side == Sell ==> trades[k].quantity <= Holding(trades[..k]))
    ensures BookOf(trades).Ok? ==> BookOf(trades).value.quantity == Holding(trades) >= 0
    ensures BookOf(trades).Err? ==> BookOf(trades).error.BadRequest?
    decreases |trades|
  {
    if |trades| > 0 {
      var n := |trades| - 1;
      var init, t := trades[..n], trades[n];
      NoOverselling(init);
      assert Holding(trades) == Holding(init) + (if t.side == Buy then t.quantity else -t.quantity);
      assert BookOf(trades) == match BookOf(init) case Err(e) => Err(e) case Ok(b) => Book1(b, t);
      forall k | 0 <= k < n
        ensures trades[..k] == init[..k] && trades[k] == init[k]
      {
      }
      assert init[..n] == init;
      assert (forall k :: 0 <= k < |trades| && trades[k].side == Sell ==> trades[k].quantity <= Holding(trades[..k]))
        <==> (forall k :: 0 <= k < n && init[k].side == Sell ==> init[k].quantity <= Holding(init[..k]))
             && (t.side == Sell ==> t.quantity <= Holding(init));
    }
  }

  // ---------------------------------------------------------------------
  // The portfolio response (`getPortfolio`)

  const FxRateUnavailable := "FX_RATE_UNAVAILABLE"
  const QuoteUnavailable := "QUOTE_UNAVAILABLE"
  const InvalidQuotePrice := "INVALID_QUOTE_PRICE"

  /** A partial failure: its code, and the symbol it concerns (none for the exchange rate). */
  datatype Warning = Warning(code: string, symbol: Option<string>)

  datatype Position = Position(
    symbol: string, quantity: int, avgBuyPriceUsd: real, currentPriceUsd: real,
    marketValueUsd: real, unrealizedPnlUsd: real, realizedPnlUsd: real, unrealizedReturnPct: real)

  datatype Summary = Summary(
    totalMarketValueUsd: real, totalUnrealizedPnlUsd: real, totalRealizedPnlUsd: real,
    totalPnlUsd: real, totalCostUsd: real, totalReturnPct: real,
    usdKrwRate: Option<real>, totalMarketValueKrw: Option<real>, totalPnlKrw: Option<real>)

  datatype PortfolioView = PortfolioView(positions: seq<Position>, summary: Summary, warnings: seq<Warning>)

  /** The lists and running totals of the loop over symbols. */
  datatype Tally = Tally(
    positions: seq<Position>, warnings: seq<Warning>,
    marketValue: real, unrealized: real, realized: real, cost: real)

  const EmptyTally := Tally([], [], 0.0, 0.0, 0.0, 0.0)

  /** The trades of one symbol, in ledger order (the lists the `HashMap` grouping builds). */
  function TradesOf(trades: seq<Trade>, symbol: string): seq<Trade> {
    Filter(trades, (t: Trade) => t.symbol == symbol)
  }

  /** The position shown for a symbol held at a positive price. */
  function PositionAt(symbol: string, c: PositionCalc, price: real): Position {
    Position(symbol, c.quantity, HalfUp(6, c.avgCost), HalfUp(6, price),
             HalfUp(2, Amount(price, c.quantity)), HalfUp(2, Amount(price - c.avgCost, c.quantity)), HalfUp(2, c.realized),
             HalfUp(2, if c.avgCost == 0.0 then 0.0 else HalfUp(6, (price - c.avgCost) / c.avgCost) * 100.0))
  }

  /**
   * One symbol of the loop. Nothing held: skipped. Otherwise its cost counts,
   * and then a missing quote (an exception or null) or a price that is not
   * positive gives a warning; a good price gives a position and adds to the totals.
   */
  function Visit(t: Tally, symbol: string, c: PositionCalc, quote: Option<real>): Tally {
    if c.quantity <= 0 then t
    else
      var cost := t.cost + Amount(c.avgCost, c.quantity);
      match quote
      case None => t.(cost := cost, warnings := t.warnings + [Warning(QuoteUnavailable, Some(symbol))])
      case Some(price) =>
        if price <= 0.0 then t.(cost := cost, warnings := t.warnings + [Warning(InvalidQuotePrice, Some(symbol))])
        else
          Tally(t.positions + [PositionAt(symbol, c, price)], t.warnings,
                t.marketValue + Amount(price, c.quantity), t.unrealized + Amount(price - c.avgCost, c.quantity),
                t.realized + c.realized, cost)
  }

  /** The loop over the symbols from `keys[k]` on; a ledger `calculate` refuses ends it. */
  function TallyFrom(trades: seq<Trade>, keys: seq<string>, k: nat, t: Tally, quote: string -> Option<real>): Result<Tally>
    decreases |keys| - k
  {
    if k >= |keys| then Ok(t)
    else
      match Calculation(TradesOf(trades, keys[k]))
      case Err(e) => Err(e)
      case Ok(c) => TallyFrom(trades, keys, k + 1, Visit(t, keys[k], c, quote(keys[k])), quote)
  }

  /** Positions by market value, largest first. */
  predicate LargerFirst(a: Position, b: Position) {
    a.marketValueUsd >= b.marketValueUsd
  }

  lemma LargerFirstIsPreorder()
    ensures TotalPreorder(LargerFirst)
  {
  }

  /**
   * The response from the loop's totals and the exchange rate. A missing or
   * non-positive rate (`None` stands for an exception or null) adds one
   * warning and leaves only the KRW fields empty.
   */
  function Summarize(t: Tally, fx: Option<real>): (r: PortfolioView)
    ensures r.summary.usdKrwRate.None? <==> !(fx.Some? && fx.value > 0.0)
    ensures r.summary.usdKrwRate.None? ==>
      r.summary.totalMarketValueKrw.None? && r.summary.totalPnlKrw.None?
      && r.warnings == t.warnings + [Warning(FxRateUnavailable, None)]
    ensures r.summary.usdKrwRate.Some? ==>
      r.summary.totalMarketValueKrw.Some? && r.summary.totalPnlKrw.Some? && r.warnings == t.warnings
    ensures t.cost == 0.0 ==> r.summary.totalReturnPct == 0.0
    ensures SortedBy(r.positions, LargerFirst) && multiset(r.positions) == multiset(t.positions)
  {
    var pnl := t.unrealized + t.realized;
    var returnPct := if t.cost == 0.0 then 0.0 else HalfUp(6, pnl / t.cost) * 100.0;
    var usd := Summary(HalfUp(2, t.marketValue), HalfUp(2, t.unrealized), HalfUp(2, t.realized),
                       HalfUp(2, pnl), HalfUp(2, t.cost), HalfUp(2, returnPct), None, None, None);
    LargerFirstIsPreorder();
    SortBySorts(t.positions, LargerFirst);
    var sorted := SortBy(t.positions, LargerFirst);
    if fx.Some? && fx.value > 0.0 then
      var rate := HalfUp(2, fx.value);
      PortfolioView(sorted, usd.(usdKrwRate := Some(rate), totalMarketValueKrw := Some(HalfUp(0, t.marketValue * rate)),
                                 totalPnlKrw := Some(HalfUp(0, pnl * rate))), t.warnings)
    else
      PortfolioView(sorted, usd, t.warnings + [Warning(FxRateUnavailable, None)])
  }

  /**
   * `getPortfolio`: the user's trades oldest first, the order in which the
   * grouping map hands out its symbols, the quote service and the exchange rate.
   */
  function PortfolioOf(trades: seq<Trade>, keys: seq<string>, quote: string -> Option<real>, fx: Option<real>): Result<PortfolioView> {
    match TallyFrom(trades, keys, 0, EmptyTally, quote)
    case Err(e) => Err(e)
    case Ok(t) => Ok(Summarize(t, fx))
  }

  /** The symbols of the ledger, each once, in some order: what iterating the grouping map's keys gives. */
  predicate IsKeyOrder(keys: seq<string>, trades: seq<Trade>) {
    NoDuplicates(keys)
    && (forall i :: 0 <= i < |trades| ==> trades[i].symbol in keys)
    && (forall k :: 0 <= k < |keys| ==> exists i :: 0 <= i < |trades| && trades[i].symbol == keys[k])
  }

  method GetPortfolio(trades: seq<Trade>, keys: seq<string>, quote: string -> Option<real>, fx: Option<real>)
    returns (r: Result<PortfolioView>)
    ensures r == PortfolioOf(trades, keys, quote, fx)
  {
    var t := EmptyTally;
    var k := 0;
    while k < |keys|
      invariant 0 <= k <= |keys|
      invariant TallyFrom(trades, keys, k, t, quote) == TallyFrom(trades, keys, 0, EmptyTally, quote)
    {
      var symbol := keys[k];
      var position := Calculate(TradesOf(trades, symbol));
      if position.Err? {
        return Err(position.error);
      }
      t := Visit(t, symbol, position.value, quote(symbol));
      k := k + 1;
    }
    return Ok(Summarize(t, fx));
  }

  /** The loop only appends: what the lists held before is still their start. */
  lemma {:induction false} TallyAppends(trades: seq<Trade>, keys: seq<string>, k: nat, t: Tally, quote: string -> Option<real>)
    requires TallyFrom(trades, keys, k, t, quote).Ok?
    ensures var u := TallyFrom(trades, keys, k, t, quote).value;
      t.positions <= u.positions && t.warnings <= u.warnings
    decreases |keys| - k
  {
    if k < |keys| {
      var c := Calculation(TradesOf(trades, keys[k])).value;
      var next := Visit(t, keys[k], c, quote(keys[k]));
      assert TallyFrom(trades, keys, k, t, quote) == TallyFrom(trades, keys, k + 1, next, quote);
      VisitAppends(t, keys[k], c, quote(keys[k]));
      TallyAppends(trades, keys, k + 1, next, quote);
    }
  }

  /** One step of the loop only appends to the lists. */
  lemma VisitAppends(t: Tally, symbol: string, c: PositionCalc, quote: Option<real>)
    ensures var v := Visit(t, symbol, c, quote);
      t.positions <= v.positions && t.warnings <= v.warnings
  {
  }

  /** One step of the loop adds the same cost whatever the quote says. */
  lemma VisitCostIgnoresQuote(t: Tally, u: Tally, symbol: string, c: PositionCalc, quote1: Option<real>, quote2: Option<real>)
    requires t.cost == u.cost
    ensures Visit(t, symbol, c, quote1).cost == Visit(u, symbol, c, quote2).cost
  {
  }

  /** A symbol is held when its ledger is booked and leaves shares. */
  predicate Held(trades: seq<Trade>, symbol: string) {
    var c := Calculation(TradesOf(trades, symbol));
    c.Ok? && c.value.quantity > 0
  }

  /** A position of a held symbol with a positive quote, priced at that quote. */
  predicate PositionExplained(p: Position, trades: seq<Trade>, quote: string -> Option<real>) {
    Held(trades, p.symbol) && p.quantity > 0 && quote(p.symbol).Some? && quote(p.symbol).value > 0.0
    && p.currentPriceUsd == HalfUp(6, quote(p.symbol).value)
  }

  /** A warning naming a held symbol, with the reason its quote was not used. */
  predicate WarningExplained(w: Warning, trades: seq<Trade>, quote: string -> Option<real>) {
    w.symbol.Some? && Held(trades, w.symbol.value)
    && (w.code == QuoteUnavailable || w.code == InvalidQuotePrice)
    && (w.code == QuoteUnavailable ==> quote(w.symbol.value).None?)
    && (w.code == InvalidQuotePrice ==> quote(w.symbol.value).Some? && quote(w.symbol.value).value <= 0.0)
  }

  predicate Explained(t: Tally, trades: seq<Trade>, quote: string -> Option<real>) {
    (forall p :: p in t.positions ==> PositionExplained(p, trades, quote))
    && (forall w :: w in t.warnings ==> WarningExplained(w, trades, quote))
  }

  lemma VisitExplained(t: Tally, trades: seq<Trade>, symbol: string, c: PositionCalc, quote: string -> Option<real>)
    requires Calculation(TradesOf(trades, symbol)) == Ok(c) && Explained(t, trades, quote)
    ensures Explained(Visit(t, symbol, c, quote(symbol)), trades, quote)
  {
    if c.quantity > 0 {
      assert Held(trades, symbol);
      match quote(symbol)
      case None =>
        assert WarningExplained(Warning(QuoteUnavailable, Some(symbol)), trades, quote);
      case Some(price) =>
        if price <= 0.0 {
          assert WarningExplained(Warning(InvalidQuotePrice, Some(symbol)), trades, quote);
        } else {
          assert PositionExplained(PositionAt(symbol, c, price), trades, quote);
        }
    }
  }

  lemma {:induction false} TallyExplained(trades: seq<Trade>, keys: seq<string>, k: nat, t: Tally, quote: string -> Option<real>)
    requires TallyFrom(trades, keys, k, t, quote).Ok? && Explained(t, trades, quote)
    ensures Explained(TallyFrom(trades, keys, k, t, quote).value, trades, quote)
    decreases |keys| - k
  {
    if k < |keys| {
      var c := Calculation(TradesOf(trades, keys[k])).value;
      VisitExplained(t, trades, keys[k], c, quote);
      TallyExplained(trades, keys, k + 1, Visit(t, keys[k], c, quote(keys[k])), quote);
    }
  }

  /**
   * Every position shows a held symbol at its positive live price, and every
   * symbol warning is QUOTE_UNAVAILABLE for a missing quote or
   * INVALID_QUOTE_PRICE for a price that is not positive.
   */
  lemma PortfolioExplained(trades: seq<Trade>, keys: seq<string>, quote: string -> Option<real>, fx: Option<real>)
    requires PortfolioOf(trades, keys, quote, fx).Ok?
    ensures var v := PortfolioOf(trades, keys, quote, fx).value;
      (forall p :: p in v.positions ==> PositionExplained(p, trades, quote))
      && (forall w :: w in v.warnings && w.symbol.Some? ==> WarningExplained(w, trades, quote))
  {
    TallyExplained(trades, keys, 0, EmptyTally, quote);
    var t := TallyFrom(trades, keys, 0, EmptyTally, quote).value;
    var v := Summarize(t, fx);
    forall p | p in v.positions
      ensures PositionExplained(p, trades, quote)
    {
      assert p in multiset(t.positions);
    }
  }

  /** What the loop adds for `keys[j]`, for a held symbol. */
  function Outcome(symbol: string, c: PositionCalc, quote: Option<real>): (Option<Position>, Option<Warning>) {
    match quote
    case None => (None, Some(Warning(QuoteUnavailable, Some(symbol))))
    case Some(price) =>
      if price <= 0.0 then (None, Some(Warning(InvalidQuotePrice, Some(symbol))))
      else (Some(PositionAt(symbol, c, price)), None)
  }

  lemma InPrefix<T>(x: T, a: seq<T>, b: seq<T>)
    requires x in a && a <= b
    ensures x in b
  {
    var i :| 0 <= i < |a| && a[i] == x;
    assert b[i] == x;
  }

  lemma VisitAdds(t: Tally, symbol: string, c: PositionCalc, quote: Option<real>)
    requires c.quantity > 0
    ensures var o := Outcome(symbol, c, quote); var v := Visit(t, symbol, c, quote);
      (o.0.Some? ==> o.0.value in v.positions) && (o.1.Some? ==> o.1.value in v.warnings)
  {
  }

  lemma {:induction false} TallyCovers(trades: seq<Trade>, keys: seq<string>, k: nat, j: nat, t: Tally, quote: string -> Option<real>)
    requires k <= j < |keys| && TallyFrom(trades, keys, k, t, quote).Ok? && Held(trades, keys[j])
    ensures var u := TallyFrom(trades, keys, k, t, quote).value;
      var o := Outcome(keys[j], Calculation(TradesOf(trades, keys[j])).value, quote(keys[j]));
      (o.0.Some? ==> o.0.value in u.positions) && (o.1.Some? ==> o.1.value in u.warnings)
    decreases |keys| - k
  {
    var c := Calculation(TradesOf(trades, keys[k])).value;
    var next := Visit(t, keys[k], c, quote(keys[k]));
    assert TallyFrom(trades, keys, k, t, quote) == TallyFrom(trades, keys, k + 1, next, quote);
    if j == k {
      VisitAdds(t, keys[k], c, quote(keys[k]));
      TallyAppends(trades, keys, k + 1, next, quote);
      var u := TallyFrom(trades, keys, k + 1, next, quote).value;
      var o := Outcome(keys[k], c, quote(keys[k]));
      if o.0.Some? {
        InPrefix(o.0.value, next.positions, u.positions);
      }
      if o.1.Some? {
        InPrefix(o.1.value, next.warnings, u.warnings);
      }
    } else {
      TallyCovers(trades, keys, k + 1, j, next, quote);
    }
  }

  /**
   * Every held symbol appears: as a position when its quote is positive,
   * otherwise as a warning with its reason.
   */
  lemma PortfolioCovers(trades: seq<Trade>, keys: seq<string>, quote: string -> Option<real>, fx: Option<real>, symbol: string)
    requires PortfolioOf(trades, keys, quote, fx).Ok? && symbol in keys && Held(trades, symbol)
    ensures var v := PortfolioOf(trades, keys, quote, fx).value;
      (quote(symbol).None? ==> Warning(QuoteUnavailable, Some(symbol)) in v.warnings)
      && (quote(symbol).Some? && quote(symbol).value <= 0.0 ==> Warning(InvalidQuotePrice, Some(symbol)) in v.warnings)
      && (quote(symbol).Some? && quote(symbol).value > 0.0 ==>
            PositionAt(symbol, Calculation(TradesOf(trades, symbol)).value, quote(symbol).value) in v.positions)
  {
    var j :| 0 <= j < |keys| && keys[j] == symbol;
    TallyCovers(trades, keys, 0, j, EmptyTally, quote);
    var t := TallyFrom(trades, keys, 0, EmptyTally, quote).value;
    var v := Summarize(t, fx);
    var c := Calculation(TradesOf(trades, symbol)).value;
    if quote(symbol).Some? && quote(symbol).value > 0.0 {
      assert PositionAt(symbol, c, quote(symbol).value) in multiset(v.positions);
    }
  }

  /** With the grouping map's keys, every held symbol is a key, so `PortfolioCovers` applies to it. */
  lemma HeldIsKey(trades: seq<Trade>, keys: seq<string>, symbol: string)
    requires IsKeyOrder(keys, trades) && Held(trades, symbol)
    ensures symbol in keys
  {
    var ts := TradesOf(trades, symbol);
    assert |ts| > 0;  // an empty ledger books nothing, so nothing is held
    assert ts[0] in trades && ts[0].symbol == symbol;
    var i :| 0 <= i < |trades| && trades[i] == ts[0];
  }

  /**
   * The total cost does not depend on the quotes: a held symbol's cost counts
   * before its quote is asked for, so it counts even when the quote fails.
   */
  lemma {:induction false} CostIgnoresQuotes(trades: seq<Trade>, keys: seq<string>, k: nat, t: Tally, u: Tally,
                                             quote1: string -> Option<real>, quote2: string -> Option<real>)
    requires t.cost == u.cost
    ensures TallyFrom(trades, keys, k, t, quote1).Ok? <==> TallyFrom(trades, keys, k, u, quote2).Ok?
    ensures TallyFrom(trades, keys, k, t, quote1).Ok? ==>
      TallyFrom(trades, keys, k, t, quote1).value.cost == TallyFrom(trades, keys, k, u, quote2).value.cost
    decreases |keys| - k
  {
    if k < |keys| {
      var computed := Calculation(TradesOf(trades, keys[k]));
      if computed.Ok? {
        var c := computed.value;
        var t1 := Visit(t, keys[k], c, quote1(keys[k]));
        var u1 := Visit(u, keys[k], c, quote2(keys[k]));
        VisitCostIgnoresQuote(t, u, keys[k], c, quote1(keys[k]), quote2(keys[k]));
        assert TallyFrom(trades, keys, k, t, quote1) == TallyFrom(trades, keys, k + 1, t1, quote1);
        assert TallyFrom(trades, keys, k, u, quote2) == TallyFrom(trades, keys, k + 1, u1, quote2);
        CostIgnoresQuotes(trades, keys, k + 1, t1, u1, quote1, quote2);
      }
    }
  }

  /** The ledger of the worked examples' first test: buy 2 at 100, then sell 1 at 120. */
  const ExampleTrades := [Trade("AAPL", Buy, 2, 100.0), Trade("AAPL", Sell, 1, 120.0)]

  lemma ExampleBook()
    ensures TradesOf(ExampleTrades, "AAPL") == ExampleTrades
    ensures Calculation(ExampleTrades) == Ok(PositionCalc(1, 100.0, 20.0))
  {
    var trades := ExampleTrades;
    assert trades[..1] == [trades[0]];
    assert [trades[0]][..0] == [];
    assert TradesOf(trades[..1], "AAPL") == [trades[0]];
    assert BookOf([trades[0]]) == Ok(Book(2, 200.0, 0.0));
    HalfUpKeepsExact(10, 100.0, 1000000000000);
    assert Average(200.0, 2) == 100.0;
    assert BookOf(trades) == Ok(Book(1, 100.0, 20.0));
  }

  /** The quote of the first worked example: 110 for every symbol. */
  const ExampleQuote: string -> Option<real> := s => Some(110.0)

  /** The loop of the first worked example visits its one symbol, booked at 1 share, average 100, realised 20. */
  lemma ExampleTally()
    ensures var r := TallyFrom(ExampleTrades, ["AAPL"], 0, EmptyTally, ExampleQuote);
      r.Ok? && r.value.realized == 20.0 && r.value.unrealized == 10.0 && r.value.cost == 100.0
      && |r.value.positions| == 1 && r.value.warnings == []
  {
    ExampleBook();
    assert ExampleQuote("AAPL") == Some(110.0);
    var t := Visit(EmptyTally, "AAPL", PositionCalc(1, 100.0, 20.0), Some(110.0));
    assert TallyFrom(ExampleTrades, ["AAPL"], 0, EmptyTally, ExampleQuote) == Ok(t);
  }

  /** Totals of realised 20, unrealised 10 and cost 100 are summarised as P&L 30 and a return of 30%. */
  lemma ExampleTotals(t: Tally)
    requires t.realized == 20.0 && t.unrealized == 10.0 && t.cost == 100.0
    ensures var s := Summarize(t, Some(1300.0)).summary;
      s.totalRealizedPnlUsd == 20.0 && s.totalUnrealizedPnlUsd == 10.0
      && s.totalPnlUsd == 30.0 && s.totalCostUsd == 100.0 && s.totalReturnPct == 30.0
  {
    HalfUpKeepsExact(2, 20.0, 2000);
    HalfUpKeepsExact(2, 10.0, 1000);
    HalfUpKeepsExact(2, 30.0, 3000);
    HalfUpKeepsExact(2, 100.0, 10000);
    HalfUpKeepsExact(6, 0.3, 300000);
  }

  /**
   * The first worked example: buy 2 at 100, sell 1 at 120, quoted at 110, at
   * a rate of 1300. Realised 20, unrealised 10, P&L 30, cost 100, return 30%.
   */
  lemma ExampleReturn()
    ensures var v := PortfolioOf(ExampleTrades, ["AAPL"], ExampleQuote, Some(1300.0));
      v.Ok? && |v.value.positions| == 1 && v.value.warnings == []
      && v.value.summary.totalRealizedPnlUsd == 20.0 && v.value.summary.totalUnrealizedPnlUsd == 10.0
      && v.value.summary.totalPnlUsd == 30.0 && v.value.summary.totalCostUsd == 100.0
      && v.value.summary.totalReturnPct == 30.0
  {
    ExampleTally();
    var t := TallyFrom(ExampleTrades, ["AAPL"], 0, EmptyTally, ExampleQuote).value;
    ExampleTotals(t);
    var v := Summarize(t, Some(1300.0));
    assert |v.positions| == |multiset(v.positions)| == |multiset(t.positions)|;
  }

  /** The ledger of the second worked example: one purchase of a share at 100. */
  const SingleBuy := [Trade("AAPL", Buy, 1, 100.0)]

  lemma SingleBuyBook()
    ensures TradesOf(SingleBuy, "AAPL") == SingleBuy
    ensures Calculation(SingleBuy) == Ok(PositionCalc(1, 100.0, 0.0))
  {
    var trades := SingleBuy;
    assert trades[..0] == [];
    HalfUpKeepsExact(10, 100.0, 1000000000000);
  }

  /** The quote of the second worked example: none for any symbol. */
  const NoQuote: string -> Option<real> := s => None

  /** The second worked example: a held symbol whose quote fails gives no position and a QUOTE_UNAVAILABLE warning. */
  lemma ExampleQuoteUnavailable()
    ensures var v := PortfolioOf(SingleBuy, ["AAPL"], NoQuote, Some(1300.0));
      v.Ok? && v.value.positions == [] && |v.value.warnings| >= 1
      && v.value.warnings[0] == Warning(QuoteUnavailable, Some("AAPL"))
  {
    SingleBuyBook();
    assert NoQuote("AAPL") == None;
    var t := Visit(EmptyTally, "AAPL", PositionCalc(1, 100.0, 0.0), None);
    assert TallyFrom(SingleBuy, ["AAPL"], 0, EmptyTally, NoQuote) == Ok(t);
    var v := Summarize(t, Some(1300.0));
    assert |v.positions| == |multiset(v.positions)| == |multiset(t.positions)| == 0;
  }
}
