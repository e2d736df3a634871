/**
 * Recording a trade (`TradeService.create`). The request is checked field by
 * field, and the symbol is normalised. A SELL of more shares than the user
 * holds in that symbol is refused. Anything accepted is appended to the
 * ledger. The ledger is the trade repository, and a user's holding is the
 * net quantity the repository reports for (user, symbol).
 */
module Trading {
  import opened Common
  import opened Text
  import Portfolio

  type Side = Portfolio.Side

  datatype OrderKind = Market | Limit

  /** `CreateTradeRequest`: every field may be missing (null). */
  datatype TradeRequest = TradeRequest(
    symbol: Option<string>, side: Option<Side>, kind: Option<OrderKind>,
    quantity: Option<int>, priceUsd: Option<real>, usdKrwRate: Option<real>)

  /** A saved `Trade` row: its id, owner, the normalised symbol, the request's values and when it was made. */
  datatype StoredTrade = StoredTrade(
    id: nat, userId: int, symbol: string, side: Side, kind: OrderKind,
    quantity: int, priceUsd: real, usdKrwRate: Option<real>, tradedAt: int)

  /**
   * `validate`: the first failed guard, as a BadRequest, in the order the
   * service checks them; none when the request is complete.
   */
  function Validate(req: Option<TradeRequest>): (r: Option<Failure>)
    ensures r.None? <==>
      req.Some? && HasText(req.value.symbol) && req.value.side.Some? && req.value.kind.Some?
      && req.value.quantity.Some? && req.value.quantity.value > 0
      && req.value.priceUsd.Some? && req.value.priceUsd.value > 0.0
    ensures r.Some? ==> r.value.BadRequest?
  {
    if req.None? then Some(BadRequest("요청이 비었습니다."))
    else
      var q := req.value;
      if !HasText(q.symbol) then Some(BadRequest("symbol 필수"))
      else if q.side.None? then Some(BadRequest("side 필수"))
      else if q.kind.None? then Some(BadRequest("kind 필수"))
      else if q.quantity.None? || q.quantity.value <= 0 then Some(BadRequest("quantity는 1 이상"))
      else if q.priceUsd.None? || q.priceUsd.value <= 0.0 then Some(BadRequest("priceUsd는 0 초과"))
      else None
  }

  /** The symbol a trade is stored under: the request symbol trimmed and upper-cased. */
  function StoredSymbol(symbol: string): string {
    ToUpper(Trim(symbol))
  }

  /** A row's effect on its owner's holding: plus its quantity for a BUY, minus for a SELL. */
  function Signed(t: StoredTrade): int {
    if t.side == Portfolio.Buy then t.quantity else -t.quantity
  }

  /**
   * The net quantity of `symbol` the user holds over the ledger: bought less
   * sold. A user with no rows for the symbol holds 0.
   */
  function Holding(rows: seq<StoredTrade>, userId: int, symbol: string): int
    decreases |rows|
  {
    if |rows| == 0 then 0
    else
      var last := rows[|rows| - 1];
      Holding(rows[..|rows| - 1], userId, symbol)
      + (if last.userId == userId && last.symbol == symbol then Signed(last) else 0)
  }

  function OversellMessage(symbol: string, holding: int, sell: int): string {
    "보유수량 초과 매도입니다. symbol=" + symbol + ", holding=" + IntToString(holding) + ", sell=" + IntToString(sell)
  }

  /**
   * What `create` decides for a request, given the ledger, the id the
   * repository hands out next and the clock: the row it saves, or the
   * exception it throws.
   */
  function Admit(rows: seq<StoredTrade>, userId: int, req: Option<TradeRequest>, id: nat, now: int): (r: Result<StoredTrade>)
    ensures Validate(req).Some? ==> r == Err(Validate(req).value)
    ensures r.Ok? <==>
      Validate(req).None?
      && (req.value.side.value == Portfolio.Sell ==>
            req.value.quantity.value <= Holding(rows, userId, StoredSymbol(req.value.symbol.value)))
    ensures r.Err? ==> r.error.BadRequest?
    ensures r.Ok? ==>
      var q := req.value;
      r.value == StoredTrade(id, userId, StoredSymbol(q.symbol.value), q.side.value, q.kind.value,
                             q.quantity.value, q.priceUsd.value, q.usdKrwRate, now)
  {
    match Validate(req)
    case Some(failure) => Err(failure)
    case None =>
      var q := req.value;
      var symbol := StoredSymbol(q.symbol.value);
      var holding := Holding(rows, userId, symbol);
      if q.side.value == Portfolio.Sell && holding < q.quantity.value then
        Err(BadRequest(OversellMessage(symbol, holding, q.quantity.value)))
      else
        Ok(StoredTrade(id, userId, symbol, q.side.value, q.kind.value, q.quantity.value, q.priceUsd.value, q.usdKrwRate, now))
  }

  /** The trade repository: the saved rows in order, and the id the next save receives. */
  class TradeRepository {
    var rows: seq<StoredTrade>
    var nextId: nat

    /** No user holds a negative quantity of any symbol. */
    ghost predicate Valid()
      reads this
    {
      forall u: int, s: string :: Holding(rows, u, s) >= 0
    }

    constructor ()
      ensures rows == [] && nextId == 1
      ensures Valid()
    {
      rows := [];
      nextId := 1;
    }

    /**
     * `create`: validates the request, checks a SELL against the holding,
     * then saves the trade and returns its id. A refused request saves nothing.
     */
    method Create(userId: int, req: Option<TradeRequest>, now: int) returns (r: Result<nat>)
      requires Valid()
      modifies this
      ensures Valid()
      ensures var a := Admit(old(rows), userId, req, old(nextId), now);
        (a.Err? ==> r == Err(a.error) && rows == old(rows) && nextId == old(nextId))
        && (a.Ok? ==> r == Ok(old(nextId)) && rows == old(rows) + [a.value] && nextId == old(nextId) + 1)
    {
      var invalid := Validate(req);
      if invalid.Some? {
        return Err(invalid.value);
      }
      var q := req.value;
      var symbol := StoredSymbol(q.symbol.value);
      if q.side.value == Portfolio.Sell {
        var holdingQty := Holding(rows, userId, symbol);
        if holdingQty < q.quantity.value {
          return Err(BadRequest(OversellMessage(symbol, holdingQty, q.quantity.value)));
        }
      }
      var trade := StoredTrade(nextId, userId, symbol, q.side.value, q.kind.value,
                               q.quantity.value, q.priceUsd.value, q.usdKrwRate, now);
      AdmittedKeepsHoldings(rows, userId, req, nextId, now);
      rows := rows + [trade];
      r := Ok(nextId);
      nextId := nextId + 1;
    }
  }

  /** Appending a row changes only its own (user, symbol) holding, by its signed quantity. */
  lemma HoldingAppend(rows: seq<StoredTrade>, t: StoredTrade, userId: int, symbol: string)
    ensures Holding(rows + [t], userId, symbol) ==
      Holding(rows, userId, symbol) + (if t.userId == userId && t.symbol == symbol then Signed(t) else 0)
  {
    assert (rows + [t])[..|rows|] == rows;
  }

  /**
   * An admitted trade moves only its own holding: a SELL lowers it by the
   * quantity sold, a BUY raises it by the quantity bought.
   */
  lemma AdmittedMovesHolding(rows: seq<StoredTrade>, userId: int, req: Option<TradeRequest>, id: nat, now: int,
                             u: int, s: string)
    requires Admit(rows, userId, req, id, now).Ok?
    ensures var t := Admit(rows, userId, req, id, now).value;
      Holding(rows + [t], u, s) ==
        if u == userId && s == t.symbol then
          (if t.side == Portfolio.Sell then Holding(rows, u, s) - t.quantity else Holding(rows, u, s) + t.quantity)
        else Holding(rows, u, s)
  {
    HoldingAppend(rows, Admit(rows, userId, req, id, now).value, u, s);
  }

  /** Admitting a trade never leaves a negative holding. */
  lemma AdmittedKeepsHoldings(rows: seq<StoredTrade>, userId: int, req: Option<TradeRequest>, id: nat, now: int)
    requires forall u: int, s: string :: Holding(rows, u, s) >= 0
    requires Admit(rows, userId, req, id, now).Ok?
    ensures forall u: int, s: string :: Holding(rows + [Admit(rows, userId, req, id, now).value], u, s) >= 0
  {
    forall u: int, s: string
      ensures Holding(rows + [Admit(rows, userId, req, id, now).value], u, s) >= 0
    {
      AdmittedMovesHolding(rows, userId, req, id, now, u, s);
    }
  }


  function Request(symbol: string, side: Side, quantity: int, price: real): Option<TradeRequest> {
    Some(TradeRequest(Some(symbol), Some(side), Some(Market), Some(quantity), Some(price), None))
  }

  /**
   * The recorded scenarios: after buying 1 AAPL, selling 2 is refused; after
   * buying 2, selling 1 is saved and leaves a holding of 1.
   */
  lemma ExampleScenarios()
    ensures Admit([], 7, Request("AAPL", Portfolio.Buy, 1, 100.0), 1, 0).Ok?
    ensures Admit([], 7, Request("AAPL", Portfolio.Buy, 2, 100.0), 1, 0).Ok?
    ensures var buy1 := Admit([], 7, Request("AAPL", Portfolio.Buy, 1, 100.0), 1, 0).value;
      Admit([buy1], 7, Request("AAPL", Portfolio.Sell, 2, 120.0), 2, 1).Err?
    ensures var buy2 := Admit([], 7, Request("AAPL", Portfolio.Buy, 2, 100.0), 1, 0).value;
      var sell1 := Admit([buy2], 7, Request("AAPL", Portfolio.Sell, 1, 120.0), 2, 1);
      sell1.Ok? && Holding([buy2, sell1.value], 7, "AAPL") == 1
  {
    assert StoredSymbol("AAPL") == "AAPL" by {
      assert Trim("AAPL") == "AAPL" by {
        assert IsTrimmed("AAPL");
        TrimOfTrimmed("AAPL");
      }
    }
    assert HasText(Some("AAPL")) by {
      assert !IsWhitespace("AAPL"[0]);
    }
    var buy1 := Admit([], 7, Request("AAPL", Portfolio.Buy, 1, 100.0), 1, 0).value;
    assert Holding([buy1], 7, "AAPL") == 1 by {
      HoldingAppend([], buy1, 7, "AAPL");
      assert [] + [buy1] == [buy1];
    }
    var buy2 := Admit([], 7, Request("AAPL", Portfolio.Buy, 2, 100.0), 1, 0).value;
    assert Holding([buy2], 7, "AAPL") == 2 by {
      HoldingAppend([], buy2, 7, "AAPL");
      assert [] + [buy2] == [buy2];
    }
    var sell1 := Admit([buy2], 7, Request("AAPL", Portfolio.Sell, 1, 120.0), 2, 1);
    HoldingAppend([buy2], sell1.value, 7, "AAPL");
    assert [buy2] + [sell1.value] == [buy2, sell1.value];
  }
}
