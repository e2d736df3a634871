/**
 * The home screen (`HomeService`): the configured symbols, the snapshot of
 * tickers, news and home recommendations, the fixed-symbol top-up of a short
 * recommendation list, the first recommendation page, and the cached snapshot.
 *
 * The quote and sparkline services are a `Market`, the news provider's answer
 * and the pool's home list are given as results, and the clock's readings are
 * parameters.
 */
module Home {
  import opened Common
  import opened Text
  import opened PoolReader
  import RealtimePrice
  import KeyValue
  import RecommendationPool

  const DefaultSymbolsCsv: string := "AAPL,TSLA,NVDA,AMZN"
  const DefaultNewsLimit := 10
  const DefaultPageSize := 10
  const DefaultHomeSize := 5
  const EmptySnapshotId: string := "empty"

  datatype Settings = Settings(symbolsCsv: string, newsLimit: int, pageSize: nat, homeSize: int)

  /** Whether the home recommendations came from the pool in full (`READY`) or are still being built (`BUILDING`). */
  datatype Status = Ready | Building

  /** One ticker of the home screen: the quote's figures and the sparkline's closes. */
  datatype HomeTicker = HomeTicker(symbol: string, name: Option<string>, price: real, change: real,
                                   changePercent: real, sparkline: seq<real>)

  /** One news item; `datetime` is in seconds as the provider gives it and in milliseconds as the home shows it. */
  datatype NewsItem = NewsItem(datetime: int, headline: Option<string>, source: Option<string>,
                               summary: Option<string>, url: Option<string>, image: Option<string>)

  /** The cached home snapshot. `generatedAt` is in epoch milliseconds (0 is `Instant.EPOCH`). */
  datatype HomeSnapshot = HomeSnapshot(snapshotId: string, generatedAt: int, tickers: seq<HomeTicker>,
                                       news: seq<NewsItem>, items: seq<RecommendedItem>, version: string,
                                       status: Status, updatedAt: int)

  // ---------------------------------------------------------------------
  // The configured symbols

  /** Every piece between commas, empty ones included (`String.split(",", -1)`). */
  function Pieces(s: string): (r: seq<string>)
    ensures |r| >= 1
    ensures forall k :: 0 <= k < |r| ==> ',' !in r[k]
    decreases |s|
  {
    if s == [] then [""]
    else
      var rest := Pieces(s[1..]);
      if s[0] == ',' then [""] + rest else [[s[0]] + rest[0]] + rest[1..]
  }

  /** The pieces joined back with commas. */
  function Join(parts: seq<string>): string
    requires |parts| >= 1
    decreases |parts|
  {
    if |parts| == 1 then parts[0] else parts[0] + "," + Join(parts[1..])
  }

  /** Cutting at every comma loses no character: joining the pieces gives the string back. */
  lemma {:induction false} PiecesJoin(s: string)
    ensures Join(Pieces(s)) == s
    decreases |s|
  {
    if s != [] {
      var rest := Pieces(s[1..]);
      PiecesJoin(s[1..]);
      if s[0] == ',' {
        assert ([""] + rest)[1..] == rest;
      } else if |rest| > 1 {
        var parts := [[s[0]] + rest[0]] + rest[1..];
        assert parts[1..] == rest[1..];
        assert Join(rest) == rest[0] + "," + Join(rest[1..]);
      }
    }
  }

  /** A string without a comma is one piece. */
  lemma {:induction false} NoCommaOnePiece(s: string)
    requires ',' !in s
    ensures Pieces(s) == [s]
    decreases |s|
  {
    if s != [] {
      assert ',' !in s[1..] by {
        forall i | 0 <= i < |s[1..]| ensures s[1..][i] != ',' { assert s[1..][i] == s[i + 1]; }
      }
      NoCommaOnePiece(s[1..]);
      assert [s[0]] + s[1..] == s;
    }
  }

  /** The list without its trailing empty strings. */
  function DropTrailingEmpty(xs: seq<string>): (r: seq<string>)
    ensures |r| <= |xs| && r == xs[..|r|]
    ensures forall k :: |r| <= k < |xs| ==> xs[k] == ""
    ensures |r| > 0 ==> r[|r| - 1] != ""
    decreases |xs|
  {
    if |xs| == 0 || xs[|xs| - 1] != "" then xs else DropTrailingEmpty(xs[..|xs| - 1])
  }

  /**
   * `String.split(",")`: a string without a comma is its own only piece;
   * otherwise the pieces between commas, with the trailing empty ones dropped.
   */
  function Split(s: string): (r: seq<string>)
    ensures forall k :: 0 <= k < |r| ==> ',' !in r[k]
  {
    if ',' !in s then [s] else DropTrailingEmpty(Pieces(s))
  }

  /** The split keeps the pieces between commas in order and drops only empty ones at the end. */
  lemma SplitDropsOnlyEmpty(s: string)
    ensures var all, r := Pieces(s), Split(s);
      |r| <= |all| && r == all[..|r|] && forall k :: |r| <= k < |all| ==> all[k] == ""
  {
    if ',' !in s {
      NoCommaOnePiece(s);
    }
  }

  /** How the split treats leading, trailing and lone commas. */
  lemma SplitExamples()
    ensures Split("") == [""]
    ensures Split(",") == []
    ensures Split("A,") == ["A"]
    ensures Split(",A") == ["", "A"]
    ensures Split("A,,B,,") == ["A", "", "B"]
  {
    assert Pieces(",") == ["", ""] by { assert ","[1..] == ""; }
    assert Pieces("A,") == ["A", ""] by {
      assert "A,"[1..] == ",";
      assert ['A'] + "" == "A" && ["", ""][1..] == [""];
    }
    assert Pieces("A") == ["A"] by {
      assert "A"[1..] == "";
      assert ['A'] + "" == "A" && [""][1..] == [];
    }
    assert Pieces(",A") == ["", "A"] by { assert ",A"[1..] == "A"; }
    assert Pieces(",,") == ["", "", ""] by { assert ",,"[1..] == ","; assert ","[1..] == ""; }
    assert Pieces("B,,") == ["B", "", ""] by {
      assert "B,,"[1..] == ",,";
      assert ['B'] + "" == "B" && ["", "", ""][1..] == ["", ""];
    }
    assert Pieces(",B,,") == ["", "B", "", ""] by { assert ",B,,"[1..] == "B,,"; }
    assert Pieces(",,B,,") == ["", "", "B", "", ""] by { assert ",,B,,"[1..] == ",B,,"; }
    assert Pieces("A,,B,,") == ["A", "", "B", "", ""] by { assert "A,,B,,"[1..] == ",,B,,"; }
    assert ["A", "", "B", "", ""][..4] == ["A", "", "B", ""];
    assert ["A", "", "B", ""][..3] == ["A", "", "B"];
  }

  function TrimAll(xs: seq<string>): (r: seq<string>)
    ensures |r| == |xs| && forall k :: 0 <= k < |r| ==> r[k] == Trim(xs[k])
  {
    seq(|xs|, k requires 0 <= k < |xs| => Trim(xs[k]))
  }

  /** The home symbols: the comma-separated pieces, trimmed, without blank ones, first occurrences only. */
  function ParseSymbols(csv: string): seq<string> {
    Distinct(Filter(TrimAll(Split(csv)), s => !IsBlank(s)))
  }

  /** A piece without a comma, trimmed, is trimmed and still has no comma. */
  lemma TrimmedPiece(piece: string)
    requires ',' !in piece
    ensures IsTrimmed(Trim(piece)) && ',' !in Trim(piece)
  {
    TrimIsTrimmedSlice(piece);
  }

  /** Every parsed symbol is a trimmed, non-blank piece without a comma, and none comes twice. */
  lemma ParseSymbolsSound(csv: string)
    ensures var r := ParseSymbols(csv);
      NoDuplicates(r)
      && forall k :: 0 <= k < |r| ==> IsTrimmed(r[k]) && !IsBlank(r[k]) && ',' !in r[k] && r[k] in TrimAll(Split(csv))
  {
    var pieces := Split(csv);
    var trimmed := TrimAll(pieces);
    var kept := Filter(trimmed, s => !IsBlank(s));
    var r := Distinct(kept);
    assert ParseSymbols(csv) == r;
    forall k | 0 <= k < |r|
      ensures IsTrimmed(r[k]) && !IsBlank(r[k]) && ',' !in r[k] && r[k] in trimmed
    {
      assert r[k] in kept;
      var j :| 0 <= j < |kept| && kept[j] == r[k];
      assert !IsBlank(kept[j]) && kept[j] in trimmed;
      var i :| 0 <= i < |trimmed| && trimmed[i] == r[k];
      assert trimmed[i] == Trim(pieces[i]) && ',' !in pieces[i];
      TrimmedPiece(pieces[i]);
    }
  }

  /** Every piece whose trimmed form is not blank is among the parsed symbols. */
  lemma ParseSymbolsComplete(csv: string)
    ensures forall piece :: piece in Pieces(csv) && !IsBlank(Trim(piece)) ==> Trim(piece) in ParseSymbols(csv)
  {
    var pieces := Split(csv);
    var trimmed := TrimAll(pieces);
    var kept := Filter(trimmed, s => !IsBlank(s));
    FilterKeepsAll(trimmed, s => !IsBlank(s));
    SplitDropsOnlyEmpty(csv);
    forall piece | piece in Pieces(csv) && !IsBlank(Trim(piece))
      ensures Trim(piece) in ParseSymbols(csv)
    {
      var a :| 0 <= a < |Pieces(csv)| && Pieces(csv)[a] == piece;
      assert piece != "" by { assert Trim("") == ""; }
      var i := a;
      assert i < |pieces|;
      assert pieces[i] == piece;
      assert trimmed[i] == Trim(piece);
      assert Trim(piece) in kept;
      var j :| 0 <= j < |kept| && kept[j] == Trim(piece);
    }
  }

  // ---------------------------------------------------------------------
  // Tickers

  /**
   * `buildTickerSafe`: the quote of the normalised symbol and the sparkline of
   * the symbol; any failure is no ticker.
   */
  function TickerOf(m: Market, symbol: string): (r: Option<HomeTicker>)
    ensures r.Some? ==> r.value.symbol == symbol && r.value.name.None?
  {
    match RealtimePrice.NormalizeSymbol(Some(symbol))
    case Err(_) => None
    case Ok(sym) =>
      match m.quote(sym)
      case Err(_) => None
      case Ok(q) =>
        match m.sparkline(symbol)
        case Err(_) => None
        case Ok(points) =>
          Some(HomeTicker(symbol, None, q.price, q.change, q.changePercent,
                          seq(|points|, k requires 0 <= k < |points| => points[k].close)))
  }

  /** The tickers of the symbols that build, in symbol order. */
  function TickersOf(m: Market, symbols: seq<string>): (r: seq<HomeTicker>)
    ensures |r| <= |symbols|
    ensures forall k :: 0 <= k < |r| ==> r[k].symbol in symbols
    decreases |symbols|
  {
    if symbols == [] then []
    else
      var init := TickersOf(m, symbols[..|symbols| - 1]);
      match TickerOf(m, symbols[|symbols| - 1])
      case Some(t) => init + [t]
      case None => init
  }

  // ---------------------------------------------------------------------
  // News

  /** The news order: a later item comes first (`comparingLong(getDatetime).reversed()`). */
  function NewerFirst(a: NewsItem, b: NewsItem): bool {
    a.datetime >= b.datetime
  }

  lemma NewerFirstIsPreorder()
    ensures TotalPreorder(NewerFirst)
  {
  }

  /** The item as the home shows it: its time in milliseconds. */
  function ToMillis(n: NewsItem): NewsItem {
    n.(datetime := n.datetime * 1000)
  }

  /**
   * `buildNewsSafe`: the provider's items, newest first, at most `limit` of
   * them, with times in milliseconds; a failed call, or a negative limit
   * (which `Stream.limit` refuses), gives no news.
   */
  function BuildNews(answer: Result<seq<NewsItem>>, limit: int): (r: seq<NewsItem>)
    ensures answer.Err? || limit < 0 ==> r == []
    ensures answer.Ok? && limit >= 0 ==> |r| == Min(limit, |answer.value|)
  {
    match answer
    case Err(_) => []
    case Ok(items) =>
      if limit < 0 then []
      else
        var sorted := SortBy(items, NewerFirst);
        assert |sorted| == |multiset(items)|;
        var n := Min(limit, |sorted|);
        seq(n, k requires 0 <= k < n => ToMillis(sorted[k]))
  }

  /** Each shown item is the provider's item at the same place of the newest-first order. */
  lemma NewsShown(items: seq<NewsItem>, limit: int)
    requires limit >= 0
    ensures var r := BuildNews(Ok(items), limit);
      var sorted := SortBy(items, NewerFirst);
      |r| <= |sorted| && forall k :: 0 <= k < |r| ==> r[k] == ToMillis(sorted[k])
  {
  }

  /** The news shown is newest first, and each shown item is a provider item. */
  lemma NewsNewestFirst(items: seq<NewsItem>, limit: int)
    requires limit >= 0
    ensures var r := BuildNews(Ok(items), limit);
      (forall i, j :: 0 <= i < j < |r| ==> r[i].datetime >= r[j].datetime)
      && (forall k :: 0 <= k < |r| ==> exists x :: x in items && r[k] == ToMillis(x))
  {
    var r := BuildNews(Ok(items), limit);
    var sorted := SortBy(items, NewerFirst);
    NewsShown(items, limit);
    NewerFirstIsPreorder();
    SortBySorts(items, NewerFirst);
    forall k | 0 <= k < |r|
      ensures exists x :: x in items && r[k] == ToMillis(x)
    {
      assert sorted[k] in multiset(sorted);
      assert sorted[k] in items && r[k] == ToMillis(sorted[k]);
    }
    forall i, j | 0 <= i < j < |r|
      ensures r[i].datetime >= r[j].datetime
    {
      assert NewerFirst(sorted[i], sorted[j]);
    }
  }

  /** An item left out of the news is no newer than any item shown. */
  lemma NewsDropsOnlyOlder(items: seq<NewsItem>, limit: int)
    requires limit >= 0
    ensures var r := BuildNews(Ok(items), limit);
      forall x :: x in items && ToMillis(x) !in r ==>
        forall k :: 0 <= k < |r| ==> r[k].datetime >= x.datetime * 1000
  {
    var r := BuildNews(Ok(items), limit);
    var sorted := SortBy(items, NewerFirst);
    NewsShown(items, limit);
    NewerFirstIsPreorder();
    SortBySorts(items, NewerFirst);
    forall x | x in items && ToMillis(x) !in r
      ensures forall k :: 0 <= k < |r| ==> r[k].datetime >= x.datetime * 1000
    {
      assert x in multiset(sorted);
      var p :| 0 <= p < |sorted| && sorted[p] == x;
      forall k | 0 <= k < |r|
        ensures r[k].datetime >= x.datetime * 1000
      {
        assert NewerFirst(sorted[k], sorted[p]);
      }
    }
  }

  // ---------------------------------------------------------------------
  // Topping up the home recommendations from the fixed symbols

  /** The upper-cased, trimmed symbol under which an item or a fixed symbol is compared. */
  function Norm(s: string): string { ToUpper(Trim(s)) }

  /** The symbols of the base items, compared upper-cased and trimmed. */
  function BaseUsed(base: seq<RecommendedItem>): set<string> {
    set i | 0 <= i < |base| :: Norm(base[i].symbol)
  }

  /** A fixed symbol that is blank or already present adds nothing; otherwise its item, when it builds. */
  function FillShare(m: Market, s: string, used: set<string>): (r: Option<RecommendedItem>)
    ensures r.Some? ==> !IsBlank(s) && r.value.symbol == Norm(s) && Norm(s) !in used && r.value.sparkline != []
  {
    if IsBlank(s) || Norm(s) in used then None
    else
      match BuildItemSafe(m, s)
      case Ok(Some(item)) => Some(item)
      case _ => None
  }

  /** The fill loop from fixed symbol `j`: stop when `out` reaches the target, else take the symbol's share. */
  function FillFrom(m: Market, fixed: seq<string>, j: nat, out: seq<RecommendedItem>, used: set<string>, target: nat): seq<RecommendedItem>
    requires j <= |fixed|
    decreases |fixed| - j
  {
    if j == |fixed| || |out| >= target then out
    else
      match FillShare(m, fixed[j], used)
      case Some(item) => FillFrom(m, fixed, j + 1, out + [item], used + {item.symbol}, target)
      case None => FillFrom(m, fixed, j + 1, out, used, target)
  }

  /** `out.size() > targetSize ? out.subList(0, targetSize) : out`. */
  function Truncate(xs: seq<RecommendedItem>, n: nat): (r: seq<RecommendedItem>)
    ensures |r| == Min(|xs|, n) && r == xs[..|r|]
  {
    if |xs| > n then xs[..n] else xs
  }

  /** `fillHomeRecommendationsWithFixedSymbols(base, fixedSymbols, targetSize)`. */
  function Fill(m: Market, base: seq<RecommendedItem>, fixed: seq<string>, target: nat): seq<RecommendedItem> {
    if fixed == [] then Truncate(base, target)
    else Truncate(FillFrom(m, fixed, 0, base, BaseUsed(base), target), target)
  }

  /** The fill loop only appends to `out`, and not beyond the target unless `out` was already past it. */
  lemma {:induction false} FillGrows(m: Market, fixed: seq<string>, j: nat, out: seq<RecommendedItem>, used: set<string>, target: nat)
    requires j <= |fixed|
    ensures var r := FillFrom(m, fixed, j, out, used, target);
      |out| <= |r| && r[..|out|] == out && (|r| > |out| ==> |r| <= target)
    decreases |fixed| - j
  {
    if !(j == |fixed| || |out| >= target) {
      match FillShare(m, fixed[j], used)
      case Some(item) =>
        assert FillFrom(m, fixed, j, out, used, target) == FillFrom(m, fixed, j + 1, out + [item], used + {item.symbol}, target);
        FillGrows(m, fixed, j + 1, out + [item], used + {item.symbol}, target);
        var r := FillFrom(m, fixed, j + 1, out + [item], used + {item.symbol}, target);
        assert r[..|out|] == r[..|out| + 1][..|out|];
      case None =>
        assert FillFrom(m, fixed, j, out, used, target) == FillFrom(m, fixed, j + 1, out, used, target);
        FillGrows(m, fixed, j + 1, out, used, target);
    }
  }

  /** An item the fill loop appends comes from a later fixed symbol, has a sparkline, and was not present. */
  lemma {:induction false} FillAddsFresh(m: Market, fixed: seq<string>, j: nat, out: seq<RecommendedItem>, used: set<string>, target: nat)
    requires j <= |fixed|
    ensures var r := FillFrom(m, fixed, j, out, used, target);
      forall k :: |out| <= k < |r| ==>
        r[k].symbol !in used && r[k].sparkline != []
        && exists i :: j <= i < |fixed| && !IsBlank(fixed[i]) && r[k].symbol == Norm(fixed[i])
    decreases |fixed| - j
  {
    if !(j == |fixed| || |out| >= target) {
      match FillShare(m, fixed[j], used)
      case Some(item) =>
        assert FillFrom(m, fixed, j, out, used, target) == FillFrom(m, fixed, j + 1, out + [item], used + {item.symbol}, target);
        FillAddsFresh(m, fixed, j + 1, out + [item], used + {item.symbol}, target);
        FillGrows(m, fixed, j + 1, out + [item], used + {item.symbol}, target);
        var r := FillFrom(m, fixed, j + 1, out + [item], used + {item.symbol}, target);
        assert r[|out|] == (out + [item])[|out|] by {
          assert r[..|out| + 1] == out + [item];
        }
      case None =>
        assert FillFrom(m, fixed, j, out, used, target) == FillFrom(m, fixed, j + 1, out, used, target);
        FillAddsFresh(m, fixed, j + 1, out, used, target);
    }
  }

  /** No symbol comes twice among the items from index `from` on. */
  predicate SymbolsOnceFrom(r: seq<RecommendedItem>, from: nat) {
    forall k1, k2 :: from <= k1 < k2 < |r| ==> r[k1].symbol != r[k2].symbol
  }

  /** The fill loop never appends the same symbol twice. */
  lemma {:induction false} FillAddsOnce(m: Market, fixed: seq<string>, j: nat, out: seq<RecommendedItem>, used: set<string>, target: nat)
    requires j <= |fixed|
    ensures SymbolsOnceFrom(FillFrom(m, fixed, j, out, used, target), |out|)
    decreases |fixed| - j
  {
    if !(j == |fixed| || |out| >= target) {
      match FillShare(m, fixed[j], used)
      case Some(item) =>
        assert FillFrom(m, fixed, j, out, used, target) == FillFrom(m, fixed, j + 1, out + [item], used + {item.symbol}, target);
        var more, used' := out + [item], used + {item.symbol};
        FillAddsOnce(m, fixed, j + 1, more, used', target);
        FillAddsFresh(m, fixed, j + 1, more, used', target);
        FillGrows(m, fixed, j + 1, more, used', target);
        var r := FillFrom(m, fixed, j + 1, more, used', target);
        assert r[|out|] == item by {
          assert r[..|out| + 1] == more;
        }
        forall k1, k2 | |out| <= k1 < k2 < |r|
          ensures r[k1].symbol != r[k2].symbol
        {
          if k1 == |out| {
            assert r[k2].symbol !in used';
          }
        }
      case None =>
        var r := FillFrom(m, fixed, j + 1, out, used, target);
        assert FillFrom(m, fixed, j, out, used, target) == r;
        FillAddsOnce(m, fixed, j + 1, out, used, target);
    }
  }

  /** A fixed symbol that is not blank and whose quote and non-empty sparkline come back. */
  predicate Buildable(m: Market, s: string) {
    !IsBlank(s) && BuildItemSafe(m, s).Ok? && BuildItemSafe(m, s).value.Some?
  }

  /** A fill that stops short of the target has every buildable fixed symbol: present before, or appended. */
  lemma {:induction false} FillComplete(m: Market, fixed: seq<string>, j: nat, out: seq<RecommendedItem>, used: set<string>, target: nat)
    requires j <= |fixed|
    ensures var r := FillFrom(m, fixed, j, out, used, target);
      |r| < target ==>
        forall i :: j <= i < |fixed| && Buildable(m, fixed[i]) ==>
          Norm(fixed[i]) in used || exists k :: |out| <= k < |r| && r[k].symbol == Norm(fixed[i])
    decreases |fixed| - j
  {
    if !(j == |fixed| || |out| >= target) {
      match FillShare(m, fixed[j], used)
      case Some(item) =>
        assert FillFrom(m, fixed, j, out, used, target) == FillFrom(m, fixed, j + 1, out + [item], used + {item.symbol}, target);
        var more, used' := out + [item], used + {item.symbol};
        FillComplete(m, fixed, j + 1, more, used', target);
        FillGrows(m, fixed, j + 1, more, used', target);
        var r := FillFrom(m, fixed, j + 1, more, used', target);
        assert r[|out|] == item by {
          assert r[..|out| + 1] == more;
        }
      case None =>
        assert FillFrom(m, fixed, j, out, used, target) == FillFrom(m, fixed, j + 1, out, used, target);
        FillComplete(m, fixed, j + 1, out, used, target);
    }
  }

  /**
   * The top-up keeps the base items first and in order, returns at most
   * `target` items, and appends only items of fixed symbols not already
   * present, each once and with a sparkline; if it falls short of the target,
   * every fixed symbol that builds is there.
   */
  lemma FillRule(m: Market, base: seq<RecommendedItem>, fixed: seq<string>, target: nat)
    requires |base| < target
    ensures var r := Fill(m, base, fixed, target);
      |base| <= |r| <= target && r[..|base|] == base
      && (forall k :: |base| <= k < |r| ==>
            Norm(r[k].symbol) !in BaseUsed(base) && r[k].sparkline != []
            && exists i :: 0 <= i < |fixed| && !IsBlank(fixed[i]) && r[k].symbol == Norm(fixed[i]))
      && (forall k1, k2 :: |base| <= k1 < k2 < |r| ==> r[k1].symbol != r[k2].symbol)
      && (|r| < target ==>
            forall i :: 0 <= i < |fixed| && Buildable(m, fixed[i]) ==>
              exists k :: 0 <= k < |r| && Norm(r[k].symbol) == Norm(fixed[i]))
  {
    var used := BaseUsed(base);
    var r := Fill(m, base, fixed, target);
    if fixed != [] {
      FillGrows(m, fixed, 0, base, used, target);
      assert r == FillFrom(m, fixed, 0, base, used, target);
      FillAddsFresh(m, fixed, 0, base, used, target);
      FillAddsOnce(m, fixed, 0, base, used, target);
      FillComplete(m, fixed, 0, base, used, target);
      forall k | |base| <= k < |r|
        ensures Norm(r[k].symbol) == r[k].symbol
      {
        assert exists i :: 0 <= i < |fixed| && !IsBlank(fixed[i]) && r[k].symbol == Norm(fixed[i]);
        var i :| 0 <= i < |fixed| && !IsBlank(fixed[i]) && r[k].symbol == Norm(fixed[i]);
        NormIdempotent(fixed[i]);
      }
      forall i | 0 <= i < |fixed| && Buildable(m, fixed[i]) && |r| < target
        ensures exists k :: 0 <= k < |r| && Norm(r[k].symbol) == Norm(fixed[i])
      {
        if Norm(fixed[i]) in used {
          var k :| 0 <= k < |base| && Norm(base[k].symbol) == Norm(fixed[i]);
          assert r[k] == base[k];
        } else {
          var k :| |base| <= k < |r| && r[k].symbol == Norm(fixed[i]);
          assert Norm(r[k].symbol) == r[k].symbol;
        }
      }
    }
  }

  lemma NormIdempotent(s: string)
    ensures Norm(Norm(s)) == Norm(s)
  {
    TrimToUpperCommute(Trim(s));
    TrimIdempotent(s);
    ToUpperIdempotent(Trim(s));
  }

  /** When the base already reaches the target, the top-up is the base cut to the target. */
  lemma FillCutsLongBase(m: Market, base: seq<RecommendedItem>, fixed: seq<string>, target: nat)
    requires |base| >= target
    ensures Fill(m, base, fixed, target) == base[..target]
  {
  }

  /** The fill loop of `fillHomeRecommendationsWithFixedSymbols`, as the service runs it. */
  method FillHomeRecommendations(m: Market, base: seq<RecommendedItem>, fixed: seq<string>, target: nat)
    returns (r: seq<RecommendedItem>)
    ensures r == Fill(m, base, fixed, target)
  {
    var out := base;
    var used: set<string> := {};
    var n := 0;
    while n < |out|
      invariant n <= |out| && used == set i | 0 <= i < n :: Norm(base[i].symbol)
    {
      used := used + {Norm(out[n].symbol)};
      n := n + 1;
    }
    if |fixed| == 0 {
      return if |out| > target then out[..target] else out;
    }
    var j := 0;
    while j < |fixed|
      invariant j <= |fixed|
      invariant FillFrom(m, fixed, j, out, used, target) == FillFrom(m, fixed, 0, base, BaseUsed(base), target)
      decreases |fixed| - j
    {
      if |out| >= target { break; }
      var s := fixed[j];
      j := j + 1;
      if IsBlank(s) { continue; }
      var sym := Norm(s);
      if sym in used { continue; }
      var quote := m.quote(sym);
      if quote.Err? { continue; }
      var sparkline := m.sparkline(sym);
      if sparkline.Err? || sparkline.value == [] { continue; }
      out := out + [RecommendedItem(sym, quote.value.price, quote.value.changePercent, sparkline.value)];
      used := used + {sym};
    }
    return if |out| > target then out[..target] else out;
  }

  // ---------------------------------------------------------------------
  // The snapshot and the first page

  /** READY when the pool gave at least `homeSize` items, BUILDING otherwise. */
  function StatusOf(fromPool: seq<RecommendedItem>, homeSize: int): Status {
    if |fromPool| >= homeSize then Ready else Building
  }

  /**
   * `buildSnapshot`: the tickers of the configured symbols, the news, and
   * the home recommendations read from the pool under `version` (topped up
   * from the configured symbols while BUILDING). Only the pool read can fail
   * the build; the other parts absorb their failures.
   */
  function BuildSnapshot(settings: Settings, m: Market, news: Result<seq<NewsItem>>, version: string,
                         fromPool: Result<seq<RecommendedItem>>, nowMs: int, generatedAt: int): (r: Result<HomeSnapshot>)
    ensures r.Err? <==> fromPool.Err?
  {
    match fromPool
    case Err(e) => Err(e)
    case Ok(recoHome) =>
      var symbols := ParseSymbols(settings.symbolsCsv);
      var status := StatusOf(recoHome, settings.homeSize);
      var items := if status == Ready then recoHome else Fill(m, recoHome, symbols, settings.homeSize as nat);
      Ok(HomeSnapshot(IntToString(nowMs), generatedAt, TickersOf(m, symbols), BuildNews(news, settings.newsLimit),
                      items, version, status, nowMs))
  }

  /**
   * A built snapshot is READY exactly when the pool gave `homeSize` items,
   * and then shows them as they are; while BUILDING it shows the pool's items
   * first, topped up to at most `homeSize`. It carries the version it was
   * read under and the build time.
   */
  lemma SnapshotRule(settings: Settings, m: Market, news: Result<seq<NewsItem>>, version: string,
                     recoHome: seq<RecommendedItem>, nowMs: int, generatedAt: int)
    requires MinLong <= nowMs <= MaxLong
    ensures var r := BuildSnapshot(settings, m, news, version, Ok(recoHome), nowMs, generatedAt);
      r.Ok?
      && (r.value.status == Ready <==> |recoHome| >= settings.homeSize)
      && (r.value.status == Ready ==> r.value.items == recoHome)
      && (r.value.status == Building ==>
            |recoHome| <= |r.value.items| <= settings.homeSize && r.value.items[..|recoHome|] == recoHome)
      && r.value.version == version && r.value.updatedAt == nowMs
      && ParseLong(r.value.snapshotId) == Some(nowMs)
  {
    var r := BuildSnapshot(settings, m, news, version, Ok(recoHome), nowMs, generatedAt).value;
    if |recoHome| < settings.homeSize {
      var symbols := ParseSymbols(settings.symbolsCsv);
      FillRule(m, recoHome, symbols, settings.homeSize as nat);
      assert r.items == Fill(m, recoHome, symbols, settings.homeSize as nat);
    } else {
      assert r.items == recoHome;
    }
    ParseLongOfIntToString(nowMs);
  }

  /**
   * `toRecoPage0FromHomeList`: the first `pageSize` home items; the next
   * offset is their number, or none when there are none.
   */
  function RecoPage0(items: seq<RecommendedItem>, pageSize: nat): (r: Page)
    ensures |r.items| == Min(|items|, pageSize) && r.items == items[..|r.items|]
    ensures r.nextOffset.Some? <==> r.items != []
    ensures r.nextOffset.Some? ==> r.nextOffset.value == |r.items|
  {
    var end := Min(|items|, pageSize);
    Page(items[..end], if end > 0 then Some(end) else None)
  }

  /** The snapshot served when the cache is empty and the build fails. */
  function EmptySnapshot(version: string, nowMs: int): HomeSnapshot {
    HomeSnapshot(EmptySnapshotId, 0, [], [], [], version, Building, nowMs)
  }

  /** The `/api/home` response: the snapshot's parts with its first page of recommendations. */
  datatype HomeResponse = HomeResponse(tickers: seq<HomeTicker>, news: seq<NewsItem>, recommendations: Page,
                                       version: string, status: Status, updatedAt: int)

  /** The cache of the home snapshot (`HomeCacheStore`). */
  class HomeCache {
    var current: Option<HomeSnapshot>

    constructor()
      ensures current == None
    {
      current := None;
    }

    /** `refreshHomeCache`: a built snapshot replaces the cached one; a failed build leaves the cache as it was. */
    method RefreshHomeCache(built: Result<HomeSnapshot>) returns (r: Result<HomeSnapshot>)
      modifies this
      ensures r == built
      ensures current == if built.Ok? then Some(built.value) else old(current)
    {
      if built.Ok? {
        current := Some(built.value);
      }
      return built;
    }

    /**
     * `getOrBuildSnapshotSafe`: the cached snapshot as it is; else a fresh
     * build, which is cached; else, when the build fails, the empty BUILDING
     * snapshot, which is not cached, under the pool's current version read
     * from the store's content `pool` on the clock's day `today`.
     */
    method GetOrBuildSnapshotSafe(built: Result<HomeSnapshot>, pool: KeyValue.Snapshot, today: RecommendationPool.Date, nowMs: int)
      returns (snap: HomeSnapshot)
      requires ClockDay(today)
      modifies this
      ensures old(current).Some? ==> snap == old(current).value && current == old(current)
      ensures old(current).None? && built.Ok? ==> snap == built.value && current == Some(built.value)
      ensures old(current).None? && built.Err? ==>
        snap == EmptySnapshot(CurrentVersion(pool, today), nowMs) && snap.status == Building && snap.items == []
        && current == None
    {
      if current.Some? {
        return current.value;
      }
      if built.Ok? {
        current := Some(built.value);
        return built.value;
      }
      return EmptySnapshot(CurrentVersion(pool, today), nowMs);
    }

    /**
     * `getHome`: the snapshot served (cached, freshly built or empty) with
     * its first `pageSize` recommendations as page 0, under the snapshot's
     * own version, status and update time.
     */
    method GetHome(built: Result<HomeSnapshot>, pool: KeyValue.Snapshot, today: RecommendationPool.Date, nowMs: int, pageSize: nat)
      returns (resp: HomeResponse)
      requires ClockDay(today)
      modifies this
      ensures var snap := if old(current).Some? then old(current).value
                          else if built.Ok? then built.value else EmptySnapshot(CurrentVersion(pool, today), nowMs);
        resp == HomeResponse(snap.tickers, snap.news, RecoPage0(snap.items, pageSize), snap.version, snap.status, snap.updatedAt)
      ensures current == if old(current).Some? then old(current) else if built.Ok? then Some(built.value) else None
    {
      var snap := GetOrBuildSnapshotSafe(built, pool, today, nowMs);
      resp := HomeResponse(snap.tickers, snap.news, RecoPage0(snap.items, pageSize), snap.version, snap.status, snap.updatedAt);
    }
  }
}
