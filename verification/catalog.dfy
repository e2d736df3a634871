/**
 * The stock catalog (`StockCatalogService.getCandidatePool`): the Nasdaq
 * listing, narrowed to common stocks with plain ticker symbols, shuffled and
 * cut to the requested size.
 */
module StockCatalog {
  import opened Common
  import opened Text

  /** One listing entry; every field may be missing. */
  datatype StockItem = StockItem(symbol: Option<string>, name: Option<string>, exchange: Option<string>, kind: Option<string>)

  /** What the listing call gives: the `data` array (None: null), or a failure. */
  datatype CatalogAnswer = Listing(data: Option<seq<StockItem>>) | ListingFailed

  /** `isCommonStock`: the type is "common stock" up to case and surrounding blanks. */
  predicate IsCommonStock(kind: Option<string>) {
    kind.Some? && EqualsIgnoreCase("common stock", Trim(kind.value))
  }

  /** A symbol whose trimmed, upper-cased form is one to `max` letters A-Z (`isSafeCommonStockSymbol`). */
  predicate IsSafeSymbol(symbol: Option<string>, max: nat) {
    symbol.Some? && IsUpperLetters(ToUpper(Trim(symbol.value)), max)
  }

  predicate IsCommonItem(item: StockItem) { IsCommonStock(item.kind) }

  predicate HasSafeSymbol(item: StockItem) { IsSafeSymbol(item.symbol, 5) }

  predicate IsCandidate(item: StockItem) {
    IsCommonItem(item) && HasSafeSymbol(item)
  }

  /** The shuffle reorders `xs` and keeps every element. */
  ghost predicate Reorders<T>(shuffle: seq<T> -> seq<T>, xs: seq<T>) {
    multiset(shuffle(xs)) == multiset(xs)
  }

  /** `Collections.shuffle`: a reordering of every input. */
  ghost predicate IsShuffle<T(!new)>(shuffle: seq<T> -> seq<T>) {
    forall xs :: Reorders(shuffle, xs)
  }

  /** The listing entries that are candidates, in listing order. */
  function Candidates(all: seq<StockItem>): seq<StockItem> {
    Filter(Filter(all, IsCommonItem), HasSafeSymbol)
  }

  /**
   * `getCandidatePool`: an empty pool for a missing or empty listing;
   * otherwise the first `poolSize` candidates after shuffling. A negative size
   * makes `ArrayList.subList` throw its IllegalArgumentException.
   */
  function GetCandidatePool(answer: CatalogAnswer, poolSize: int, shuffle: seq<StockItem> -> seq<StockItem>): (r: Result<seq<StockItem>>)
    requires IsShuffle(shuffle)
    ensures answer.ListingFailed? ==> r.Err?
    ensures r.Ok? ==> forall i :: 0 <= i < |r.value| ==> IsCandidate(r.value[i])
    ensures r.Ok? ==> |r.value| <= Max(poolSize, 0)
    ensures r.Ok? && answer.Listing? && answer.data.Some? ==> multiset(r.value) <= multiset(answer.data.value)
  {
    match answer
    case ListingFailed => Err(Unavailable)
    case Listing(data) =>
      if data.None? || data.value == [] then Ok([])
      else
        var shuffled := shuffle(Candidates(data.value));
        var end := Min(poolSize, |shuffled|);
        if end < 0 then Err(IllegalArgument("fromIndex(0) > toIndex(" + IntToString(end) + ")"))
        else
          CandidatesSurviveShuffle(data.value, shuffle);
          PrefixMultiset(shuffled, end);
          Ok(shuffled[..end])
  }

  /** The shuffled candidates are all candidates, drawn from the listing. */
  lemma CandidatesSurviveShuffle(data: seq<StockItem>, shuffle: seq<StockItem> -> seq<StockItem>)
    requires IsShuffle(shuffle)
    ensures var shuffled := shuffle(Candidates(data));
      (forall i :: 0 <= i < |shuffled| ==> IsCandidate(shuffled[i]))
      && multiset(shuffled) <= multiset(data)
  {
    var common := Filter(data, IsCommonItem);
    var safe := Filter(common, HasSafeSymbol);
    var shuffled := shuffle(safe);
    assert Reorders(shuffle, safe);
    forall i | 0 <= i < |shuffled| ensures IsCandidate(shuffled[i]) {
      assert shuffled[i] in multiset(safe);
      var j :| 0 <= j < |safe| && safe[j] == shuffled[i];
      var k :| 0 <= k < |common| && common[k] == safe[j];
    }
  }

  /** When the pool is at least as large as the number of candidates, every candidate is in it, each as often as listed. */
  lemma LargePoolKeepsAllCandidates(data: seq<StockItem>, poolSize: int, shuffle: seq<StockItem> -> seq<StockItem>)
    requires IsShuffle(shuffle)
    requires data != [] && poolSize >= |Candidates(data)|
    ensures GetCandidatePool(Listing(Some(data)), poolSize, shuffle) == Ok(shuffle(Candidates(data)))
    ensures multiset(GetCandidatePool(Listing(Some(data)), poolSize, shuffle).value) == multiset(Candidates(data))
  {
    var c := Candidates(data);
    assert Reorders(shuffle, c);
    assert |shuffle(c)| == |multiset(shuffle(c))| == |multiset(c)| == |c|;
    assert shuffle(c)[..|shuffle(c)|] == shuffle(c);
  }

  /** Every candidate of the listing whose type and symbol qualify is offered to the shuffle. */
  lemma CandidatesComplete(data: seq<StockItem>, item: StockItem)
    requires item in data && IsCandidate(item)
    ensures item in Candidates(data)
  {
    FilterKeepsAll(data, IsCommonItem);
    FilterKeepsAll(Filter(data, IsCommonItem), HasSafeSymbol);
  }
}
