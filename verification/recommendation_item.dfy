/**
 * `RecommendationItem.of`: the normalised form of a (symbol, volume) pair.
 */
module RecommendationItems {
  import opened Common
  import opened Text

  datatype RecommendationItem = RecommendationItem(symbol: string, volume: int)

  /** No character of `s` is a lower-case ASCII letter. */
  predicate NoLowerCase(s: string) {
    forall i :: 0 <= i < |s| ==> !('a' <= s[i] <= 'z')
  }

  /**
   * `of(symbol, volume)`: a missing symbol becomes the empty string, any other
   * is trimmed and upper-cased; a negative volume becomes zero.
   */
  function Of(symbol: Option<string>, volume: int): (r: RecommendationItem)
    ensures symbol.None? ==> r.symbol == ""
    ensures symbol.Some? ==> EqualsIgnoreCase(r.symbol, Trim(symbol.value)) && |r.symbol| == |Trim(symbol.value)|
    ensures IsTrimmed(r.symbol) && NoLowerCase(r.symbol)
    ensures r.volume >= 0 && (volume >= 0 ==> r.volume == volume) && (volume < 0 ==> r.volume == 0)
  {
    if symbol.None? then RecommendationItem("", Max(0, volume))
    else
      var t := Trim(symbol.value);
      TrimIsTrimmedSlice(symbol.value);
      ToUpperIdempotent(t);
      RecommendationItem(ToUpper(t), Max(0, volume))
  }

  /** Normalising an item that is already normalised changes nothing. */
  lemma OfIdempotent(symbol: Option<string>, volume: int)
    ensures var r := Of(symbol, volume); Of(Some(r.symbol), r.volume) == r
  {
    var r := Of(symbol, volume);
    TrimOfTrimmed(r.symbol);
    ToUpperIdempotent(r.symbol);
  }
}
