/**
 * What the result page and the statistics endpoint agree on when both are
 * given the same stored file.
 */
module Agreement {
  import opened Sorting
  import opened Payload
  import opened PriceStats
  import opened ResultView
  import opened WebApp

  /** The page's price cards, computed over the price-sorted `allProducts`,
      equal the endpoint's `price_stats` for the same file: the load-time
      sort does not change least, greatest, mean or count. */
  lemma PriceCardsMatchStatistics(data: ResultFile)
    ensures SummaryCards(InsertionSort(Flatten(data), PriceAscending)).prices
         == Summarize(PositivePrices(Flatten(data)))
  {
    var flat := Flatten(data);
    var sorted := InsertionSort(flat, PriceAscending);
    PositivePricesPermutation(sorted, flat);
    SummarizePermutation(PositivePrices(sorted), PositivePrices(flat));
  }

  /** In the multi-platform shape the page counts the products it received
      while the endpoint adds up the declared counts; the two agree when
      every platform's declared count is its list's length. */
  lemma {:induction false} TotalsAgreeWhenCountsAreAccurate(entries: seq<(string, PlatformResult)>)
    requires forall i :: 0 <= i < |entries| ==> entries[i].1.totalProducts.GetOr(0) == |ProductsOf(entries[i].1)|
    ensures DeclaredTotal(entries) == |FlattenResults(entries)|
    decreases |entries|
  {
    if entries != [] {
      var n := |entries| - 1;
      assert forall i :: 0 <= i < n ==> entries[..n][i] == entries[i];
      TotalsAgreeWhenCountsAreAccurate(entries[..n]);
    }
  }
}
