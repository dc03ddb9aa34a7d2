/**
 * The stored crawl-result file, as both the Flask server and the result page
 * read it. A JSON object whose keys are fixed field names is a record whose
 * optional fields are `None` when the key is absent; the `results` object,
 * keyed by platform name, is a list of entries with distinct keys in the
 * order they are stored. Python dicts iterate in that order; JavaScript's
 * `Object.values` does too for platform names that are not array indices,
 * which are the only ones the model covers.
 */
module Payload {
  import opened Wrappers

  datatype Product = Product(title: string, platform: string, price: Option<int>)

  /** The price used everywhere a product is compared or summed: JavaScript's
      `p.price || 0` and Python's `product.get('price', 0)`. */
  function PriceOf(p: Product): int {
    p.price.GetOr(0)
  }

  /** One platform's block inside `results`. */
  datatype PlatformResult = PlatformResult(
    products: Option<seq<Product>>,
    totalProducts: Option<int>,
    status: Option<string>,
    executionTime: Option<real>)

  predicate DistinctKeys<V>(entries: seq<(string, V)>) {
    forall i, j :: 0 <= i < j < |entries| ==> entries[i].0 != entries[j].0
  }

  /** A JSON object keyed by arbitrary strings, in insertion order. */
  type Dict<V> = entries: seq<(string, V)> | DistinctKeys(entries) witness []

  /**
   * Either the multi-platform shape (`results`) or the legacy single-platform
   * shape (`products`, `platform`); the remaining fields are read by the
   * result listing.
   */
  datatype ResultFile = ResultFile(
    keyword: Option<string>,
    results: Option<Dict<PlatformResult>>,
    products: Option<seq<Product>>,
    platform: Option<string>,
    totalProducts: Option<int>,
    crawlTime: Option<string>)

  /** A platform block's products; a block without the key contributes none. */
  function ProductsOf(r: PlatformResult): seq<Product> {
    r.products.GetOr([])
  }

  /** The platforms' product lists, concatenated in key order. */
  function FlattenResults(entries: seq<(string, PlatformResult)>): seq<Product> {
    if entries == [] then []
    else FlattenResults(entries[..|entries| - 1]) + ProductsOf(entries[|entries| - 1].1)
  }

  /** The product list of a payload of either shape; empty when it has neither key. */
  function Flatten(data: ResultFile): seq<Product> {
    if data.results.Some? then FlattenResults(data.results.value)
    else if data.products.Some? then data.products.value
    else []
  }

  /** Flattening distributes over splitting the platform list: it is the
      in-order concatenation of the platforms' lists. */
  lemma {:induction false} FlattenResultsAppend(a: seq<(string, PlatformResult)>, b: seq<(string, PlatformResult)>)
    ensures FlattenResults(a + b) == FlattenResults(a) + FlattenResults(b)
    decreases |b|
  {
    if b == [] {
      assert a + b == a;
    } else {
      var b' := b[..|b| - 1];
      assert (a + b)[..|a + b| - 1] == a + b';
      FlattenResultsAppend(a, b');
    }
  }

  /** A product is in the flattened list iff some platform's list holds it. */
  lemma {:induction false} FlattenResultsMember(entries: seq<(string, PlatformResult)>, p: Product)
    ensures p in FlattenResults(entries) <==> exists i :: 0 <= i < |entries| && p in ProductsOf(entries[i].1)
    decreases |entries|
  {
    if entries != [] {
      var n := |entries| - 1;
      FlattenResultsMember(entries[..n], p);
      if p in FlattenResults(entries) && p !in ProductsOf(entries[n].1) {
        var i :| 0 <= i < n && p in ProductsOf(entries[..n][i].1);
        assert entries[..n][i] == entries[i];
      }
      if exists i :: 0 <= i < |entries| && p in ProductsOf(entries[i].1) {
        var i :| 0 <= i < |entries| && p in ProductsOf(entries[i].1);
        if i < n {
          assert entries[..n][i] == entries[i];
        }
      }
    }
  }

  /** Sum of the list lengths of the platforms' products. */
  function ListedCount(entries: seq<(string, PlatformResult)>): nat {
    if entries == [] then 0
    else ListedCount(entries[..|entries| - 1]) + |ProductsOf(entries[|entries| - 1].1)|
  }

  /** The flattened count equals the sum of the per-platform list lengths. */
  lemma {:induction false} FlattenResultsLength(entries: seq<(string, PlatformResult)>)
    ensures |FlattenResults(entries)| == ListedCount(entries)
    decreases |entries|
  {
    if entries != [] {
      FlattenResultsLength(entries[..|entries| - 1]);
    }
  }
}
