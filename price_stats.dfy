/**
 * Price statistics over the strictly positive prices of a product list, as
 * both the result page's summary cards and the server's statistics endpoint
 * compute them: least, greatest, mean and count, all zero when no price is
 * positive.
 */
module PriceStats {
  import opened Wrappers
  import opened Seqs
  import opened Payload

  /** A product's price when it is strictly positive (a missing price counts
      as 0). */
  function PositivePrice(p: Product): Option<int> {
    if PriceOf(p) > 0 then Some(PriceOf(p)) else None
  }

  /** The strictly positive prices, in list order. */
  function PositivePrices(s: seq<Product>): (r: seq<int>)
    ensures |r| <= |s|
  {
    FilterMap(s, PositivePrice)
  }

  lemma PositivePricesAppend(a: seq<Product>, b: seq<Product>)
    ensures PositivePrices(a + b) == PositivePrices(a) + PositivePrices(b)
  {
    FilterMapAppend(a, b, PositivePrice);
  }

  /** A value is collected iff it is positive and some product has that price. */
  lemma PositivePricesMember(s: seq<Product>, v: int)
    ensures v in PositivePrices(s) <==> v > 0 && exists k :: 0 <= k < |s| && PriceOf(s[k]) == v
  {
    if v in PositivePrices(s) {
      FilterMapSound(s, PositivePrice, v);
    }
    if v > 0 && exists k :: 0 <= k < |s| && PriceOf(s[k]) == v {
      var k :| 0 <= k < |s| && PriceOf(s[k]) == v;
      FilterMapComplete(s, PositivePrice, k);
    }
  }

  /** Every collected price is strictly positive. */
  lemma PositivePricesArePositive(s: seq<Product>)
    ensures forall k :: 0 <= k < |PositivePrices(s)| ==> PositivePrices(s)[k] > 0
  {
    var r := PositivePrices(s);
    forall k | 0 <= k < |r| ensures r[k] > 0 {
      PositivePricesMember(s, r[k]);
    }
  }

  /** No price is collected exactly when no product has a positive price. */
  lemma PositivePricesEmpty(s: seq<Product>)
    ensures PositivePrices(s) == [] <==> forall k :: 0 <= k < |s| ==> PriceOf(s[k]) <= 0
  {
    var r := PositivePrices(s);
    if r == [] {
      forall k | 0 <= k < |s| ensures PriceOf(s[k]) <= 0 {
        PositivePricesMember(s, PriceOf(s[k]));
      }
    } else {
      PositivePricesMember(s, r[0]);
    }
  }

  /** Reordering the products reorders the collected prices and nothing more. */
  lemma PositivePricesPermutation(s: seq<Product>, t: seq<Product>)
    requires multiset(s) == multiset(t)
    ensures multiset(PositivePrices(s)) == multiset(PositivePrices(t))
  {
    FilterMapPermutation(s, t, PositivePrice);
  }

  function Sum(s: seq<int>): int {
    if s == [] then 0 else Sum(s[..|s| - 1]) + s[|s| - 1]
  }

  lemma {:induction false} SumAppend(a: seq<int>, b: seq<int>)
    ensures Sum(a + b) == Sum(a) + Sum(b)
    decreases |b|
  {
    if b == [] {
      assert a + b == a;
    } else {
      var b' := b[..|b| - 1];
      assert (a + b)[..|a + b| - 1] == a + b';
      SumAppend(a, b');
    }
  }

  /** Taking out one element takes its value off the sum. */
  lemma SumRemoveAt(b: seq<int>, k: int)
    requires 0 <= k < |b|
    ensures Sum(b) == Sum(b[..k] + b[k + 1..]) + b[k]
  {
    var head := b[..k] + [b[k]];
    RemoveAt(b, k);
    assert head[..|head| - 1] == b[..k];
    SumAppend(head, b[k + 1..]);
    SumAppend(b[..k], b[k + 1..]);
  }

  /** The sum depends only on the multiset of values. */
  lemma {:induction false} SumPermutation(a: seq<int>, b: seq<int>)
    requires multiset(a) == multiset(b)
    ensures Sum(a) == Sum(b)
    decreases |a|
  {
    if a != [] {
      var n := |a| - 1;
      var x := a[n];
      assert multiset(a[..n]) == multiset(a) - multiset{x} by {
        assert a == a[..n] + [x];
      }
      assert x in multiset(b);
      var k :| 0 <= k < |b| && b[k] == x;
      RemoveAt(b, k);
      SumRemoveAt(b, k);
      SumPermutation(a[..n], b[..k] + b[k + 1..]);
    }
  }

  /** Least element (Python's `min`, JavaScript's `Math.min(...)`). */
  function SeqMin(s: seq<int>): (m: int)
    requires s != []
    ensures m in s
    ensures forall k :: 0 <= k < |s| ==> m <= s[k]
  {
    if |s| == 1 then s[0]
    else
      var m' := SeqMin(s[..|s| - 1]);
      assert forall k :: 0 <= k < |s| - 1 ==> s[..|s| - 1][k] == s[k];
      if s[|s| - 1] < m' then s[|s| - 1] else m'
  }

  /** Greatest element (Python's `max`, JavaScript's `Math.max(...)`). */
  function SeqMax(s: seq<int>): (m: int)
    requires s != []
    ensures m in s
    ensures forall k :: 0 <= k < |s| ==> s[k] <= m
  {
    if |s| == 1 then s[0]
    else
      var m' := SeqMax(s[..|s| - 1]);
      assert forall k :: 0 <= k < |s| - 1 ==> s[..|s| - 1][k] == s[k];
      if s[|s| - 1] > m' then s[|s| - 1] else m'
  }

  /** The sum lies between count * least and count * greatest. */
  lemma {:induction false} SumBounds(s: seq<int>, lo: int, hi: int)
    requires forall k :: 0 <= k < |s| ==> lo <= s[k] <= hi
    ensures |s| * lo <= Sum(s) <= |s| * hi
    decreases |s|
  {
    if s != [] {
      var n := |s| - 1;
      assert forall k :: 0 <= k < n ==> s[..n][k] == s[k];
      SumBounds(s[..n], lo, hi);
      assert Sum(s) == Sum(s[..n]) + s[n];
      assert |s| * lo == n * lo + lo && |s| * hi == n * hi + hi;
    }
  }

  datatype Summary = Summary(min: int, max: int, average: real, total: nat)

  /** The price figures for a list of collected prices. */
  function Summarize(prices: seq<int>): (r: Summary)
    ensures prices == [] ==> r == Summary(0, 0, 0.0, 0)
    ensures prices != [] ==> r.min in prices && r.max in prices && r.total == |prices|
    ensures forall k :: 0 <= k < |prices| ==> r.min <= prices[k] <= r.max
  {
    if prices == [] then Summary(0, 0, 0.0, 0)
    else Summary(SeqMin(prices), SeqMax(prices), Sum(prices) as real / |prices| as real, |prices|)
  }

  /** The mean lies between the least and the greatest price. */
  lemma SummarizeAverageBounds(prices: seq<int>)
    requires prices != []
    ensures Summarize(prices).min as real <= Summarize(prices).average <= Summarize(prices).max as real
  {
    var r := Summarize(prices);
    SumBounds(prices, r.min, r.max);
    MeanBetween(Sum(prices), |prices|, r.min, r.max);
  }

  lemma MeanBetween(sum: int, n: int, lo: int, hi: int)
    requires n > 0 && n * lo <= sum <= n * hi
    ensures lo as real <= sum as real / n as real <= hi as real
  {
    var q := sum as real / n as real;
    assert q * n as real == sum as real;
    assert (n * lo) as real == n as real * lo as real;
    assert (n * hi) as real == n as real * hi as real;
  }

  /** The figures depend only on the multiset of prices, not on their order. */
  lemma SummarizePermutation(a: seq<int>, b: seq<int>)
    requires multiset(a) == multiset(b)
    ensures Summarize(a) == Summarize(b)
  {
    assert |a| == |multiset(a)| == |multiset(b)| == |b|;
    if a != [] {
      SumPermutation(a, b);
      var ra, rb := Summarize(a), Summarize(b);
      assert forall v :: v in a <==> v in b by {
        forall v ensures v in a <==> v in multiset(a) {}
        forall v ensures v in b <==> v in multiset(b) {}
      }
      assert ra.min in b && rb.min in a;
      assert ra.max in b && rb.max in a;
    }
  }
}
