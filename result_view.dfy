/**
 * The result page's view controller: it flattens the loaded payload into one
 * product list, filters and sorts it, cuts it into pages of twelve and
 * computes the page-number bar and the summary figures.
 */
module ResultView {
  import opened Wrappers
  import opened Sorting
  import opened Seqs
  import opened Payload
  import opened PriceStats

  const ItemsPerPage: nat := 12

  function Min(a: int, b: int): int { if a <= b then a else b }
  function Max(a: int, b: int): int { if a >= b then a else b }

  // ---------------------------------------------------------------- ordering

  /** The load-time and `price_asc` comparator `(a.price || 0) - (b.price || 0)`. */
  const PriceAscending: (Product, Product) -> bool := (a: Product, b: Product) => PriceOf(a) <= PriceOf(b)

  /** The `price_desc` comparator `(b.price || 0) - (a.price || 0)`. */
  const PriceDescending: (Product, Product) -> bool := (a: Product, b: Product) => PriceOf(b) <= PriceOf(a)

  /** `a.title.localeCompare(b.title) <= 0`, for a collation `collate(x, y)`
      standing for `x.localeCompare(y) <= 0`. */
  function ByTitle(collate: (string, string) -> bool): (Product, Product) -> bool {
    (a: Product, b: Product) => collate(a.title, b.title)
  }

  /** `a.platform.localeCompare(b.platform) <= 0`. */
  function ByPlatform(collate: (string, string) -> bool): (Product, Product) -> bool {
    (a: Product, b: Product) => collate(a.platform, b.platform)
  }

  lemma PriceOrdersArePreorders()
    ensures TotalPreorder(PriceAscending) && TotalPreorder(PriceDescending)
  {
  }

  lemma CollatedOrdersArePreorders(collate: (string, string) -> bool)
    requires TotalPreorder(collate)
    ensures TotalPreorder(ByTitle(collate)) && TotalPreorder(ByPlatform(collate))
  {
    var t, p := ByTitle(collate), ByPlatform(collate);
    forall a: Product, b: Product ensures t(a, b) || t(b, a) {
      assert collate(a.title, b.title) || collate(b.title, a.title);
    }
    forall a: Product, b: Product, c: Product | t(a, b) && t(b, c) ensures t(a, c) {
      assert collate(a.title, b.title) && collate(b.title, c.title);
    }
    forall a: Product, b: Product ensures p(a, b) || p(b, a) {
      assert collate(a.platform, b.platform) || collate(b.platform, a.platform);
    }
    forall a: Product, b: Product, c: Product | p(a, b) && p(b, c) ensures p(a, c) {
      assert collate(a.platform, b.platform) && collate(b.platform, c.platform);
    }
  }

  // ------------------------------------------------------------- filtering

  /** The filter inputs, already read: the platform selector's value ("" for
      all platforms) and the two price bounds. */
  datatype Criteria = Criteria(platform: string, minPrice: int, maxPrice: Option<int>)

  /** `parseFloat(min) || 0`: a missing or unparsable lower bound is 0. */
  function LowerBound(input: Option<int>): (b: int)
    ensures input.None? ==> b == 0
    ensures input.Some? ==> b == input.value
  {
    input.GetOr(0)
  }

  /** `parseFloat(max) || Infinity`: a missing, unparsable or zero upper bound
      means no upper bound (`None`). */
  function UpperBound(input: Option<int>): (b: Option<int>)
    ensures b.None? <==> input.None? || input.value == 0
    ensures b.Some? ==> b.value == input.value
  {
    if input.Some? && input.value != 0 then input else None
  }

  function ReadCriteria(platform: string, minInput: Option<int>, maxInput: Option<int>): Criteria {
    Criteria(platform, LowerBound(minInput), UpperBound(maxInput))
  }

  /** The `applyFilters` predicate: platform matches (empty selection matches
      any) and the price, missing counted as 0, lies in the inclusive range. */
  predicate Matches(p: Product, c: Criteria) {
    && (c.platform == "" || p.platform == c.platform)
    && c.minPrice <= PriceOf(p)
    && (c.maxPrice.None? || PriceOf(p) <= c.maxPrice.value)
  }

  /** `Array.prototype.filter` with `Matches`: keeps matching products in order. */
  function FilterProducts(s: seq<Product>, c: Criteria): (r: seq<Product>)
    ensures multiset(r) <= multiset(s)
    ensures forall k :: 0 <= k < |r| ==> Matches(r[k], c)
  {
    Filter(s, p => Matches(p, c))
  }

  /** Soundness and completeness: a product is kept iff it is in the list and
      matches. */
  lemma FilterProductsMember(s: seq<Product>, c: Criteria, p: Product)
    ensures p in FilterProducts(s, c) <==> p in s && Matches(p, c)
  {
    FilterMember(s, p => Matches(p, c), p);
  }

  /** Filtering a list whose products all match changes nothing. */
  lemma FilterAllMatching(s: seq<Product>, c: Criteria)
    requires forall k :: 0 <= k < |s| ==> Matches(s[k], c)
    ensures FilterProducts(s, c) == s
  {
    FilterKeepsAll(s, p => Matches(p, c));
  }

  /** Filtering keeps input order: the kept products of a split list are the
      kept products of each part, in turn. */
  lemma FilterProductsAppend(a: seq<Product>, b: seq<Product>, c: Criteria)
    ensures FilterProducts(a + b, c) == FilterProducts(a, c) + FilterProducts(b, c)
  {
    FilterAppend(a, b, p => Matches(p, c));
  }

  /** Every copy of a matching product is kept, and no copy of any other. */
  lemma FilterProductsCount(s: seq<Product>, c: Criteria, p: Product)
    ensures multiset(FilterProducts(s, c))[p] == if Matches(p, c) then multiset(s)[p] else 0
  {
    FilterCount(s, q => Matches(q, c), p);
  }

  /** The `switch (sortBy)` of `applyFilters`; an unrecognised key leaves the
      order alone. */
  function SortByKey(s: seq<Product>, sortBy: string, collate: (string, string) -> bool): (r: seq<Product>)
    ensures multiset(r) == multiset(s)
  {
    if sortBy == "price_asc" then InsertionSort(s, PriceAscending)
    else if sortBy == "price_desc" then InsertionSort(s, PriceDescending)
    else if sortBy == "title_asc" then InsertionSort(s, ByTitle(collate))
    else if sortBy == "platform" then InsertionSort(s, ByPlatform(collate))
    else s
  }

  /** The order each sort key produces. */
  lemma SortByKeyOrders(s: seq<Product>, sortBy: string, collate: (string, string) -> bool)
    requires sortBy in {"title_asc", "platform"} ==> TotalPreorder(collate)
    ensures var r := SortByKey(s, sortBy, collate);
      && (sortBy == "price_asc" ==> forall i, j :: 0 <= i < j < |r| ==> PriceOf(r[i]) <= PriceOf(r[j]))
      && (sortBy == "price_desc" ==> forall i, j :: 0 <= i < j < |r| ==> PriceOf(r[i]) >= PriceOf(r[j]))
      && (sortBy == "title_asc" ==> forall i, j :: 0 <= i < j < |r| ==> collate(r[i].title, r[j].title))
      && (sortBy == "platform" ==> forall i, j :: 0 <= i < j < |r| ==> collate(r[i].platform, r[j].platform))
      && (sortBy !in {"price_asc", "price_desc", "title_asc", "platform"} ==> r == s)
  {
    PriceOrdersArePreorders();
    var r := SortByKey(s, sortBy, collate);
    if sortBy == "price_asc" {
      InsertionSortSorted(s, PriceAscending);
      assert SortedBy(r, PriceAscending);
    } else if sortBy == "price_desc" {
      InsertionSortSorted(s, PriceDescending);
      assert SortedBy(r, PriceDescending);
    } else if sortBy == "title_asc" {
      CollatedOrdersArePreorders(collate);
      InsertionSortSorted(s, ByTitle(collate));
      assert SortedBy(r, ByTitle(collate));
    } else if sortBy == "platform" {
      CollatedOrdersArePreorders(collate);
      InsertionSortSorted(s, ByPlatform(collate));
      assert SortedBy(r, ByPlatform(collate));
    }
  }

  /** What `applyFilters` stores in `filteredProducts`. */
  function FilterAndSort(all: seq<Product>, c: Criteria, sortBy: string, collate: (string, string) -> bool): seq<Product> {
    SortByKey(FilterProducts(all, c), sortBy, collate)
  }

  /** Soundness and completeness of the filter, and the result is a
      reordering of exactly the matching products. */
  lemma FilterAndSortContents(all: seq<Product>, c: Criteria, sortBy: string, collate: (string, string) -> bool)
    ensures var r := FilterAndSort(all, c, sortBy, collate);
      && (forall p :: p in r <==> p in all && Matches(p, c))
      && multiset(r) == multiset(FilterProducts(all, c))
      && multiset(r) <= multiset(all)
  {
    var r := FilterAndSort(all, c, sortBy, collate);
    forall p ensures p in r <==> p in all && Matches(p, c) {
      assert p in r <==> p in multiset(r);
      FilterProductsMember(all, c, p);
    }
  }

  /** Running the filter and sort again on its own output changes nothing. */
  lemma FilterAndSortIdempotent(all: seq<Product>, c: Criteria, sortBy: string, collate: (string, string) -> bool)
    requires sortBy in {"title_asc", "platform"} ==> TotalPreorder(collate)
    ensures FilterAndSort(FilterAndSort(all, c, sortBy, collate), c, sortBy, collate)
         == FilterAndSort(all, c, sortBy, collate)
  {
    var r := FilterAndSort(all, c, sortBy, collate);
    var f := FilterProducts(all, c);
    forall k | 0 <= k < |r| ensures Matches(r[k], c) {
      assert r[k] in multiset(r);
      FilterProductsMember(all, c, r[k]);
    }
    FilterAllMatching(r, c);
    PriceOrdersArePreorders();
    if sortBy == "price_asc" {
      InsertionSortSorted(f, PriceAscending);
      InsertionSortOfSorted(r, PriceAscending);
    } else if sortBy == "price_desc" {
      InsertionSortSorted(f, PriceDescending);
      InsertionSortOfSorted(r, PriceDescending);
    } else if sortBy == "title_asc" {
      CollatedOrdersArePreorders(collate);
      InsertionSortSorted(f, ByTitle(collate));
      InsertionSortOfSorted(r, ByTitle(collate));
    } else if sortBy == "platform" {
      CollatedOrdersArePreorders(collate);
      InsertionSortSorted(f, ByPlatform(collate));
      InsertionSortOfSorted(r, ByPlatform(collate));
    }
  }

  // ------------------------------------------------------------ pagination

  /** `Math.ceil(n / itemsPerPage)`. */
  function TotalPages(n: nat): (t: nat)
    ensures n <= t * ItemsPerPage
    ensures t > 0 ==> (t - 1) * ItemsPerPage < n
  {
    (n + ItemsPerPage - 1) / ItemsPerPage
  }

  /** The guard of `changePage`: page numbers outside `[1, totalPages]` are rejected. */
  predicate AcceptsPage(page: int, n: nat) {
    1 <= page <= TotalPages(n)
  }

  /** `filteredProducts.slice(startIndex, endIndex)` in `renderProducts`. */
  function PageSlice<T>(items: seq<T>, page: int): (r: seq<T>)
    requires page >= 1
    ensures |r| <= ItemsPerPage
    ensures |r| == Max(0, Min(ItemsPerPage, |items| - (page - 1) * ItemsPerPage))
    ensures forall k :: 0 <= k < |r| ==> r[k] == items[(page - 1) * ItemsPerPage + k]
    ensures r == [] <==> !AcceptsPage(page, |items|)
  {
    var start := (page - 1) * ItemsPerPage;
    if start >= |items| then [] else items[start..Min(start + ItemsPerPage, |items|)]
  }

  /** The "showing first-last of n" figures written above the products. */
  function ShownRange(n: nat, page: int): (int, int)
    requires page >= 1
  {
    var start := (page - 1) * ItemsPerPage;
    (start + 1, Min(start + ItemsPerPage, n))
  }

  /** The shown range describes the slice: on a non-empty page it is exactly
      the slice's positions (1-based); on an empty page it is empty. */
  lemma ShownRangeMatchesSlice<T>(items: seq<T>, page: int)
    requires page >= 1
    ensures var (first, last) := ShownRange(|items|, page);
      && (PageSlice(items, page) != [] ==> 1 <= first <= last <= |items| && PageSlice(items, page) == items[first - 1..last])
      && (PageSlice(items, page) == [] ==> last < first)
  {
  }

  /** One entry of the pagination bar. */
  datatype PageItem =
    | Prev(target: int, disabled: bool)
    | PageLink(page: int, active: bool)
    | Gap
    | Next(target: int, disabled: bool)

  /** First page of the numbered window. */
  function StartPage(current: int): int { Max(1, current - 2) }

  /** Last page of the numbered window. */
  function EndPage(current: int, total: int): int { Min(total, current + 2) }

  lemma WindowBounds(current: int, total: int)
    requires 1 <= current <= total
    ensures 1 <= StartPage(current) <= current <= EndPage(current, total) <= total
    ensures EndPage(current, total) - StartPage(current) + 1 <= 5
    ensures EndPage(current, total) - StartPage(current) + 1 == Min(5, Min(total, Min(current + 2, total - current + 3)))
  {
  }

  /** Numbered links `from..to`, the one for `current` marked active. */
  function Numbers(from: int, to: int, current: int): (r: seq<PageItem>)
    decreases to - from + 1
  {
    if to < from then [] else Numbers(from, to - 1, current) + [PageLink(to, to == current)]
  }

  lemma {:induction false} NumbersShape(from: int, to: int, current: int)
    ensures |Numbers(from, to, current)| == Max(0, to - from + 1)
    ensures forall k :: 0 <= k < |Numbers(from, to, current)| ==>
                          Numbers(from, to, current)[k] == PageLink(from + k, from + k == current)
    decreases Max(0, to - from + 1)
  {
    if to >= from {
      NumbersShape(from, to - 1, current);
      var r, r' := Numbers(from, to, current), Numbers(from, to - 1, current);
      assert r == r' + [PageLink(to, to == current)];
      forall k | 0 <= k < |r| ensures r[k] == PageLink(from + k, from + k == current) {
        if k < |r'| {
          assert r[k] == r'[k];
        }
      }
    }
  }

  /** The first-page link and its ellipsis, shown when the window starts after page 1. */
  function Leading(start: int): seq<PageItem> {
    if start > 1 then [PageLink(1, false)] + (if start > 2 then [Gap] else []) else []
  }

  /** The last-page link and its ellipsis, symmetric to `Leading`. */
  function Trailing(end: int, total: int): seq<PageItem> {
    if end < total then (if end < total - 1 then [Gap] else []) + [PageLink(total, false)] else []
  }

  /** The bar `updatePagination` renders for `current` of `total` pages. */
  function Bar(current: int, total: int): seq<PageItem> {
    if total <= 1 then []
    else
      var start, end := StartPage(current), EndPage(current, total);
      [Prev(current - 1, current == 1)] + Leading(start) + Numbers(start, end, current)
        + Trailing(end, total) + [Next(current + 1, current == total)]
  }

  /** `updatePagination`: accumulates the bar item by item. */
  method PaginationBar(current: int, count: nat) returns (bar: seq<PageItem>)
    ensures bar == Bar(current, TotalPages(count))
    ensures TotalPages(count) <= 1 <==> bar == []
  {
    var total := TotalPages(count);
    if total <= 1 {
      return [];
    }
    bar := [Prev(current - 1, current == 1)];
    var start := Max(1, current - 2);
    var end := Min(total, current + 2);
    if start > 1 {
      bar := bar + [PageLink(1, false)];
      if start > 2 {
        bar := bar + [Gap];
      }
    }
    ghost var head := bar;
    assert head == [Prev(current - 1, current == 1)] + Leading(start);
    var i := start;
    while i <= end
      invariant start <= i && (i <= end + 1 || i == start)
      invariant bar == head + Numbers(start, i - 1, current)
      decreases end - i
    {
      NumbersStep(head, bar, start, i, current);
      bar := bar + [PageLink(i, i == current)];
      i := i + 1;
    }
    ghost var middle := bar;
    if end < total {
      if end < total - 1 {
        bar := bar + [Gap];
      }
      bar := bar + [PageLink(total, false)];
    }
    ghost var tail := bar[|middle|..];
    assert bar == middle + tail;
    assert tail == Trailing(end, total);
    bar := bar + [Next(current + 1, current == total)];
    BarPieces(current, total, head, middle, tail, bar);
  }

  lemma NumbersStep(head: seq<PageItem>, bar: seq<PageItem>, from: int, i: int, current: int)
    requires from <= i
    requires bar == head + Numbers(from, i - 1, current)
    ensures bar + [PageLink(i, i == current)] == head + Numbers(from, i, current)
  {
  }

  /** The pieces the loop of `PaginationBar` accumulates make up `Bar`. */
  lemma BarPieces(current: int, total: int, head: seq<PageItem>, middle: seq<PageItem>,
                  tail: seq<PageItem>, bar: seq<PageItem>)
    requires total > 1
    requires head == [Prev(current - 1, current == 1)] + Leading(StartPage(current))
    requires middle == head + Numbers(StartPage(current), EndPage(current, total), current)
    requires tail == Trailing(EndPage(current, total), total)
    requires bar == middle + tail + [Next(current + 1, current == total)]
    ensures bar == Bar(current, total)
  {
  }

  /** Every link in the bar leads to a page `changePage` accepts, except the
      previous/next arrows at the ends, which are exactly the disabled ones;
      exactly the current page is marked active. */
  lemma BarLinksAreSafe(current: int, count: nat)
    requires 1 <= current <= TotalPages(count)
    ensures var bar := Bar(current, TotalPages(count));
      && (forall k :: 0 <= k < |bar| && bar[k].PageLink? ==> AcceptsPage(bar[k].page, count))
      && (forall k :: 0 <= k < |bar| && bar[k].PageLink? && bar[k].active ==> bar[k].page == current)
      && (forall k :: 0 <= k < |bar| && (bar[k].Prev? || bar[k].Next?) ==>
            (bar[k].disabled <==> !AcceptsPage(bar[k].target, count)))
      && (TotalPages(count) > 1 ==> PageLink(current, true) in bar)
  {
    var total := TotalPages(count);
    if total > 1 {
      var start, end := StartPage(current), EndPage(current, total);
      WindowBounds(current, total);
      NumbersShape(start, end, current);
      var bar := Bar(current, total);
      var nums := Numbers(start, end, current);
      var pre := [Prev(current - 1, current == 1)] + Leading(start);
      var post := Trailing(end, total) + [Next(current + 1, current == total)];
      assert bar == pre + nums + post;
      forall k | 0 <= k < |bar|
        ensures bar[k].PageLink? ==> AcceptsPage(bar[k].page, count)
        ensures bar[k].PageLink? && bar[k].active ==> bar[k].page == current
        ensures (bar[k].Prev? || bar[k].Next?) ==> (bar[k].disabled <==> !AcceptsPage(bar[k].target, count))
      {
        if k < |pre| {
          assert bar[k] == pre[k];
        } else if k < |pre| + |nums| {
          assert bar[k] == nums[k - |pre|];
        } else {
          assert bar[k] == post[k - |pre| - |nums|];
        }
      }
      assert nums[current - start] == PageLink(current, true);
      assert bar[|pre| + current - start] == PageLink(current, true);
    }
  }

  // --------------------------------------------------------------- summary

  /** The platform labels occurring in a list. */
  function PlatformSet(s: seq<Product>): set<string> {
    set k | 0 <= k < |s| :: s[k].platform
  }

  lemma {:induction false} PlatformSetSize(s: seq<Product>)
    ensures |PlatformSet(s)| <= |s|
    ensures |PlatformSet(s)| == 0 <==> s == []
    decreases |s|
  {
    if s != [] {
      var n := |s| - 1;
      PlatformSetSize(s[..n]);
      assert PlatformSet(s) == PlatformSet(s[..n]) + {s[n].platform} by {
        forall x ensures x in PlatformSet(s) <==> x in PlatformSet(s[..n]) + {s[n].platform} {
          if x in PlatformSet(s) {
            var k :| 0 <= k < |s| && s[k].platform == x;
            if k < n { assert s[..n][k] == s[k]; }
          }
          if x in PlatformSet(s[..n]) {
            var k :| 0 <= k < n && s[..n][k].platform == x;
            assert s[k] == s[..n][k];
          }
        }
      }
      assert s[n].platform in PlatformSet(s);
    }
  }

  /** The four summary cards. */
  datatype Cards = Cards(totalProducts: nat, platformCount: nat, prices: Summary)

  /** `updateSummaryCards`, computed over `allProducts`. */
  function SummaryCards(all: seq<Product>): (r: Cards)
    ensures r.totalProducts == |all|
    ensures r.prices == Summarize(PositivePrices(all))
    ensures r.platformCount == |PlatformSet(all)|
    ensures r.platformCount <= r.totalProducts
    ensures r.platformCount == 0 <==> all == []
  {
    PlatformSetSize(all);
    Cards(|all|, |PlatformSet(all)|, Summarize(PositivePrices(all)))
  }

  // ------------------------------------------------------- the page state

  /** The module-level state of the result page. */
  class ResultPage {
    var resultData: Option<ResultFile>
    var allProducts: seq<Product>
    var filteredProducts: seq<Product>
    var currentPage: int

    /** What holds between events: the page number is positive, the full
        list is price-ordered and the shown list draws from it. */
    ghost predicate Valid()
      reads this
    {
      && currentPage >= 1
      && SortedBy(allProducts, PriceAscending)
      && multiset(filteredProducts) <= multiset(allProducts)
    }

    /** The current page exists, or is page 1 of an empty list. */
    ghost predicate PageInRange()
      reads this
    {
      currentPage <= Max(1, TotalPages(|filteredProducts|))
    }

    constructor ()
      ensures Valid() && PageInRange()
      ensures resultData == None && allProducts == [] && filteredProducts == [] && currentPage == 1
    {
      resultData := None;
      allProducts := [];
      filteredProducts := [];
      currentPage := 1;
    }

    /** `processResultData` after a successful load of `data`: flattens either
        shape, sorts by price, copies to the shown list. In the legacy shape
        the sorted array is the payload's own `products` array. */
    method ProcessResultData(data: ResultFile)
      requires Valid()
      modifies this
      ensures allProducts == InsertionSort(Flatten(data), PriceAscending)
      ensures multiset(allProducts) == multiset(Flatten(data))
      ensures SortedBy(allProducts, PriceAscending)
      ensures filteredProducts == allProducts
      ensures currentPage == old(currentPage)
      ensures resultData == Some(if data.results.None? && data.products.Some?
                                 then data.(products := Some(allProducts)) else data)
      ensures Valid()
      ensures old(currentPage) == 1 ==> PageInRange()
    {
      var products: seq<Product> := [];
      if data.results.Some? {
        var entries := data.results.value;
        var i := 0;
        while i < |entries|
          invariant 0 <= i <= |entries|
          invariant products == FlattenResults(entries[..i])
        {
          assert entries[..i + 1][..i] == entries[..i];
          assert FlattenResults(entries[..i + 1]) == FlattenResults(entries[..i]) + ProductsOf(entries[i].1);
          if entries[i].1.products.Some? {
            products := products + entries[i].1.products.value;
          }
          i := i + 1;
        }
        assert entries[..|entries|] == entries;
      } else if data.products.Some? {
        products := data.products.value;
      }
      allProducts := InsertionSort(products, PriceAscending);
      PriceOrdersArePreorders();
      InsertionSortSorted(products, PriceAscending);
      if data.results.None? && data.products.Some? {
        resultData := Some(data.(products := Some(allProducts)));
      } else {
        resultData := Some(data);
      }
      filteredProducts := allProducts;
    }

    /** `applyFilters` with the controls' values already read. */
    method ApplyFilters(platform: string, minInput: Option<int>, maxInput: Option<int>,
                        sortBy: string, collate: (string, string) -> bool)
      requires Valid()
      modifies this`filteredProducts, this`currentPage
      ensures filteredProducts == FilterAndSort(allProducts, ReadCriteria(platform, minInput, maxInput), sortBy, collate)
      ensures allProducts == old(allProducts) && resultData == old(resultData)
      ensures currentPage == 1
      ensures Valid() && PageInRange()
    {
      var c := ReadCriteria(platform, minInput, maxInput);
      var kept := FilterProducts(allProducts, c);
      filteredProducts := SortByKey(kept, sortBy, collate);
      assert multiset(filteredProducts) == multiset(kept) <= multiset(allProducts);
      currentPage := 1;
    }

    /** `resetFilters`: shows a copy of the full list again, from page 1. */
    method ResetFilters()
      requires Valid()
      modifies this`filteredProducts, this`currentPage
      ensures filteredProducts == allProducts == old(allProducts)
      ensures currentPage == 1
      ensures Valid() && PageInRange()
    {
      filteredProducts := allProducts;
      currentPage := 1;
    }

    /** `changePage`: moves only to a page that exists. */
    method ChangePage(page: int)
      requires Valid()
      modifies this`currentPage
      ensures currentPage == if AcceptsPage(page, |filteredProducts|) then page else old(currentPage)
      ensures Valid()
      ensures old(PageInRange()) ==> PageInRange()
    {
      var totalPages := TotalPages(|filteredProducts|);
      if page < 1 || page > totalPages {
        return;
      }
      currentPage := page;
    }
  }
}
