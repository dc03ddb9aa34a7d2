# Crawl result viewer: result page and statistics, modelled in Dafny

The repository is a small Flask web application that shows the output of
product crawlers. A crawl writes a JSON result file. The file is either
multi-platform (a `results` object keyed by platform name, each with its own
`products` list and counts) or legacy single-platform (a top-level `products`
list and `platform`). Two parts of the code carry logic:

- the result page's controller (`static/result_detail.js`): it flattens the
  loaded file into `allProducts` and sorts it by price. It filters by
  platform and price range into `filteredProducts` and re-sorts by one of
  four keys. It cuts pages of 12, draws a page-number bar, guards
  `changePage`, and computes the summary cards;
- the server (`web_app.py`): the statistics endpoint aggregates counts and
  positive prices. The listing endpoint summarises every stored file and
  orders them newest first. The crawl endpoint validates its request before
  any crawler runs.

Modules, one per concern:

- `Wrappers` (`wrappers.dfy`): `Option`, used for absent JSON keys and for
  text inputs that do not parse.
- `Seqs` (`seqs.dfy`): filtering, and filtering-and-transforming, over
  sequences, with membership, append and reordering lemmas.
- `Sorting` (`sorting.dfy`): total preorders and a stable insertion sort. It
  stands for JavaScript's `Array.prototype.sort` and Python's `list.sort`.
  Both are stable, so for a given comparator their output is determined.
- `Payload` (`payload.dfy`): products, platform blocks, the result file, and
  the flattening of either shape. `results` keeps its key order.
- `PriceStats` (`price_stats.dfy`): the strictly positive prices and their
  least, greatest, mean and count. Both pages use the same rule.
- `ResultView` (`result_view.dfy`): the filter predicate, the sort keys,
  paging and the page-number bar (a method with the source's loop), and the
  summary cards. It also holds the class `ResultPage`, whose fields
  `resultData`, `allProducts`, `filteredProducts` and `currentPage` are the
  script's module-level variables.
- `Strings` (`strings.dfy`): Python's string order and `os.path.basename`.
- `WebApp` (`web_app.dfy`): `GetStatistics`, `ListResults` (loops, as in the
  source) and `StartCrawl`.
- `Agreement` (`agreement.dfy`): what the page and the statistics endpoint
  agree on for the same file.

Modelling choices:

- `p.price || 0` and `product.get('price', 0)` are both `PriceOf`: a missing
  price is 0.
- `parseFloat(min) || 0` and `parseFloat(max) || Infinity` take an
  already-parsed `Option<int>`. A bound of 0 or a non-number means "no
  upper bound" (`UpperBound`).
- `localeCompare` is a parameter `collate(x, y)`, read as
  `x.localeCompare(y) <= 0`. The ordering lemmas require it to be a total
  preorder.
- The legacy shape's aliasing is kept. `allProducts = resultData.products`
  followed by an in-place sort reorders the payload itself. So
  `ProcessResultData` stores the sorted list back into `resultData.products`,
  which is what an export would serialise.
- On these points the model follows the code as written:
  - a maximum price of 0 removes the upper bound, because `parseFloat(max)
    || Infinity` treats 0 as absent (`static/result_detail.js:338-339`);
  - the pagination bar is empty, prev/next arrows included, when there is at
    most one page (`static/result_detail.js:263-266`);
  - the statistics endpoint's `total_products` in the multi-platform shape
    sums the declared per-platform counts, not the list lengths
    (`web_app.py:160-165`).

## Model

| member | source | states |
|---|---|---|
| `Payload.Flatten` | static/result_detail.js:41-51 | the product list of a payload: the `results` blocks' lists in key order, else the legacy `products`, else empty (also the lists `get_statistics` walks at web_app.py:156 and :174) |
| `Payload.FlattenResultsAppend` | static/result_detail.js:41-47 | flattening splits over any split of the platform list, so the result is the in-order concatenation of the platforms' lists |
| `Payload.FlattenResultsMember` | static/result_detail.js:42-46 | a product is in the flattened list iff some platform's `products` list holds it; a platform without `products` contributes nothing |
| `Payload.FlattenResultsLength` | static/result_detail.js:41-47 | the flattened count equals the sum of the per-platform list lengths |
| `Sorting.InsertionSort` | static/result_detail.js:54 | the sort returns a permutation of its input |
| `Sorting.InsertionSortSorted` | static/result_detail.js:54 | under a total preorder, the sort's output is ordered |
| `Sorting.InsertionSortOfSorted` | static/result_detail.js:352-365 | sorting an already ordered list leaves it unchanged |
| `PriceStats.PositivePrices` | static/result_detail.js:80 | at most one price is collected per product |
| `PriceStats.PositivePricesArePositive` | static/result_detail.js:80 | every collected price is strictly positive |
| `PriceStats.PositivePricesMember` | web_app.py:168-171 | a value is collected iff it is positive and some product has it as its price (missing = 0) |
| `PriceStats.PositivePricesPermutation` | static/result_detail.js:54 | reordering the products only reorders the collected prices |
| `PriceStats.SeqMin` | web_app.py:190 | `min` returns an element that is no greater than any element |
| `PriceStats.SeqMax` | web_app.py:191 | `max` returns an element that is no less than any element |
| `PriceStats.Summarize` | web_app.py:188-195 | with no prices all four figures are 0; otherwise min and max are collected prices that bound every price, and total is the count |
| `PriceStats.SummarizeAverageBounds` | web_app.py:192 | the average lies between min and max |
| `PriceStats.SummarizePermutation` | static/result_detail.js:80-84 | the figures do not depend on the order of the prices |
| `ResultView.LowerBound` | static/result_detail.js:337 | a missing or unparsable minimum is 0, otherwise the input |
| `ResultView.UpperBound` | static/result_detail.js:338-339 | there is no upper bound iff the maximum is missing, unparsable or 0; otherwise it is the input |
| `ResultView.Matches` | static/result_detail.js:344-348 | the filter predicate: platform equal unless none is selected, and `minPrice <= price <= maxPrice` with a missing price read as 0 and a missing bound as unbounded |
| `ResultView.FilterProducts` | static/result_detail.js:343-349 | every kept product matches platform (empty = any) and the inclusive price range; the result is a sub-multiset of the input |
| `ResultView.FilterProductsMember` | static/result_detail.js:343-349 | a product is kept iff it is in the list and matches |
| `ResultView.FilterAllMatching` | static/result_detail.js:343-349 | filtering a list whose products all match returns it unchanged |
| `ResultView.FilterProductsAppend` | static/result_detail.js:343-349 | the kept products of a concatenation are those of each part in turn, so the filter keeps input order |
| `ResultView.FilterProductsCount` | static/result_detail.js:343-349 | every copy of a matching product is kept and no copy of a non-matching one: the kept multiplicity of p is its input multiplicity if p matches, else 0 |
| `ResultView.SortByKey` | static/result_detail.js:352-365 | every sort key yields a permutation of the filtered list |
| `ResultView.SortByKeyOrders` | static/result_detail.js:352-365 | `price_asc` gives non-decreasing and `price_desc` non-increasing prices; `title_asc` and `platform` are ordered under the collation; any other key leaves the filter order untouched |
| `ResultView.FilterAndSort` | static/result_detail.js:343-365 | the list `applyFilters` shows: the filter's output sorted by the selected key |
| `ResultView.FilterAndSortContents` | static/result_detail.js:343-365 | the shown list holds exactly the matching products of `allProducts` (both directions) and is a permutation of the filter's output |
| `ResultView.FilterAndSortIdempotent` | static/result_detail.js:335-365 | filtering and sorting the shown list again with the same settings gives the same list |
| `ResultView.CollatedOrdersArePreorders` | static/result_detail.js:359-364 | ordering products by title or platform under a total-preorder collation is a total preorder |
| `ResultView.TotalPages` | static/result_detail.js:260 | the page count is the least number of 12-item pages that hold n items (`Math.ceil(n / 12)`) |
| `ResultView.PageSlice` | static/result_detail.js:137-152 | the page holds at most 12 items: exactly `min(12, n - (p-1)*12)` of them, starting at index `(p-1)*12`; it is empty (the empty state) iff `changePage` would reject p |
| `ResultView.ShownRange` | static/result_detail.js:143-147 | the "showing first-last" figures: `startIndex + 1` and `min(endIndex, n)` |
| `ResultView.ShownRangeMatchesSlice` | static/result_detail.js:143-147 | the "showing first-last" figures are the 1-based positions of the page's slice, and describe an empty range when the page is empty |
| `ResultView.WindowBounds` | static/result_detail.js:282-283 | for 1 ≤ cur ≤ total the numbered window lies in [1, total], contains cur, and spans min(5, …) ≤ 5 pages |
| `ResultView.NumbersShape` | static/result_detail.js:292-298 | the numbered links are the pages start..end in order, each active iff it is the current page |
| `ResultView.Leading` | static/result_detail.js:285-290 | the first-page link when the window starts past page 1, followed by an ellipsis when it starts past page 2 |
| `ResultView.Trailing` | static/result_detail.js:300-305 | an ellipsis when the window ends before the next-to-last page, then the last-page link when it ends before the last page |
| `ResultView.Bar` | static/result_detail.js:263-316 | the whole bar: nothing for at most one page, else prev arrow (disabled on page 1), leading part, numbered window, trailing part, next arrow (disabled on the last page) |
| `ResultView.PaginationBar` | static/result_detail.js:259-319 | the loop builds the bar: prev arrow, first-page link and ellipsis iff the window starts past 1 or 2, the numbered window, the symmetric trailing part, next arrow; nothing at all when there are at most one page |
| `ResultView.BarLinksAreSafe` | static/result_detail.js:271-312 | every page link targets a page `changePage` accepts; the prev/next arrows are disabled exactly when their target would be rejected; the current page is the only active link and is present |
| `ResultView.PlatformSetSize` | static/result_detail.js:77 | the number of distinct platforms is at most the product count and is 0 iff there are no products |
| `ResultView.PlatformSet` | static/result_detail.js:77 | the set of platforms the products carry, `new Set(allProducts.map(p => p.platform))` |
| `ResultView.SummaryCards` | static/result_detail.js:75-84 | the cards show the product count, the exact number of distinct platforms (at most the count, 0 iff there are no products), and the price figures of the positive prices of `allProducts` |
| `ResultView.ResultPage.constructor` | static/result_detail.js:2-5 | initial state: no payload, empty lists, page 1 |
| `ResultView.ResultPage.ProcessResultData` | static/result_detail.js:37-57 | `allProducts` becomes the flattened list sorted by price (a permutation, non-decreasing, missing = 0); `filteredProducts` equals it; in the legacy shape the payload's own `products` is now the sorted list; the page number is untouched |
| `ResultView.ResultPage.ApplyFilters` | static/result_detail.js:335-370 | `filteredProducts` becomes the filtered, re-sorted `allProducts`; `allProducts` is unchanged; the page is reset to 1 |
| `ResultView.ResultPage.ResetFilters` | static/result_detail.js:373-383 | `filteredProducts` becomes an element-wise copy of the unchanged `allProducts`; the page is reset to 1 |
| `ResultView.ResultPage.ChangePage` | static/result_detail.js:322-328 | a page below 1 or above `ceil(n/12)` leaves `currentPage` unchanged; any other becomes current; the page stays in range |
| `Strings.StrLeTotal` | web_app.py:63 | any two strings are comparable in Python's string order |
| `Strings.StrLeTransitive` | web_app.py:63 | Python's string order is transitive |
| `Strings.StrLeAntisymmetric` | web_app.py:63 | strings ordered both ways are equal |
| `Strings.Basename` | web_app.py:50 | the file name is the suffix of the path after its last '/', and holds no '/' |
| `WebApp.StatsOf` | web_app.py:159-163 | one platform's entry: declared count, status and time with the defaults 0, 'unknown' and 0 |
| `WebApp.DeclaredTotal` | web_app.py:158-165 | the sum over `results` of the declared `total_products`, 0 where absent |
| `WebApp.PlatformTable` | web_app.py:158-164 | the `platforms` table after the loop: each `results` key mapped to its entry |
| `WebApp.PlatformTableKeys` | web_app.py:158-164 | the `platforms` table has a key iff `results` has it |
| `WebApp.PlatformTableLookup` | web_app.py:159-164 | each platform's entry holds its declared count (default 0), status (default 'unknown') and time (default 0) |
| `WebApp.PlatformTableSize` | web_app.py:156-165 | there is one `platforms` entry per `results` key |
| `PriceStats.PositivePricesEmpty` | web_app.py:189-195 | no price is collected iff no product has a positive price, so the zero figures are reported exactly then |
| `WebApp.GetStatistics` | web_app.py:141-195 | new shape: total is the sum of declared counts and the table is the per-platform figures; legacy shape: total is the list length and the single entry is `(len, 'success', 0)` under `platform` or 'unknown'; neither: 0 and an empty table; the price figures are those of the positive prices of the flattened products |
| `WebApp.PlatformNames` | web_app.py:56 | a file's platforms are the `results` keys in order, or else the one legacy `platform`, 'unknown' when absent |
| `WebApp.InfoOf` | web_app.py:49-57 | a readable file's entry: basename, path, keyword ('unknown'), declared total (0), crawl time (''), size and platform names |
| `WebApp.ReadEntry` | web_app.py:45-60 | a file's entry, or nothing when it cannot be read or parsed (the `except` branch) |
| `WebApp.Listed` | web_app.py:44-60 | the entries of the readable files, in directory order |
| `WebApp.ListedMember` | web_app.py:44-60 | every readable file, and nothing else, has an entry |
| `WebApp.NewestFirstIsPreorder` | web_app.py:63 | ordering entries by descending crawl time is a total preorder |
| `WebApp.ListResults` | web_app.py:39-63 | the listing is a permutation of the readable files' entries, in non-increasing crawl-time order |
| `WebApp.ToInt` | web_app.py:96-98 | `int(data.get(key, default))`: the default when absent, the number when it is whole, a failure otherwise |
| `WebApp.StartCrawl` | web_app.py:92-104 | a missing body or a numeric field `int` rejects answers 500; otherwise an empty keyword answers 400 before any crawler runs; an accepted request carries the keyword, the requested platforms or else every crawler, each supplied whole number as given, and the defaults 100, 0 and 999999 for absent ones |
| `Agreement.PriceCardsMatchStatistics` | static/result_detail.js:80-84 | the page's price cards, computed over the price-sorted list, equal the endpoint's price statistics for the same file |
| `Agreement.TotalsAgreeWhenCountsAreAccurate` | web_app.py:160-165 | the endpoint's declared total equals the page's product count when every platform's declared count is its list's length |

## Left out

- Presentation is not modelled: HTML templates, `createProductCard` and
  `createProductRow`, showing and hiding containers, `scrollIntoView`, the
  grid/list toggle, the title banner, and the platform drop-down
  (`updatePlatformFilter`). The model keeps only the numbers and lists these
  display.
- Fetching is not modelled: `loadResultData`'s `fetch`/`await`, its error
  banners and `hideLoading`. `ProcessResultData` starts from a successfully
  loaded payload.
- The 500 ms debounce of the price inputs is not modelled. It is timer-driven
  and only decides when `ApplyFilters` runs.
- `exportResults` is left out; it uses browser APIs. What it would serialise is
  `ResultPage.resultData`.
- Locale behaviour is not modelled. `localeCompare` is the `collate`
  parameter, and `toLocaleString` and `toFixed` formatting is left out.
- Floating point is not modelled. Prices and bounds are integers, and
  `parseFloat` is replaced by already-parsed `Option<int>` inputs, so
  fractional prices and bounds are not covered. Averages are `real`; the
  execution time is a `real` copied through.
- Flask routing, `render_template`, `jsonify`, `get_result_detail`, `glob`,
  `open`, `json.load`, `os.path.exists` and `getsize` are I/O. A stored file
  reaches the model as its path, size and parsed content. A file that fails
  to open or parse is `None` and is skipped, as in the `except` branch.
- The crawler manager's source is not part of this model. `list_crawlers` is
  the `crawlers` parameter of `StartCrawl`. `run_all_crawlers`,
  `save_results` and the 500 they would answer on failure are left out.
- The model does not distinguish JSON `null` from an absent key; both are
  `None`. Values of the wrong JSON type are not modelled either. So the 500
  that Python raises when comparing a `null` price with 0 is not modelled.
  Neither is `int()` truncating a float field.
- The built-in in-place sorts are modelled as a stable sort on values, and the
  arrays they work on as sequence fields that are reassigned. The one
  aliasing effect the source has, the legacy payload's `products` array, is
  modelled explicitly.
- ResultView.ResultPage.ProcessResultData: keeps the page in range only when
  it starts from page 1. The source calls it once, right after start-up,
  when `currentPage` is 1.
- Platform names that are array indices are not modelled. JavaScript's
  `Object.values` (`static/result_detail.js:42`) lists such keys (`"1"`)
  first, in ascending order, whereas Python and the model keep insertion
  order. With a `results` key like `"1"` after `"b"`, the page's flattened
  list, and so the stable price sort's order among equal prices, differs
  from the model's.
- Products without `title` or `platform` are not modelled; `Product` always
  has both strings. In the source, `new Set(...)` counts a missing platform
  as one more platform (`static/result_detail.js:77`), and sorting by
  `title_asc` or `platform` can throw when a product lacks that field: only
  when it is the left operand of a comparison (`a.title.localeCompare`,
  `static/result_detail.js:360` and `:363`); as the right operand the
  missing value is compared as the string "undefined". Which comparisons the
  engine makes decides whether it throws; when it does, `currentPage = 1`
  and the re-render are skipped.
- Sorting.InsertionSort: stability, which the built-in sorts guarantee, is
  produced by the model but not stated as a lemma.
