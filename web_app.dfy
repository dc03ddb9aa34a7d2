/**
 * The Flask server's data handling: the statistics endpoint's aggregation,
 * the result listing's per-file summary and ordering, and the crawl
 * request's validation. Routing, files and the crawler manager are outside
 * the model; a stored file reaches it already parsed.
 */
module WebApp {
  import opened Wrappers
  import opened Sorting
  import opened Payload
  import opened PriceStats
  import opened Strings
  import opened Seqs

  // ------------------------------------------------------------ statistics

  /** `stats['platforms'][platform]`. */
  datatype PlatformStats = PlatformStats(productCount: int, status: string, executionTime: real)

  /** The `stats` dictionary returned by the statistics endpoint. */
  datatype Statistics = Statistics(
    keyword: string,
    totalProducts: int,
    platforms: map<string, PlatformStats>,
    priceStats: Summary)

  /** A platform's entry: its declared count, status and time, with the
      defaults 0, 'unknown' and 0. */
  function StatsOf(r: PlatformResult): PlatformStats {
    PlatformStats(r.totalProducts.GetOr(0), r.status.GetOr("unknown"), r.executionTime.GetOr(0.0))
  }

  /** Sum of the platforms' declared `total_products` (not of their list lengths). */
  function DeclaredTotal(entries: seq<(string, PlatformResult)>): int {
    if entries == [] then 0
    else DeclaredTotal(entries[..|entries| - 1]) + entries[|entries| - 1].1.totalProducts.GetOr(0)
  }

  /** The platform table after the loop has stored every entry. */
  function PlatformTable(entries: seq<(string, PlatformResult)>): map<string, PlatformStats> {
    if entries == [] then map[]
    else
      var e := entries[|entries| - 1];
      PlatformTable(entries[..|entries| - 1])[e.0 := StatsOf(e.1)]
  }

  /** The table's keys are exactly the `results` keys. */
  lemma {:induction false} PlatformTableKeys(entries: seq<(string, PlatformResult)>, key: string)
    ensures key in PlatformTable(entries) <==> exists i :: 0 <= i < |entries| && entries[i].0 == key
    decreases |entries|
  {
    if entries != [] {
      var n := |entries| - 1;
      var prefix := entries[..n];
      PlatformTableKeys(prefix, key);
      if key in PlatformTable(prefix) {
        var i :| 0 <= i < n && prefix[i].0 == key;
        assert entries[i] == prefix[i];
      }
      if exists i :: 0 <= i < |entries| && entries[i].0 == key {
        var i :| 0 <= i < |entries| && entries[i].0 == key;
        if i < n {
          assert prefix[i] == entries[i];
        }
      }
    }
  }

  /** Each platform's entry holds that platform's figures. */
  lemma {:induction false} PlatformTableLookup(entries: seq<(string, PlatformResult)>, i: int)
    requires DistinctKeys(entries)
    requires 0 <= i < |entries|
    ensures entries[i].0 in PlatformTable(entries)
    ensures PlatformTable(entries)[entries[i].0] == StatsOf(entries[i].1)
    decreases |entries|
  {
    var n := |entries| - 1;
    if i < n {
      var prefix := entries[..n];
      assert prefix[i] == entries[i];
      PlatformTableLookup(prefix, i);
    }
  }

  /** One table entry per `results` key. */
  lemma {:induction false} PlatformTableSize(entries: seq<(string, PlatformResult)>)
    requires DistinctKeys(entries)
    ensures |PlatformTable(entries)| == |entries|
    decreases |entries|
  {
    if entries != [] {
      var n := |entries| - 1;
      var prefix := entries[..n];
      PlatformTableSize(prefix);
      PlatformTableKeys(prefix, entries[n].0);
      assert entries[n].0 !in PlatformTable(prefix);
    }
  }

  /** The statistics endpoint's aggregation over a parsed result file. */
  method GetStatistics(data: ResultFile) returns (stats: Statistics)
    ensures stats.keyword == data.keyword.GetOr("")
    ensures data.results.Some? ==>
      && stats.totalProducts == DeclaredTotal(data.results.value)
      && stats.platforms == PlatformTable(data.results.value)
    ensures data.results.None? && data.products.Some? ==>
      && stats.totalProducts == |data.products.value|
      && stats.platforms == map[data.platform.GetOr("unknown") := PlatformStats(|data.products.value|, "success", 0.0)]
    ensures data.results.None? && data.products.None? ==>
      stats.totalProducts == 0 && stats.platforms == map[]
    ensures stats.priceStats == Summarize(PositivePrices(Flatten(data)))
  {
    var keyword := data.keyword.GetOr("");
    var totalProducts := 0;
    var platforms: map<string, PlatformStats> := map[];
    var allPrices: seq<int> := [];
    if data.results.Some? {
      var results := data.results.value;
      var i := 0;
      while i < |results|
        invariant 0 <= i <= |results|
        invariant totalProducts == DeclaredTotal(results[..i])
        invariant platforms == PlatformTable(results[..i])
        invariant allPrices == PositivePrices(FlattenResults(results[..i]))
      {
        var (platform, result) := results[i];
        ghost var done := results[..i + 1];
        assert done[..i] == results[..i] && done[i] == results[i];
        assert DeclaredTotal(done) == DeclaredTotal(results[..i]) + result.totalProducts.GetOr(0);
        assert PlatformTable(done) == PlatformTable(results[..i])[platform := StatsOf(result)];
        assert FlattenResults(done) == FlattenResults(results[..i]) + ProductsOf(result);
        var platformStats := StatsOf(result);
        platforms := platforms[platform := platformStats];
        totalProducts := totalProducts + platformStats.productCount;
        var products := result.products.GetOr([]);
        var j := 0;
        while j < |products|
          invariant 0 <= j <= |products|
          invariant allPrices == PositivePrices(FlattenResults(results[..i])) + PositivePrices(products[..j])
        {
          assert products[..j + 1][..j] == products[..j];
          var price := products[j].price.GetOr(0);
          if price > 0 {
            allPrices := allPrices + [price];
          }
          j := j + 1;
        }
        assert products[..|products|] == products;
        PositivePricesAppend(FlattenResults(results[..i]), products);
        i := i + 1;
      }
      assert results[..|results|] == results;
    } else if data.products.Some? {
      var products := data.products.value;
      var platform := data.platform.GetOr("unknown");
      platforms := platforms[platform := PlatformStats(|products|, "success", 0.0)];
      totalProducts := |products|;
      var j := 0;
      while j < |products|
        invariant 0 <= j <= |products|
        invariant allPrices == PositivePrices(products[..j])
      {
        assert products[..j + 1][..j] == products[..j];
        var price := products[j].price.GetOr(0);
        if price > 0 {
          allPrices := allPrices + [price];
        }
        j := j + 1;
      }
      assert products[..|products|] == products;
    }
    stats := Statistics(keyword, totalProducts, platforms, Summarize(allPrices));
  }

  // --------------------------------------------------------- result listing

  /** A `*.json` file of the output directory: its path, its size, and its
      parsed content, `None` when opening or parsing it failed. */
  datatype StoredFile = StoredFile(path: string, size: nat, content: Option<ResultFile>)

  /** One entry of the listing (`file_info`). */
  datatype FileInfo = FileInfo(
    filename: string,
    filepath: string,
    keyword: string,
    totalProducts: int,
    crawlTime: string,
    fileSize: nat,
    platforms: seq<string>)

  /** The platform names listed for a file: the `results` keys in order, or
      the single legacy `platform`, 'unknown' when absent. */
  function PlatformNames(data: ResultFile): (r: seq<string>)
    ensures data.results.Some? ==>
      |r| == |data.results.value| && forall i :: 0 <= i < |r| ==> r[i] == data.results.value[i].0
    ensures data.results.None? ==> r == [data.platform.GetOr("unknown")]
  {
    if data.results.Some? then
      var entries := data.results.value;
      seq(|entries|, i requires 0 <= i < |entries| => entries[i].0)
    else [data.platform.GetOr("unknown")]
  }

  function InfoOf(f: StoredFile, data: ResultFile): FileInfo {
    FileInfo(Basename(f.path), f.path, data.keyword.GetOr("unknown"), data.totalProducts.GetOr(0),
             data.crawlTime.GetOr(""), f.size, PlatformNames(data))
  }

  /** A file's entry, or `None` when it could not be read (the `except`
      branch, which only logs). */
  function ReadEntry(f: StoredFile): Option<FileInfo> {
    if f.content.Some? then Some(InfoOf(f, f.content.value)) else None
  }

  /** The entries of the readable files, in directory order. */
  function Listed(files: seq<StoredFile>): seq<FileInfo> {
    FilterMap(files, ReadEntry)
  }

  /** Every readable file, and nothing else, has an entry. */
  lemma ListedMember(files: seq<StoredFile>, info: FileInfo)
    ensures info in Listed(files) <==>
      exists i :: 0 <= i < |files| && files[i].content.Some? && info == InfoOf(files[i], files[i].content.value)
  {
    if info in Listed(files) {
      FilterMapSound(files, ReadEntry, info);
    }
    if exists i :: 0 <= i < |files| && files[i].content.Some? && info == InfoOf(files[i], files[i].content.value) {
      var i :| 0 <= i < |files| && files[i].content.Some? && info == InfoOf(files[i], files[i].content.value);
      FilterMapComplete(files, ReadEntry, i);
    }
  }

  /** `sort(key=crawl_time, reverse=True)`: later times first. */
  const NewestFirst: (FileInfo, FileInfo) -> bool := (a: FileInfo, b: FileInfo) => StrLe(b.crawlTime, a.crawlTime)

  lemma NewestFirstIsPreorder()
    ensures TotalPreorder(NewestFirst)
  {
    forall a: FileInfo, b: FileInfo ensures NewestFirst(a, b) || NewestFirst(b, a) {
      StrLeTotal(a.crawlTime, b.crawlTime);
    }
    forall a: FileInfo, b: FileInfo, c: FileInfo | NewestFirst(a, b) && NewestFirst(b, c)
      ensures NewestFirst(a, c)
    {
      StrLeTransitive(c.crawlTime, b.crawlTime, a.crawlTime);
    }
  }

  /** The result listing endpoint over the directory's files. */
  method ListResults(files: seq<StoredFile>) returns (listing: seq<FileInfo>)
    ensures listing == InsertionSort(Listed(files), NewestFirst)
    ensures multiset(listing) == multiset(Listed(files))
    ensures forall i, j :: 0 <= i < j < |listing| ==> StrLe(listing[j].crawlTime, listing[i].crawlTime)
  {
    listing := [];
    var k := 0;
    while k < |files|
      invariant 0 <= k <= |files|
      invariant listing == Listed(files[..k])
    {
      assert files[..k + 1][..k] == files[..k];
      var f := files[k];
      assert Listed(files[..k + 1]) == Listed(files[..k]) + (if f.content.Some? then [InfoOf(f, f.content.value)] else []);
      if f.content.Some? {
        listing := listing + [InfoOf(f, f.content.value)];
      }
      k := k + 1;
    }
    assert files[..|files|] == files;
    ghost var unsorted := listing;
    listing := InsertionSort(listing, NewestFirst);
    NewestFirstIsPreorder();
    InsertionSortSorted(unsorted, NewestFirst);
    assert SortedBy(listing, NewestFirst);
  }

  // ----------------------------------------------------------- crawl start

  /** A numeric request field before `int(...)`: absent, an integer, or a
      value `int` rejects. */
  datatype Field = Missing | Whole(n: int) | Malformed

  /** The JSON body of a crawl request. */
  datatype CrawlRequest = CrawlRequest(
    keyword: Option<string>,
    platforms: Option<seq<string>>,
    maxProducts: Field,
    minPrice: Field,
    maxPrice: Field)

  /** The arguments handed to the crawler manager. */
  datatype CrawlJob = CrawlJob(keyword: string, platforms: seq<string>, maxProducts: int, minPrice: int, maxPrice: int)

  /** The outcome before any crawler runs: a 400, a 500, or a job to run. */
  datatype CrawlStart = BadRequest | ServerError | Launch(job: CrawlJob)

  /** `int(data.get(key, default))`; `None` when `int` raises. */
  function ToInt(f: Field, default: int): Option<int> {
    match f
    case Missing => Some(default)
    case Whole(n) => Some(n)
    case Malformed => None
  }

  predicate NumbersParse(req: CrawlRequest) {
    ToInt(req.maxProducts, 100).Some? && ToInt(req.minPrice, 0).Some? && ToInt(req.maxPrice, 999999).Some?
  }

  /** The crawl endpoint up to the crawler call. A missing body raises and is
      answered 500, as is a numeric field `int` rejects (these conversions
      come before the keyword check); an empty keyword is answered 400; an
      empty platform list means every crawler. */
  function StartCrawl(body: Option<CrawlRequest>, crawlers: seq<string>): (r: CrawlStart)
    ensures r.ServerError? <==> body.None? || !NumbersParse(body.value)
    ensures r.BadRequest? <==> body.Some? && NumbersParse(body.value) && body.value.keyword.GetOr("") == ""
    ensures r.Launch? ==>
      && r.job.keyword != ""
      && Some(r.job.keyword) == body.value.keyword
      && r.job.platforms == (if body.value.platforms.GetOr([]) == [] then crawlers else body.value.platforms.value)
      && (body.value.maxProducts.Missing? ==> r.job.maxProducts == 100)
      && (body.value.minPrice.Missing? ==> r.job.minPrice == 0)
      && (body.value.maxPrice.Missing? ==> r.job.maxPrice == 999999)
      && (body.value.maxProducts.Whole? ==> r.job.maxProducts == body.value.maxProducts.n)
      && (body.value.minPrice.Whole? ==> r.job.minPrice == body.value.minPrice.n)
      && (body.value.maxPrice.Whole? ==> r.job.maxPrice == body.value.maxPrice.n)
  {
    if body.None? then ServerError
    else
      var req := body.value;
      var keyword := req.keyword.GetOr("");
      var platforms := req.platforms.GetOr([]);
      var maxProducts := ToInt(req.maxProducts, 100);
      var minPrice := ToInt(req.minPrice, 0);
      var maxPrice := ToInt(req.maxPrice, 999999);
      if maxProducts.None? || minPrice.None? || maxPrice.None? then ServerError
      else if keyword == "" then BadRequest
      else
        var chosen := if platforms == [] then crawlers else platforms;
        Launch(CrawlJob(keyword, chosen, maxProducts.value, minPrice.value, maxPrice.value))
  }
}
