# fattest-cat, modelled in Dafny

`fetch_cats.py` ranks the cats up for adoption at the San Francisco SPCA by
weight. It does five things:

- It crawls the paginated adoption listing and collects the profile path of every
  cat. Each path is kept once, in the order it was first seen.
- It splits those paths into cache hits and misses against a JSON cache of earlier
  runs.
- It builds a `Cat` per path. A hit is built from its cache entry (`parse_dict`). A
  miss is built from its fetched profile page: the title, plus `parse_age` and
  `parse_weight`. Each miss is stored in the cache (`to_dict`), and the cache is
  saved.
- It sorts the cats by total weight in ounces, heaviest first. The sort is stable.
- It prints a numbered ranking, one line per cat (`Cat.__str__`).

The model has seven modules, one file each:

| file | module | what it holds |
|---|---|---|
| `wrappers.dfy` | `Wrappers` | `Option` and `Result` |
| `text.dfy` | `Text` | `str.strip()`, `int()`/`str()` of decimal digits, the `<` and `>` alignments of `str.format` |
| `weight_scan.dfy` | `WeightScan` | the two weight regexes `([0-9]+)\s?lbs?\.` and `([0-9]+)\s?ozs?\.`; each is a scanner that returns the leftmost match, stated against a declarative match predicate |
| `records.dfy` | `Records` | the `Age`/`Weight` tuples, the cache-entry JSON and its decoder, and the `Cat` class, whose methods assign its fields as the Python methods do |
| `crawler.dfy` | `Crawler` | `fetch_cat_urls` as a `while` loop over a finite listing |
| `ranking.dfy` | `Ranking` | `sorted(..., key=-weight.int)` as a stable insertion sort, and the report loop |
| `pipeline.dfy` | `Pipeline` | `main`: partition, the hit loop, the miss loop (updating and saving the cache), ranking and report |

Two kinds of I/O become parameters:

- The network and the HTML parser become ordinary values:
  - a listing page is the sequence of `href` attributes of its profile anchors (`None` for a missing attribute);
  - a profile page is the text nodes of its three XPath queries;
  - `requests.get` of a profile is a function `fetch: string -> Option<ProfilePage>`, where `None` means the request raised.
- The cache file becomes a value. The loaded cache is a parameter. The saved cache is the map as it was last written.

A Python exception that ends the run becomes a `CatError`. A run that raises stops where the program would stop: the records built so far are discarded and nothing is printed. The cache keeps whatever was saved before the exception.

How the imperative code is proved:

- `Crawler.FetchCatUrls`, `Pipeline.BuildHits`, `Pipeline.BuildMisses` and `Ranking.Report` are loops. Each is proved equal to a pure function: `Collect`, `LoadAll` and `SaveAll` (the two build loops), and `RankLine`. `Pipeline.ProcessCats` has no loop of its own: it runs `BuildHits`, `BuildMisses` and `Report` in turn and is proved equal to `Expected`.
- The lemmas then prove what the program promises about those functions.

Three details of the code that are easy to misread:

- The report line left-aligns the name block in 40 columns (`'{: <40}'`, line 73). It is not right-aligned.
- The crawler stops after the first listing page with *no profile anchor at all* (lines 93-98). The flag is overwritten with the anchor list, so a page whose links were all seen before does not stop it. The stop is not "a page with no new links".
- The period after `lb`/`oz` is required (`\.`, lines 54 and 57). It is not optional: `"5 lbs"` gives 0 pounds.

## Model

| member | source | states |
|---|---|---|
| Text.Strip | fetch_cats.py:52 | `str.strip()`: the result neither starts nor ends with whitespace |
| Text.StripEncloses | fetch_cats.py:52 | the stripped text sits inside the original with only whitespace before and after it, so strip removes nothing else |
| Text.DecimalRoundTrip | fetch_cats.py:138 | `int(str(n)) == n` for the rank numbers printed |
| Text.PadRight | fetch_cats.py:73 | `'{: <w}'`: the text, then spaces up to width w; never shorter than the text |
| Text.PadLeft | fetch_cats.py:138 | `'{: >w}'`: spaces up to width w, then the text; never shorter than the text |
| Text.PadLeftNumberStrips | fetch_cats.py:138 | a right-aligned number strips back to its decimal spelling |
| WeightScan.RunEnd | fetch_cats.py:54 | greedy `[0-9]+`: the returned index ends a digit run at i, and the next character is not a digit |
| WeightScan.GroupIsWholeRun | fetch_cats.py:54 | the group of any match is the whole digit run at its start (the tail `\s?lbs?\.` never starts with a digit), so the first group is unique |
| WeightScan.FindFrom | fetch_cats.py:54-57 | the scanner returns a match with no match starting before it; None only when no match starts at or after i |
| WeightScan.QuantityIsLeftmost | fetch_cats.py:54-58 | `int((re.findall(p, s) + [0])[0])` is the number of the leftmost match, whatever that match is |
| WeightScan.QuantityWithoutMatch | fetch_cats.py:54-58 | with no match anywhere the quantity is 0 |
| WeightScan.PoundsOfPoundsAndOunces | fetch_cats.py:54-55 | "5 lbs. 3 oz." has 5 pounds |
| WeightScan.OuncesOfPoundsAndOunces | fetch_cats.py:57-58 | "5 lbs. 3 oz." has 3 ounces: the ounce pattern skips the pounds |
| WeightScan.PoundsOnly | fetch_cats.py:54-58 | "5 lbs." has 5 pounds and 0 ounces |
| WeightScan.PeriodIsRequired | fetch_cats.py:54-55 | "5 lbs" (no period) has 0 pounds |
| Records.AgeOf | fetch_cats.py:41-46 | a present age field gives its stripped text with number 0; a missing one gives `Age('Unknown', 0)` |
| Records.WeightFromText | fetch_cats.py:52-60 | pounds and ounces each come from their own pattern, independently of each other, and total = 16·lb + oz with both parts ≥ 0 |
| Records.WeightOf | fetch_cats.py:48-62 | a present weight field keeps its stripped text; a missing one gives `Weight('Unknown', 0, 0, 0)` |
| Records.WeightOfWellFormed | fetch_cats.py:54-62 | every weight `parse_weight` produces, the fallback included, has total = 16·lb + oz with lb, oz ≥ 0 |
| Records.WeightExamples | fetch_cats.py:54-60 | "5 lbs. 3 oz." is 83 ounces (5, 3); "5 lbs." is 80; "5 lbs" has no pounds |
| Records.ParseProfile | fetch_cats.py:30-33 | a page without a title raises (IndexError of `[0]`); otherwise the name is the stripped title and the weight is well formed |
| Records.DecodeAge | fetch_cats.py:38 | `Age(**d)` succeeds only on the entry `to_dict` writes for that age |
| Records.DecodeWeight | fetch_cats.py:39 | `Weight(**d)` succeeds only on the entry `to_dict` writes for that weight |
| Records.DecodeFields | fetch_cats.py:35-39 | a loaded entry holds the name, age and weight it was decoded from; it succeeds only on an object holding the three keys |
| Records.DecodeEncode | fetch_cats.py:64-70 | `parse_dict(to_dict(c))` gives back the same name, age and weight |
| Records.DecodeIgnoresUrl | fetch_cats.py:35-39 | the stored "url" key plays no part in loading |
| Records.CachedLoadIgnoresFetch | fetch_cats.py:24-25 | a cat built from a cache entry does not touch the network |
| Records.CacheReproducesPage | fetch_cats.py:24-33 | a cat parsed from its page, stored and later loaded from the cache, has the same fields |
| Records.Render | fetch_cats.py:72-80 | `Cat.__str__`: the label, padded with spaces to column 40 (or longer), then ": " and the full URL |
| Records.Cat.constructor | fetch_cats.py:19-22 | the profile path, the site and the full URL `url_base + profile_url` |
| Records.Cat.Load | fetch_cats.py:24-33 | the fields come from the cache entry when there is one, else from the fetched page; the error is the exception raised; `tree` is None after a cache load and the page after a fetch |
| Records.Cat.ParseDict | fetch_cats.py:35-39 | `tree` becomes None and the fields become the decoded entry, or the decoding error is returned |
| Records.Cat.ParseAge | fetch_cats.py:41-46 | only `age` changes, to `AgeOf` of the page's age nodes |
| Records.Cat.ParseWeight | fetch_cats.py:48-62 | only `weight` changes, to `WeightOf` of the page's weight nodes |
| Records.Cat.ToDict | fetch_cats.py:64-70 | the entry decodes back to the cat's fields and holds its profile path under "url" |
| Records.NewCat | fetch_cats.py:19-33 | `Cat(url, cache=...)` is a fresh cat with the loaded fields, or the exception its construction raised |
| Crawler.CollectContents | fetch_cats.py:94-96 | the collected list has no duplicates and holds exactly the non-empty hrefs seen |
| Crawler.CollectFirstSeenOrder | fetch_cats.py:94-96 | the collected list is in first-seen order |
| Crawler.CollectExtends | fetch_cats.py:94-96 | reading more anchors only appends to the list |
| Crawler.ScanPage | fetch_cats.py:93-97 | one listing page: every new non-empty href is appended in order, and the flag is true exactly when the page had an anchor |
| Crawler.FetchCatUrls | fetch_cats.py:83-100 | reads pages 0, 1, … and stops right after the first page with no anchor (every earlier page had one); the result is the collected list, duplicate-free and in first-seen order, and holds every non-empty href of every page read |
| Ranking.Insert | fetch_cats.py:134 | one insertion step adds exactly one element |
| Ranking.InsertPermutes | fetch_cats.py:134 | insertion is a permutation of the element and the list |
| Ranking.InsertKeepsOrder | fetch_cats.py:134 | inserting into a heaviest-first list keeps it heaviest first |
| Ranking.InsertKeepsTies | fetch_cats.py:134 | the inserted record goes before every record of its own weight |
| Ranking.SortByWeight | fetch_cats.py:134 | `sorted(cats, key=lambda k: -k.weight.int)` is a permutation of the cats, heaviest first |
| Ranking.SortIsStable | fetch_cats.py:134 | the cats of each weight keep their relative order (Python's sort is stable) |
| Ranking.SortExample | fetch_cats.py:134 | weights 80, 83, 0, 80 rank as 83, 80, 80, 0, the two 80s in input order |
| Ranking.RankLineNumber | fetch_cats.py:138 | the right-aligned number at the head of a report line reads back as its rank |
| Ranking.Report | fetch_cats.py:135-139 | "Ranking:" and then one line per cat, numbered from 1 in ranked order |
| Pipeline.Hits | fetch_cats.py:121 | the hits are exactly the crawled paths that are cache keys |
| Pipeline.Misses | fetch_cats.py:122 | the misses are exactly the crawled paths that are not cache keys |
| Pipeline.PartitionInterleaves | fetch_cats.py:121-122 | the crawled list is an interleaving of the hits and the misses: both are in-order subsequences, and each element goes to exactly one |
| Pipeline.InterleavingCovers | fetch_cats.py:121-122 | so hits and misses together cover the crawled list, element for element |
| Pipeline.LoadRecord | fetch_cats.py:125 | a built cat keeps its profile path and has URL `URL_BASE + path` |
| Pipeline.LoadAll | fetch_cats.py:124-132 | one loop builds cats in order, each from its own path, until the first exception, which belongs to the next path |
| Pipeline.LoadAllStops | fetch_cats.py:124-132 | after an exception the rest of the list is never reached |
| Pipeline.SaveAllContents | fetch_cats.py:130 | storing records adds their paths, keeps every other entry, and holds each record's `to_dict` |
| Pipeline.LoadedRecords | fetch_cats.py:124-132 | the record at index i is the record of path i, and one path has one record |
| Pipeline.SavedRecords | fetch_cats.py:128-131 | saving the misses keeps the loaded entries, stores each miss's entry under its path, and adds no other key |
| Pipeline.RunKeepsCachedEntries | fetch_cats.py:119-132 | entries cached when the run starts are unchanged, whether it completes or aborts |
| Pipeline.SavedCoversAll | fetch_cats.py:128-132 | when every miss builds, every crawled path has an entry |
| Pipeline.SavedOfRun | fetch_cats.py:124-131 | the saved cache is the loaded one or the loaded one plus the misses built; it is the loaded one when a hit raised, and the loaded one plus every miss after a complete run |
| Pipeline.CompleteRunCovers | fetch_cats.py:121-132 | for any loaders that keep paths, a complete run caches every path, and its cats are the hit records then the miss records |
| Pipeline.RunCachesEveryUrl | fetch_cats.py:121-132 | after a complete run every crawled path is a cache key, and the cats are the hit records followed by the miss records in crawl order |
| Pipeline.StoredEntry | fetch_cats.py:128-131 | each entry a run adds is the `to_dict` of the record built for that path |
| Pipeline.RunStoresReloadable | fetch_cats.py:128-131 | every entry a run stores, up to an abort too, loads back on a later run, without the network, as the record it was built from |
| Pipeline.RunFetchesOnlyMisses | fetch_cats.py:124-132 | only misses are requested, as `URL_BASE + path`; a complete run has requested every miss in crawl order |
| Pipeline.RequestsMisses | fetch_cats.py:124-132 | the same for any way of building the hits and the misses |
| Pipeline.RunCompletes | fetch_cats.py:124-134 | when every hit and every miss builds, the run's outcome has the hits then the misses as cats, their sort as ranking, and the misses saved |
| Pipeline.RunRanksByWeight | fetch_cats.py:134 | the ranking of a run is its cats reordered heaviest first, equal weights in their original order |
| Pipeline.BuildHits | fetch_cats.py:124-126 | the hit loop builds each hit from its cache entry, in order, until one raises |
| Pipeline.BuildMisses | fetch_cats.py:128-132 | the miss loop builds each miss from the network, stores each `to_dict` in the cache, and requests exactly the paths it tried |
| Pipeline.ProcessCats | fetch_cats.py:118-139 | `main` after the crawl produces exactly `Expected`; it prints nothing if the run raised, else "Ranking:" and a numbered line per ranked cat |
| Pipeline.Run | fetch_cats.py:116-139 | `main`: the crawl stopped at the first page without anchors, the crawled paths are the collected list, duplicate-free with no empty path, the rest of the run is `Expected` of them, and it prints nothing after an exception, else "Ranking:" and a numbered line per ranked cat |

## Left out

- HTTP (`requests.get`) and HTML parsing (`lxml` XPath) are foreign I/O. Both are parameters: pages as sequences of extracted hrefs, profiles as extracted text nodes, one fetch function.
- A network error on a listing page is not modelled. The crawler reads the pages of a finite listing, and every page past the end has no anchor.
- Whether the live crawl ends is not modelled. Over a finite listing it always ends.
- `load_cat_cache`/`save_cat_cache` (file I/O) are left out. The loaded cache is a parameter. The saved cache is the last value written, since each save overwrites the whole file. A missing cache file loads as the empty map, as does a file holding `{}`. A zero-byte or malformed file makes `json.load` raise; that failure is not modelled.
- `click.secho`, `progressbar` and `print` are UI. The printed ranking is returned as a list of lines. The "Reading page" messages are represented only by the page count.
- Python's `\s` and `str.strip()` cover all Unicode whitespace. The model uses the ASCII part: space, `\t` `\n` `\v` `\f` `\r` and `\x1c`-`\x1f`.
- Records.DecodeFields: JSON is limited to strings, integers and objects. A JSON `null` entry is not modelled: line 24 tests `cache is not None`, so such a hit would be fetched from the network, which `CachedLoadIgnoresFetch` and `RunFetchesOnlyMisses` do not allow for.
- Records.DecodeFields: a value of the wrong type (say a number where a name belongs) is rejected as `BadValue`. Python would store it unchecked and fail later, or not at all.
- `setup.py` is packaging metadata and is not part of this model.
