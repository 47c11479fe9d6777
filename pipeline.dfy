/** `main` (lines 116-139): crawl the listing, split the profile paths into cache
    hits and misses, build the hits from the cache and the misses from the network
    (storing each one in the cache and saving it), rank by weight and report. */
module Pipeline {
  import opened Wrappers
  import opened Records
  import opened Crawler
  import opened Ranking

  /** The cache: profile path to the entry `to_dict` wrote. */
  type Cache = map<string, Json>

  // ---------------------------------------------------------------- partition

  /** `[cat for cat in cat_urls if cat in cat_cache]`. */
  function Hits(urls: seq<string>, cache: Cache): (r: seq<string>)
    ensures forall u :: u in r <==> u in urls && u in cache
  {
    if urls == [] then []
    else (if urls[0] in cache then [urls[0]] else []) + Hits(urls[1..], cache)
  }

  /** `[cat for cat in cat_urls if cat not in cat_cache]`. */
  function Misses(urls: seq<string>, cache: Cache): (r: seq<string>)
    ensures forall u :: u in r <==> u in urls && u !in cache
  {
    if urls == [] then []
    else (if urls[0] !in cache then [urls[0]] else []) + Misses(urls[1..], cache)
  }

  /** u is an interleaving of a and b: both are in-order subsequences of u and
      every element of u comes from exactly one of them. */
  predicate Interleaving(u: seq<string>, a: seq<string>, b: seq<string>)
    decreases |u|
  {
    if u == [] then a == [] && b == []
    else
      (a != [] && a[0] == u[0] && Interleaving(u[1..], a[1..], b)) ||
      (b != [] && b[0] == u[0] && Interleaving(u[1..], a, b[1..]))
  }

  /** The crawled list is split, in order, into the hits and the misses. */
  lemma {:induction false} PartitionInterleaves(urls: seq<string>, cache: Cache)
    ensures Interleaving(urls, Hits(urls, cache), Misses(urls, cache))
    decreases |urls|
  {
    if urls != [] {
      PartitionInterleaves(urls[1..], cache);
      var h, m := Hits(urls[1..], cache), Misses(urls[1..], cache);
      if urls[0] in cache {
        assert Hits(urls, cache) == [urls[0]] + h && Misses(urls, cache) == m;
        assert ([urls[0]] + h)[1..] == h;
      } else {
        assert Hits(urls, cache) == h && Misses(urls, cache) == [urls[0]] + m;
        assert ([urls[0]] + m)[1..] == m;
      }
    }
  }

  /** An interleaving accounts for every element with its multiplicity. */
  lemma {:induction false} InterleavingCovers(u: seq<string>, a: seq<string>, b: seq<string>)
    requires Interleaving(u, a, b)
    ensures multiset(u) == multiset(a) + multiset(b)
    decreases |u|
  {
    if u != [] {
      assert u == [u[0]] + u[1..];
      if a != [] && a[0] == u[0] && Interleaving(u[1..], a[1..], b) {
        InterleavingCovers(u[1..], a[1..], b);
        assert a == [a[0]] + a[1..];
      } else {
        InterleavingCovers(u[1..], a, b[1..]);
        assert b == [b[0]] + b[1..];
      }
    }
  }

  // ---------------------------------------------------------------- loading

  /** The record a profile path yields: `Cat(url, cache=entry)` or `Cat(url)`. */
  function LoadRecord(profileUrl: string, entry: Option<Json>, fetch: string -> Option<ProfilePage>): (r: Result<CatRecord, CatError>)
    ensures r.Success? ==> r.value.profileUrl == profileUrl && r.value.url == URL_BASE + profileUrl
  {
    match LoadFields(URL_BASE + profileUrl, entry, fetch)
    case Success(f) => Success(CatRecord(profileUrl, URL_BASE + profileUrl, f))
    case Failure(e) => Failure(e)
  }

  /** How the hit loop builds a cat: from its cache entry, without the network. */
  function FromCache(cache: Cache, fetch: string -> Option<ProfilePage>): string -> Result<CatRecord, CatError>
  {
    u => LoadRecord(u, if u in cache then Some(cache[u]) else None, fetch)
  }

  /** How the miss loop builds a cat: from its fetched profile page. */
  function FromNetwork(fetch: string -> Option<ProfilePage>): string -> Result<CatRecord, CatError>
  {
    u => LoadRecord(u, None, fetch)
  }

  /** The records built from urls up to the first exception, and that exception. */
  datatype Loaded = Loaded(records: seq<CatRecord>, error: Option<CatError>)

  /** One of the two loops of lines 124-132: build a cat per path, in order, until one raises. */
  function LoadAll(urls: seq<string>, load: string -> Result<CatRecord, CatError>): (r: Loaded)
    ensures |r.records| <= |urls|
    ensures r.error.None? ==> |r.records| == |urls|
    ensures forall i :: 0 <= i < |r.records| ==> load(urls[i]) == Success(r.records[i])
    ensures r.error.Some? ==> |r.records| < |urls| && load(urls[|r.records|]) == Failure(r.error.value)
    decreases |urls|
  {
    if urls == [] then Loaded([], None)
    else
      var n := |urls| - 1;
      var prev := LoadAll(urls[..n], load);
      if prev.error.Some? then prev
      else
        match load(urls[n])
        case Failure(e) => Loaded(prev.records, Some(e))
        case Success(c) => Loaded(prev.records + [c], None)
  }

  /** Once a prefix raised, the rest of the list is never reached. */
  lemma {:induction false} LoadAllStops(urls: seq<string>, k: nat, load: string -> Result<CatRecord, CatError>)
    requires k <= |urls| && LoadAll(urls[..k], load).error.Some?
    ensures LoadAll(urls, load) == LoadAll(urls[..k], load)
    decreases |urls| - k
  {
    if k < |urls| {
      var n := |urls| - 1;
      assert urls[..n][..k] == urls[..k];
      LoadAllStops(urls[..n], k, load);
    } else {
      assert urls[..k] == urls;
    }
  }

  lemma LoadAllStep(urls: seq<string>, i: nat, load: string -> Result<CatRecord, CatError>)
    requires i < |urls| && LoadAll(urls[..i], load).error.None?
    ensures LoadAll(urls[..i + 1], load) ==
      match load(urls[i])
      case Failure(e) => Loaded(LoadAll(urls[..i], load).records, Some(e))
      case Success(c) => Loaded(LoadAll(urls[..i], load).records + [c], None)
  {
    assert urls[..i + 1][..i] == urls[..i];
  }

  // ---------------------------------------------------------------- the cache

  /** The entry `to_dict` writes for a record. */
  function EntryOf(r: CatRecord): Json
  {
    EncodeFields(r.profileUrl, r.fields)
  }

  /** `cat_cache[cat] = cat_info.to_dict()` for each record, in order. */
  function SaveAll(cache: Cache, records: seq<CatRecord>): Cache
    decreases |records|
  {
    if records == [] then cache
    else
      var last := records[|records| - 1];
      SaveAll(cache, records[..|records| - 1])[last.profileUrl := EntryOf(last)]
  }

  lemma SaveAllStep(cache: Cache, records: seq<CatRecord>, r: CatRecord)
    ensures SaveAll(cache, records + [r]) == SaveAll(cache, records)[r.profileUrl := EntryOf(r)]
  {
    assert (records + [r])[..|records|] == records;
  }

  /** The profile paths of a list of records. */
  function PathsOf(records: seq<CatRecord>): (r: seq<string>)
    ensures |r| == |records| && forall i :: 0 <= i < |records| ==> r[i] == records[i].profileUrl
  {
    seq(|records|, i requires 0 <= i < |records| => records[i].profileUrl)
  }

  lemma PathsOfAppend(a: seq<CatRecord>, b: seq<CatRecord>)
    ensures PathsOf(a + b) == PathsOf(a) + PathsOf(b)
  {
    var l, r := PathsOf(a + b), PathsOf(a) + PathsOf(b);
    forall i | 0 <= i < |l|
      ensures l[i] == r[i]
    {
      if i < |a| {
        assert (a + b)[i] == a[i];
      } else {
        assert (a + b)[i] == b[i - |a|];
      }
    }
  }

  /** What storing does to the cache: it gains the stored paths, keeps every other
      entry, and holds for each stored path the entry of its record. */
  lemma {:induction false} SaveAllContents(cache: Cache, records: seq<CatRecord>)
    requires forall i, j :: 0 <= i < |records| && 0 <= j < |records| && records[i].profileUrl == records[j].profileUrl ==> records[i] == records[j]
    ensures forall u :: u in SaveAll(cache, records) <==> u in cache || u in PathsOf(records)
    ensures forall u :: u in cache && u !in PathsOf(records) ==> SaveAll(cache, records)[u] == cache[u]
    ensures forall i :: 0 <= i < |records| ==>
      records[i].profileUrl in SaveAll(cache, records) && SaveAll(cache, records)[records[i].profileUrl] == EntryOf(records[i])
    decreases |records|
  {
    if records != [] {
      var n := |records| - 1;
      var init := records[..n];
      SaveAllContents(cache, init);
      var before := SaveAll(cache, init);
      assert SaveAll(cache, records) == before[records[n].profileUrl := EntryOf(records[n])];
      assert PathsOf(records) == PathsOf(init) + [records[n].profileUrl];
      forall i | 0 <= i < |records|
        ensures records[i].profileUrl in SaveAll(cache, records)
      ensures SaveAll(cache, records)[records[i].profileUrl] == EntryOf(records[i])
      {
        if records[i].profileUrl != records[n].profileUrl {
          assert i < n && init[i] == records[i];
        }
      }
    }
  }

  /** The full URLs `Cat(url)` requests for a list of profile paths. */
  function FullUrls(paths: seq<string>): seq<string>
  {
    seq(|paths|, i requires 0 <= i < |paths| => URL_BASE + paths[i])
  }

  /** Requesting one more path extends the requests by its full URL. */
  lemma FullUrlsStep(paths: seq<string>, i: nat)
    requires i < |paths|
    ensures FullUrls(paths[..i + 1]) == FullUrls(paths[..i]) + [URL_BASE + paths[i]]
  {
    var l, r := FullUrls(paths[..i + 1]), FullUrls(paths[..i]) + [URL_BASE + paths[i]];
    forall k | 0 <= k < |l|
      ensures l[k] == r[k]
    {
      assert paths[..i + 1][k] == paths[k];
      if k < i {
        assert paths[..i][k] == paths[k];
      }
    }
  }

  // ---------------------------------------------------------------- the run

  /** What a run leaves behind: the exception that aborted it, if any; the list of
      cats before and after sorting (empty after an abort); the cache as last saved
      (or as loaded, if it was never saved); the profile URLs requested. */
  datatype Outcome = Outcome(error: Option<CatError>, cats: seq<CatRecord>, ranked: seq<CatRecord>,
                             saved: Cache, requested: seq<string>)

  /** Lines 119-134 for any way of building the hits (`cached`) and the misses
      (`network`). */
  function RunWith(catUrls: seq<string>, loaded: Cache,
                   cached: string -> Result<CatRecord, CatError>,
                   network: string -> Result<CatRecord, CatError>): Outcome
  {
    var misses := Misses(catUrls, loaded);
    var h := LoadAll(Hits(catUrls, loaded), cached);
    if h.error.Some? then Outcome(h.error, [], [], loaded, [])
    else
      var m := LoadAll(misses, network);
      var tried := |m.records| + (if m.error.Some? then 1 else 0);
      if m.error.Some? then Outcome(m.error, [], [], SaveAll(loaded, m.records), FullUrls(misses[..tried]))
      else
        var cats := h.records + m.records;
        Outcome(None, cats, SortByWeight(cats), SaveAll(loaded, m.records), FullUrls(misses))
  }

  /** Lines 119-134 as a function of the crawled paths, the loaded cache and the network. */
  function Expected(catUrls: seq<string>, loaded: Cache, fetch: string -> Option<ProfilePage>): Outcome
  {
    RunWith(catUrls, loaded, FromCache(loaded, fetch), FromNetwork(fetch))
  }

  /** A way of building cats keeps the profile path it was given. */
  ghost predicate KeepsPath(load: string -> Result<CatRecord, CatError>)
  {
    forall u :: load(u).Success? ==> load(u).value.profileUrl == u
  }

  lemma LoadersKeepPath(loaded: Cache, fetch: string -> Option<ProfilePage>)
    ensures KeepsPath(FromCache(loaded, fetch)) && KeepsPath(FromNetwork(fetch))
  {
  }

  /** The records built for a list of paths: each is the record of the path at its
      index, and one path has one record. */
  lemma LoadedRecords(urls: seq<string>, load: string -> Result<CatRecord, CatError>)
    requires KeepsPath(load)
    ensures var rs := LoadAll(urls, load).records;
      PathsOf(rs) == urls[..|rs|] &&
      forall i, j :: 0 <= i < |rs| && 0 <= j < |rs| && rs[i].profileUrl == rs[j].profileUrl ==> rs[i] == rs[j]
  {
    var rs := LoadAll(urls, load).records;
    forall i | 0 <= i < |rs|
      ensures rs[i].profileUrl == urls[i]
    {
      assert load(urls[i]) == Success(rs[i]);
    }
  }

  /** What saving the records built for uncached paths does to the cache: the
      loaded entries stay, each path gets the entry of its record, and nothing else
      is added. */
  lemma SavedRecords(urls: seq<string>, loaded: Cache, network: string -> Result<CatRecord, CatError>)
    requires KeepsPath(network)
    requires forall u :: u in urls ==> u !in loaded
    ensures var rs := LoadAll(urls, network).records;
      var saved := SaveAll(loaded, rs);
      (forall u :: u in loaded ==> u in saved && saved[u] == loaded[u]) &&
      (forall i :: 0 <= i < |rs| ==> urls[i] in saved && saved[urls[i]] == EntryOf(rs[i])) &&
      (forall u :: u in saved && u !in loaded ==> exists i :: 0 <= i < |rs| && u == urls[i])
  {
    var rs := LoadAll(urls, network).records;
    LoadedRecords(urls, network);
    SaveAllContents(loaded, rs);
    forall i | 0 <= i < |rs|
      ensures PathsOf(rs)[i] == urls[i] && urls[i] !in loaded
    {
      assert urls[..|rs|][i] == urls[i] && urls[i] in urls;
    }
  }

  /** SavedRecords for the misses of a run. */
  lemma SavedMisses(catUrls: seq<string>, loaded: Cache, network: string -> Result<CatRecord, CatError>)
    requires KeepsPath(network)
    ensures var misses := Misses(catUrls, loaded);
      var rs := LoadAll(misses, network).records;
      var saved := SaveAll(loaded, rs);
      (forall u :: u in loaded ==> u in saved && saved[u] == loaded[u]) &&
      (forall i :: 0 <= i < |rs| ==> misses[i] in saved && saved[misses[i]] == EntryOf(rs[i])) &&
      (forall u :: u in saved && u !in loaded ==> exists i :: 0 <= i < |rs| && u == misses[i])
  {
    SavedRecords(Misses(catUrls, loaded), loaded, network);
  }

  /** Entries that were cached when the run started are never changed, whether
      the run completes or aborts. */
  lemma RunKeepsCachedEntries(catUrls: seq<string>, loaded: Cache, fetch: string -> Option<ProfilePage>)
    ensures var o := Expected(catUrls, loaded, fetch);
      forall u :: u in loaded ==> u in o.saved && o.saved[u] == loaded[u]
  {
    LoadersKeepPath(loaded, fetch);
    SavedMisses(catUrls, loaded, FromNetwork(fetch));
  }

  /** Once every miss is built, every crawled path has an entry. */
  lemma SavedCoversAll(catUrls: seq<string>, loaded: Cache, network: string -> Result<CatRecord, CatError>)
    requires KeepsPath(network)
    requires LoadAll(Misses(catUrls, loaded), network).error.None?
    ensures forall u :: u in catUrls ==> u in SaveAll(loaded, LoadAll(Misses(catUrls, loaded), network).records)
  {
    var misses := Misses(catUrls, loaded);
    SavedMisses(catUrls, loaded, network);
    forall u | u in catUrls && u !in loaded
      ensures u in SaveAll(loaded, LoadAll(misses, network).records)
    {
      assert u in misses;
      var i :| 0 <= i < |misses| && misses[i] == u;
    }
  }

  /** The cache a run leaves: as loaded when a hit raised, otherwise with the
      misses built before the end or the first exception. */
  lemma SavedOfRun(catUrls: seq<string>, loaded: Cache,
                   cached: string -> Result<CatRecord, CatError>,
                   network: string -> Result<CatRecord, CatError>)
    ensures var o := RunWith(catUrls, loaded, cached, network);
      var m := LoadAll(Misses(catUrls, loaded), network);
      o.saved == loaded || o.saved == SaveAll(loaded, m.records)
    ensures var o := RunWith(catUrls, loaded, cached, network);
      o.error.None? ==> o.saved == SaveAll(loaded, LoadAll(Misses(catUrls, loaded), network).records)
    ensures LoadAll(Hits(catUrls, loaded), cached).error.Some? ==>
      RunWith(catUrls, loaded, cached, network).saved == loaded
  {
  }

  /** A complete run, for any way of building cats that keeps paths: every crawled
      path gets an entry, and the cats are the hit records and then the miss records. */
  lemma CompleteRunCovers(catUrls: seq<string>, loaded: Cache,
                          cached: string -> Result<CatRecord, CatError>,
                          network: string -> Result<CatRecord, CatError>, h: seq<CatRecord>, m: seq<CatRecord>)
    requires KeepsPath(cached) && KeepsPath(network)
    requires LoadAll(Hits(catUrls, loaded), cached) == Loaded(h, None)
    requires LoadAll(Misses(catUrls, loaded), network) == Loaded(m, None)
    ensures forall u :: u in catUrls ==> u in SaveAll(loaded, m)
    ensures PathsOf(h + m) == Hits(catUrls, loaded) + Misses(catUrls, loaded)
  {
    var hits, misses := Hits(catUrls, loaded), Misses(catUrls, loaded);
    SavedCoversAll(catUrls, loaded, network);
    LoadedRecords(hits, cached);
    LoadedRecords(misses, network);
    assert hits[..|h|] == hits && misses[..|m|] == misses;
    PathsOfAppend(h, m);
  }

  /** After a complete run every crawled path is a key of the saved cache, and the
      list of cats is the hit records followed by the miss records, in crawl order. */
  lemma RunCachesEveryUrl(catUrls: seq<string>, loaded: Cache, fetch: string -> Option<ProfilePage>)
    requires Expected(catUrls, loaded, fetch).error.None?
    ensures var o := Expected(catUrls, loaded, fetch);
      (forall u :: u in catUrls ==> u in o.saved) &&
      PathsOf(o.cats) == Hits(catUrls, loaded) + Misses(catUrls, loaded)
  {
    var cached, network := FromCache(loaded, fetch), FromNetwork(fetch);
    var h := LoadAll(Hits(catUrls, loaded), cached);
    var m := LoadAll(Misses(catUrls, loaded), network);
    assert h.error.None? && m.error.None?;
    LoadersKeepPath(loaded, fetch);
    RunCompletes(catUrls, loaded, cached, network, h.records, m.records);
    CompleteRunCovers(catUrls, loaded, cached, network, h.records, m.records);
  }

  /** Each entry a run adds is the entry of the record built for that path. */
  lemma StoredEntry(catUrls: seq<string>, loaded: Cache,
                    cached: string -> Result<CatRecord, CatError>,
                    network: string -> Result<CatRecord, CatError>, u: string)
    requires KeepsPath(network)
    requires u in RunWith(catUrls, loaded, cached, network).saved && u !in loaded
    ensures network(u).Success? && RunWith(catUrls, loaded, cached, network).saved[u] == EntryOf(network(u).value)
  {
    var misses := Misses(catUrls, loaded);
    var m := LoadAll(misses, network);
    SavedOfRun(catUrls, loaded, cached, network);
    SavedMisses(catUrls, loaded, network);
    var i :| 0 <= i < |m.records| && u == misses[i];
    assert network(misses[i]) == Success(m.records[i]);
  }

  /** Every entry a run stores loads back, on a later run and without the network,
      as the record it was built from; this holds up to an abort too, since each
      miss is saved as soon as it is built. */
  lemma RunStoresReloadable(catUrls: seq<string>, loaded: Cache, fetch: string -> Option<ProfilePage>,
                            later: string -> Option<ProfilePage>, u: string)
    requires u in Expected(catUrls, loaded, fetch).saved && u !in loaded
    ensures LoadRecord(u, Some(Expected(catUrls, loaded, fetch).saved[u]), later) == LoadRecord(u, None, fetch)
  {
    LoadersKeepPath(loaded, fetch);
    StoredEntry(catUrls, loaded, FromCache(loaded, fetch), FromNetwork(fetch), u);
    var r := FromNetwork(fetch)(u).value;
    assert LoadRecord(u, None, fetch) == Success(r);
    DecodeEncode(u, r.fields);
  }

  /** Only misses are requested from the network, in crawl order, and after a
      complete run every miss has been requested. */
  lemma RunFetchesOnlyMisses(catUrls: seq<string>, loaded: Cache, fetch: string -> Option<ProfilePage>)
    ensures var o := Expected(catUrls, loaded, fetch);
      (forall r :: r in o.requested ==> exists u :: u in catUrls && u !in loaded && r == URL_BASE + u) &&
      (o.error.None? ==> o.requested == FullUrls(Misses(catUrls, loaded)))
  {
    RequestsMisses(catUrls, loaded, FromCache(loaded, fetch), FromNetwork(fetch));
  }

  /** RunFetchesOnlyMisses for any way of building the hits and the misses. */
  lemma RequestsMisses(catUrls: seq<string>, loaded: Cache, cached: string -> Result<CatRecord, CatError>,
                       network: string -> Result<CatRecord, CatError>)
    ensures var o := RunWith(catUrls, loaded, cached, network);
      (forall r :: r in o.requested ==> exists u :: u in catUrls && u !in loaded && r == URL_BASE + u) &&
      (o.error.None? ==> o.requested == FullUrls(Misses(catUrls, loaded)))
  {
    var o := RunWith(catUrls, loaded, cached, network);
    var misses := Misses(catUrls, loaded);
    var tried := |o.requested|;
    assert tried <= |misses| && o.requested == FullUrls(misses[..tried]);
    forall r | r in o.requested
      ensures exists u :: u in catUrls && u !in loaded && r == URL_BASE + u
    {
      var k :| 0 <= k < tried && o.requested[k] == r;
      assert o.requested[k] == URL_BASE + misses[..tried][k];
      assert misses[..tried][k] == misses[k] && misses[k] in misses;
    }
  }

  /** The run completes when every hit and every miss loads. */
  lemma RunCompletes(catUrls: seq<string>, loaded: Cache, cached: string -> Result<CatRecord, CatError>,
                     network: string -> Result<CatRecord, CatError>, h: seq<CatRecord>, m: seq<CatRecord>)
    requires LoadAll(Hits(catUrls, loaded), cached) == Loaded(h, None)
    requires LoadAll(Misses(catUrls, loaded), network) == Loaded(m, None)
    ensures RunWith(catUrls, loaded, cached, network) ==
      Outcome(None, h + m, SortByWeight(h + m), SaveAll(loaded, m), FullUrls(Misses(catUrls, loaded)))
  {
  }

  lemma RanksCats(catUrls: seq<string>, loaded: Cache, cached: string -> Result<CatRecord, CatError>,
                   network: string -> Result<CatRecord, CatError>)
    ensures var o := RunWith(catUrls, loaded, cached, network); o.ranked == SortByWeight(o.cats)
  {
  }

  /** The ranking a run prints is its list of cats reordered heaviest first, cats of
      equal weight keeping their order in that list. */
  lemma RunRanksByWeight(catUrls: seq<string>, loaded: Cache, fetch: string -> Option<ProfilePage>)
    ensures var o := Expected(catUrls, loaded, fetch);
      multiset(o.ranked) == multiset(o.cats) && HeaviestFirst(o.ranked) &&
      forall w :: WithOunces(o.ranked, w) == WithOunces(o.cats, w)
  {
    RanksCats(catUrls, loaded, FromCache(loaded, fetch), FromNetwork(fetch));
    var o := Expected(catUrls, loaded, fetch);
    forall w
      ensures WithOunces(o.ranked, w) == WithOunces(o.cats, w)
    {
      SortIsStable(o.cats, w);
    }
  }

  /** The first loop of lines 124-132: a cat per hit, built from its cache entry,
      until one raises. */
  method BuildHits(hits: seq<string>, catCache: Cache, fetch: string -> Option<ProfilePage>)
    returns (cats: seq<CatRecord>, error: Option<CatError>)
    requires forall u :: u in hits ==> u in catCache
    ensures Loaded(cats, error) == LoadAll(hits, FromCache(catCache, fetch))
  {
    ghost var cached := FromCache(catCache, fetch);
    cats := [];
    for i := 0 to |hits|
      invariant LoadAll(hits[..i], cached) == Loaded(cats, None)
    {
      LoadAllStep(hits, i, cached);
      assert hits[i] in hits;
      var r := NewCat(hits[i], URL_BASE, Some(catCache[hits[i]]), fetch);
      assert cached(hits[i]) == LoadRecord(hits[i], Some(catCache[hits[i]]), fetch);
      if r.Failure? {
        LoadAllStops(hits, i + 1, cached);
        return cats, Some(r.error);
      }
      cats := cats + [r.value.Record()];
    }
    assert hits[..|hits|] == hits;
    error := None;
  }

  /** The second loop of lines 124-132: a cat per miss, built from its fetched
      page and stored in the cache (which is saved) as soon as it is built, until
      one raises.  `requested` lists the profile URLs fetched. */
  method BuildMisses(misses: seq<string>, loaded: Cache, fetch: string -> Option<ProfilePage>)
    returns (cats: seq<CatRecord>, error: Option<CatError>, catCache: Cache, requested: seq<string>)
    ensures Loaded(cats, error) == LoadAll(misses, FromNetwork(fetch))
    ensures catCache == SaveAll(loaded, cats)
    ensures requested == FullUrls(misses[..|cats| + (if error.Some? then 1 else 0)])
  {
    ghost var network := FromNetwork(fetch);
    cats, catCache, requested := [], loaded, [];
    assert misses[..0] == [];
    for i := 0 to |misses|
      invariant LoadAll(misses[..i], network) == Loaded(cats, None)
      invariant catCache == SaveAll(loaded, cats)
      invariant requested == FullUrls(misses[..i])
    {
      LoadAllStep(misses, i, network);
      requested := requested + [URL_BASE + misses[i]];
      FullUrlsStep(misses, i);
      var r := NewCat(misses[i], URL_BASE, None, fetch);
      assert network(misses[i]) == LoadRecord(misses[i], None, fetch);
      if r.Failure? {
        LoadAllStops(misses, i + 1, network);
        return cats, Some(r.error), catCache, requested;
      }
      var record := r.value.Record();
      assert network(misses[i]) == Success(record) && record.profileUrl == misses[i];
      assert r.value.ToDict() == EntryOf(record);
      SaveAllStep(loaded, cats, record);
      catCache := catCache[misses[i] := r.value.ToDict()];
      cats := cats + [record];
    }
    assert misses[..|misses|] == misses;
    error := None;
  }

  /** Lines 118-139: `main` from the crawled paths on.  `lines` is what is
      printed; nothing is printed when the run aborts. */
  method ProcessCats(catUrls: seq<string>, loaded: Cache, fetch: string -> Option<ProfilePage>)
    returns (outcome: Outcome, lines: seq<string>)
    ensures outcome == Expected(catUrls, loaded, fetch)
    ensures outcome.error.Some? ==> lines == []
    ensures outcome.error.None? ==> |lines| == |outcome.ranked| + 1 && lines[0] == "Ranking:"
    ensures outcome.error.None? ==>
      forall i :: 0 <= i < |outcome.ranked| ==> lines[i + 1] == RankLine(i + 1, outcome.ranked[i])
  {
    lines := [];
    var hits := Hits(catUrls, loaded);
    var misses := Misses(catUrls, loaded);
    var hitCats, hitError := BuildHits(hits, loaded, fetch);
    if hitError.Some? {
      outcome := Outcome(hitError, [], [], loaded, []);
      return;
    }
    var missCats, missError, saved, requested := BuildMisses(misses, loaded, fetch);
    if missError.Some? {
      outcome := Outcome(missError, [], [], saved, requested);
      return;
    }
    RunCompletes(catUrls, loaded, FromCache(loaded, fetch), FromNetwork(fetch), hitCats, missCats);
    var cats := hitCats + missCats;
    var sortedCats := SortByWeight(cats);
    lines := Report(sortedCats);
    outcome := Outcome(None, cats, sortedCats, saved, requested);
  }

  /** `main` as a whole: crawl the listing pages, then process the crawled paths. */
  method Run(pages: seq<Page>, loaded: Cache, fetch: string -> Option<ProfilePage>)
    returns (catUrls: seq<string>, pagesRead: nat, outcome: Outcome, lines: seq<string>)
    ensures pagesRead >= 1 && |PageAt(pages, pagesRead - 1)| == 0
    ensures forall p :: 0 <= p < pagesRead - 1 ==> |PageAt(pages, p)| > 0
    ensures catUrls == Collect(AnchorsOf(pages, pagesRead))
    ensures NoDuplicates(catUrls) && forall u :: u in catUrls ==> u != ""
    ensures outcome == Expected(catUrls, loaded, fetch)
    ensures outcome.error.Some? ==> lines == []
    ensures outcome.error.None? ==> |lines| == |outcome.ranked| + 1 && lines[0] == "Ranking:"
    ensures outcome.error.None? ==>
      forall i :: 0 <= i < |outcome.ranked| ==> lines[i + 1] == RankLine(i + 1, outcome.ranked[i])
  {
    catUrls, pagesRead := FetchCatUrls(pages);
    outcome, lines := ProcessCats(catUrls, loaded, fetch);
  }
}
