/** `analyze_ad_videos_batch` (mcp_server.py): the URLs whose cached record
    already holds an analysis are answered from the cache; the others are
    downloaded when needed, uploaded together, analysed in one Gemini call,
    and the analyses are paired back with them by position. */
module VideoBatch {
  import opened Wrappers
  import opened PyValues
  import opened ToolInputs
  import opened MediaCache
  import opened MediaTools
  import opened Gemini
  import opened ReplyLayout
  import opened PyText

  datatype BatchError =
    | NoUrls             // an empty URL list
    | BrandCountMismatch // brand names given, but not one per URL
    | AdIdCountMismatch  // ad ids given, but not one per URL

  /** One entry of the tool's `results`. A missing brand name or ad id is
      the empty string. */
  datatype BatchItem = BatchItem(url: string, analysis: Json, cached: bool, brandName: string, adId: string)

  /** One entry of `videos_to_analyze`, with the record the batch lookup
      found for it. */
  datatype Pending = Pending(url: string, brandName: string, adId: string, record: Option<Dict>)

  datatype BatchReply =
    | BatchRejected(error: BatchError)
    | BatchConfigFailed(results: seq<BatchItem>) // no Gemini key: only the cached analyses
    | BatchFailed                                // the whole batch failed, no results
    | BatchDone(results: seq<BatchItem>, cachedCount: nat, analyzedCount: nat, apiCalls: nat)

  /** The argument checks. Brand names and ad ids that are not given are
      empty lists here, as an empty list and None take the same branches. */
  function CheckInputs(urls: seq<string>, brands: seq<string>, ids: seq<string>): Option<BatchError> {
    if urls == [] then Some(NoUrls)
    else if brands != [] && |brands| != |urls| then Some(BrandCountMismatch)
    else if ids != [] && |ids| != |urls| then Some(AdIdCountMismatch)
    else None
  }

  /** Brand names and ad ids are absent or one per URL. */
  predicate Parallel(urls: seq<string>, brands: seq<string>, ids: seq<string>) {
    (brands == [] || |brands| == |urls|) && (ids == [] || |ids| == |urls|)
  }

  /** `xs[i] if xs else None`. */
  function At(xs: seq<string>, i: nat): string
    requires xs == [] || i < |xs|
  {
    if xs == [] then "" else xs[i]
  }

  /** The batch lookup found an analysis for `url`. */
  predicate Hit(found: map<string, Dict>, url: string) {
    url in found && Analysed(found[url])
  }

  // ---------------------------------------------------------------------
  // The partition loop

  /** `cached_analyses` after the first `n` URLs. */
  function CachedItems(urls: seq<string>, brands: seq<string>, ids: seq<string>, found: map<string, Dict>, n: nat)
    : seq<BatchItem>
    requires Parallel(urls, brands, ids) && n <= |urls|
  {
    if n == 0 then []
    else
      var prev := CachedItems(urls, brands, ids, found, n - 1);
      var u := urls[n - 1];
      if Hit(found, u) then prev + [CachedAt(urls, brands, ids, found, n - 1)]
      else prev
  }

  /** The cached result for the URL at position `i`, with the brand name
      and ad id given at that position. */
  function CachedAt(urls: seq<string>, brands: seq<string>, ids: seq<string>, found: map<string, Dict>, i: nat)
    : BatchItem
    requires Parallel(urls, brands, ids) && i < |urls| && Hit(found, urls[i])
  {
    BatchItem(urls[i], found[urls[i]]["analysis_results"], true, At(brands, i), At(ids, i))
  }

  /** The video to analyse for the URL at position `i`, with the brand
      name and ad id given at that position. */
  function PendingAt(urls: seq<string>, brands: seq<string>, ids: seq<string>, found: map<string, Dict>, i: nat)
    : Pending
    requires Parallel(urls, brands, ids) && i < |urls|
  {
    Pending(urls[i], At(brands, i), At(ids, i), if urls[i] in found then Some(found[urls[i]]) else None)
  }

  /** `videos_to_analyze` after the first `n` URLs. */
  function PendingItems(urls: seq<string>, brands: seq<string>, ids: seq<string>, found: map<string, Dict>, n: nat)
    : seq<Pending>
    requires Parallel(urls, brands, ids) && n <= |urls|
  {
    if n == 0 then []
    else
      var prev := PendingItems(urls, brands, ids, found, n - 1);
      var u := urls[n - 1];
      if Hit(found, u) then prev
      else prev + [PendingAt(urls, brands, ids, found, n - 1)]
  }

  /** `video_contexts`, one per video to analyse. */
  function ContextsOf(pending: seq<Pending>): (r: seq<VideoContext>)
    ensures |r| == |pending|
    ensures forall k :: 0 <= k < |pending| ==> r[k] == VideoContext(pending[k].brandName, pending[k].adId)
  {
    seq(|pending|, k requires 0 <= k < |pending| => VideoContext(pending[k].brandName, pending[k].adId))
  }

  /** The URLs of a list of entries, `url` reading the URL of one entry. */
  function Urls<T>(xs: seq<T>, url: T -> string): (r: seq<string>)
    ensures |r| == |xs| && forall k :: 0 <= k < |xs| ==> r[k] == url(xs[k])
  {
    seq(|xs|, k requires 0 <= k < |xs| => url(xs[k]))
  }

  function ItemUrl(item: BatchItem): string {
    item.url
  }

  function PendingUrl(p: Pending): string {
    p.url
  }

  /** A URL missing from the list is the URL of none of its videos. */
  lemma NotPending(pending: seq<Pending>, u: string)
    requires u !in Urls(pending, PendingUrl)
    ensures forall j :: 0 <= j < |pending| ==> pending[j].url != u
  {
    forall j | 0 <= j < |pending| ensures pending[j].url != u {
      assert Urls(pending, PendingUrl)[j] == PendingUrl(pending[j]);
    }
  }

  /** The cached results are hits of the batch lookup, each with the
      analysis found for it. */
  predicate CachedFrom(c: seq<BatchItem>, found: map<string, Dict>) {
    forall k :: 0 <= k < |c| ==>
      Hit(found, c[k].url) && c[k].cached && c[k].analysis == found[c[k].url]["analysis_results"]
  }

  /** The videos to analyse are not hits, and each carries what the batch
      lookup found for it. */
  predicate PendingFrom(p: seq<Pending>, found: map<string, Dict>) {
    forall k :: 0 <= k < |p| ==>
      !Hit(found, p[k].url) && p[k].record == (if p[k].url in found then Some(found[p[k].url]) else None)
  }

  lemma {:induction false} PartitionCount(urls: seq<string>, brands: seq<string>, ids: seq<string>,
                                          found: map<string, Dict>, n: nat)
    requires Parallel(urls, brands, ids) && n <= |urls|
    ensures |CachedItems(urls, brands, ids, found, n)| + |PendingItems(urls, brands, ids, found, n)| == n
  {
    if n > 0 {
      PartitionCount(urls, brands, ids, found, n - 1);
    }
  }

  lemma {:induction false} PartitionCached(urls: seq<string>, brands: seq<string>, ids: seq<string>,
                                           found: map<string, Dict>, n: nat)
    requires Parallel(urls, brands, ids) && n <= |urls|
    ensures CachedFrom(CachedItems(urls, brands, ids, found, n), found)
  {
    if n > 0 {
      PartitionCached(urls, brands, ids, found, n - 1);
    }
  }

  lemma {:induction false} PartitionPending(urls: seq<string>, brands: seq<string>, ids: seq<string>,
                                            found: map<string, Dict>, n: nat)
    requires Parallel(urls, brands, ids) && n <= |urls|
    ensures PendingFrom(PendingItems(urls, brands, ids, found, n), found)
  {
    if n > 0 {
      PartitionPending(urls, brands, ids, found, n - 1);
    }
  }

  lemma UrlsSnoc<T>(xs: seq<T>, x: T, url: T -> string)
    ensures Urls(xs + [x], url) == Urls(xs, url) + [url(x)]
  {
  }

  /** The cached list holds the URLs with an analysis in the cache, each
      with that analysis, the other list the rest with the record found
      for them, and together they are the URLs again. */
  lemma PartitionSpec(urls: seq<string>, brands: seq<string>, ids: seq<string>, found: map<string, Dict>)
    requires Parallel(urls, brands, ids)
    ensures var c := CachedItems(urls, brands, ids, found, |urls|);
      var p := PendingItems(urls, brands, ids, found, |urls|);
      && |c| + |p| == |urls|
      && CachedFrom(c, found)
      && PendingFrom(p, found)
      && Urls(c, ItemUrl) == Keep(urls, HitOf(found))
      && Urls(p, PendingUrl) == Keep(urls, Not(HitOf(found)))
      && multiset(Urls(c, ItemUrl)) + multiset(Urls(p, PendingUrl)) == multiset(urls)
  {
    PartitionCount(urls, brands, ids, found, |urls|);
    PartitionCached(urls, brands, ids, found, |urls|);
    PartitionPending(urls, brands, ids, found, |urls|);
    CachedUrls(urls, brands, ids, found, |urls|);
    PendingUrlsKept(urls, brands, ids, found, |urls|);
    KeepSplits(urls[..|urls|], HitOf(found));
    assert urls[..|urls|] == urls;
  }

  /** The first loop of the tool. */
  method Partition(urls: seq<string>, brands: seq<string>, ids: seq<string>, found: map<string, Dict>)
    returns (cachedItems: seq<BatchItem>, pending: seq<Pending>, contexts: seq<VideoContext>)
    requires Parallel(urls, brands, ids)
    ensures cachedItems == CachedItems(urls, brands, ids, found, |urls|)
    ensures pending == PendingItems(urls, brands, ids, found, |urls|)
    ensures contexts == ContextsOf(pending)
  {
    cachedItems, pending, contexts := [], [], [];
    var i := 0;
    while i < |urls|
      invariant 0 <= i <= |urls|
      invariant cachedItems == CachedItems(urls, brands, ids, found, i)
      invariant pending == PendingItems(urls, brands, ids, found, i)
      invariant contexts == ContextsOf(pending)
    {
      var url := urls[i];
      var brand := if brands != [] then brands[i] else "";
      var adId := if ids != [] then ids[i] else "";
      var record := if url in found then Some(found[url]) else None;
      if record.Some? && Analysed(record.value) {
        cachedItems := cachedItems + [BatchItem(url, record.value["analysis_results"], true, brand, adId)];
      } else {
        ContextsSnoc(pending, Pending(url, brand, adId, record));
        pending := pending + [Pending(url, brand, adId, record)];
        contexts := contexts + [VideoContext(brand, adId)];
      }
      i := i + 1;
    }
  }

  lemma ContextsSnoc(p: seq<Pending>, x: Pending)
    ensures ContextsOf(p + [x]) == ContextsOf(p) + [VideoContext(x.brandName, x.adId)]
  {
  }

  /** The URLs of `xs` that `pick` keeps, in order. */
  function Keep(xs: seq<string>, pick: string -> bool): seq<string> {
    if xs == [] then []
    else
      var rest := Keep(xs[..|xs| - 1], pick);
      if pick(xs[|xs| - 1]) then rest + [xs[|xs| - 1]] else rest
  }

  function Not(pick: string -> bool): string -> bool {
    u => !pick(u)
  }

  /** What a filter keeps and what it drops make up the whole list. */
  lemma {:induction false} KeepSplits(xs: seq<string>, pick: string -> bool)
    ensures multiset(Keep(xs, pick)) + multiset(Keep(xs, Not(pick))) == multiset(xs)
  {
    if xs != [] {
      var init, last := xs[..|xs| - 1], xs[|xs| - 1];
      KeepSplits(init, pick);
      assert xs == init + [last];
    }
  }

  function HitOf(found: map<string, Dict>): string -> bool {
    u => Hit(found, u)
  }

  lemma {:induction false} CachedUrls(urls: seq<string>, brands: seq<string>, ids: seq<string>,
                                      found: map<string, Dict>, n: nat)
    requires Parallel(urls, brands, ids) && n <= |urls|
    ensures Urls(CachedItems(urls, brands, ids, found, n), ItemUrl) == Keep(urls[..n], HitOf(found))
  {
    if n > 0 {
      CachedUrls(urls, brands, ids, found, n - 1);
      assert urls[..n][..n - 1] == urls[..n - 1];
      var c0 := CachedItems(urls, brands, ids, found, n - 1);
      var c := CachedItems(urls, brands, ids, found, n);
      if c != c0 {
        UrlsSnoc(c0, c[|c0|], ItemUrl);
        assert c == c0 + [c[|c0|]];
      }
    }
  }

  lemma {:induction false} PendingUrlsKept(urls: seq<string>, brands: seq<string>, ids: seq<string>,
                                           found: map<string, Dict>, n: nat)
    requires Parallel(urls, brands, ids) && n <= |urls|
    ensures Urls(PendingItems(urls, brands, ids, found, n), PendingUrl) == Keep(urls[..n], Not(HitOf(found)))
  {
    if n > 0 {
      PendingUrlsKept(urls, brands, ids, found, n - 1);
      assert urls[..n][..n - 1] == urls[..n - 1];
      var p0 := PendingItems(urls, brands, ids, found, n - 1);
      var p := PendingItems(urls, brands, ids, found, n);
      if p != p0 {
        UrlsSnoc(p0, p[|p0|], PendingUrl);
        assert p == p0 + [p[|p0|]];
      }
    }
  }

  /** The positions below `n` of the URLs `pick` keeps, in order. */
  function Positions(xs: seq<string>, pick: string -> bool, n: nat): (r: seq<nat>)
    requires n <= |xs|
    ensures forall k :: 0 <= k < |r| ==> r[k] < n && pick(xs[r[k]])
  {
    if n == 0 then []
    else
      var prev := Positions(xs, pick, n - 1);
      if pick(xs[n - 1]) then prev + [n - 1] else prev
  }

  /** The positions are increasing and are exactly those of the kept URLs. */
  lemma {:induction false} PositionsSpec(xs: seq<string>, pick: string -> bool, n: nat)
    requires n <= |xs|
    ensures var r := Positions(xs, pick, n);
      && (forall k, l :: 0 <= k < l < |r| ==> r[k] < r[l])
      && (forall i :: 0 <= i < n ==> (i in r <==> pick(xs[i])))
  {
    if n > 0 {
      PositionsSpec(xs, pick, n - 1);
    }
  }

  lemma {:induction false} CachedPositions(urls: seq<string>, brands: seq<string>, ids: seq<string>,
                                           found: map<string, Dict>, n: nat)
    requires Parallel(urls, brands, ids) && n <= |urls|
    ensures var c := CachedItems(urls, brands, ids, found, n);
      var r := Positions(urls, HitOf(found), n);
      |c| == |r| && forall k :: 0 <= k < |c| ==> Hit(found, urls[r[k]]) && c[k] == CachedAt(urls, brands, ids, found, r[k])
  {
    if n > 0 {
      CachedPositions(urls, brands, ids, found, n - 1);
    }
  }

  lemma {:induction false} PendingPositions(urls: seq<string>, brands: seq<string>, ids: seq<string>,
                                            found: map<string, Dict>, n: nat)
    requires Parallel(urls, brands, ids) && n <= |urls|
    ensures var p := PendingItems(urls, brands, ids, found, n);
      var r := Positions(urls, Not(HitOf(found)), n);
      |p| == |r| && forall k :: 0 <= k < |p| ==> p[k] == PendingAt(urls, brands, ids, found, r[k])
  {
    if n > 0 {
      PendingPositions(urls, brands, ids, found, n - 1);
    }
  }

  /** Both lists follow the order of the URLs, and each entry carries the
      brand name and ad id given at its URL's position: the `k`-th cached
      result is the `k`-th URL with an analysis in the cache, the `k`-th
      video to analyse the `k`-th URL without one. */
  lemma PartitionOrder(urls: seq<string>, brands: seq<string>, ids: seq<string>, found: map<string, Dict>)
    requires Parallel(urls, brands, ids)
    ensures var c := CachedItems(urls, brands, ids, found, |urls|);
      var hits := Positions(urls, HitOf(found), |urls|);
      && |c| == |hits|
      && (forall k, l :: 0 <= k < l < |hits| ==> hits[k] < hits[l])
      && (forall i :: 0 <= i < |urls| ==> (i in hits <==> Hit(found, urls[i])))
      && (forall k :: 0 <= k < |c| ==> Hit(found, urls[hits[k]]) && c[k] == CachedAt(urls, brands, ids, found, hits[k]))
    ensures var p := PendingItems(urls, brands, ids, found, |urls|);
      var misses := Positions(urls, Not(HitOf(found)), |urls|);
      && |p| == |misses|
      && (forall k, l :: 0 <= k < l < |misses| ==> misses[k] < misses[l])
      && (forall i :: 0 <= i < |urls| ==> (i in misses <==> !Hit(found, urls[i])))
      && (forall k :: 0 <= k < |p| ==> p[k] == PendingAt(urls, brands, ids, found, misses[k]))
  {
    PositionsSpec(urls, HitOf(found), |urls|);
    PositionsSpec(urls, Not(HitOf(found)), |urls|);
    CachedPositions(urls, brands, ids, found, |urls|);
    PendingPositions(urls, brands, ids, found, |urls|);
  }

  // ---------------------------------------------------------------------
  // The download loop

  /** A `cache_media` call the download loop made. */
  datatype Stored = Stored(url: string, contentType: string, size: nat)

  /** Where the download loop stands: whether it is still running (an
      exception ends it), the video paths so far and the files it cached. */
  datatype Fetching = Fetching(ok: bool, paths: seq<Json>, stored: seq<Stored>)

  /** What the download loop does with one video: take the path of the
      file already on disk, stop, or cache the downloaded file with its
      (lower-cased) content type and size. */
  datatype Step = FromDisk(path: Json) | Halt | Saved(contentType: string, size: nat)

  /** A video that needs no download: its cached record is a non-empty dict. */
  predicate OnDisk(p: Pending) {
    p.record.Some? && p.record.value != map[]
  }

  /** One round of the download loop. A cached record without `file_path`
      raises KeyError; a failed download or a content type that is not a
      video reaches a call of the undefined `logger`, whose NameError ends
      the loop. Either exception fails the batch. */
  function FetchStep(p: Pending, download: string -> Download): (r: Step)
    ensures r.FromDisk? <==> OnDisk(p) && "file_path" in p.record.value
    ensures r.Saved? <==> !OnDisk(p) && Fetched(download(p.url)) && IsVideoType(ContentType(download(p.url).headers))
  {
    if OnDisk(p) then
      if "file_path" in p.record.value then FromDisk(p.record.value["file_path"]) else Halt
    else
      var d := download(p.url);
      if !Fetched(d) || !IsVideoType(ContentType(d.headers)) then Halt
      else Saved(Lower(ContentType(d.headers)), d.size)
  }

  function StepOf(download: string -> Download): Pending -> Step {
    p => FetchStep(p, download)
  }

  /** The download loop over the first `n` videos to analyse, each round
      being `step`. */
  function FetchUpTo(pending: seq<Pending>, step: Pending -> Step, pathOf: string -> string, n: nat): (r: Fetching)
    requires n <= |pending|
    ensures r.ok ==> |r.paths| == n
  {
    if n == 0 then Fetching(true, [], [])
    else
      var prev := FetchUpTo(pending, step, pathOf, n - 1);
      var p := pending[n - 1];
      if !prev.ok then prev
      else
        match step(p)
        case FromDisk(path) => Fetching(true, prev.paths + [path], prev.stored)
        case Halt => Fetching(false, prev.paths, prev.stored)
        case Saved(contentType, size) =>
          Fetching(true, prev.paths + [JStr(pathOf(p.url))], prev.stored + [Stored(p.url, contentType, size)])
  }

  /** The cache after the `cache_media` calls in `stored`, in order. */
  function Store(entries: map<string, Dict>, stored: seq<Stored>, pathOf: string -> string): map<string, Dict> {
    if stored == [] then entries
    else
      var s := stored[|stored| - 1];
      Store(entries, stored[..|stored| - 1], pathOf)[s.url := NewRecord(pathOf(s.url), s.contentType, s.size)]
  }

  /** Caching files never drops a record. */
  lemma {:induction false} StoreGrows(entries: map<string, Dict>, stored: seq<Stored>, pathOf: string -> string)
    ensures entries.Keys <= Store(entries, stored, pathOf).Keys
  {
    if stored != [] {
      StoreGrows(entries, stored[..|stored| - 1], pathOf);
    }
  }

  /** Once the loop has stopped, the later videos change nothing. */
  lemma {:induction false} FetchStops(pending: seq<Pending>, step: Pending -> Step, pathOf: string -> string, n: nat)
    requires n <= |pending| && !FetchUpTo(pending, step, pathOf, n).ok
    ensures FetchUpTo(pending, step, pathOf, |pending|) == FetchUpTo(pending, step, pathOf, n)
    decreases |pending| - n
  {
    if n < |pending| {
      FetchStops(pending, step, pathOf, n + 1);
    }
  }

  /** The loop gets through exactly when no round stops it. */
  lemma {:induction false} FetchOk(pending: seq<Pending>, step: Pending -> Step, pathOf: string -> string, n: nat)
    requires n <= |pending|
    ensures FetchUpTo(pending, step, pathOf, n).ok <==> forall j :: 0 <= j < n ==> !step(pending[j]).Halt?
  {
    if n > 0 {
      FetchOk(pending, step, pathOf, n - 1);
    }
  }

  /** When the loop gets through, every video to analyse has a record:
      one taken from disk already had one, the others were cached. */
  lemma {:induction false} FetchCovers(entries: map<string, Dict>, pending: seq<Pending>, step: Pending -> Step,
                                       pathOf: string -> string, n: nat, j: nat)
    requires j < n <= |pending| && FetchUpTo(pending, step, pathOf, n).ok
    requires step(pending[j]).FromDisk? ==> pending[j].url in entries
    ensures pending[j].url in Store(entries, FetchUpTo(pending, step, pathOf, n).stored, pathOf)
  {
    var prev := FetchUpTo(pending, step, pathOf, n - 1);
    var stored := FetchUpTo(pending, step, pathOf, n).stored;
    if j < n - 1 {
      FetchCovers(entries, pending, step, pathOf, n - 1, j);
    } else if step(pending[j]).FromDisk? {
      StoreGrows(entries, stored, pathOf);
    }
    if stored != prev.stored {
      assert stored[..|stored| - 1] == prev.stored;
    }
  }

  /** The loop caches files only for videos to analyse: any other record
      is left as it was. */
  lemma {:induction false} FetchFrame(entries: map<string, Dict>, pending: seq<Pending>, step: Pending -> Step,
                                      pathOf: string -> string, n: nat, u: string)
    requires n <= |pending| && u in entries
    requires forall j :: 0 <= j < n ==> pending[j].url != u
    ensures var after := Store(entries, FetchUpTo(pending, step, pathOf, n).stored, pathOf);
      u in after && after[u] == entries[u]
  {
    if n > 0 {
      FetchFrame(entries, pending, step, pathOf, n - 1, u);
      var prev := FetchUpTo(pending, step, pathOf, n - 1);
      var stored := FetchUpTo(pending, step, pathOf, n).stored;
      if stored != prev.stored {
        assert stored[..|stored| - 1] == prev.stored;
      }
    }
  }

  /** Every video to analyse that is on disk has a record. */
  predicate OnDiskKnown(entries: map<string, Dict>, pending: seq<Pending>) {
    forall j :: 0 <= j < |pending| && OnDisk(pending[j]) ==> pending[j].url in entries
  }

  /** Every video to analyse has a record. */
  predicate Covers(entries: map<string, Dict>, pending: seq<Pending>) {
    forall j :: 0 <= j < |pending| ==> pending[j].url in entries
  }

  /** Every video to analyse has a record holding an analysis. */
  predicate Marked(entries: map<string, Dict>, pending: seq<Pending>) {
    forall j :: 0 <= j < |pending| ==> pending[j].url in entries && Analysed(entries[pending[j].url])
  }

  /** The records of URLs other than the videos to analyse are as they were. */
  predicate KeepsOthers(before: map<string, Dict>, after: map<string, Dict>, pending: seq<Pending>) {
    forall u :: u in before && u !in Urls(pending, PendingUrl) ==> u in after && after[u] == before[u]
  }

  lemma KeepsOthersTrans(a: map<string, Dict>, b: map<string, Dict>, c: map<string, Dict>, pending: seq<Pending>)
    requires KeepsOthers(a, b, pending) && KeepsOthers(b, c, pending)
    ensures KeepsOthers(a, c, pending)
  {
  }

  /** The loop, run to the end, leaves a record for every video to analyse
      and changes no record of another URL. */
  lemma FetchEffect(entries: map<string, Dict>, pending: seq<Pending>, download: string -> Download,
                    pathOf: string -> string)
    requires OnDiskKnown(entries, pending)
    ensures var f := FetchUpTo(pending, StepOf(download), pathOf, |pending|);
      var after := Store(entries, f.stored, pathOf);
      && (f.ok ==> Covers(after, pending))
      && KeepsOthers(entries, after, pending)
  {
    var step := StepOf(download);
    var f := FetchUpTo(pending, step, pathOf, |pending|);
    var after := Store(entries, f.stored, pathOf);
    if f.ok {
      forall j | 0 <= j < |pending| ensures pending[j].url in after {
        assert step(pending[j]) == FetchStep(pending[j], download);
        FetchCovers(entries, pending, step, pathOf, |pending|, j);
      }
    }
    forall u | u in entries && u !in Urls(pending, PendingUrl) ensures u in after && after[u] == entries[u] {
      NotPending(pending, u);
      FetchFrame(entries, pending, step, pathOf, |pending|, u);
    }
  }

  /** The second loop of the tool, up to the first exception. */
  method FetchPending(cache: Cache, pending: seq<Pending>, download: string -> Download)
    returns (ok: bool, paths: seq<Json>)
    modifies cache
    ensures var f := FetchUpTo(pending, StepOf(download), cache.pathOf, |pending|);
      ok == f.ok && paths == f.paths && cache.entries == Store(old(cache.entries), f.stored, cache.pathOf)
  {
    ghost var step := StepOf(download);
    ghost var stored: seq<Stored> := [];
    paths := [];
    var i := 0;
    while i < |pending|
      invariant 0 <= i <= |pending|
      invariant FetchUpTo(pending, step, cache.pathOf, i) == Fetching(true, paths, stored)
      invariant cache.entries == Store(old(cache.entries), stored, cache.pathOf)
    {
      var p := pending[i];
      assert step(p) == FetchStep(p, download);
      if OnDisk(p) {
        if "file_path" !in p.record.value {
          FetchStops(pending, step, cache.pathOf, i + 1);
          return false, paths;
        }
        paths := paths + [p.record.value["file_path"]];
      } else {
        var d := download(p.url);
        if !Fetched(d) {
          FetchStops(pending, step, cache.pathOf, i + 1);
          return false, paths;
        }
        var contentType := Lower(ContentType(d.headers));
        if !AnyIn(contentType, VideoTypes) {
          FetchStops(pending, step, cache.pathOf, i + 1);
          return false, paths;
        }
        var path := cache.CacheMedia(p.url, contentType, d.size);
        paths := paths + [JStr(path)];
        ghost var before := stored;
        stored := stored + [Stored(p.url, contentType, d.size)];
        assert stored[..|stored| - 1] == before;
      }
      i := i + 1;
    }
    ok := true;
  }

  // ---------------------------------------------------------------------
  // Pairing the analyses with the videos

  /** The analysis record cached for the video at `position` (from 1) of a
      batch of `total`. */
  function FreshRecord(text: string, position: int, total: int): (r: Dict)
    ensures "batch_position" in r && r["batch_position"] == JInt(position)
    ensures "total_batch_size" in r && r["total_batch_size"] == JInt(total)
    ensures "raw_analysis" in r && r["raw_analysis"] == JStr(text)
    ensures r != map[]
  {
    map["raw_analysis" := JStr(text), "model_used" := JStr(ModelName), "batch_analysis" := JBool(true),
        "batch_position" := JInt(position), "total_batch_size" := JInt(total)]
  }

  /** The result entry for video `i` (from 0) of the batch. */
  function FreshItem(p: Pending, text: string, i: nat, total: nat): BatchItem {
    BatchItem(p.url, JObj(FreshRecord(text, i + 1, total)), false, p.brandName, p.adId)
  }

  /** The fresh results for the first `n` analyses. */
  function FreshItems(pending: seq<Pending>, analyses: seq<string>, n: nat): (r: seq<BatchItem>)
    requires n <= |pending| && n <= |analyses|
    ensures |r| == n
    ensures forall i :: 0 <= i < n ==> r[i] == FreshItem(pending[i], analyses[i], i, |pending|)
  {
    seq(n, i requires 0 <= i < n => FreshItem(pending[i], analyses[i], i, |pending|))
  }

  /** The cache after the `update_analysis_results` calls for the first `n`
      analyses. */
  function Annotate(entries: map<string, Dict>, pending: seq<Pending>, analyses: seq<string>, n: nat)
    : map<string, Dict>
    requires n <= |pending| && n <= |analyses|
  {
    if n == 0 then entries
    else
      var prev := Annotate(entries, pending, analyses, n - 1);
      var u := pending[n - 1].url;
      if u in prev then prev[u := WithAnalysis(prev[u], FreshRecord(analyses[n - 1], n, |pending|))] else prev
  }

  /** Recording analyses adds no record. */
  lemma {:induction false} AnnotateKeys(entries: map<string, Dict>, pending: seq<Pending>, analyses: seq<string>, n: nat)
    requires n <= |pending| && n <= |analyses|
    ensures Annotate(entries, pending, analyses, n).Keys == entries.Keys
  {
    if n > 0 {
      AnnotateKeys(entries, pending, analyses, n - 1);
    }
  }

  /** A video of the batch that has a record ends up with an analysis. */
  lemma {:induction false} AnnotateMarks(entries: map<string, Dict>, pending: seq<Pending>, analyses: seq<string>,
                                         n: nat, j: nat)
    requires n <= |pending| && n <= |analyses| && j < n && pending[j].url in entries
    ensures var after := Annotate(entries, pending, analyses, n);
      pending[j].url in after && Analysed(after[pending[j].url])
  {
    AnnotateKeys(entries, pending, analyses, n - 1);
    if j < n - 1 {
      AnnotateMarks(entries, pending, analyses, n - 1, j);
    }
  }

  /** Any other record is left as it was. */
  lemma {:induction false} AnnotateFrame(entries: map<string, Dict>, pending: seq<Pending>, analyses: seq<string>,
                                         n: nat, u: string)
    requires n <= |pending| && n <= |analyses| && u in entries
    requires forall j :: 0 <= j < n ==> pending[j].url != u
    ensures var after := Annotate(entries, pending, analyses, n);
      u in after && after[u] == entries[u]
  {
    if n > 0 {
      AnnotateFrame(entries, pending, analyses, n - 1, u);
    }
  }

  /** Recording the analyses of the whole batch marks every video of it
      that has a record and changes no record of another URL. */
  lemma AnnotateEffect(entries: map<string, Dict>, pending: seq<Pending>, analyses: seq<string>)
    requires |pending| <= |analyses|
    ensures var after := Annotate(entries, pending, analyses, |pending|);
      && (Covers(entries, pending) ==> Marked(after, pending))
      && KeepsOthers(entries, after, pending)
  {
    var after := Annotate(entries, pending, analyses, |pending|);
    if Covers(entries, pending) {
      forall j | 0 <= j < |pending| ensures pending[j].url in after && Analysed(after[pending[j].url]) {
        AnnotateMarks(entries, pending, analyses, |pending|, j);
      }
    }
    forall u | u in entries && u !in Urls(pending, PendingUrl) ensures u in after && after[u] == entries[u] {
      NotPending(pending, u);
      AnnotateFrame(entries, pending, analyses, |pending|, u);
    }
  }

  lemma FreshItemsSnoc(pending: seq<Pending>, analyses: seq<string>, n: nat)
    requires n < |pending| && n < |analyses|
    ensures FreshItems(pending, analyses, n + 1)
         == FreshItems(pending, analyses, n) + [FreshItem(pending[n], analyses[n], n, |pending|)]
  {
  }

  function Min(a: nat, b: nat): nat {
    if a < b then a else b
  }

  /** The loop over `batch_analyses`: analysis i goes with video i, for as
      many videos as there are. */
  method ZipAnalyses(cache: Cache, pending: seq<Pending>, analyses: seq<string>) returns (added: seq<BatchItem>)
    modifies cache
    ensures added == FreshItems(pending, analyses, Min(|pending|, |analyses|))
    ensures cache.entries == Annotate(old(cache.entries), pending, analyses, Min(|pending|, |analyses|))
  {
    added := [];
    var i := 0;
    while i < |analyses|
      invariant 0 <= i <= |analyses|
      invariant added == FreshItems(pending, analyses, Min(|pending|, i))
      invariant cache.entries == Annotate(old(cache.entries), pending, analyses, Min(|pending|, i))
    {
      if i < |pending| {
        assert Min(|pending|, i) == i && Min(|pending|, i + 1) == i + 1;
        var record := FreshRecord(analyses[i], i + 1, |pending|);
        cache.UpdateAnalysis(pending[i].url, record);
        FreshItemsSnoc(pending, analyses, i);
        added := added + [BatchItem(pending[i].url, JObj(record), false, pending[i].brandName, pending[i].adId)];
      } else {
        assert Min(|pending|, i + 1) == Min(|pending|, i);
      }
      i := i + 1;
    }
  }

  // ---------------------------------------------------------------------
  // The tool

  /** The analyses of one Gemini reply for a batch of `n` videos. */
  function ReplyTexts(reply: string, n: nat): seq<string> {
    Entries(Marker, Placeholder, reply, n, n)
  }

  /** The pairing loop when there is one analysis per video. */
  method RecordBatch(cache: Cache, pending: seq<Pending>, analyses: seq<string>) returns (items: seq<BatchItem>)
    requires |analyses| == |pending|
    modifies cache
    ensures items == FreshItems(pending, analyses, |pending|)
    ensures cache.entries == Annotate(old(cache.entries), pending, analyses, |pending|)
    ensures Covers(old(cache.entries), pending) ==> Marked(cache.entries, pending)
    ensures KeepsOthers(old(cache.entries), cache.entries, pending)
  {
    AnnotateEffect(cache.entries, pending, analyses);
    items := ZipAnalyses(cache, pending, analyses);
  }

  /** The prompt of the batch's one Gemini call. */
  function BatchPrompt(pending: seq<Pending>, template: string): string {
    Header(|pending|, template) + Labels(ContextsOf(pending))
  }

  /** The reply of the batch's one Gemini call, None where the batch raises
      first: the download loop stops, the upload of some video fails (every
      one failing makes the upload raise, some failing leaves fewer files
      than videos, which the analysis rejects), or the Gemini call raises
      or answers with an empty text. */
  function BatchReplyOf(pending: seq<Pending>, download: string -> Download, upload: Json -> Option<string>,
                        pathOf: string -> string, template: string, generate: (string, seq<string>) -> Option<string>)
    : Option<string>
  {
    var f := FetchUpTo(pending, StepOf(download), pathOf, |pending|);
    var files := Uploaded(f.paths, upload);
    if !f.ok || files == [] || |files| != |pending| then None
    else
      match generate(BatchPrompt(pending, template), files)
      case Some(text) => if text == "" then None else Some(text)
      case None => None
  }

  /** A non-empty batch gets its reply exactly when no video stops the
      download loop, every upload succeeds and Gemini answers with a
      non-empty text. */
  lemma BatchReplySpec(pending: seq<Pending>, download: string -> Download, upload: Json -> Option<string>,
                       pathOf: string -> string, template: string, generate: (string, seq<string>) -> Option<string>)
    requires pending != []
    ensures var f := FetchUpTo(pending, StepOf(download), pathOf, |pending|);
      var text := generate(BatchPrompt(pending, template), Uploaded(f.paths, upload));
      BatchReplyOf(pending, download, upload, pathOf, template, generate).Some? <==>
        && (forall j :: 0 <= j < |pending| ==> !FetchStep(pending[j], download).Halt?)
        && (forall i :: 0 <= i < |f.paths| ==> upload(f.paths[i]).Some?)
        && text.Some? && text.value != ""
  {
    var step := StepOf(download);
    var f := FetchUpTo(pending, step, pathOf, |pending|);
    FetchOk(pending, step, pathOf, |pending|);
    assert forall j :: 0 <= j < |pending| ==> step(pending[j]) == FetchStep(pending[j], download);
    UploadedSpec(f.paths, upload);
  }

  /** A video the download loop stops at (a cached record without a path,
      a failed download, a file that is not a video) fails the whole
      batch: no analysis is made for any of the videos. */
  lemma SkippedVideoFailsBatch(pending: seq<Pending>, download: string -> Download, upload: Json -> Option<string>,
                               pathOf: string -> string, template: string,
                               generate: (string, seq<string>) -> Option<string>, j: nat)
    requires j < |pending| && FetchStep(pending[j], download).Halt?
    ensures BatchReplyOf(pending, download, upload, pathOf, template, generate).None?
  {
    var step := StepOf(download);
    assert step(pending[j]) == FetchStep(pending[j], download);
    FetchOk(pending, step, pathOf, |pending|);
  }

  /** The download loop and the batch upload: the uploaded files, None
      where either raises. */
  method FetchAndUpload(cache: Cache, pending: seq<Pending>, download: string -> Download,
                        upload: Json -> Option<string>)
    returns (files: Option<seq<string>>)
    requires pending != [] && OnDiskKnown(cache.entries, pending)
    modifies cache
    ensures var f := FetchUpTo(pending, StepOf(download), cache.pathOf, |pending|);
      && cache.entries == Store(old(cache.entries), f.stored, cache.pathOf)
      && (files.Some? <==> f.ok && Uploaded(f.paths, upload) != [])
      && (files.Some? ==> files.value == Uploaded(f.paths, upload))
    ensures files.Some? ==> Covers(cache.entries, pending)
    ensures KeepsOthers(old(cache.entries), cache.entries, pending)
  {
    FetchEffect(cache.entries, pending, download, cache.pathOf);
    var ok, paths := FetchPending(cache, pending, download);
    if !ok {
      return None;
    }
    var uploaded := UploadBatch(paths, upload);
    if uploaded.Failure? {
      return None;
    }
    // An upload batch that does not fail holds at least one file, so the
    // tool's `if gemini_files:` always holds here.
    assert uploaded.value != [];
    files := Some(uploaded.value);
  }

  /** Everything between the Gemini configuration and the token estimate:
      download, upload, one analysis call and the pairing. None where the
      batch raises. */
  method AnalyzePending(cache: Cache, pending: seq<Pending>, contexts: seq<VideoContext>,
                        download: string -> Download, upload: Json -> Option<string>,
                        template: string, generate: (string, seq<string>) -> Option<string>)
    returns (added: Option<seq<BatchItem>>)
    requires pending != [] && contexts == ContextsOf(pending)
    requires OnDiskKnown(cache.entries, pending)
    modifies cache
    ensures var f := FetchUpTo(pending, StepOf(download), cache.pathOf, |pending|);
      var fetched := Store(old(cache.entries), f.stored, cache.pathOf);
      var reply := BatchReplyOf(pending, download, upload, cache.pathOf, template, generate);
      && (added.Some? <==> reply.Some?)
      && (reply.None? ==> cache.entries == fetched)
      && (reply.Some? ==>
            var texts := ReplyTexts(reply.value, |pending|);
            added.value == FreshItems(pending, texts, |pending|) && cache.entries == Annotate(fetched, pending, texts, |pending|))
    ensures added.Some? ==> Marked(cache.entries, pending)
    ensures KeepsOthers(old(cache.entries), cache.entries, pending)
  {
    ghost var before := cache.entries;
    var files := FetchAndUpload(cache, pending, download, upload);
    if files.None? {
      return None;
    }
    var analyses := AnalyzeVideosBatch(files.value, template, contexts, generate);
    if analyses.Failure? {
      return None;
    }
    ghost var reply := generate(Header(|files.value|, template) + Labels(contexts), files.value).value;
    assert |files.value| == |pending| && analyses.value == ReplyTexts(reply, |pending|);
    assert BatchReplyOf(pending, download, upload, cache.pathOf, template, generate) == Some(reply);
    ghost var fetched := cache.entries;
    var items := RecordBatch(cache, pending, analyses.value);
    KeepsOthersTrans(before, fetched, cache.entries, pending);
    added := Some(items);
  }

  /** Every URL of the batch has an analysis in the cache afterwards: the
      cached ones kept theirs, the others got one. */
  lemma EveryUrlAnalysed(urls: seq<string>, brands: seq<string>, ids: seq<string>,
                         before: map<string, Dict>, after: map<string, Dict>)
    requires Parallel(urls, brands, ids)
    requires var found := map u | u in urls && u in before :: before[u];
      var p := PendingItems(urls, brands, ids, found, |urls|);
      && Marked(after, p)
      && KeepsOthers(before, after, p)
    ensures forall u :: u in urls ==> u in after && Analysed(after[u])
  {
    var found := map u | u in urls && u in before :: before[u];
    var p := PendingItems(urls, brands, ids, found, |urls|);
    PartitionPending(urls, brands, ids, found, |urls|);
    PartitionOrder(urls, brands, ids, found);
    var misses := Positions(urls, Not(HitOf(found)), |urls|);
    forall u | u in urls ensures u in after && Analysed(after[u]) {
      var i :| 0 <= i < |urls| && urls[i] == u;
      if Hit(found, u) {
        assert u !in Urls(p, PendingUrl) by {
          forall j | 0 <= j < |p| ensures Urls(p, PendingUrl)[j] != u {
            assert !Hit(found, p[j].url);
          }
        }
      } else {
        var k :| 0 <= k < |misses| && misses[k] == i;
        assert p[k].url == u;
      }
    }
  }

  /** What the tool answers, and the cache `after` it leaves from the cache
      `before`, once the URLs are split into the cached results `c` and the
      videos to analyse `p`. */
  ghost predicate Answered(r: BatchReply, before: map<string, Dict>, after: map<string, Dict>,
                           c: seq<BatchItem>, p: seq<Pending>, configured: bool, download: string -> Download,
                           upload: Json -> Option<string>, pathOf: string -> string, template: string,
                           generate: (string, seq<string>) -> Option<string>)
  {
    var f := FetchUpTo(p, StepOf(download), pathOf, |p|);
    var fetched := Store(before, f.stored, pathOf);
    var reply := BatchReplyOf(p, download, upload, pathOf, template, generate);
    && (p == [] ==> r == BatchDone(c, |c|, 0, 0) && after == before)
    && (p != [] && !configured ==> r == BatchConfigFailed(c) && after == before)
    && (p != [] && configured && reply.None? ==> r == BatchFailed && after == fetched)
    && (p != [] && configured && reply.Some? ==>
          var texts := ReplyTexts(reply.value, |p|);
          && r == BatchDone(c + FreshItems(p, texts, |p|), |c|, |p|, 1)
          && after == Annotate(fetched, p, texts, |p|))
  }

  /** The tool after the partition loop. */
  method AnswerBatch(cache: Cache, cachedItems: seq<BatchItem>, pending: seq<Pending>, contexts: seq<VideoContext>,
                     configured: bool, download: string -> Download, upload: Json -> Option<string>,
                     template: string, generate: (string, seq<string>) -> Option<string>)
    returns (r: BatchReply)
    requires contexts == ContextsOf(pending) && OnDiskKnown(cache.entries, pending)
    modifies cache
    ensures Answered(r, old(cache.entries), cache.entries, cachedItems, pending, configured, download, upload,
                     cache.pathOf, template, generate)
    ensures r.BatchDone? ==> Marked(cache.entries, pending)
    ensures KeepsOthers(old(cache.entries), cache.entries, pending)
  {
    if pending == [] {
      return BatchDone(cachedItems, |cachedItems|, 0, 0);
    }
    if !configured {
      return BatchConfigFailed(cachedItems);
    }
    var added := AnalyzePending(cache, pending, contexts, download, upload, template, generate);
    if added.None? {
      return BatchFailed;
    }
    var results := cachedItems + added.value;
    var analyzed := |results| - |cachedItems|;
    r := BatchDone(results, |cachedItems|, analyzed, if analyzed > 0 then 1 else 0);
  }

  /** `analyze_ad_videos_batch`. `configured` says whether `configure_gemini`
      succeeds, `download` is the HTTP fetch, `upload` the upload of one
      file, `generate` the Gemini call and `template` the analysis
      instructions sent with every batch. */
  method AnalyzeAdVideosBatch(urls: seq<string>, brands: seq<string>, ids: seq<string>, cache: Cache,
                              configured: bool, download: string -> Download, upload: Json -> Option<string>,
                              template: string, generate: (string, seq<string>) -> Option<string>)
    returns (r: BatchReply)
    modifies cache
    ensures CheckInputs(urls, brands, ids).Some? ==>
      r == BatchRejected(CheckInputs(urls, brands, ids).value) && cache.entries == old(cache.entries)
    ensures CheckInputs(urls, brands, ids).None? ==>
      && Parallel(urls, brands, ids)
      && var found := old(cache.LookupBatch(urls));
      && var pending := PendingItems(urls, brands, ids, found, |urls|);
      && Answered(r, old(cache.entries), cache.entries, CachedItems(urls, brands, ids, found, |urls|), pending,
                  configured, download, upload, cache.pathOf, template, generate)
      && KeepsOthers(old(cache.entries), cache.entries, pending)
    ensures r.BatchDone? ==> forall u :: u in urls ==> cache.HasAnalysis(u)
  {
    var error := CheckInputs(urls, brands, ids);
    if error.Some? {
      return BatchRejected(error.value);
    }
    var found := cache.LookupBatch(urls);
    var cachedItems, pending, contexts := Partition(urls, brands, ids, found);
    PartitionSpec(urls, brands, ids, found);
    ghost var before := cache.entries;
    r := AnswerBatch(cache, cachedItems, pending, contexts, configured, download, upload, template, generate);
    if r.BatchDone? {
      EveryUrlAnalysed(urls, brands, ids, before, cache.entries);
    }
  }
}
