/** The single-media tools of the server (mcp_server.py): `analyze_ad_image`,
    `analyze_ad_video` and the result cleaning of `search_cached_media`. The
    downloads, the Gemini calls and the reading of cached files are
    parameters; the cache is a `MediaCache.Cache`. */
module MediaTools {
  import opened Wrappers
  import opened PyValues
  import opened PyText
  import opened ToolInputs
  import opened MediaCache

  /** What `requests.get(url)` gives: an exception, or a response with its
      status, its headers (keyed by lower-cased name) and the length of its
      content. */
  datatype Download = Unreachable | Response(status: int, headers: map<string, string>, size: nat)

  /** The download went through `raise_for_status()`. */
  predicate Fetched(d: Download) {
    d.Response? && !(400 <= d.status < 600)
  }

  /** The URL `analyze_ad_image` works on: a non-blank string, or the first
      element of a list when that one is not blank. */
  function MediaUrlArg(arg: NamesArg): (r: Result<string, InputError>)
    ensures r.Success? ==> !IsBlank(r.value)
    ensures arg.Text? ==> (r.Success? <==> !IsBlank(arg.s)) && (r.Success? ==> r.value == arg.s)
    ensures arg.Items? ==> (r.Success? <==> arg.xs != [] && !IsBlank(arg.xs[0]))
    ensures arg.Items? && r.Success? ==> r.value == arg.xs[0]
    ensures arg.Unsupported? ==> r == Failure(InvalidType)
  {
    match arg
    case Text(s) =>
      StripEmpty(s);
      if s == "" || Strip(s) == "" then Failure(EmptyName) else Success(s)
    case Items(xs) =>
      if xs == [] then Failure(EmptyName)
      else
        StripEmpty(xs[0]);
        if xs[0] == "" || Strip(xs[0]) == "" then Failure(EmptyName) else Success(xs[0])
    case Unsupported => Failure(InvalidType)
  }

  // ---------------------------------------------------------------------
  // analyze_ad_image

  datatype ImageReply =
    | ImageRejected(error: InputError)
    | ImageCached(analysis: Json)      // the cached analysis, returned as it is
    | ImageReady(cached: bool)         // the image and the analysis instructions
    | NotAnImage(contentType: string)
    | ImageDownloadFailed

  /** `analyze_ad_image`. `readable(record)` says whether the cached file
      of a record can be read back, and is false for a record without
      `file_path`, `content_type` or `file_size`: reading those keys raises
      inside the same `try` as the file read, and the tool then downloads
      the image again (mcp_server.py:475-484). `download(url)` is the HTTP
      fetch. */
  method AnalyzeAdImage(arg: NamesArg, cache: Cache, readable: Dict -> bool, download: string -> Download)
    returns (r: ImageReply)
    modifies cache
    ensures MediaUrlArg(arg).Failure? ==> r == ImageRejected(MediaUrlArg(arg).error) && cache.entries == old(cache.entries)
    ensures MediaUrlArg(arg).Success? ==>
      var key := Strip(MediaUrlArg(arg).value);
      var entries := old(cache.entries);
      var usable := key in entries && entries[key] != map[] && readable(entries[key]);
      var d := download(key);
      && (old(cache.HasAnalysis(key)) ==>
            r == ImageCached(entries[key]["analysis_results"]) && cache.entries == entries)
      && (!old(cache.HasAnalysis(key)) && usable ==> r == ImageReady(true) && cache.entries == entries)
      && (!old(cache.HasAnalysis(key)) && !usable ==>
            && (!Fetched(d) ==> r == ImageDownloadFailed && cache.entries == entries)
            && (Fetched(d) && !IsImageType(ContentType(d.headers)) ==>
                  r == NotAnImage(Lower(ContentType(d.headers))) && cache.entries == entries)
            && (Fetched(d) && IsImageType(ContentType(d.headers)) ==>
                  && r == ImageReady(false)
                  && cache.entries == entries[key := NewRecord(cache.pathOf(key), Lower(ContentType(d.headers)), d.size)]))
  {
    var url := MediaUrlArg(arg);
    if url.Failure? {
      return ImageRejected(url.error);
    }
    var key := Strip(url.value);
    var cached := cache.Lookup(key);
    if cached.Some? && Analysed(cached.value) {
      return ImageCached(cached.value["analysis_results"]);
    }
    if cached.Some? && cached.value != map[] && readable(cached.value) {
      return ImageReady(true);
    }
    var d := download(key);
    if !Fetched(d) {
      return ImageDownloadFailed;
    }
    var contentType := Lower(ContentType(d.headers));
    if !AnyIn(contentType, ImageTypes) {
      return NotAnImage(contentType);
    }
    var _ := cache.CacheMedia(key, contentType, d.size);
    r := ImageReady(false);
  }

  // ---------------------------------------------------------------------
  // analyze_ad_video

  datatype VideoReply =
    | VideoRejected(error: InputError)
    | VideoCached(analysis: Json)      // the cached analysis, returned as it is
    | NotAVideo(contentType: string)
    | VideoDownloadFailed
    | ConfigFailed(cached: bool)       // the Gemini key could not be read
    | VideoAnalyzed(record: Dict, cached: bool)
    | VideoFailed(cached: bool)        // a key missing from the cached record, or the upload or the analysis raised

  const ModelName: string := "gemini-2.0-flash-exp"

  /** The analysis record of one video, as cached and returned. */
  function VideoAnalysis(text: string): (r: Dict)
    ensures "raw_analysis" in r && r["raw_analysis"] == JStr(text) && r != map[]
  {
    map["raw_analysis" := JStr(text), "model_used" := JStr(ModelName)]
  }

  /** `analyze_ad_video`. `configured` says whether `configure_gemini`
      succeeds; `analyze(path)` is the upload and the analysis of the file
      at `path`, None where either raises. */
  method AnalyzeAdVideo(url: string, cache: Cache, download: string -> Download, configured: bool,
                        analyze: Json -> Option<string>)
    returns (r: VideoReply)
    modifies cache
    ensures IsBlank(url) ==> r == VideoRejected(EmptyName) && cache.entries == old(cache.entries)
    ensures !IsBlank(url) && old(cache.HasAnalysis(Strip(url))) ==>
      r == VideoCached(old(cache.entries)[Strip(url)]["analysis_results"]) && cache.entries == old(cache.entries)
    ensures r.VideoAnalyzed? ==>
      !IsBlank(url) && cache.HasAnalysis(Strip(url)) && cache.entries[Strip(url)]["analysis_results"] == JObj(r.record)
    ensures !IsBlank(url) && !old(cache.HasAnalysis(Strip(url))) ==>
      var key := Strip(url);
      var entries := old(cache.entries);
      var d := download(key);
      if key in entries && entries[key] != map[] then
        if "file_path" in entries[key] && "file_size" in entries[key] then
          Analysis(r, cache.entries, entries, key, entries[key]["file_path"], true, configured, analyze)
        else
          r == VideoFailed(true) && cache.entries == entries
      else
        && (!Fetched(d) ==> r == VideoDownloadFailed && cache.entries == entries)
        && (Fetched(d) && !IsVideoType(ContentType(d.headers)) ==>
              r == NotAVideo(Lower(ContentType(d.headers))) && cache.entries == entries)
        && (Fetched(d) && IsVideoType(ContentType(d.headers)) ==>
              var path := cache.pathOf(key);
              Analysis(r, cache.entries, entries[key := NewRecord(path, Lower(ContentType(d.headers)), d.size)],
                       key, JStr(path), false, configured, analyze))
  {
    StripEmpty(url);
    if url == "" || Strip(url) == "" {
      return VideoRejected(EmptyName);
    }
    var key := Strip(url);
    var record := cache.Lookup(key);
    if record.Some? && Analysed(record.value) {
      return VideoCached(record.value["analysis_results"]);
    }
    var cached := record.Some? && record.value != map[];
    var path: Json;
    if cached {
      if "file_path" !in record.value || "file_size" !in record.value {
        return VideoFailed(true);
      }
      path := record.value["file_path"];
    } else {
      var d := download(key);
      if !Fetched(d) {
        return VideoDownloadFailed;
      }
      var contentType := Lower(ContentType(d.headers));
      if !AnyIn(contentType, VideoTypes) {
        return NotAVideo(contentType);
      }
      var stored := cache.CacheMedia(key, contentType, d.size);
      path := JStr(stored);
    }
    r := AnalyzeCachedVideo(cache, key, path, cached, configured, analyze);
  }

  /** What the last part of `analyze_ad_video` does with the cached video
      at `path`, from the cache `before` to the cache `after`. */
  ghost predicate Analysis(r: VideoReply, after: map<string, Dict>, before: map<string, Dict>, key: string,
                           path: Json, cached: bool, configured: bool, analyze: Json -> Option<string>)
  {
    && (!configured ==> r == ConfigFailed(cached) && after == before)
    && (configured && analyze(path).None? ==> r == VideoFailed(cached) && after == before)
    && (configured && analyze(path).Some? ==>
          var analysis := VideoAnalysis(analyze(path).value);
          && r == VideoAnalyzed(analysis, cached)
          && key in before && after == before[key := WithAnalysis(before[key], analysis)])
  }

  /** Configuring Gemini, the upload and analysis, and caching the result. */
  method AnalyzeCachedVideo(cache: Cache, key: string, path: Json, cached: bool, configured: bool,
                            analyze: Json -> Option<string>)
    returns (r: VideoReply)
    requires key in cache.entries
    modifies cache
    ensures Analysis(r, cache.entries, old(cache.entries), key, path, cached, configured, analyze)
    ensures r.VideoAnalyzed? ==> cache.HasAnalysis(key) && cache.entries[key]["analysis_results"] == JObj(r.record)
  {
    if !configured {
      return ConfigFailed(cached);
    }
    var text := analyze(path);
    if text.None? {
      return VideoFailed(cached);
    }
    var analysis := VideoAnalysis(text.value);
    cache.UpdateAnalysis(key, analysis);
    r := VideoAnalyzed(analysis, cached);
  }

  // ---------------------------------------------------------------------
  // search_cached_media: cleaning the results

  const ImagePlaceholder: string := "[Image data available]"

  /** `results[:limit]` when `limit` is truthy and below the number of
      results (a negative limit drops that many from the end). */
  function Truncated(results: seq<Dict>, limit: Option<int>): seq<Dict> {
    if limit.Some? && limit.value != 0 && |results| > limit.value then Prefix(results, limit.value) else results
  }

  /** A missing or zero limit keeps every result, a positive one keeps at
      most that many, a negative one drops that many from the end; what is
      kept is always the front of the results. */
  lemma TruncatedSpec(results: seq<Dict>, limit: Option<int>)
    ensures var r := Truncated(results, limit);
      && r == results[..|r|]
      && (limit.None? || limit.value == 0 ==> r == results)
      && (limit.Some? && limit.value > 0 ==> |r| == if |results| < limit.value then |results| else limit.value)
      && (limit.Some? && limit.value < 0 ==> |r| == if |results| + limit.value < 0 then 0 else |results| + limit.value)
  {
  }

  /** `analysis.copy()` with `image_data_base64` replaced; None where Python
      raises: a value without `.copy()`, or a list holding that string
      (indexing a list by a string raises). */
  function CleanAnalysis(analysis: Json): Option<Json> {
    match analysis
    case JObj(m) =>
      Some(JObj(if "image_data_base64" in m then m["image_data_base64" := JStr(ImagePlaceholder)] else m))
    case JList(xs) =>
      if JStr("image_data_base64") in xs then None else Some(analysis)
    case _ => None
  }

  /** One result of the loop: a truthy `analysis_results` is cleaned, the
      rest of the record is copied. */
  function CleanResult(result: Dict): Option<Dict> {
    if "analysis_results" in result && Truthy(result["analysis_results"]) then
      match CleanAnalysis(result["analysis_results"])
      case None => None
      case Some(a) => Some(result["analysis_results" := a])
    else Some(result)
  }

  /** Cleaning keeps every key of the record and every value but the
      analysis; in a dict-shaped analysis it replaces the image data by the
      placeholder and changes nothing else. It fails exactly on a truthy
      analysis that is neither a dict nor a list, or a list holding the
      string "image_data_base64". Cleaning twice is cleaning once. */
  lemma CleanResultSpec(result: Dict)
    ensures var c := CleanResult(result);
      var a := if "analysis_results" in result then result["analysis_results"] else JNull;
      && (c.None? <==> Truthy(a) && !a.JObj? && !(a.JList? && JStr("image_data_base64") !in a.items))
      && (c.Some? ==> c.value.Keys == result.Keys)
      && (c.Some? ==> forall k :: k in result && k != "analysis_results" ==> c.value[k] == result[k])
      && (c.Some? && a.JObj? && a.fields != map[] ==>
            var m := c.value["analysis_results"];
            && m.JObj? && m.fields.Keys == a.fields.Keys
            && (forall k :: k in a.fields && k != "image_data_base64" ==> m.fields[k] == a.fields[k])
            && ("image_data_base64" in a.fields ==> m.fields["image_data_base64"] == JStr(ImagePlaceholder)))
      && (c.Some? ==> CleanResult(c.value) == c)
  {
    var c := CleanResult(result);
    if c.Some? && "analysis_results" in result && Truthy(result["analysis_results"]) {
      var a := result["analysis_results"];
      var cleaned := c.value["analysis_results"];
      if a.JObj? {
        assert cleaned.JObj? && Truthy(cleaned) by {
          assert cleaned.fields.Keys == a.fields.Keys;
        }
        if "image_data_base64" in a.fields {
          assert cleaned.fields["image_data_base64" := JStr(ImagePlaceholder)] == cleaned.fields;
        }
        assert c.value["analysis_results" := cleaned] == c.value;
      } else {
        assert cleaned == a;
        assert c.value == result;
      }
    }
  }

  /** The cleaned list; None where one record makes the loop raise. */
  function CleanAll(results: seq<Dict>): (r: Option<seq<Dict>>)
    ensures r.Some? ==> |r.value| == |results|
  {
    if results == [] then Some([])
    else
      match CleanAll(results[..|results| - 1])
      case None => None
      case Some(done) =>
        match CleanResult(results[|results| - 1])
        case None => None
        case Some(c) => Some(done + [c])
  }

  /** The loop succeeds exactly when every record can be cleaned, and then
      the k-th cleaned record is the k-th record cleaned. */
  lemma {:induction false} CleanAllSpec(results: seq<Dict>)
    ensures CleanAll(results).Some? <==> forall k :: 0 <= k < |results| ==> CleanResult(results[k]).Some?
    ensures CleanAll(results).Some? ==>
      forall k :: 0 <= k < |results| ==> CleanAll(results).value[k] == CleanResult(results[k]).value
  {
    if results != [] {
      var init := results[..|results| - 1];
      CleanAllSpec(init);
      assert forall k :: 0 <= k < |init| ==> init[k] == results[k];
    }
  }

  /** The cleaning part of `search_cached_media`, on the records the
      cache's search returned. */
  method CleanSearchResults(results: seq<Dict>, limit: Option<int>) returns (r: Option<seq<Dict>>)
    ensures r == CleanAll(Truncated(results, limit))
  {
    var kept := Truncated(results, limit);
    var clean: seq<Dict> := [];
    var i := 0;
    while i < |kept|
      invariant 0 <= i <= |kept|
      invariant CleanAll(kept[..i]) == Some(clean)
    {
      assert kept[..i + 1][..i] == kept[..i];
      var c := CleanResult(kept[i]);
      if c.None? {
        CleanAllPrefix(kept, i + 1);
        return None;
      }
      clean := clean + [c.value];
      i := i + 1;
    }
    assert kept[..i] == kept;
    r := Some(clean);
  }

  /** A failure in the first `i` records is a failure of the whole loop. */
  lemma CleanAllPrefix(results: seq<Dict>, i: nat)
    requires i <= |results| && CleanAll(results[..i]).None?
    ensures CleanAll(results).None?
  {
    CleanAllSpec(results[..i]);
    CleanAllSpec(results);
    var k :| 0 <= k < i && CleanResult(results[..i][k]).None?;
    assert results[..i][k] == results[k];
  }
}
