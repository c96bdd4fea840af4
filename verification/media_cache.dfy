/** The media cache as the tools use it. The cache module itself (hashing,
    files on disk, search, eviction) is not part of this model: the cache
    is a map from URL to the record it keeps, and the tools' four calls
    (`get_cached_media`, `get_cached_media_batch`, `cache_media` and
    `update_analysis_results`) are operations on that map. */
module MediaCache {
  import opened Wrappers
  import opened PyValues

  class Cache {
    /** The record kept for each cached URL. */
    var entries: map<string, Dict>
    /** Where the cache stores the file of a URL. */
    const pathOf: string -> string

    constructor (entries: map<string, Dict>, pathOf: string -> string)
      ensures this.entries == entries && this.pathOf == pathOf
    {
      this.entries := entries;
      this.pathOf := pathOf;
    }

    /** `get_cached_media(url)`: the record, None when the URL is not cached. */
    function Lookup(url: string): (r: Option<Dict>)
      reads this
      ensures r.Some? <==> url in entries
      ensures r.Some? ==> r.value == entries[url]
    {
      if url in entries then Some(entries[url]) else None
    }

    /** `get_cached_media_batch(urls)`: the records of the cached ones. */
    function LookupBatch(urls: seq<string>): (r: map<string, Dict>)
      reads this
      ensures forall u :: u in r <==> u in urls && u in entries
      ensures forall u :: u in r ==> r[u] == entries[u]
    {
      map u | u in urls && u in entries :: entries[u]
    }

    /** A record the tools treat as holding an analysis: a non-empty dict
        whose `analysis_results` is truthy. */
    predicate HasAnalysis(url: string)
      reads this
    {
      url in entries && Analysed(entries[url])
    }

    /** `cache_media(url, ...)`: stores the downloaded file and returns its
        path; the new record has no analysis yet. `size` is the length of
        the downloaded content. */
    method CacheMedia(url: string, contentType: string, size: nat) returns (path: string)
      modifies this
      ensures path == pathOf(url)
      ensures entries == old(entries)[url := NewRecord(path, contentType, size)]
      ensures !HasAnalysis(url)
    {
      path := pathOf(url);
      entries := entries[url := NewRecord(path, contentType, size)];
    }

    /** `update_analysis_results(url, analysis)`: attaches the analysis to a
        cached URL and leaves every other record as it was. */
    method UpdateAnalysis(url: string, analysis: Dict)
      modifies this
      ensures entries == if url in old(entries) then old(entries)[url := WithAnalysis(old(entries)[url], analysis)]
                         else old(entries)
      ensures url in old(entries) && analysis != map[] ==> HasAnalysis(url)
    {
      if url in entries {
        entries := entries[url := WithAnalysis(entries[url], analysis)];
      }
    }
  }

  /** The check `cached_data and cached_data.get('analysis_results')`. */
  predicate Analysed(record: Dict) {
    record != map[] && Truthy(Get(record, "analysis_results"))
  }

  /** The record of a freshly cached file. Of what the cache keeps, only
      the file path, the content type and the file size matter to the tools. */
  function NewRecord(path: string, contentType: string, size: nat): (r: Dict)
    ensures !Analysed(r) && r != map[]
    ensures "file_path" in r && r["file_path"] == JStr(path)
    ensures "content_type" in r && r["content_type"] == JStr(contentType)
    ensures "file_size" in r && r["file_size"] == JInt(size)
  {
    var r := map["file_path" := JStr(path), "content_type" := JStr(contentType), "file_size" := JInt(size)];
    assert "file_path" in r;
    r
  }

  function WithAnalysis(record: Dict, analysis: Dict): (r: Dict)
    ensures analysis != map[] ==> Analysed(r)
    ensures r.Keys == record.Keys + {"analysis_results"}
    ensures forall k :: k in record && k != "analysis_results" ==> r[k] == record[k]
  {
    var r := record["analysis_results" := JObj(analysis)];
    assert "analysis_results" in r;
    r
  }
}
