# Meta competitor research server: a Dafny model

This project models the decision and transformation logic of the Meta ad
library research server:

- the ad-library client (`src/services/scrapecreators_service.py`): credit
  and rate-limit handling of replies, the brand search, the cursor-driven
  `get_ads` loop, the ad parser `parse_fb_ads`, and the two de-duplicating
  batch functions;
- the Gemini client (`src/services/gemini_service.py`): the batch prompt
  with its `VIDEO i:` labels, the split of the single reply back into one
  analysis per video, the batch upload, and the cached key lookup;
- the tool layer (`mcp_server.py`): argument checks, the content-type
  tests of downloads, the cache-hit branches of `analyze_ad_image` and
  `analyze_ad_video`, the whole `analyze_ad_videos_batch` path (partition,
  downloads, upload, analysis, pairing of analyses with videos, cache
  updates) and the cleaning of `search_cached_media` results.

HTTP requests, the Gemini SDK and the clock are parameters: a download is
a function from URL to reply, `generate(prompt, files)` is the model's
reply, `datetime.fromtimestamp(...).isoformat()` is an oracle `iso`. The
media cache module is not part of this model; the server's four calls into
it are operations of the class `MediaCache.Cache` over a map from URL to
record.

Modules, one file each: `Wrappers` (Option, Result), `PyValues` (JSON-like
Python values and truthiness), `PyText` (`strip`, `lower`, `upper`,
`find`, `int()` and `str()` of integers), `Credit`, `ApiKey`, `AdLibrary`,
`Batch`, `ReplyLayout` (the reply layout, generic over its marker family),
`Gemini`, `ToolInputs`, `MediaCache`, `MediaTools`, `VideoBatch`.

Where the code and its documentation disagree the model follows the code:

- `analyze_ad_videos_batch` uses a name `logger` that `mcp_server.py`
  never defines. A skipped download (mcp_server.py:1199, 1214) and a
  failed upload or analysis (mcp_server.py:1317) therefore raise
  `NameError`, and the outer handler turns that into a failure of the
  whole batch. The model has no "skip this video" path.
- `get_ads` re-raises the quota exceptions inside a `try` whose
  `except Exception` catches them, so `get_ads` never raises them and
  `get_ads_batch` never stops early.
- A 403 reply raises `CreditExhaustedException` inside a bare `try`/`except`,
  which swallows it, so a 403 never raises.
- A 429 whose `retry-after` is not an integer (an HTTP date, say) raises
  `ValueError` from `int()`, not `RateLimitException`.
- In `parse_fb_ads` an element of `results` that is not a dict makes the
  `except` handler itself fail, so the whole parse raises.

## Model

| member | source | states |
|---|---|---|
| Credit.CheckCredit | meta-competitor-research-mcp/src/services/scrapecreators_service.py:35-92 | 402 raises CreditExhausted with 0 credits; 429 raises RateLimit or ValueError, never anything else; any other status (403 included) returns, and returns None exactly when no credit header holds an integer |
| Credit.ScanLastWins | meta-competitor-research-mcp/src/services/scrapecreators_service.py:74-92 | the header scan gives None iff no listed header parses as an integer, otherwise the value of the last listed header that does |
| Credit.RateLimitRetryAfter | meta-competitor-research-mcp/src/services/scrapecreators_service.py:50-60 | a 429 with `retry-after` equal to the decimal form of n carries n; without the header it carries None |
| Credit.LetterRetryAfterIsNotRateLimit | meta-competitor-research-mcp/src/services/scrapecreators_service.py:53-60 | a 429 whose `retry-after` starts with a letter raises ValueError, not RateLimit |
| ApiKey.FlagTakesPriority | meta-competitor-research-mcp/src/services/gemini_service.py:26-34 | with the flag on the command line the key is the argument after its first occurrence, a trailing flag fails, and the environment is never consulted |
| ApiKey.EnvironmentFallback | meta-competitor-research-mcp/src/services/gemini_service.py:36-40 | without the flag the lookup succeeds iff the environment variable is set and non-empty, and returns its value |
| ApiKey.KeyCache.Get | meta-competitor-research-mcp/src/services/scrapecreators_service.py:106-123 | a cached key is returned unchanged without reading anything; otherwise the key is resolved and cached exactly when the lookup succeeds |
| AdLibrary.OptionsExact | meta-competitor-research-mcp/src/services/scrapecreators_service.py:157-164 | the search map fails iff some result raises; otherwise its keys are exactly the names of results with truthy name and page id, each mapped to the page id of the last such result |
| AdLibrary.PlatformIdOutcome | meta-competitor-research-mcp/src/services/scrapecreators_service.py:126-164 | only a 402 or 429 reply raises a quota exception, 402 with 0 credits; success needs a non-error reply with a dict body |
| AdLibrary.AdObjectWellFormed | meta-competitor-research-mcp/src/services/scrapecreators_service.py:407-430 | an emitted ad object has exactly the six trimmed keys, plus the eleven extra ones when untrimmed, and carries the ad's id |
| AdLibrary.EmitWellFormed | meta-competitor-research-mcp/src/services/scrapecreators_service.py:405-432 | `zip(media_urls, bodies)` emits at most the shorter length, only pairs with a URL and a truthy body, all well formed |
| AdLibrary.PairedSpec | meta-competitor-research-mcp/src/services/scrapecreators_service.py:405-406 | the positions `zip` keeps are increasing, and are exactly those below both lengths with a URL that is not None and a truthy body |
| AdLibrary.EmitSpec | meta-competitor-research-mcp/src/services/scrapecreators_service.py:405-432 | `zip(media_urls, bodies)` yields exactly one ad object per kept pair, built from that pair, in the order of the pairs |
| AdLibrary.SingleMediaAd | meta-competitor-research-mcp/src/services/scrapecreators_service.py:352-432 | an IMAGE or VIDEO ad with an id, dates that convert, a body dict and a first media dict yields exactly the one object of that URL and the body's text when the URL is not None and the text truthy, and nothing otherwise |
| AdLibrary.DcoAd | meta-competitor-research-mcp/src/services/scrapecreators_service.py:352-432 | a DCO ad with an id, dates that convert and a non-empty list of card dicts yields exactly one object per card with a URL and a truthy body, in card order |
| AdLibrary.AdObjectsShape | meta-competitor-research-mcp/src/services/scrapecreators_service.py:352-432 | an ad without a truthy id, without a dict snapshot or with a format other than IMAGE, VIDEO or DCO yields nothing; IMAGE and VIDEO yield at most one object; all objects are well formed with the ad's id |
| AdLibrary.DcoPerCard | meta-competitor-research-mcp/src/services/scrapecreators_service.py:394-406 | a DCO ad yields at most one object per card |
| AdLibrary.ConcatOutputsShape | meta-competitor-research-mcp/src/services/scrapecreators_service.py:352-436 | the parse succeeds iff every result is a dict, and then every object is well formed |
| AdLibrary.ConcatOutputsPrefix | meta-competitor-research-mcp/src/services/scrapecreators_service.py:352-436 | the objects of earlier ads come before those of later ads |
| AdLibrary.PrefixFailure | meta-competitor-research-mcp/src/services/scrapecreators_service.py:432-436 | a failure while parsing an earlier ad fails the whole parse |
| AdLibrary.ParseFbAds | meta-competitor-research-mcp/src/services/scrapecreators_service.py:337-436 | the parser loop returns exactly the specified concatenation of per-ad objects |
| AdLibrary.PageStep | meta-competitor-research-mcp/src/services/scrapecreators_service.py:213-254 | a network error, a failed credit check (402, 429), a non-200 status, a missing or unparseable body and an empty page each stop the loop with no ads; a parsed non-empty page continues with the reply's `cursor` when it is truthy and otherwise stops after adding the page |
| AdLibrary.CrawlPages | meta-competitor-research-mcp/src/services/scrapecreators_service.py:205-254 | the loop's ads are the ones it started with followed by the pages of the replies to the requests it sends, in order |
| AdLibrary.GetAdsPages | meta-competitor-research-mcp/src/services/scrapecreators_service.py:190-257 | `get_ads` returns the pages of the replies to its requests, in order, cut to `limit` |
| AdLibrary.GetAds | meta-competitor-research-mcp/src/services/scrapecreators_service.py:167-257 | the ads returned and the requests sent are those of the specified crawl, cut to `limit` |
| AdLibrary.Paginate | meta-competitor-research-mcp/src/services/scrapecreators_service.py:205-254 | the `while` loop gathers exactly the ads and sends exactly the requests of the crawl |
| AdLibrary.CrawlRequests | meta-competitor-research-mcp/src/services/scrapecreators_service.py:194-247 | at most ten requests, all with the same page, page size, country and trim; each later request carries the cursor of the reply before it, and every reply but the last let the loop go on |
| AdLibrary.CrawlStops | meta-competitor-research-mcp/src/services/scrapecreators_service.py:209-254 | the loop only adds ads, and stops only at the limit, after ten requests, or when a reply stops it |
| AdLibrary.GetAdsBounds | meta-competitor-research-mcp/src/services/scrapecreators_service.py:194-257 | at most `limit` ads; no request for a non-positive limit, otherwise one to ten; page size `min(limit, 100)` |
| AdLibrary.QuotaReplyIsSwallowed | meta-competitor-research-mcp/src/services/scrapecreators_service.py:222-254 | a 402 or 429 on the first request is not raised: one request, no ads |
| Batch.DistinctSpec | meta-competitor-research-mcp/src/services/scrapecreators_service.py:276-277 | `dict.fromkeys` keeps each input once, in order of first occurrence |
| Batch.DistinctLoop | meta-competitor-research-mcp/src/services/scrapecreators_service.py:276-277 | the loop over seen keys computes the de-duplicated list |
| Batch.BatchOutcomeSpec | meta-competitor-research-mcp/src/services/scrapecreators_service.py:282-294 | a batch succeeds iff no call raises a quota exception; its keys are then exactly the inputs, an ordinary failure giving an empty value; otherwise it raises the first quota exception in order |
| Batch.FailurePersists | meta-competitor-research-mcp/src/services/scrapecreators_service.py:287-289 | once a prefix of the batch has aborted, so has the whole batch, with the same exception |
| Batch.RunBatch | meta-competitor-research-mcp/src/services/scrapecreators_service.py:276-294 | the batch loop computes the specified batch outcome over the distinct inputs |
| Batch.GetPlatformIdsBatch | meta-competitor-research-mcp/src/services/scrapecreators_service.py:260-294 | the search batch is the batch outcome of the brand search over the distinct names |
| Batch.SearchQuotaAborts | meta-competitor-research-mcp/src/services/scrapecreators_service.py:287-289 | a 402 for any name aborts the search batch |
| Batch.GetAdsBatch | meta-competitor-research-mcp/src/services/scrapecreators_service.py:297-334 | the ads batch is the batch outcome of `get_ads` over the distinct page ids |
| Batch.AdsBatchComplete | meta-competitor-research-mcp/src/services/scrapecreators_service.py:317-334 | the ads batch never aborts and maps every requested page id to that page's ads |
| ReplyLayout.EntryMissing | meta-competitor-research-mcp/src/services/gemini_service.py:180-183 | a video whose marker the reply lacks gets its placeholder |
| ReplyLayout.EntryToNext | meta-competitor-research-mcp/src/services/gemini_service.py:185-191 | with both markers present the analysis is the stripped text between the end of the first and the start of the next, or empty when the next comes first |
| ReplyLayout.EntryToEnd | meta-competitor-research-mcp/src/services/gemini_service.py:185-191 | for the last video, or when the next marker is missing, the analysis runs to the end of the reply |
| ReplyLayout.SplitRoundTrip | meta-competitor-research-mcp/src/services/gemini_service.py:175-196 | a reply laid out as asked (preamble, then each analysis behind its marker) splits back into exactly those analyses, stripped |
| Gemini.MarkersGood | meta-competitor-research-mcp/src/services/gemini_service.py:176-177 | the `VIDEO i:` markers are distinct and none starts inside another |
| Gemini.SplitReply | meta-competitor-research-mcp/src/services/gemini_service.py:175-196 | the split loop returns one entry per video, entry i-1 being that of marker `VIDEO i:` |
| Gemini.BatchReplyRoundTrip | meta-competitor-research-mcp/src/services/gemini_service.py:175-196 | a well laid-out reply splits back into its analyses |
| Gemini.LabelIsMarker | meta-competitor-research-mcp/src/services/gemini_service.py:156-159 | a label line starts with the marker the split looks for iff the video has neither brand nor ad id |
| Gemini.BuildPrompt | meta-competitor-research-mcp/src/services/gemini_service.py:146-160 | the prompt is the header followed by one label line per video, in order |
| Gemini.AppendLabels | meta-competitor-research-mcp/src/services/gemini_service.py:156-159 | the `+=` loop appends exactly the label block |
| Gemini.PlainLabels | meta-competitor-research-mcp/src/services/gemini_service.py:156-159 | without brands and ad ids the label block is the reply layout with an empty line per video |
| Gemini.BareMarkersSplitEmpty | meta-competitor-research-mcp/src/services/gemini_service.py:175-196 | a reply of bare markers splits into empty analyses |
| Gemini.EchoedLabelsSplitEmpty | meta-competitor-research-mcp/src/services/gemini_service.py:156-196 | a reply that only echoes the label block of unlabelled videos splits into empty analyses |
| Gemini.AnalyzeVideosBatch | meta-competitor-research-mcp/src/services/gemini_service.py:126-200 | no files or a count differing from the contexts fails; an empty reply fails; otherwise the result is the split of the reply to the built prompt, one entry per file |
| Gemini.UploadedSpec | meta-competitor-research-mcp/src/services/gemini_service.py:220-240 | the uploaded files come from the paths in order, one per successful upload; none iff every upload failed |
| Gemini.UploadBatch | meta-competitor-research-mcp/src/services/gemini_service.py:203-257 | fails iff there were paths and no upload succeeded; otherwise returns the successful uploads in order |
| ToolInputs.NormalizeNamesSpec | meta-competitor-research-mcp/mcp_server.py:65-94 | a string is stripped and refused iff blank; a list is refused iff it has no non-blank name, and otherwise becomes its stripped non-blank names in order; other types are refused |
| ToolInputs.StrippedNamesAppend | meta-competitor-research-mcp/mcp_server.py:85 | the list comprehension keeps order and drops only blank names (the platform-id copy at line 251 is the same) |
| ToolInputs.StrippedNamesEmpty | meta-competitor-research-mcp/mcp_server.py:77-85 | no name survives the comprehension iff every name is blank, so the all-blank refusal is exactly an empty stripped list (the platform-id copy is at lines 243-251) |
| ToolInputs.EffectiveLimit | meta-competitor-research-mcp/mcp_server.py:263-273 | a non-positive limit is refused, a larger one is capped at 500, none means 50 |
| ToolInputs.CountryArg | meta-competitor-research-mcp/mcp_server.py:275-285 | a country is refused iff it does not have two characters; a two-character country becomes its upper-cased form; no country stays None |
| ToolInputs.ContentTypeAcceptance | meta-competitor-research-mcp/mcp_server.py:492-493 | an image or video type is accepted iff its lower-cased form contains one of the listed types, regardless of case |
| ToolInputs.AvifPassesBoth | meta-competitor-research-mcp/mcp_server.py:900-901 | "image/avif" passes the video test as well as the image test |
| MediaCache.Cache.Lookup | meta-competitor-research-mcp/mcp_server.py:862 | the record of a cached URL, None otherwise |
| MediaCache.Cache.LookupBatch | meta-competitor-research-mcp/mcp_server.py:1130 | the records of exactly the requested URLs that are cached |
| MediaCache.Cache.CacheMedia | meta-competitor-research-mcp/mcp_server.py:912-918 | stores a record without analysis, holding the path, content type and size, under the URL and returns its path |
| MediaCache.Cache.UpdateAnalysis | meta-competitor-research-mcp/mcp_server.py:1019 | attaches the analysis to a cached URL and changes nothing else |
| MediaTools.MediaUrlArg | meta-competitor-research-mcp/mcp_server.py:415-445 | a string URL is refused iff blank; a list is refused iff empty or its first URL is blank, and otherwise its first URL is used |
| MediaTools.AnalyzeAdImage | meta-competitor-research-mcp/mcp_server.py:388-611 | a cached analysis is returned with no download; a readable cached file is reused; otherwise a failed download or a non-image type is refused and the cache is unchanged, and an image is cached without analysis |
| MediaTools.AnalyzeAdVideo | meta-competitor-research-mcp/mcp_server.py:826-1065 | a blank URL is refused; a cached analysis is returned with no download or analysis; a cached record without `file_path` or `file_size` fails with `cached` true and changes nothing; otherwise the download is checked and cached, and an analysis is recorded in the cache |
| MediaTools.TruncatedSpec | meta-competitor-research-mcp/mcp_server.py:702-703 | a missing or zero limit keeps every result; a positive one keeps at most that many, as a prefix |
| MediaTools.CleanResultSpec | meta-competitor-research-mcp/mcp_server.py:706-714 | cleaning keeps every key and value except `image_data_base64` inside the analysis, which becomes a placeholder |
| MediaTools.CleanAllSpec | meta-competitor-research-mcp/mcp_server.py:705-715 | the loop succeeds iff every record can be cleaned, and then cleans each in place |
| MediaTools.CleanSearchResults | meta-competitor-research-mcp/mcp_server.py:702-715 | the loop returns the cleaned records of the truncated list |
| VideoBatch.PartitionSpec | meta-competitor-research-mcp/mcp_server.py:1136-1162 | the cached results are exactly the input URLs whose record holds an analysis, in input order, each with that analysis; the videos to analyse are the other URLs in input order, each with its record; together they are the input |
| VideoBatch.PartitionOrder | meta-competitor-research-mcp/mcp_server.py:1136-1162 | the k-th cached result and the k-th video to analyse come from the k-th URL of their kind, with the brand name and ad id given at that URL's position |
| VideoBatch.Partition | meta-competitor-research-mcp/mcp_server.py:1136-1164 | the first loop builds the two lists and contexts index-parallel to the videos to analyse |
| VideoBatch.FetchStep | meta-competitor-research-mcp/mcp_server.py:1183-1215 | a cached record with `file_path` gives its path, one without stops the loop; otherwise a download is cached iff it went through and has a video type |
| VideoBatch.FetchOk | meta-competitor-research-mcp/mcp_server.py:1183-1215 | the download loop gets through iff no video stops it |
| VideoBatch.FetchEffect | meta-competitor-research-mcp/mcp_server.py:1180-1215 | a download loop that gets through leaves a record for every video to analyse and touches no other record |
| VideoBatch.FetchPending | meta-competitor-research-mcp/mcp_server.py:1180-1215 | the download loop stops at the first failure and caches exactly the specified files |
| VideoBatch.AnnotateEffect | meta-competitor-research-mcp/mcp_server.py:1289-1311 | recording the analyses marks every video of the batch that has a record and leaves other records alone |
| VideoBatch.ZipAnalyses | meta-competitor-research-mcp/mcp_server.py:1289-1311 | analysis i goes with video i for i below the number of videos, at position i+1 of the batch size |
| VideoBatch.BatchReplySpec | meta-competitor-research-mcp/mcp_server.py:1183-1286 | the batch gets a reply iff no video stops the download loop, every upload succeeds and the Gemini call answers a non-empty text |
| VideoBatch.SkippedVideoFailsBatch | meta-competitor-research-mcp/mcp_server.py:1198-1215 | a video the download loop stops at (a record without a path, a failed download, a type that is not a video) leaves the batch without a reply |
| VideoBatch.FetchAndUpload | meta-competitor-research-mcp/mcp_server.py:1180-1222 | the cache afterwards holds the files of the download loop; files are returned iff the loop got through and some upload succeeded, and they are the successful uploads in order |
| VideoBatch.AnalyzePending | meta-competitor-research-mcp/mcp_server.py:1180-1313 | fresh results exist iff the batch gets a reply; they are that reply's split paired with the videos in order, and the cache is the downloaded files plus the recorded analyses; without a reply the cache holds only the downloaded files |
| VideoBatch.EveryUrlAnalysed | meta-competitor-research-mcp/mcp_server.py:1136-1313 | after a successful batch every requested URL has an analysis in the cache |
| VideoBatch.AnswerBatch | meta-competitor-research-mcp/mcp_server.py:1164-1357 | nothing to analyse answers the cached results alone and changes nothing; a configuration failure answers the cached results and changes nothing; otherwise the batch fails iff it gets no reply, keeping the downloaded files, and succeeds with the cached results followed by the fresh ones, one Gemini call and the analyses recorded |
| VideoBatch.AnalyzeAdVideosBatch | meta-competitor-research-mcp/mcp_server.py:1076-1357 | bad inputs are refused and change nothing; otherwise the answer and the new cache are those of the partition of the URLs by the batch lookup, every other record is kept, and success leaves every URL analysed |

## Left out

- Floating point: the token-savings estimates and the MB and GB conversions are not modelled.
- Letter case and digits are ASCII only: Unicode case folding and Unicode digits in `int()` are not modelled.
- Python's `hash()` in `analysis_timestamp` is randomised per process; the model leaves that field out of the records.
- `video_metadata`, timestamps and other informational reply fields, and every message string, are not modelled.
- `datetime.fromtimestamp(...).isoformat()` depends on the local time zone; it is the oracle parameter `iso`.
- The `time.sleep` polling for uploaded files to become active is not modelled; an upload either yields a file or fails.
- Logging is not modelled, except where the undefined `logger` decides the control flow of the batch tool.
- The media cache module is not part of this model. Only the four calls the tools make are modelled. A new record holds `file_path`, `content_type` and `file_size` (the length of the download), the keys the tools read back. `image_cache` is treated as the same cache.
- `get_platform_ids_batch` and `get_ads_batch` return a dict whose keys follow the first occurrence of each input; a Dafny `map` has no order. `Batch.DistinctSpec` states that order for the de-duplicated inputs, and `Batch.BatchOutcomeSpec` states the key set.
- Argument types are as pydantic delivers them: names are strings, and `limit` is an optional integer.
- In the batch tool, a missing brand name or ad id is the empty string, and `None` and `[]` for `brand_names` or `ad_ids` behave alike.
- `cleanup_gemini_files_batch` and the deletion of uploaded files are not modelled; they do not affect what the tools return.
- The analysis prompt text is the parameter `template`.
- The exception path of `get_cached_media_batch` is not modelled; the batch lookup always succeeds.
- The API key lookups inside `get_platform_id` and `get_ads` are assumed to succeed; a missing key would give the affected item an empty result.
- Base64 encoding, file reads, `load_dotenv` and the server decorators are not modelled.
