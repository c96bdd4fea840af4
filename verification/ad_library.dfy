/** The ad-library client (scrapecreators_service.py): the brand search
    result (`get_platform_id`), the ad parser (`parse_fb_ads`) and the
    cursor-driven pagination of `get_ads`. The HTTP calls are parameters:
    a `Fetch` is what one `requests.get` gives back. */
module AdLibrary {
  import opened Wrappers
  import opened PyValues
  import opened PyText
  import opened Credit

  /** One HTTP exchange: a network exception, or a reply whose body is None
      when `response.json()` raises. */
  datatype Fetch =
    | NetworkError
    | Reply(status: int, headers: Headers, body: Option<Json>)

  /** How a call that the batch functions make can fail: with one of the
      client's quota exceptions, or with any other exception. */
  datatype CallError = Fatal(error: ApiError) | Failed

  // ---------------------------------------------------------------------
  // get_platform_id: the name -> page id map

  function NameOf(result: Json): Json
    requires result.JObj?
  {
    Get(result.fields, "name")
  }

  function PageIdOf(result: Json): Json
    requires result.JObj?
  {
    Get(result.fields, "page_id")
  }

  /** A search result that contributes an entry: both fields truthy. */
  predicate Kept(result: Json) {
    result.JObj? && Truthy(NameOf(result)) && Truthy(PageIdOf(result))
  }

  /** The loop over search results; None where Python raises (a result that
      is not a dict, or a kept name that cannot be a dict key). */
  function BuildOptions(results: seq<Json>): Option<map<Json, Json>> {
    if results == [] then Some(map[])
    else
      match BuildOptions(results[..|results| - 1])
      case None => None
      case Some(options) =>
        var last := results[|results| - 1];
        if !last.JObj? then None
        else if Kept(last) then
          (if Hashable(NameOf(last)) then Some(options[NameOf(last) := PageIdOf(last)]) else None)
        else Some(options)
  }

  predicate Breaks(result: Json) {
    !result.JObj? || (Kept(result) && !Hashable(NameOf(result)))
  }

  /** Some result is named `k` and has both fields truthy. */
  predicate NamedIn(results: seq<Json>, k: Json) {
    exists i :: 0 <= i < |results| && Kept(results[i]) && NameOf(results[i]) == k
  }

  /** `results[i]` is the last kept result named `k`. */
  predicate LastNamed(results: seq<Json>, k: Json, i: int) {
    && 0 <= i < |results| && Kept(results[i]) && NameOf(results[i]) == k
    && forall j :: i < j < |results| ==> !(Kept(results[j]) && NameOf(results[j]) == k)
  }

  /** The search result map holds exactly the names of the results whose
      `name` and `page_id` are both truthy, each mapped to the `page_id` of
      the LAST such result with that name; it fails exactly when some result
      is not a dict or has an unusable key. */
  lemma OptionsExact(results: seq<Json>)
    ensures BuildOptions(results).None? <==> exists i :: 0 <= i < |results| && Breaks(results[i])
    ensures BuildOptions(results).Some? ==>
      var m := BuildOptions(results).value;
      && (forall k :: k in m <==> NamedIn(results, k))
      && (forall k :: k in m ==> exists i :: LastNamed(results, k, i) && m[k] == PageIdOf(results[i]))
  {
    OptionsFail(results);
    if BuildOptions(results).Some? {
      OptionsKeys(results);
      OptionsLast(results);
    }
  }

  lemma {:induction false} OptionsFail(results: seq<Json>)
    ensures BuildOptions(results).None? <==> exists i :: 0 <= i < |results| && Breaks(results[i])
  {
    if results != [] {
      var n := |results| - 1;
      var init := results[..n];
      OptionsFail(init);
      assert forall i :: 0 <= i < n ==> init[i] == results[i];
    }
  }

  lemma {:induction false} OptionsKeys(results: seq<Json>)
    requires BuildOptions(results).Some?
    ensures forall k :: k in BuildOptions(results).value <==> NamedIn(results, k)
  {
    if results != [] {
      var n := |results| - 1;
      var init := results[..n];
      OptionsKeys(init);
      assert forall i :: 0 <= i < n ==> init[i] == results[i];
      forall k ensures NamedIn(init, k) ==> NamedIn(results, k) {
        if NamedIn(init, k) {
          var i :| 0 <= i < n && Kept(init[i]) && NameOf(init[i]) == k;
          assert results[i] == init[i];
        }
      }
    }
  }

  lemma {:induction false} OptionsLast(results: seq<Json>)
    requires BuildOptions(results).Some?
    ensures var m := BuildOptions(results).value;
      forall k :: k in m ==> exists i :: LastNamed(results, k, i) && m[k] == PageIdOf(results[i])
  {
    if results != [] {
      var n := |results| - 1;
      var init := results[..n];
      var last := results[n];
      OptionsLast(init);
      OptionsKeys(results);
      var m := BuildOptions(results).value;
      var m0 := BuildOptions(init).value;
      forall k | k in m
        ensures exists i :: LastNamed(results, k, i) && m[k] == PageIdOf(results[i])
      {
        if Kept(last) && NameOf(last) == k {
          assert LastNamed(results, k, n);
        } else {
          assert k in m0;
          var i :| LastNamed(init, k, i) && m0[k] == PageIdOf(init[i]);
          LastNamedExtends(results, k, i);
        }
      }
    }
  }

  /** The last result named `k` among all but the final one stays the last
      when the final one is not a kept result named `k`. */
  lemma LastNamedExtends(results: seq<Json>, k: Json, i: int)
    requires results != [] && LastNamed(results[..|results| - 1], k, i)
    requires !(Kept(results[|results| - 1]) && NameOf(results[|results| - 1]) == k)
    ensures LastNamed(results, k, i) && results[i] == results[..|results| - 1][i]
  {
    var init := results[..|results| - 1];
    forall j | i < j < |results| ensures !(Kept(results[j]) && NameOf(results[j]) == k) {
      if j < |init| {
        assert results[j] == init[j];
      }
    }
  }

  /** `get_platform_id` on the search reply: 402 and 429 raise the client's
      exceptions, any other failure (network, other 4xx/5xx in
      `raise_for_status`, a body that is not JSON or not shaped as expected)
      is an ordinary exception, and a good reply gives the name -> id map. */
  function PlatformIdOutcome(f: Fetch): (r: Result<map<Json, Json>, CallError>)
    ensures r.Failure? && r.error.Fatal? ==> f.Reply? && (f.status == 402 || f.status == 429)
    ensures f.Reply? && f.status == 402 ==> r == Failure(Fatal(CreditExhausted(0)))
    ensures r.Success? ==> f.Reply? && !(400 <= f.status < 600) && f.body.Some? && f.body.value.JObj?
  {
    match f
    case NetworkError => Failure(Failed)
    case Reply(status, headers, body) =>
      match CheckCredit(status, headers)
      case Failure(Api(e)) => Failure(Fatal(e))
      case Failure(BadRetryAfter) => Failure(Failed)
      case Success(_) =>
        if 400 <= status < 600 then Failure(Failed)
        else if body.None? || !body.value.JObj? then Failure(Failed)
        else
          match DictElements(GetOr(body.value.fields, "searchResults", JList([])))
          case None => Failure(Failed)
          case Some(results) =>
            match BuildOptions(results)
            case None => Failure(Failed)
            case Some(options) => Success(options)
  }

  // ---------------------------------------------------------------------
  // parse_fb_ads

  const Formats: set<Json> := {JStr("IMAGE"), JStr("VIDEO"), JStr("DCO")}

  const TrimmedKeys: set<string> := {"ad_id", "start_date", "end_date", "media_url", "body", "media_type"}

  const ExtraKeys: set<string> := {
    "page_id", "page_name", "currency", "funding_entity", "impressions", "spend",
    "disclaimer", "languages", "publisher_platforms", "platform_positions", "effective_status"}

  /** `datetime.fromtimestamp(v).isoformat()` unless `v` is None; `iso`
      stands for the conversion, None where it raises. */
  function ConvertDate(v: Json, iso: Json -> Option<string>): Option<Json> {
    if v == JNull then Some(JNull)
    else match iso(v)
      case Some(s) => Some(JStr(s))
      case None => None
  }

  /** The body list built from `snapshot['body']`; None where `.get` raises. */
  function BodiesOf(body: Json): Option<seq<Json>> {
    if !Truthy(body) then Some([])
    else if body.JObj? then Some([Get(body.fields, "text")])
    else None
  }

  datatype Media = Media(urls: seq<Json>, bodies: seq<Json>)

  predicate AllDicts(xs: seq<Json>) {
    forall k :: 0 <= k < |xs| ==> xs[k].JObj?
  }

  /** `[v[0].get(key)]` for a non-empty `images`/`videos` value. */
  function FirstMedia(v: Json, key: string): Option<seq<Json>> {
    match Len(v)
    case None => None
    case Some(n) =>
      if n == 0 then Some([])
      else if v.JList? && v.items[0].JObj? then Some([Get(v.items[0].fields, key)])
      else None
  }

  /** The snapshot key holding the media of an IMAGE or VIDEO ad. */
  function MediaListKey(format: Json): string {
    if format == JStr("IMAGE") then "images" else "videos"
  }

  /** The key of the URL in the first element of that media list. */
  function MediaUrlKey(format: Json): string {
    if format == JStr("IMAGE") then "resized_image_url" else "video_sd_url"
  }

  /** `[card.get(key) for card in cards]`. */
  function CardValues(cards: seq<Json>, key: string): (r: seq<Json>)
    requires AllDicts(cards)
    ensures |r| == |cards| && forall k :: 0 <= k < |cards| ==> r[k] == Get(cards[k].fields, key)
  {
    seq(|cards|, k requires 0 <= k < |cards| => Get(cards[k].fields, key))
  }

  /** The media URLs of one supported ad and the bodies paired with them;
      None where Python raises. */
  function MediaOf(format: Json, snapshot: Dict, bodies: seq<Json>): Option<Media>
    requires format in Formats
  {
    if format == JStr("IMAGE") then
      match FirstMedia(GetOr(snapshot, "images", JList([])), "resized_image_url")
      case None => None
      case Some(urls) => Some(Media(urls, bodies))
    else if format == JStr("VIDEO") then
      match FirstMedia(GetOr(snapshot, "videos", JList([])), "video_sd_url")
      case None => None
      case Some(urls) => Some(Media(urls, bodies))
    else
      var cards := GetOr(snapshot, "cards", JList([]));
      match Len(cards)
      case None => None
      case Some(n) =>
        if n == 0 then Some(Media([], bodies))
        else if cards.JList? && AllDicts(cards.items) then
          Some(Media(CardValues(cards.items, "resized_image_url"), CardValues(cards.items, "body")))
        else None
  }

  /** One flat ad object. */
  function AdObject(ad: Dict, id: Json, start: Json, end: Json, url: Json, body: Json, format: Json, trim: bool): Dict {
    var base := map["ad_id" := id, "start_date" := start, "end_date" := end,
                    "media_url" := url, "body" := body, "media_type" := format];
    if trim then base else base + map k | k in ExtraKeys :: Get(ad, k)
  }

  /** `zip(media_urls, bodies)`, keeping the pairs with a URL and a truthy body. */
  function Emit(ad: Dict, id: Json, start: Json, end: Json, format: Json, trim: bool,
                urls: seq<Json>, bodies: seq<Json>): (r: seq<Dict>)
    decreases |urls|
  {
    if urls == [] || bodies == [] then []
    else
      (if urls[0] != JNull && Truthy(bodies[0]) then [AdObject(ad, id, start, end, urls[0], bodies[0], format, trim)] else [])
      + Emit(ad, id, start, end, format, trim, urls[1..], bodies[1..])
  }

  /** The ad objects a dict-shaped ad yields; an ad that is skipped (no id,
      unsupported format, nothing to pair, or an exception) yields none. */
  function AdObjects(ad: Dict, trim: bool, iso: Json -> Option<string>): seq<Dict> {
    var id := Get(ad, "ad_archive_id");
    if !Truthy(id) then []
    else
      var start := ConvertDate(Get(ad, "start_date"), iso);
      var end := ConvertDate(Get(ad, "end_date"), iso);
      if start.None? || end.None? then []
      else
        var snapshot := GetOr(ad, "snapshot", JObj(map[]));
        if !snapshot.JObj? then []
        else
          var format := Get(snapshot.fields, "display_format");
          if format !in Formats then []
          else
            match BodiesOf(GetOr(snapshot.fields, "body", JObj(map[])))
            case None => []
            case Some(bodies) =>
              match MediaOf(format, snapshot.fields, bodies)
              case None => []
              case Some(m) =>
                if |m.urls| == 0 || |m.bodies| == 0 then []
                else Emit(ad, id, start.value, end.value, format, trim, m.urls, m.bodies)
  }

  /** What one element of `results` contributes. An element that is not a
      dict makes the `except` handler itself raise (it calls `ad.get` to log
      the id), which ends the whole parse: None. */
  function AdOutputs(ad: Json, trim: bool, iso: Json -> Option<string>): Option<seq<Dict>> {
    if ad.JObj? then Some(AdObjects(ad.fields, trim, iso)) else None
  }

  /** The parser's loop over `results`, ad by ad, in order. */
  function ConcatOutputs(ads: seq<Json>, trim: bool, iso: Json -> Option<string>): Option<seq<Dict>> {
    if ads == [] then Some([])
    else
      match ConcatOutputs(ads[..|ads| - 1], trim, iso)
      case None => None
      case Some(done) =>
        match AdOutputs(ads[|ads| - 1], trim, iso)
        case None => None
        case Some(more) => Some(done + more)
  }

  /** `parse_fb_ads(resJson, trim)`; None where it raises. */
  function ParsedAds(resJson: Json, trim: bool, iso: Json -> Option<string>): (r: Option<seq<Dict>>)
    ensures r.Some? ==> resJson.JObj?
  {
    if !resJson.JObj? then None
    else
      match DictElements(GetOr(resJson.fields, "results", JList([])))
      case None => None
      case Some(ads) => ConcatOutputs(ads, trim, iso)
  }

  /** What every emitted ad object looks like: exactly the six trimmed keys
      (seventeen without trimming), a truthy id, a URL that is not None, a
      truthy body and a supported format. */
  predicate WellFormed(o: Dict, trim: bool) {
    && o.Keys == (if trim then TrimmedKeys else TrimmedKeys + ExtraKeys)
    && Truthy(o["ad_id"]) && o["media_url"] != JNull && Truthy(o["body"])
    && o["media_type"] in Formats
  }

  /** No key of the untrimmed extras shadows one of the six trimmed keys. */
  lemma KeysDisjoint()
    ensures TrimmedKeys !! ExtraKeys
  {
  }

  lemma AdObjectWellFormed(ad: Dict, id: Json, start: Json, end: Json, url: Json, body: Json, format: Json, trim: bool)
    requires Truthy(id) && format in Formats && url != JNull && Truthy(body)
    ensures WellFormed(AdObject(ad, id, start, end, url, body, format, trim), trim)
    ensures AdObject(ad, id, start, end, url, body, format, trim)["ad_id"] == id
  {
    var base := map["ad_id" := id, "start_date" := start, "end_date" := end,
                    "media_url" := url, "body" := body, "media_type" := format];
    assert base.Keys == TrimmedKeys by {
      forall k | k in base ensures k in TrimmedKeys {}
      forall k | k in TrimmedKeys ensures k in base {}
    }
    var o := AdObject(ad, id, start, end, url, body, format, trim);
    assert forall k :: k in TrimmedKeys ==> o[k] == base[k] by {
      if !trim {
        KeysDisjoint();
      }
    }
    assert base["ad_id"] == id && base["media_url"] == url && base["body"] == body && base["media_type"] == format;
  }

  /** Every object in `os` is well formed and carries the id `id`. */
  predicate AllWellFormed(os: seq<Dict>, trim: bool, id: Json) {
    forall k :: 0 <= k < |os| ==> WellFormed(os[k], trim) && os[k]["ad_id"] == id
  }

  lemma AllWellFormedAppend(xs: seq<Dict>, ys: seq<Dict>, trim: bool, id: Json)
    requires AllWellFormed(xs, trim, id) && AllWellFormed(ys, trim, id)
    ensures AllWellFormed(xs + ys, trim, id)
  {
    forall k | 0 <= k < |xs + ys|
      ensures WellFormed((xs + ys)[k], trim) && (xs + ys)[k]["ad_id"] == id
    {
      if k >= |xs| {
        assert (xs + ys)[k] == ys[k - |xs|];
      }
    }
  }

  lemma {:induction false} EmitWellFormed(ad: Dict, id: Json, start: Json, end: Json, format: Json, trim: bool,
                                          urls: seq<Json>, bodies: seq<Json>)
    requires Truthy(id) && format in Formats
    ensures var r := Emit(ad, id, start, end, format, trim, urls, bodies);
      |r| <= |urls| && |r| <= |bodies| && AllWellFormed(r, trim, id)
    decreases |urls|
  {
    if urls != [] && bodies != [] {
      var head := if urls[0] != JNull && Truthy(bodies[0])
        then [AdObject(ad, id, start, end, urls[0], bodies[0], format, trim)] else [];
      EmitWellFormed(ad, id, start, end, format, trim, urls[1..], bodies[1..]);
      if urls[0] != JNull && Truthy(bodies[0]) {
        AdObjectWellFormed(ad, id, start, end, urls[0], bodies[0], format, trim);
      }
      AllWellFormedAppend(head, Emit(ad, id, start, end, format, trim, urls[1..], bodies[1..]), trim, id);
    }
  }

  /** Every ad object an ad yields is well formed and carries that ad's id;
      an IMAGE or VIDEO ad yields at most one, a DCO ad at most one per card;
      an ad without a truthy id or with another format yields none. */
  lemma AdObjectsShape(ad: Dict, trim: bool, iso: Json -> Option<string>)
    ensures var r := AdObjects(ad, trim, iso);
      && (forall k :: 0 <= k < |r| ==> WellFormed(r[k], trim) && r[k]["ad_id"] == Get(ad, "ad_archive_id"))
      && (!Truthy(Get(ad, "ad_archive_id")) ==> r == [])
      && (var snapshot := GetOr(ad, "snapshot", JObj(map[]));
          && (!snapshot.JObj? ==> r == [])
          && (snapshot.JObj? ==>
                var format := Get(snapshot.fields, "display_format");
                && (format !in Formats ==> r == [])
                && (format in {JStr("IMAGE"), JStr("VIDEO")} ==> |r| <= 1)))
  {
    var id := Get(ad, "ad_archive_id");
    var r := AdObjects(ad, trim, iso);
    if Truthy(id) {
      var start := ConvertDate(Get(ad, "start_date"), iso);
      var end := ConvertDate(Get(ad, "end_date"), iso);
      if start.Some? && end.Some? {
        var snapshot := GetOr(ad, "snapshot", JObj(map[]));
        if snapshot.JObj? {
          var format := Get(snapshot.fields, "display_format");
          if format in Formats {
            match BodiesOf(GetOr(snapshot.fields, "body", JObj(map[])))
            case None =>
            case Some(bodies) =>
              match MediaOf(format, snapshot.fields, bodies)
              case None =>
              case Some(m) =>
                if |m.urls| != 0 && |m.bodies| != 0 {
                  EmitWellFormed(ad, id, start.value, end.value, format, trim, m.urls, m.bodies);
                }
          }
        }
      }
    }
  }

  /** The positions from `lo` on of the pairs of `zip(urls, bodies)` that
      yield an ad object: a URL that is not None and a truthy body. */
  function Paired(urls: seq<Json>, bodies: seq<Json>, lo: nat): seq<nat>
    decreases |urls| - lo
  {
    if lo >= |urls| || lo >= |bodies| then []
    else (if urls[lo] != JNull && Truthy(bodies[lo]) then [lo] else []) + Paired(urls, bodies, lo + 1)
  }

  /** Those positions are increasing, and are exactly the positions of
      both lists whose pair qualifies. */
  lemma {:induction false} PairedSpec(urls: seq<Json>, bodies: seq<Json>, lo: nat)
    ensures var ps := Paired(urls, bodies, lo);
      && (forall k :: 0 <= k < |ps| ==> lo <= ps[k] < |urls| && ps[k] < |bodies|)
      && (forall k, l :: 0 <= k < l < |ps| ==> ps[k] < ps[l])
      && (forall i :: lo <= i < |urls| && i < |bodies| ==> (i in ps <==> urls[i] != JNull && Truthy(bodies[i])))
    decreases |urls| - lo
  {
    if lo < |urls| && lo < |bodies| {
      PairedSpec(urls, bodies, lo + 1);
    }
  }

  /** `os` holds one ad object per qualifying pair of `zip(urls, bodies)`,
      in the order of the pairs. */
  predicate Zipped(os: seq<Dict>, ad: Dict, id: Json, start: Json, end: Json, format: Json, trim: bool,
                   urls: seq<Json>, bodies: seq<Json>)
  {
    var ps := Paired(urls, bodies, 0);
    && |os| == |ps|
    && forall k :: 0 <= k < |os| ==>
         ps[k] < |urls| && ps[k] < |bodies| && os[k] == AdObject(ad, id, start, end, urls[ps[k]], bodies[ps[k]], format, trim)
  }

  lemma {:induction false} EmitFrom(ad: Dict, id: Json, start: Json, end: Json, format: Json, trim: bool,
                                    urls: seq<Json>, bodies: seq<Json>, lo: nat)
    requires lo <= |urls| && lo <= |bodies|
    ensures var r := Emit(ad, id, start, end, format, trim, urls[lo..], bodies[lo..]);
      var ps := Paired(urls, bodies, lo);
      && |r| == |ps|
      && forall k :: 0 <= k < |r| ==>
           ps[k] < |urls| && ps[k] < |bodies| && r[k] == AdObject(ad, id, start, end, urls[ps[k]], bodies[ps[k]], format, trim)
    decreases |urls| - lo
  {
    if lo < |urls| && lo < |bodies| {
      EmitFrom(ad, id, start, end, format, trim, urls, bodies, lo + 1);
      assert urls[lo..][1..] == urls[lo + 1..];
      assert bodies[lo..][1..] == bodies[lo + 1..];
      var rest := Emit(ad, id, start, end, format, trim, urls[lo + 1..], bodies[lo + 1..]);
      var ps := Paired(urls, bodies, lo + 1);
      if urls[lo] != JNull && Truthy(bodies[lo]) {
        var o := AdObject(ad, id, start, end, urls[lo], bodies[lo], format, trim);
        assert Emit(ad, id, start, end, format, trim, urls[lo..], bodies[lo..]) == [o] + rest;
        assert Paired(urls, bodies, lo) == [lo] + ps;
      } else {
        assert Emit(ad, id, start, end, format, trim, urls[lo..], bodies[lo..]) == rest;
        assert Paired(urls, bodies, lo) == ps;
      }
    }
  }

  /** The ad objects `zip` yields are exactly those of the qualifying pairs,
      in the order of the pairs. */
  lemma EmitSpec(ad: Dict, id: Json, start: Json, end: Json, format: Json, trim: bool, urls: seq<Json>, bodies: seq<Json>)
    ensures Zipped(Emit(ad, id, start, end, format, trim, urls, bodies), ad, id, start, end, format, trim, urls, bodies)
  {
    EmitFrom(ad, id, start, end, format, trim, urls, bodies, 0);
    assert urls[0..] == urls && bodies[0..] == bodies;
  }

  /** An IMAGE or VIDEO ad with an id, dates that convert, a body dict and
      a media list whose first element is a dict yields exactly one ad
      object, built from that first element's URL and the body's text, when
      that URL is not None and the text is truthy, and none otherwise. */
  lemma SingleMediaAd(ad: Dict, trim: bool, iso: Json -> Option<string>, snapshot: Dict, body: Dict,
                      first: Dict, rest: seq<Json>)
    requires Truthy(Get(ad, "ad_archive_id"))
    requires ConvertDate(Get(ad, "start_date"), iso).Some? && ConvertDate(Get(ad, "end_date"), iso).Some?
    requires GetOr(ad, "snapshot", JObj(map[])) == JObj(snapshot)
    requires Get(snapshot, "display_format") == JStr("IMAGE") || Get(snapshot, "display_format") == JStr("VIDEO")
    requires GetOr(snapshot, "body", JObj(map[])) == JObj(body) && body != map[]
    requires GetOr(snapshot, MediaListKey(Get(snapshot, "display_format")), JList([])) == JList([JObj(first)] + rest)
    ensures var format := Get(snapshot, "display_format");
      var url := Get(first, MediaUrlKey(format));
      var text := Get(body, "text");
      AdObjects(ad, trim, iso)
        == if url != JNull && Truthy(text)
           then [AdObject(ad, Get(ad, "ad_archive_id"), ConvertDate(Get(ad, "start_date"), iso).value,
                          ConvertDate(Get(ad, "end_date"), iso).value, url, text, format, trim)]
           else []
  {
    var format := Get(snapshot, "display_format");
    var url := Get(first, MediaUrlKey(format));
    var text := Get(body, "text");
    assert format in Formats;
    assert BodiesOf(GetOr(snapshot, "body", JObj(map[]))) == Some([text]);
    assert FirstMedia(GetOr(snapshot, MediaListKey(format), JList([])), MediaUrlKey(format)) == Some([url]);
    assert MediaOf(format, snapshot, [text]) == Some(Media([url], [text]));
    var id := Get(ad, "ad_archive_id");
    var start := ConvertDate(Get(ad, "start_date"), iso).value;
    var end := ConvertDate(Get(ad, "end_date"), iso).value;
    assert Emit(ad, id, start, end, format, trim, [url][1..], [text][1..]) == [];
  }

  /** A DCO ad with an id, dates that convert, a body that does not raise
      and a non-empty list of card dicts yields exactly one ad object per
      card with a URL that is not None and a truthy body, in card order;
      the snapshot's own body is not used. */
  lemma DcoAd(ad: Dict, trim: bool, iso: Json -> Option<string>, snapshot: Dict, cards: seq<Json>)
    requires Truthy(Get(ad, "ad_archive_id"))
    requires ConvertDate(Get(ad, "start_date"), iso).Some? && ConvertDate(Get(ad, "end_date"), iso).Some?
    requires GetOr(ad, "snapshot", JObj(map[])) == JObj(snapshot)
    requires Get(snapshot, "display_format") == JStr("DCO")
    requires BodiesOf(GetOr(snapshot, "body", JObj(map[]))).Some?
    requires GetOr(snapshot, "cards", JList([])) == JList(cards) && cards != [] && AllDicts(cards)
    ensures Zipped(AdObjects(ad, trim, iso), ad, Get(ad, "ad_archive_id"), ConvertDate(Get(ad, "start_date"), iso).value,
                   ConvertDate(Get(ad, "end_date"), iso).value, JStr("DCO"), trim,
                   CardValues(cards, "resized_image_url"), CardValues(cards, "body"))
  {
    EmitSpec(ad, Get(ad, "ad_archive_id"), ConvertDate(Get(ad, "start_date"), iso).value,
             ConvertDate(Get(ad, "end_date"), iso).value, JStr("DCO"), trim,
             CardValues(cards, "resized_image_url"), CardValues(cards, "body"));
  }

  /** A DCO ad yields at most one ad object per card. */
  lemma DcoPerCard(ad: Dict, trim: bool, iso: Json -> Option<string>)
    requires var snapshot := GetOr(ad, "snapshot", JObj(map[]));
      snapshot.JObj? && Get(snapshot.fields, "display_format") == JStr("DCO")
      && GetOr(snapshot.fields, "cards", JList([])).JList?
    ensures |AdObjects(ad, trim, iso)| <= |GetOr(GetOr(ad, "snapshot", JObj(map[])).fields, "cards", JList([])).items|
  {
    var id := Get(ad, "ad_archive_id");
    if Truthy(id) {
      var start := ConvertDate(Get(ad, "start_date"), iso);
      var end := ConvertDate(Get(ad, "end_date"), iso);
      if start.Some? && end.Some? {
        var snapshot := GetOr(ad, "snapshot", JObj(map[]));
        var format := JStr("DCO");
        match BodiesOf(GetOr(snapshot.fields, "body", JObj(map[])))
        case None =>
        case Some(bodies) =>
          match MediaOf(format, snapshot.fields, bodies)
          case None =>
          case Some(m) =>
            if |m.urls| != 0 && |m.bodies| != 0 {
              EmitWellFormed(ad, id, start.value, end.value, format, trim, m.urls, m.bodies);
            }
      }
    }
  }

  /** Every object in `os` is well formed. */
  predicate Shaped(os: seq<Dict>, trim: bool) {
    forall k :: 0 <= k < |os| ==> WellFormed(os[k], trim)
  }

  lemma ShapedAppend(xs: seq<Dict>, ys: seq<Dict>, trim: bool)
    requires Shaped(xs, trim) && Shaped(ys, trim)
    ensures Shaped(xs + ys, trim)
  {
    forall k | 0 <= k < |xs + ys| ensures WellFormed((xs + ys)[k], trim) {
      if k >= |xs| {
        assert (xs + ys)[k] == ys[k - |xs|];
      }
    }
  }

  lemma AdOutputsShape(ad: Json, trim: bool, iso: Json -> Option<string>)
    ensures AdOutputs(ad, trim, iso).Some? <==> ad.JObj?
    ensures AdOutputs(ad, trim, iso).Some? ==> Shaped(AdOutputs(ad, trim, iso).value, trim)
  {
    if ad.JObj? {
      AdObjectsShape(ad.fields, trim, iso);
    }
  }

  /** The parse succeeds exactly when every element of `results` is a dict,
      and then every ad object it returns is well formed. */
  lemma {:induction false} ConcatOutputsShape(ads: seq<Json>, trim: bool, iso: Json -> Option<string>)
    ensures ConcatOutputs(ads, trim, iso).Some? <==> AllDicts(ads)
    ensures ConcatOutputs(ads, trim, iso).Some? ==> Shaped(ConcatOutputs(ads, trim, iso).value, trim)
  {
    if ads != [] {
      var init := ads[..|ads| - 1];
      ConcatOutputsShape(init, trim, iso);
      assert forall k :: 0 <= k < |init| ==> init[k] == ads[k];
      var last := ads[|ads| - 1];
      AdOutputsShape(last, trim, iso);
      if ConcatOutputs(ads, trim, iso).Some? {
        ShapedAppend(ConcatOutputs(init, trim, iso).value, AdOutputs(last, trim, iso).value, trim);
      }
    }
  }

  /** The ads found in `ads[..i]` stay in front of those found later. */
  lemma {:induction false} ConcatOutputsPrefix(ads: seq<Json>, i: nat, trim: bool, iso: Json -> Option<string>)
    requires i <= |ads| && ConcatOutputs(ads, trim, iso).Some?
    ensures ConcatOutputs(ads[..i], trim, iso).Some?
    ensures ConcatOutputs(ads[..i], trim, iso).value <= ConcatOutputs(ads, trim, iso).value
  {
    if i < |ads| {
      var init := ads[..|ads| - 1];
      ConcatOutputsPrefix(init, i, trim, iso);
      assert init[..i] == ads[..i];
    } else {
      assert ads[..i] == ads;
    }
  }

  /** `parse_fb_ads` as the loop it is, appending each ad's objects. */
  method ParseFbAds(resJson: Json, trim: bool, iso: Json -> Option<string>) returns (r: Option<seq<Dict>>)
    ensures r == ParsedAds(resJson, trim, iso)
  {
    if !resJson.JObj? {
      return None;
    }
    var elements := DictElements(GetOr(resJson.fields, "results", JList([])));
    if elements.None? {
      return None;
    }
    var results := elements.value;
    var ads: seq<Dict> := [];
    var i := 0;
    while i < |results|
      invariant 0 <= i <= |results|
      invariant ConcatOutputs(results[..i], trim, iso) == Some(ads)
    {
      var ad := results[i];
      if !ad.JObj? {
        PrefixFailure(results, i + 1, trim, iso);
        return None;
      }
      ads := ads + AdObjects(ad.fields, trim, iso);
      assert results[..i + 1][..i] == results[..i];
      i := i + 1;
    }
    assert results[..i] == results;
    r := Some(ads);
  }

  /** A failure in the first `i` ads is a failure of the whole parse. */
  lemma PrefixFailure(ads: seq<Json>, i: nat, trim: bool, iso: Json -> Option<string>)
    requires i <= |ads| && ConcatOutputs(ads[..i], trim, iso).None?
    ensures ConcatOutputs(ads, trim, iso).None?
  {
    if ConcatOutputs(ads, trim, iso).Some? {
      ConcatOutputsPrefix(ads, i, trim, iso);
    }
  }

  // ---------------------------------------------------------------------
  // get_ads: cursor pagination

  /** At most this many requests per `get_ads` call. */
  const MaxRequests: nat := 10

  /** The page size the API accepts at most. */
  const MaxPageSize: int := 100

  /** The arguments of `get_ads`. */
  datatype AdsQuery = AdsQuery(pageId: string, limit: int, country: Option<string>, trim: bool)

  /** The query parameters of one request. */
  datatype AdsRequest = AdsRequest(pageId: string, pageSize: int, country: Option<string>, trim: bool, cursor: Option<Json>)

  /** The parameters sent with a given cursor: `min(limit, 100)` as page size
      and the country upper-cased when it is given and not empty. */
  function RequestFor(q: AdsQuery, cursor: Option<Json>): AdsRequest {
    AdsRequest(q.pageId, if q.limit < MaxPageSize then q.limit else MaxPageSize,
               if q.country.Some? && q.country.value != "" then Some(Upper(q.country.value)) else None,
               q.trim, cursor)
  }

  /** What one reply does to the loop: stop after adding `ads`, or add
      `ads` and go on with `cursor`. */
  datatype Step = Halt(ads: seq<Dict>) | Next(ads: seq<Dict>, cursor: Json)

  /** One pass of the loop body. Every exception inside it, the client's own
      quota exceptions included, is caught by the loop's `except Exception`
      and stops the loop. */
  function PageStep(f: Fetch, trim: bool, iso: Json -> Option<string>): (r: Step)
    ensures r.Next? ==> Truthy(r.cursor) && r.ads != []
    ensures f.NetworkError? ==> r == Halt([])
    ensures f.Reply? && (f.status == 402 || f.status == 429) ==> r == Halt([])
    ensures f.Reply? && CheckCredit(f.status, f.headers).Failure? ==> r == Halt([])
    ensures f.Reply? && f.status != 200 ==> r == Halt([])
    ensures f.Reply? && (f.body.None? || ParsedAds(f.body.value, trim, iso).None?) ==> r == Halt([])
    ensures f.Reply? && f.status == 200 && CheckCredit(f.status, f.headers).Success? && f.body.Some?
            && ParsedAds(f.body.value, trim, iso).Some? ==>
      var page := ParsedAds(f.body.value, trim, iso).value;
      var cursor := Get(f.body.value.fields, "cursor");
      r == if page == [] then Halt([]) else if Truthy(cursor) then Next(page, cursor) else Halt(page)
  {
    match f
    case NetworkError => Halt([])
    case Reply(status, headers, body) =>
      if CheckCredit(status, headers).Failure? || status != 200 || body.None? then Halt([])
      else
        match ParsedAds(body.value, trim, iso)
        case None => Halt([])
        case Some(page) =>
          if page == [] then Halt([])
          else
            var cursor := Get(body.value.fields, "cursor");
            if Truthy(cursor) then Next(page, cursor) else Halt(page)
  }

  /** The outcome of the loop: the ads gathered and the requests sent. */
  datatype Crawl = Crawl(ads: seq<Dict>, sent: seq<AdsRequest>)

  /** The server as the loop sees it: `steps(k, request)` is what the reply
      to the `k`-th request does to the loop. */
  type Steps = (nat, AdsRequest) -> Step

  function StepsOf(server: (nat, AdsRequest) -> Fetch, trim: bool, iso: Json -> Option<string>): Steps {
    (k: nat, request: AdsRequest) => PageStep(server(k, request), trim, iso)
  }

  /** The loop from its `k`-th request on, with the cursor and the ads
      gathered so far. */
  function CrawlFrom(q: AdsQuery, steps: Steps, k: nat, cursor: Option<Json>, acc: seq<Dict>): Crawl
    decreases MaxRequests - k
  {
    if |acc| < q.limit && k < MaxRequests then
      var request := RequestFor(q, cursor);
      match steps(k, request)
      case Halt(page) => Crawl(acc + page, [request])
      case Next(page, next) =>
        var rest := CrawlFrom(q, steps, k + 1, Some(next), acc + page);
        Crawl(rest.ads, [request] + rest.sent)
    else Crawl(acc, [])
  }

  /** The ads the replies to `sent` add, the first of them being the reply
      to the `k`-th request, in order. */
  function Pages(steps: Steps, k: nat, sent: seq<AdsRequest>): seq<Dict>
    decreases |sent|
  {
    if sent == [] then [] else steps(k, sent[0]).ads + Pages(steps, k + 1, sent[1..])
  }

  /** The loop's ads are the ones it started with followed by the pages of
      the replies to the requests it sends, in order. */
  lemma {:induction false} CrawlPages(q: AdsQuery, steps: Steps, k: nat, cursor: Option<Json>, acc: seq<Dict>)
    ensures var c := CrawlFrom(q, steps, k, cursor, acc);
      c.ads == acc + Pages(steps, k, c.sent)
    decreases MaxRequests - k
  {
    if |acc| < q.limit && k < MaxRequests {
      var request := RequestFor(q, cursor);
      match steps(k, request)
      case Halt(page) =>
        assert Pages(steps, k, [request]) == page + Pages(steps, k + 1, []);
      case Next(page, next) =>
        var rest := CrawlFrom(q, steps, k + 1, Some(next), acc + page);
        CrawlPages(q, steps, k + 1, Some(next), acc + page);
        assert ([request] + rest.sent)[1..] == rest.sent;
        assert Pages(steps, k, [request] + rest.sent) == page + Pages(steps, k + 1, rest.sent);
    }
  }

  /** `get_ads` returns the parsed pages of the replies to the requests it
      sent, in order, cut to `limit`. */
  lemma GetAdsPages(q: AdsQuery, server: (nat, AdsRequest) -> Fetch, iso: Json -> Option<string>)
    ensures var steps := StepsOf(server, q.trim, iso);
      FetchAds(q, steps) == Prefix(Pages(steps, 0, Requests(q, steps)), q.limit)
  {
    CrawlPages(q, StepsOf(server, q.trim, iso), 0, None, []);
  }

  /** `get_ads(page_id, limit, country, trim)`: the gathered ads cut to `limit`. */
  function FetchAds(q: AdsQuery, steps: Steps): seq<Dict> {
    Prefix(CrawlFrom(q, steps, 0, None, []).ads, q.limit)
  }

  function Requests(q: AdsQuery, steps: Steps): seq<AdsRequest> {
    CrawlFrom(q, steps, 0, None, []).sent
  }

  /** `get_ads`; `server(k, request)` is the reply to the `k`-th request. */
  method GetAds(q: AdsQuery, server: (nat, AdsRequest) -> Fetch, iso: Json -> Option<string>)
    returns (ads: seq<Dict>, sent: seq<AdsRequest>)
    ensures ads == FetchAds(q, StepsOf(server, q.trim, iso))
    ensures sent == Requests(q, StepsOf(server, q.trim, iso))
  {
    var gathered;
    gathered, sent := Paginate(q, StepsOf(server, q.trim, iso));
    ads := Prefix(gathered, q.limit);
  }

  /** The `while` loop of `get_ads`, with each pass of its body (the request,
      the reply and its parsing) as `steps`. */
  method Paginate(q: AdsQuery, steps: Steps) returns (gathered: seq<Dict>, sent: seq<AdsRequest>)
    ensures gathered == CrawlFrom(q, steps, 0, None, []).ads
    ensures sent == CrawlFrom(q, steps, 0, None, []).sent
  {
    var cursor: Option<Json> := None;
    var total: nat := 0;
    gathered := [];
    sent := [];
    while |gathered| < q.limit && total < MaxRequests
      invariant total <= MaxRequests
      invariant CrawlFrom(q, steps, 0, None, [])
             == Crawl(CrawlFrom(q, steps, total, cursor, gathered).ads,
                      sent + CrawlFrom(q, steps, total, cursor, gathered).sent)
      decreases MaxRequests - total
    {
      var request := RequestFor(q, cursor);
      var step := steps(total, request);
      ghost var before := CrawlFrom(q, steps, total, cursor, gathered);
      ghost var old_sent := sent;
      sent := sent + [request];
      gathered := gathered + step.ads;
      if step.Halt? {
        assert before == Crawl(gathered, [request]);
        break;
      }
      ghost var rest := CrawlFrom(q, steps, total + 1, Some(step.cursor), gathered);
      assert before == Crawl(rest.ads, [request] + rest.sent);
      assert old_sent + ([request] + rest.sent) == sent + rest.sent;
      cursor := Some(step.cursor);
      total := total + 1;
    }
  }

  /** The loop sends at most ten requests, all for the same page with the
      same page size, country and trim flag; the first carries the starting
      cursor, each later one the cursor of the reply before it, and every
      reply but the last let the loop go on. */
  lemma CrawlRequests(q: AdsQuery, steps: Steps, k: nat, cursor: Option<Json>, acc: seq<Dict>)
    requires k <= MaxRequests
    ensures var c := CrawlFrom(q, steps, k, cursor, acc);
      && |c.sent| <= MaxRequests - k
      && (forall i :: 0 <= i < |c.sent| ==> c.sent[i] == RequestFor(q, c.sent[i].cursor))
      && (c.sent != [] ==> c.sent[0].cursor == cursor)
      && Chained(steps, k, c.sent)
  {
    CrawlSent(q, steps, k, cursor, acc);
    CrawlChain(q, steps, k, cursor, acc);
  }

  /** A pass that lets the loop go on sends its request in front of the
      requests of the passes after it. */
  lemma CrawlNext(q: AdsQuery, steps: Steps, k: nat, cursor: Option<Json>, acc: seq<Dict>)
    requires |acc| < q.limit && k < MaxRequests && steps(k, RequestFor(q, cursor)).Next?
    ensures var s := steps(k, RequestFor(q, cursor));
      CrawlFrom(q, steps, k, cursor, acc).sent
        == [RequestFor(q, cursor)] + CrawlFrom(q, steps, k + 1, Some(s.cursor), acc + s.ads).sent
  {
  }

  lemma {:induction false} CrawlSent(q: AdsQuery, steps: Steps, k: nat, cursor: Option<Json>, acc: seq<Dict>)
    requires k <= MaxRequests
    ensures var c := CrawlFrom(q, steps, k, cursor, acc);
      && |c.sent| <= MaxRequests - k
      && (forall i :: 0 <= i < |c.sent| ==> c.sent[i] == RequestFor(q, c.sent[i].cursor))
      && (c.sent != [] ==> c.sent[0].cursor == cursor)
    decreases MaxRequests - k
  {
    if |acc| < q.limit && k < MaxRequests && steps(k, RequestFor(q, cursor)).Next? {
      var s := steps(k, RequestFor(q, cursor));
      CrawlSent(q, steps, k + 1, Some(s.cursor), acc + s.ads);
      CrawlNext(q, steps, k, cursor, acc);
    }
  }

  /** Every request in `sent` but the last got a reply that let the loop go
      on, and the next request carries that reply's cursor; `sent[0]` is the
      `k`-th request. */
  predicate Chained(steps: Steps, k: nat, sent: seq<AdsRequest>) {
    forall i :: 0 <= i < |sent| - 1 ==>
      steps(k + i, sent[i]).Next? && sent[i + 1].cursor == Some(steps(k + i, sent[i]).cursor)
  }

  lemma {:induction false} CrawlChain(q: AdsQuery, steps: Steps, k: nat, cursor: Option<Json>, acc: seq<Dict>)
    requires k <= MaxRequests
    ensures Chained(steps, k, CrawlFrom(q, steps, k, cursor, acc).sent)
    decreases MaxRequests - k
  {
    if |acc| < q.limit && k < MaxRequests && steps(k, RequestFor(q, cursor)).Next? {
      var s := steps(k, RequestFor(q, cursor));
      CrawlChain(q, steps, k + 1, Some(s.cursor), acc + s.ads);
      CrawlSent(q, steps, k + 1, Some(s.cursor), acc + s.ads);
      CrawlNext(q, steps, k, cursor, acc);
      ChainCons(steps, k, RequestFor(q, cursor), CrawlFrom(q, steps, k + 1, Some(s.cursor), acc + s.ads).sent);
    }
  }

  /** Putting a request whose reply goes on in front of a chain that starts
      with that reply's cursor gives a chain. */
  lemma ChainCons(steps: Steps, k: nat, request: AdsRequest, rest: seq<AdsRequest>)
    requires steps(k, request).Next? && Chained(steps, k + 1, rest)
    requires rest != [] ==> rest[0].cursor == Some(steps(k, request).cursor)
    ensures Chained(steps, k, [request] + rest)
  {
    var sent := [request] + rest;
    forall i | 0 <= i < |sent| - 1
      ensures steps(k + i, sent[i]).Next? && sent[i + 1].cursor == Some(steps(k + i, sent[i]).cursor)
    {
      if i > 0 {
        var j := i - 1;
        assert sent[i] == rest[j] && sent[i + 1] == rest[j + 1];
        assert k + 1 + j == k + i;
      }
    }
  }

  /** The ads gathered extend the ones the loop started with, and the loop
      stops only when the limit is reached, ten requests were sent, or a
      reply stopped it. */
  lemma {:induction false} CrawlStops(q: AdsQuery, steps: Steps, k: nat, cursor: Option<Json>, acc: seq<Dict>)
    requires k <= MaxRequests
    ensures var c := CrawlFrom(q, steps, k, cursor, acc);
      && acc <= c.ads
      && (c.sent == [] <==> q.limit <= |acc| || k == MaxRequests)
      && (c.sent != [] ==>
            var n := |c.sent| - 1;
            steps(k + n, c.sent[n]).Halt? || q.limit <= |c.ads| || k + n + 1 == MaxRequests)
    decreases MaxRequests - k
  {
    if |acc| < q.limit && k < MaxRequests {
      var request := RequestFor(q, cursor);
      match steps(k, request)
      case Halt(page) =>
      case Next(page, next) =>
        CrawlStops(q, steps, k + 1, Some(next), acc + page);
        var rest := CrawlFrom(q, steps, k + 1, Some(next), acc + page);
        var c := CrawlFrom(q, steps, k, cursor, acc);
        assert c.sent == [request] + rest.sent;
        if rest.sent != [] {
          var n := |c.sent| - 1;
          assert c.sent[n] == rest.sent[n - 1] && k + n == (k + 1) + (n - 1);
        }
    }
  }

  /** `get_ads` returns at most `limit` ads and sends between one and ten
      requests (none when the limit is not positive), each with page size
      `min(limit, 100)`. */
  lemma GetAdsBounds(q: AdsQuery, steps: Steps)
    ensures |FetchAds(q, steps)| <= (if q.limit < 0 then 0 else q.limit)
    ensures q.limit <= 0 ==> Requests(q, steps) == []
    ensures 0 < q.limit ==> 1 <= |Requests(q, steps)| <= MaxRequests
    ensures forall r :: r in Requests(q, steps) ==> r.pageSize == (if q.limit < MaxPageSize then q.limit else MaxPageSize)
  {
    CrawlRequests(q, steps, 0, None, []);
    CrawlStops(q, steps, 0, None, []);
  }

  /** A 402 or 429 on the first request is not raised: `get_ads` returns no
      ads after that single request. */
  lemma QuotaReplyIsSwallowed(q: AdsQuery, server: (nat, AdsRequest) -> Fetch, iso: Json -> Option<string>)
    requires 0 < q.limit
    requires var f := server(0, RequestFor(q, None)); f.Reply? && (f.status == 402 || f.status == 429)
    ensures FetchAds(q, StepsOf(server, q.trim, iso)) == []
    ensures Requests(q, StepsOf(server, q.trim, iso)) == [RequestFor(q, None)]
  {
  }
}
