/** The argument checks at the top of the server's tools (mcp_server.py):
    the brand-name and platform-id lists, `limit` and `country` of
    `get_meta_ads`, and the content-type tests of the media downloads. */
module ToolInputs {
  import opened Wrappers
  import opened PyText

  /** A `Union[str, List[str]]` argument as the tool receives it, or any
      other value. */
  datatype NamesArg = Text(s: string) | Items(xs: seq<string>) | Unsupported

  datatype InputError =
    | EmptyName      // a single name that is empty or all whitespace
    | NoValidNames   // a list that is empty or holds only blank names
    | InvalidType    // neither a string nor a list
    | InvalidLimit   // a limit that is not positive
    | InvalidCountry // a country that is not two characters long

  /** The names to look up, and whether the tool was called with a single
      string (its reply then has the single-request shape). */
  datatype Names = Names(names: seq<string>, single: bool)

  /** `[str(x).strip() for x in xs if x and str(x).strip()]`. */
  function StrippedNames(xs: seq<string>): (r: seq<string>)
    ensures |r| <= |xs|
    ensures forall k :: 0 <= k < |r| ==> r[k] != [] && r[k] == Strip(r[k])
  {
    if xs == [] then []
    else
      var init := StrippedNames(xs[..|xs| - 1]);
      var last := xs[|xs| - 1];
      StripEmpty(last);
      StripIdempotent(last);
      if IsBlank(last) then init else init + [Strip(last)]
  }

  /** The names kept from `a + b` are those kept from `a` followed by those
      kept from `b`: the comprehension keeps order and drops only blanks. */
  lemma {:induction false} StrippedNamesAppend(a: seq<string>, b: seq<string>)
    ensures StrippedNames(a + b) == StrippedNames(a) + StrippedNames(b)
    decreases |b|
  {
    if b == [] {
      assert a + b == a;
    } else {
      var b0 := b[..|b| - 1];
      var x := b[|b| - 1];
      SplitLast(a, b);
      var t := if IsBlank(x) then [] else [Strip(x)];
      var sa, sb0 := StrippedNames(a), StrippedNames(b0);
      calc {
        StrippedNames(a + b);
        StrippedNames((a + b0) + [x]);
        { StrippedNamesSnoc(a + b0, x); }
        StrippedNames(a + b0) + t;
        { StrippedNamesAppend(a, b0); }
        (sa + sb0) + t;
        { AppendAssoc(sa, sb0, t); }
        sa + (sb0 + t);
        { StrippedNamesSnoc(b0, x); }
        sa + StrippedNames(b);
      }
    }
  }

  lemma AppendAssoc(a: seq<string>, b: seq<string>, c: seq<string>)
    ensures (a + b) + c == a + (b + c)
  {
  }

  lemma SplitLast(a: seq<string>, b: seq<string>)
    requires b != []
    ensures a + b == (a + b[..|b| - 1]) + [b[|b| - 1]]
    ensures b == b[..|b| - 1] + [b[|b| - 1]]
  {
  }

  /** One more name adds its stripped form, unless it is blank. */
  lemma StrippedNamesSnoc(xs: seq<string>, x: string)
    ensures StrippedNames(xs + [x]) == StrippedNames(xs) + (if IsBlank(x) then [] else [Strip(x)])
  {
    assert (xs + [x])[..|xs + [x]| - 1] == xs;
  }

  /** No name survives exactly when every name is blank. */
  lemma {:induction false} StrippedNamesEmpty(xs: seq<string>)
    ensures StrippedNames(xs) == [] <==> forall k :: 0 <= k < |xs| ==> IsBlank(xs[k])
  {
    if xs != [] {
      var init := xs[..|xs| - 1];
      StrippedNamesEmpty(init);
      assert forall k :: 0 <= k < |init| ==> init[k] == xs[k];
    }
  }

  lemma StripEmptyAll(xs: seq<string>)
    ensures forall k :: 0 <= k < |xs| ==> (Strip(xs[k]) == [] <==> IsBlank(xs[k]))
  {
    forall k | 0 <= k < |xs| ensures Strip(xs[k]) == [] <==> IsBlank(xs[k]) {
      StripEmpty(xs[k]);
    }
  }

  /** The brand-name check of `get_meta_platform_id`, which `get_meta_ads`
      repeats for its platform ids. */
  function NormalizeNames(arg: NamesArg): Result<Names, InputError> {
    match arg
    case Text(s) =>
      if s == "" || Strip(s) == "" then Failure(EmptyName) else Success(Names([Strip(s)], true))
    case Items(xs) =>
      if xs == [] || forall k :: 0 <= k < |xs| ==> xs[k] == "" || Strip(xs[k]) == "" then
        Failure(NoValidNames)
      else Success(Names(StrippedNames(xs), false))
    case Unsupported => Failure(InvalidType)
  }

  /** A string is stripped and refused when blank; a list keeps its
      stripped non-blank names in order and is refused when none is left;
      any other value is refused. What goes on is never empty and holds no
      blank name. */
  lemma NormalizeNamesSpec(arg: NamesArg)
    ensures var r := NormalizeNames(arg);
      && (r.Success? ==> r.value.names != [])
      && (r.Success? ==> forall k :: 0 <= k < |r.value.names| ==> !IsBlank(r.value.names[k]))
      && (arg.Text? ==> (r.Success? <==> !IsBlank(arg.s)))
      && (arg.Text? && r.Success? ==> r.value == Names([Strip(arg.s)], true))
      && (arg.Items? ==> (r.Success? <==> exists k :: 0 <= k < |arg.xs| && !IsBlank(arg.xs[k])))
      && (arg.Items? && r.Success? ==> r.value == Names(StrippedNames(arg.xs), false))
      && (arg.Unsupported? ==> r == Failure(InvalidType))
  {
    match arg
    case Text(s) =>
      TextName(s);
    case Items(xs) =>
      ItemNames(xs);
    case Unsupported =>
  }

  lemma TextName(s: string)
    ensures NormalizeNames(Text(s)).Success? <==> !IsBlank(s)
    ensures !IsBlank(s) ==> !IsBlank(Strip(s))
  {
    StripEmpty(s);
    StripIdempotent(s);
    StripEmpty(Strip(s));
  }

  lemma ItemNames(xs: seq<string>)
    ensures NormalizeNames(Items(xs)).Success? <==> exists k :: 0 <= k < |xs| && !IsBlank(xs[k])
    ensures NormalizeNames(Items(xs)).Success? ==>
      StrippedNames(xs) != [] && forall k :: 0 <= k < |StrippedNames(xs)| ==> !IsBlank(StrippedNames(xs)[k])
  {
    StrippedNamesEmpty(xs);
    StripEmptyAll(xs);
    StripEmptyAll(StrippedNames(xs));
  }

  /** The page size requested per platform id: `limit or 50` after the
      check, which refuses a non-positive limit and caps it at 500. */
  function EffectiveLimit(limit: Option<int>): (r: Result<int, InputError>)
    ensures r.Failure? <==> limit.Some? && limit.value <= 0
    ensures r.Success? ==> 1 <= r.value <= MaxLimit
    ensures limit.Some? && 0 < limit.value <= MaxLimit ==> r == Success(limit.value)
    ensures limit.Some? && limit.value > MaxLimit ==> r == Success(MaxLimit)
    ensures limit.None? ==> r == Success(DefaultLimit)
  {
    match limit
    case None => Success(DefaultLimit)
    case Some(v) =>
      if v <= 0 then Failure(InvalidLimit)
      else if v > MaxLimit then Success(MaxLimit)
      else Success(v)
  }

  const MaxLimit: int := 500
  const DefaultLimit: int := 50

  /** The country check: a given country must be two characters long and
      is upper-cased. */
  function CountryArg(country: Option<string>): (r: Result<Option<string>, InputError>)
    ensures r.Failure? <==> country.Some? && |country.value| != 2
    ensures r.Success? && r.value.Some? ==> |r.value.value| == 2 && Upper(r.value.value) == r.value.value
    ensures r.Success? ==> (r.value.Some? <==> country.Some?)
    ensures country.None? ==> r == Success(None)
    ensures country.Some? && |country.value| == 2 ==> r == Success(Some(Upper(country.value)))
  {
    match country
    case None => Success(None)
    case Some(c) =>
      if |c| != 2 then Failure(InvalidCountry)
      else
        UpperIdempotent(c);
        Success(Some(Upper(c)))
  }

  // ---------------------------------------------------------------------
  // Content types

  const ImageTypes: seq<string> := ["image/", "jpeg", "jpg", "png", "gif", "webp"]
  const VideoTypes: seq<string> := ["video/", "mp4", "mov", "webm", "avi"]

  /** `any(t in s for t in ts)`. */
  predicate AnyIn(s: string, ts: seq<string>) {
    if ts == [] then false else Contains(s, ts[0]) || AnyIn(s, ts[1..])
  }

  lemma {:induction false} AnyInSpec(s: string, ts: seq<string>)
    ensures AnyIn(s, ts) <==> exists i :: 0 <= i < |ts| && Contains(s, ts[i])
  {
    if ts != [] {
      AnyInSpec(s, ts[1..]);
      assert forall i :: 1 <= i < |ts| ==> ts[i] == ts[1..][i - 1];
      if exists i :: 1 <= i < |ts| && Contains(s, ts[i]) {
        var i :| 1 <= i < |ts| && Contains(s, ts[i]);
        assert Contains(s, ts[1..][i - 1]);
      }
    }
  }

  /** The `content-type` header of a download, `''` when absent. */
  function ContentType(headers: map<string, string>): string {
    if "content-type" in headers then headers["content-type"] else ""
  }

  /** The image download check: the lower-cased content type names one of
      the image types. */
  predicate IsImageType(contentType: string) {
    AnyIn(Lower(contentType), ImageTypes)
  }

  /** The video download check, the same test with the video types. */
  predicate IsVideoType(contentType: string) {
    AnyIn(Lower(contentType), VideoTypes)
  }

  lemma LowerIdempotent(s: string)
    ensures Lower(Lower(s)) == Lower(s)
  {
    var l := Lower(s);
    forall k | 0 <= k < |l| ensures LowerChar(l[k]) == l[k] {
      assert l[k] == LowerChar(s[k]);
    }
  }

  /** A content type is accepted exactly when its lower-cased form contains
      one of the listed types, so the test ignores letter case. */
  lemma ContentTypeAcceptance(contentType: string)
    ensures IsImageType(contentType) <==>
      exists i :: 0 <= i < |ImageTypes| && Contains(Lower(contentType), ImageTypes[i])
    ensures IsVideoType(contentType) <==>
      exists i :: 0 <= i < |VideoTypes| && Contains(Lower(contentType), VideoTypes[i])
    ensures IsImageType(Lower(contentType)) == IsImageType(contentType)
    ensures IsVideoType(Lower(contentType)) == IsVideoType(contentType)
  {
    AnyInSpec(Lower(contentType), ImageTypes);
    AnyInSpec(Lower(contentType), VideoTypes);
    LowerIdempotent(contentType);
  }

  /** The test is a substring test, not a comparison of media types: an
      AVIF image ("image/avif") passes the video test, since it contains
      "avi", as well as the image test. */
  lemma AvifPassesBoth()
    ensures IsImageType("image/avif") && IsVideoType("image/avif")
  {
    var s := "image/avif";
    assert Lower(s) == s;
    assert OccursAt(s, "image/", 0) by {
      assert s[0..6] == "image/";
    }
    assert OccursAt(s, "avi", 6) by {
      assert s[6..9] == "avi";
    }
    AnyInSpec(s, ImageTypes);
    AnyInSpec(s, VideoTypes);
    assert ImageTypes[0] == "image/" && VideoTypes[4] == "avi";
  }
}
