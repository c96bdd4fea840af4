/** How the ad-library client reads an HTTP reply for credit problems
    (`check_credit_status` in scrapecreators_service.py). */
module Credit {
  import opened Wrappers
  import opened PyText

  /** The two exceptions the client defines for quota problems. */
  datatype ApiError =
    | CreditExhausted(creditsRemaining: int)
    | RateLimit(retryAfter: Option<int>)

  /** What `check_credit_status` raises: one of the client's exceptions, or
      the `ValueError` of `int()` on a `retry-after` value that is not an
      integer. */
  datatype CheckError = Api(error: ApiError) | BadRetryAfter

  /** The credit headers found in a reply. */
  datatype CreditInfo = CreditInfo(creditsRemaining: Option<int>, creditCost: Option<int>)

  /** Reply headers, keyed by lower-cased name as requests' case-insensitive
      header dictionary looks them up. */
  type Headers = map<string, string>

  const RemainingHeaders: seq<string> := ["x-credits-remaining", "x-credit-remaining", "credits-remaining"]
  const CostHeaders: seq<string> := ["x-credit-cost", "credit-cost", "x-credits-used"]

  /** The integer header `name` holds; None when it is absent or `int()`
      raises on it. */
  function HeaderInt(headers: Headers, name: string): Option<int> {
    if name in headers then ParseInt(headers[name]) else None
  }

  /** Header `name` is present and holds an integer. */
  predicate Parses(headers: Headers, name: string) {
    HeaderInt(headers, name).Some?
  }

  /** The loop over recognised header names: each name whose value `read`
      gives overwrites what earlier names gave; the others are ignored. */
  function ScanHeaders(names: seq<string>, read: string -> Option<int>, found: Option<int>): Option<int> {
    if names == [] then found
    else ScanHeaders(names[1..], read, if read(names[0]).Some? then read(names[0]) else found)
  }

  /** The header scan yields None exactly when no recognised header holds an
      integer, and otherwise the value of the last one in list order that
      does. */
  lemma ScanLastWins(names: seq<string>, headers: Headers)
    ensures var r := ScanHeaders(names, name => HeaderInt(headers, name), None);
      && (r == None <==> forall i :: 0 <= i < |names| ==> !Parses(headers, names[i]))
      && (r != None ==> exists i :: 0 <= i < |names| && Parses(headers, names[i])
                          && r == ParseInt(headers[names[i]])
                          && forall j :: i < j < |names| ==> !Parses(headers, names[j]))
  {
    ScanFrom(names, name => HeaderInt(headers, name), None);
  }

  lemma {:induction false} ScanFrom(names: seq<string>, read: string -> Option<int>, found: Option<int>)
    ensures var r := ScanHeaders(names, read, found);
      && ((forall i :: 0 <= i < |names| ==> read(names[i]).None?) ==> r == found)
      && ((exists i :: 0 <= i < |names| && read(names[i]).Some?) ==>
            exists i :: 0 <= i < |names| && read(names[i]).Some? && r == read(names[i])
                        && forall j :: i < j < |names| ==> read(names[j]).None?)
  {
    if names != [] {
      var next := if read(names[0]).Some? then read(names[0]) else found;
      var tail := names[1..];
      ScanFrom(tail, read, next);
      var r := ScanHeaders(names, read, found);
      if exists i :: 0 <= i < |tail| && read(tail[i]).Some? {
        var i :| 0 <= i < |tail| && read(tail[i]).Some? && r == read(tail[i])
                 && forall j :: i < j < |tail| ==> read(tail[j]).None?;
        assert names[i + 1] == tail[i];
        forall j | i + 1 < j < |names| ensures read(names[j]).None? {
          assert names[j] == tail[j - 1];
        }
      } else {
        forall i | 1 <= i < |names| ensures read(names[i]).None? {
          assert names[i] == tail[i - 1];
        }
        if exists i :: 0 <= i < |names| && read(names[i]).Some? {
          assert read(names[0]).Some?;
        }
      }
    }
  }

  /** `check_credit_status`: 402 raises CreditExhausted with no credits left;
      429 raises RateLimit carrying `int(retry-after)` when that header is
      non-empty (and `ValueError` when it is not an integer); every other
      status, 403 included, returns the credit headers, or None when there
      are none. A 403 never raises: the CreditExhausted raised for it is
      swallowed by the bare `except` around it. */
  function CheckCredit(status: int, headers: Headers): (r: Result<Option<CreditInfo>, CheckError>)
    ensures status == 402 ==> r == Failure(Api(CreditExhausted(0)))
    ensures status == 429 ==> r.Failure? && (r.error.Api? ==> r.error.error.RateLimit?)
    ensures status != 402 && status != 429 ==> r.Success?
    ensures r.Success? ==>
      (r.value == None <==> forall i :: 0 <= i < 3 ==>
                              !Parses(headers, RemainingHeaders[i]) && !Parses(headers, CostHeaders[i]))
  {
    if status == 402 then
      Failure(Api(CreditExhausted(0)))
    else if status == 429 then
      var retryAfter := if "retry-after" in headers then headers["retry-after"] else "";
      if retryAfter == "" then Failure(Api(RateLimit(None)))
      else
        match ParseInt(retryAfter)
        case Some(v) => Failure(Api(RateLimit(Some(v))))
        case None => Failure(BadRetryAfter)
    else
      var remaining := ScanHeaders(RemainingHeaders, name => HeaderInt(headers, name), None);
      var cost := ScanHeaders(CostHeaders, name => HeaderInt(headers, name), None);
      ScanLastWins(RemainingHeaders, headers);
      ScanLastWins(CostHeaders, headers);
      Success(if remaining == None && cost == None then None else Some(CreditInfo(remaining, cost)))
  }

  /** A 429 whose `retry-after` header is the integer `n` raises RateLimit
      with `retry_after == n`; without the header it carries None. */
  lemma RateLimitRetryAfter(headers: Headers, n: int)
    ensures "retry-after" in headers && headers["retry-after"] == Show(n) ==>
              CheckCredit(429, headers) == Failure(Api(RateLimit(Some(n))))
    ensures "retry-after" !in headers ==> CheckCredit(429, headers) == Failure(Api(RateLimit(None)))
  {
    ParseShow(n);
    var s := Show(n);
    assert |s| > 0 by { if n < 0 { assert s == "-" + ShowNat(-n); } }
  }

  /** A `retry-after` value that starts with a letter, as the HTTP-date
      form allowed by section 10.2.3 of RFC 9110 does ("Wed, 21 Oct 2015
      07:28:00 GMT"), makes `int()` raise, so such a 429 surfaces as a plain
      ValueError instead of RateLimit. */
  lemma LetterRetryAfterIsNotRateLimit(headers: Headers)
    requires "retry-after" in headers
    requires var v := headers["retry-after"]; |v| > 0 && ('A' <= v[0] <= 'Z' || 'a' <= v[0] <= 'z')
    ensures CheckCredit(429, headers) == Failure(BadRetryAfter)
  {
    var v := headers["retry-after"];
    assert StripLeft(v) == v;
    var t := Strip(v);
    assert t != [] && t[0] == v[0];
    assert !IsDigitGroup(t);
    assert ParseInt(v) == None;
  }
}
