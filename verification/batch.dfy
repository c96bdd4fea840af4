/** The batch entry points `get_platform_ids_batch` and `get_ads_batch`:
    de-duplicate the inputs in first-seen order, call the single-item
    operation once per distinct input, keep going past ordinary failures
    (recording an empty result) and stop at the first quota exception. */
module Batch {
  import opened Wrappers
  import opened PyValues
  import opened PyText
  import opened Credit
  import opened AdLibrary

  /** `list(dict.fromkeys(xs))`. */
  function Distinct<T(==)>(xs: seq<T>): seq<T> {
    if xs == [] then []
    else
      var seen := Distinct(xs[..|xs| - 1]);
      if xs[|xs| - 1] in seen then seen else seen + [xs[|xs| - 1]]
  }

  /** The de-duplicated list holds each input exactly once, ordered by
      first occurrence. */
  lemma {:induction false} DistinctSpec<T>(xs: seq<T>)
    ensures forall x :: x in Distinct(xs) <==> x in xs
    ensures forall i, j :: 0 <= i < j < |Distinct(xs)| ==>
      IndexOf(xs, Distinct(xs)[i]) < IndexOf(xs, Distinct(xs)[j])
  {
    if xs != [] {
      var init := xs[..|xs| - 1];
      var x := xs[|xs| - 1];
      var seen := Distinct(init);
      DistinctSpec(init);
      assert xs == init + [x];
      forall y | y in init ensures IndexOf(xs, y) == IndexOf(init, y) {
        var k := IndexOf(init, y);
        assert xs[..k] == init[..k];
        IndexOfUnique(xs, y, k);
      }
      if x !in init {
        assert xs[..|init|] == init;
        IndexOfUnique(xs, x, |init|);
      }
    }
  }

  /** No input appears twice in the de-duplicated list. */
  lemma DistinctNoDuplicates<T>(xs: seq<T>)
    ensures forall i, j :: 0 <= i < j < |Distinct(xs)| ==> Distinct(xs)[i] != Distinct(xs)[j]
  {
    DistinctSpec(xs);
  }

  /** The batch loop over `keys` as a specification: each key maps to its
      call's value, or to `empty` after an ordinary failure; a quota
      exception ends the batch with that exception. */
  function BatchOutcome<V>(keys: seq<string>, call: string -> Result<V, CallError>, empty: V): Result<map<string, V>, ApiError> {
    if keys == [] then Success(map[])
    else
      match BatchOutcome(keys[..|keys| - 1], call, empty)
      case Failure(e) => Failure(e)
      case Success(results) =>
        var key := keys[|keys| - 1];
        match call(key)
        case Success(v) => Success(results[key := v])
        case Failure(Failed) => Success(results[key := empty])
        case Failure(Fatal(e)) => Failure(e)
  }

  predicate IsFatal<V>(r: Result<V, CallError>) {
    r.Failure? && r.error.Fatal?
  }

  function ValueOr<V>(r: Result<V, CallError>, empty: V): V {
    if r.Success? then r.value else empty
  }

  /** A batch succeeds exactly when no key's call raises a quota exception;
      it then maps every key, and only those, to its value or to `empty`.
      Otherwise it fails with the exception of the first such key. */
  lemma {:induction false} BatchOutcomeSpec<V>(keys: seq<string>, call: string -> Result<V, CallError>, empty: V)
    ensures BatchOutcome(keys, call, empty).Success? <==> forall i :: 0 <= i < |keys| ==> !IsFatal(call(keys[i]))
    ensures BatchOutcome(keys, call, empty).Success? ==>
      var m := BatchOutcome(keys, call, empty).value;
      && (forall k :: k in m <==> k in keys)
      && (forall k :: k in m ==> m[k] == ValueOr(call(k), empty))
    ensures BatchOutcome(keys, call, empty).Failure? ==>
      exists i :: 0 <= i < |keys| && IsFatal(call(keys[i]))
        && BatchOutcome(keys, call, empty).error == call(keys[i]).error.error
        && forall j :: 0 <= j < i ==> !IsFatal(call(keys[j]))
  {
    if keys != [] {
      var init := keys[..|keys| - 1];
      BatchOutcomeSpec(init, call, empty);
      assert forall i :: 0 <= i < |init| ==> init[i] == keys[i];
      assert keys == init + [keys[|keys| - 1]];
    }
  }

  /** The batch loop. */
  method RunBatch<V>(inputs: seq<string>, call: string -> Result<V, CallError>, empty: V)
    returns (r: Result<map<string, V>, ApiError>)
    ensures r == BatchOutcome(Distinct(inputs), call, empty)
  {
    var keys := DistinctLoop(inputs);
    var results: map<string, V> := map[];
    var i := 0;
    while i < |keys|
      invariant 0 <= i <= |keys|
      invariant BatchOutcome(keys[..i], call, empty) == Success(results)
    {
      var key := keys[i];
      assert keys[..i + 1][..i] == keys[..i];
      var outcome := call(key);
      if IsFatal(outcome) {
        FailurePersists(keys, i + 1, call, empty);
        return Failure(outcome.error.error);
      }
      results := results[key := ValueOr(outcome, empty)];
      i := i + 1;
    }
    assert keys[..i] == keys;
    r := Success(results);
  }

  /** `list(dict.fromkeys(xs))` as the loop over a dict of seen keys. */
  method DistinctLoop(xs: seq<string>) returns (r: seq<string>)
    ensures r == Distinct(xs)
  {
    r := [];
    var seen: set<string> := {};
    var i := 0;
    while i < |xs|
      invariant 0 <= i <= |xs|
      invariant r == Distinct(xs[..i])
      invariant seen == set x | x in r
    {
      assert xs[..i + 1][..i] == xs[..i];
      if xs[i] !in seen {
        r := r + [xs[i]];
        seen := seen + {xs[i]};
      }
      i := i + 1;
    }
    assert xs[..i] == xs;
  }

  /** Once the batch over a prefix of the keys has failed, so has the batch
      over all of them. */
  lemma {:induction false} FailurePersists<V>(keys: seq<string>, i: nat, call: string -> Result<V, CallError>, empty: V)
    requires i <= |keys| && BatchOutcome(keys[..i], call, empty).Failure?
    ensures BatchOutcome(keys, call, empty) == BatchOutcome(keys[..i], call, empty)
    decreases |keys|
  {
    if i < |keys| {
      var init := keys[..|keys| - 1];
      assert init[..i] == keys[..i];
      FailurePersists(init, i, call, empty);
    } else {
      assert keys[..i] == keys;
    }
  }

  /** `get_platform_ids_batch`: `search(name)` is the reply to the search
      for `name`; a failed search records an empty map. */
  method GetPlatformIdsBatch(names: seq<string>, search: string -> Fetch)
    returns (r: Result<map<string, map<Json, Json>>, ApiError>)
    ensures r == BatchOutcome(Distinct(names), (name: string) => PlatformIdOutcome(search(name)), map[])
  {
    r := RunBatch(names, (name: string) => PlatformIdOutcome(search(name)), map[]);
  }

  /** The ads call of `get_ads_batch` for one page id; `server(id, k, request)`
      is the reply to the `k`-th request for page `id`. `get_ads` never
      raises, so every call succeeds. */
  function AdsCall(limit: int, country: Option<string>, trim: bool,
                   server: (string, nat, AdsRequest) -> Fetch, iso: Json -> Option<string>)
    : string -> Result<seq<Dict>, CallError>
  {
    (id: string) => Success(FetchAds(AdsQuery(id, limit, country, trim),
                                     StepsOf((k: nat, request: AdsRequest) => server(id, k, request), trim, iso)))
  }

  /** `get_ads_batch`. */
  method GetAdsBatch(ids: seq<string>, limit: int, country: Option<string>, trim: bool,
                     server: (string, nat, AdsRequest) -> Fetch, iso: Json -> Option<string>)
    returns (r: Result<map<string, seq<Dict>>, ApiError>)
    ensures r == BatchOutcome(Distinct(ids), AdsCall(limit, country, trim, server, iso), [])
  {
    r := RunBatch(ids, AdsCall(limit, country, trim, server, iso), []);
  }

  /** Because `get_ads` swallows every exception, the ads batch never stops
      early: it maps every requested page id to that page's ads. */
  lemma AdsBatchComplete(ids: seq<string>, limit: int, country: Option<string>, trim: bool,
                         server: (string, nat, AdsRequest) -> Fetch, iso: Json -> Option<string>)
    ensures var r := BatchOutcome(Distinct(ids), AdsCall(limit, country, trim, server, iso), []);
      && r.Success?
      && (forall id :: id in r.value <==> id in ids)
      && (forall id :: id in r.value ==> r.value[id] == AdsCall(limit, country, trim, server, iso)(id).value)
  {
    DistinctSpec(ids);
    BatchOutcomeSpec(Distinct(ids), AdsCall(limit, country, trim, server, iso), []);
  }

  /** In the search batch, a 402 for a name stops the batch unless an
      earlier name already did: an exhausted quota is never recorded as an
      empty result. */
  lemma SearchQuotaAborts(names: seq<string>, search: string -> Fetch, name: string)
    requires name in names
    requires search(name).Reply? && search(name).status == 402
    ensures BatchOutcome(Distinct(names), (n: string) => PlatformIdOutcome(search(n)), map[]).Failure?
  {
    var call := (n: string) => PlatformIdOutcome(search(n));
    DistinctSpec(names);
    BatchOutcomeSpec(Distinct(names), call, map[]);
    var i := IndexOf(Distinct(names), name);
    assert IsFatal(call(Distinct(names)[i]));
  }
}
