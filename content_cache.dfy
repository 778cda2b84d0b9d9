/**
  The per-page body cache (`xContentCache`, a plain object used as a dictionary)
  and the lookup-then-fetch discipline every detail loader follows:
  a truthy cached body is used without a request; otherwise the body is
  fetched, and stored only when the response is ok.
 */
module ContentCache {
  import opened Wrappers
  import opened Net

  type Cache = map<string, string>

  /** `if (cache[key])`: the key is present with a non-empty (truthy) body. */
  predicate Hit(cache: Cache, key: string): (b: bool)
    // an absent key and an empty (falsy) body are both misses
    ensures key !in cache ==> !b
    ensures key in cache ==> (b <==> |cache[key]| > 0)
  {
    key in cache && cache[key] != ""
  }

  /** What one detail open does with the cache: the new cache, the URL requested (if any),
      and the body to render (`None` when the fetch failed). */
  datatype Resolution = Resolution(cache: Cache, request: Option<string>, body: Option<string>)

  /** Resolve the body for `key`, fetched from `url` on a miss with outcome `response`. */
  function Resolve(cache: Cache, key: string, url: string, response: TextResponse): (r: Resolution)
    // a request is issued exactly on a miss, and it is for `url`
    ensures r.request.None? <==> Hit(cache, key)
    ensures r.request.Some? ==> r.request.value == url
    // a hit renders the cached body and leaves the cache alone
    ensures Hit(cache, key) ==> r.cache == cache && r.body == Some(cache[key])
    // a miss with an ok response stores exactly the fetched text under `key`, and renders it
    ensures !Hit(cache, key) && response.Ok? ==> r.cache == cache[key := response.text] && r.body == Some(response.text)
    // a miss with a failed or non-ok response caches nothing and renders no body
    ensures !Hit(cache, key) && !response.Ok? ==> r.cache == cache && r.body.None?
  {
    if Hit(cache, key) then Resolution(cache, None, Some(cache[key]))
    else match response
      case Ok(text) => Resolution(cache[key := text], Some(url), Some(text))
      case _ => Resolution(cache, Some(url), None)
  }

  /** Only the opened key can change; every other cached body is kept. */
  lemma ResolveTouchesOnlyKey(cache: Cache, key: string, url: string, response: TextResponse, other: string)
    requires other != key
    ensures var r := Resolve(cache, key, url, response);
      (other in r.cache <==> other in cache) && (other in cache ==> r.cache[other] == cache[other])
  {
  }

  /** An ok response with an empty body is stored, but an empty body is falsy, so the next
      open of the same key fetches again. */
  lemma EmptyBodyIsFetchedAgain(cache: Cache, key: string, url: string, response: TextResponse)
    requires !Hit(cache, key)
    ensures var r := Resolve(cache, key, url, Ok(""));
      r.body == Some("") && Resolve(r.cache, key, url, response).request == Some(url)
  {
  }

  /** One detail open in a session: which key, which URL, and what the fetch would return. */
  datatype Visit = Visit(key: string, url: string, response: TextResponse)

  /** The cache after a sequence of opens, and the request each open issued. */
  datatype Session = Session(cache: Cache, requests: seq<Option<string>>)

  function Replay(cache: Cache, visits: seq<Visit>): (s: Session)
    ensures |s.requests| == |visits|
    decreases |visits|
  {
    if visits == [] then Session(cache, [])
    else
      var r := Resolve(cache, visits[0].key, visits[0].url, visits[0].response);
      var rest := Replay(r.cache, visits[1..]);
      Session(rest.cache, [r.request] + rest.requests)
  }

  /** Once a key holds a non-empty body, no later open of it issues a request, and the body
      stays the one first stored, so every later open renders the same text. */
  lemma {:induction false} CachedKeyIsNeverFetchedAgain(cache: Cache, key: string, visits: seq<Visit>)
    requires Hit(cache, key)
    ensures Hit(Replay(cache, visits).cache, key)
    ensures Replay(cache, visits).cache[key] == cache[key]
    ensures forall i :: 0 <= i < |visits| && visits[i].key == key ==> Replay(cache, visits).requests[i].None?
    decreases |visits|
  {
    if visits != [] {
      var r := Resolve(cache, visits[0].key, visits[0].url, visits[0].response);
      if visits[0].key != key {
        ResolveTouchesOnlyKey(cache, visits[0].key, visits[0].url, visits[0].response, key);
      }
      CachedKeyIsNeverFetchedAgain(r.cache, key, visits[1..]);
      var rest := Replay(r.cache, visits[1..]);
      forall i | 0 <= i < |visits| && visits[i].key == key
        ensures Replay(cache, visits).requests[i].None?
      {
        if i > 0 {
          assert visits[1..][i - 1] == visits[i];
          assert Replay(cache, visits).requests[i] == rest.requests[i - 1];
        }
      }
    }
  }

  /** The first open of a key whose fetch succeeds with a non-empty body is the only request
      ever issued for it in the session. */
  lemma FetchedAtMostOnceAfterSuccess(cache: Cache, key: string, url: string, text: string, later: seq<Visit>)
    requires !Hit(cache, key) && text != ""
    ensures var s := Replay(cache, [Visit(key, url, Ok(text))] + later);
      s.requests[0] == Some(url) &&
      forall i :: 1 <= i < |s.requests| && later[i - 1].key == key ==> s.requests[i].None?
  {
    var visits := [Visit(key, url, Ok(text))] + later;
    assert visits[1..] == later;
    var r := Resolve(cache, key, url, Ok(text));
    CachedKeyIsNeverFetchedAgain(r.cache, key, later);
  }

  /** Failures are not cached: while no fetch of a key has succeeded with a non-empty body,
      every open of it issues a request again, and the key stays a miss. */
  lemma {:induction false} FailedKeyIsFetchedEveryTime(cache: Cache, key: string, visits: seq<Visit>)
    requires !Hit(cache, key)
    requires forall i :: 0 <= i < |visits| && visits[i].key == key ==> !(visits[i].response.Ok? && visits[i].response.text != "")
    ensures !Hit(Replay(cache, visits).cache, key)
    ensures forall i :: 0 <= i < |visits| && visits[i].key == key ==> Replay(cache, visits).requests[i] == Some(visits[i].url)
    decreases |visits|
  {
    if visits != [] {
      var r := Resolve(cache, visits[0].key, visits[0].url, visits[0].response);
      if visits[0].key != key {
        ResolveTouchesOnlyKey(cache, visits[0].key, visits[0].url, visits[0].response, key);
      }
      assert !Hit(r.cache, key);
      forall i | 0 <= i < |visits| - 1 && visits[1..][i].key == key
        ensures !(visits[1..][i].response.Ok? && visits[1..][i].response.text != "")
      {
        assert visits[1..][i] == visits[i + 1];
      }
      FailedKeyIsFetchedEveryTime(r.cache, key, visits[1..]);
      var rest := Replay(r.cache, visits[1..]);
      forall i | 0 <= i < |visits| && visits[i].key == key
        ensures Replay(cache, visits).requests[i] == Some(visits[i].url)
      {
        if i > 0 {
          assert visits[1..][i - 1] == visits[i];
          assert Replay(cache, visits).requests[i] == rest.requests[i - 1];
        }
      }
    }
  }
}
