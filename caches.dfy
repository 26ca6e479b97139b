/**
 * The part of the Cache API the service worker relies on, as a store of
 * named caches: `caches.open`, `caches.match`, `caches.delete`,
 * `cache.put` and `cache.addAll`. Caches are kept in creation order, which
 * is the order `caches.match` searches them in; a cache maps a request URL
 * to the response stored for it.
 */
module Caches {
  import opened Wrappers

  /** A request URL: its origin and the path (with any query) on it. */
  datatype Url = Url(origin: string, path: string)

  /** The parts of a request the worker and the store look at; `verb` is `request.method`. */
  datatype Request = Request(verb: string, url: Url, destination: string)

  /** `Response.type`. */
  datatype ResponseType = Basic | Cors | Default | Error | Opaque | OpaqueRedirect

  /** A response: its status, its type and (standing for everything else) its body. */
  datatype Response = Response(status: int, kind: ResponseType, body: string)

  /** What `fetch` settles to: a rejection (network failure) or a response. */
  datatype NetOutcome = NetFail | NetResponse(response: Response)

  /** One named cache: request URL to stored response. */
  type Cache = map<Url, Response>

  /** A list without repeated elements. */
  ghost predicate Distinct<T>(s: seq<T>)
  {
    forall i, j :: 0 <= i < j < |s| ==> s[i] != s[j]
  }

  /** `s` with every occurrence of `x` taken out, order otherwise kept. */
  function Remove<T(==)>(s: seq<T>, x: T): (r: seq<T>)
    ensures |r| <= |s|
  {
    if s == [] then []
    else (if s[0] == x then [] else [s[0]]) + Remove(s[1..], x)
  }

  /** What is left after removing `x`: exactly the other elements, still without repeats. */
  lemma {:induction false} RemoveMembers<T>(s: seq<T>, x: T)
    ensures forall y :: y in Remove(s, x) <==> y in s && y != x
    ensures Distinct(s) ==> Distinct(Remove(s, x))
  {
    if s != [] {
      RemoveMembers(s[1..], x);
      var r := Remove(s, x);
      assert forall y :: y in s <==> y == s[0] || y in s[1..];
      if Distinct(s) {
        assert s[0] !in s[1..];
        assert Distinct(s[1..]) by {
          forall i, j | 0 <= i < j < |s[1..]| ensures s[1..][i] != s[1..][j] {
            assert s[1..][i] == s[i + 1] && s[1..][j] == s[j + 1];
          }
        }
        if s[0] != x {
          forall i, j | 0 <= i < j < |r| ensures r[i] != r[j] {
            if i == 0 {
              assert r[j] in Remove(s[1..], x);
            } else {
              assert r[i] == Remove(s[1..], x)[i - 1] && r[j] == Remove(s[1..], x)[j - 1];
            }
          }
        }
      }
    }
  }

  /** Removing from a concatenation removes from each part. */
  lemma {:induction false} RemoveAppend<T>(a: seq<T>, b: seq<T>, x: T)
    ensures Remove(a + b, x) == Remove(a, x) + Remove(b, x)
  {
    if a != [] {
      assert (a + b)[1..] == a[1..] + b;
      RemoveAppend(a[1..], b, x);
    } else {
      assert a + b == b;
    }
  }

  /** Removing the one occurrence of `x` between two parts joins the parts. */
  lemma RemoveBetween<T>(a: seq<T>, x: T, b: seq<T>)
    requires x !in a && x !in b
    ensures Remove(a + ([x] + b), x) == a + b
  {
    RemoveAppend(a, [x] + b, x);
    RemoveAppend([x], b, x);
    RemoveAbsent(a, x);
    RemoveAbsent(b, x);
    assert Remove([x], x) == [];
    assert [] + b == b;
  }

  /** Removing an element that is not there changes nothing. */
  lemma {:induction false} RemoveAbsent<T>(s: seq<T>, x: T)
    requires x !in s
    ensures Remove(s, x) == s
  {
    if s != [] {
      assert s[1..] + [] == s[1..];
      RemoveAbsent(s[1..], x);
      assert [s[0]] + s[1..] == s;
    }
  }

  /** The response `caches.match` finds for `url`, searching the caches in `names` order. */
  function FirstMatch(names: seq<string>, entries: map<string, Cache>, url: Url): Option<Response>
  {
    if names == [] then None
    else if names[0] in entries && url in entries[names[0]] then Some(entries[names[0]][url])
    else FirstMatch(names[1..], entries, url)
  }

  /**
   * The match is the response held in the first cache, in `names` order,
   * that holds the URL, and there is none exactly when no cache holds it.
   */
  lemma {:induction false} FirstMatchSpec(names: seq<string>, entries: map<string, Cache>, url: Url)
    ensures FirstMatch(names, entries, url) == None <==>
      forall i :: 0 <= i < |names| && names[i] in entries ==> url !in entries[names[i]]
    ensures FirstMatch(names, entries, url).Some? ==>
      exists i :: (0 <= i < |names| && names[i] in entries && url in entries[names[i]]
        && FirstMatch(names, entries, url).value == entries[names[i]][url]
        && forall j :: 0 <= j < i && names[j] in entries ==> url !in entries[names[j]])
  {
    if names != [] && !(names[0] in entries && url in entries[names[0]]) {
      var rest := FirstMatch(names[1..], entries, url);
      FirstMatchSpec(names[1..], entries, url);
      assert forall i :: 1 <= i < |names| ==> names[i] == names[1..][i - 1];
      if rest.Some? {
        var k :| 0 <= k < |names[1..]| && names[1..][k] in entries && url in entries[names[1..][k]]
          && rest.value == entries[names[1..][k]][url]
          && forall j :: 0 <= j < k && names[1..][j] in entries ==> url !in entries[names[1..][j]];
        assert names[k + 1] == names[1..][k];
      }
    }
  }

  /** Storing a response under a URL no cache held makes it the match for that URL. */
  lemma {:induction false} FirstMatchAfterStore(names: seq<string>, entries: map<string, Cache>,
                                                name: string, url: Url, resp: Response)
    requires name in names && name in entries
    requires FirstMatch(names, entries, url) == None
    ensures FirstMatch(names, entries[name := entries[name][url := resp]], url) == Some(resp)
  {
    if names[0] != name {
      assert name in names[1..];
      FirstMatchAfterStore(names[1..], entries, name, url, resp);
    }
  }

  /** Storing a response under one URL leaves the match for every other URL as it was. */
  lemma {:induction false} FirstMatchOtherUrl(names: seq<string>, entries: map<string, Cache>,
                                              name: string, url: Url, resp: Response, other: Url)
    requires name in entries && other != url
    ensures FirstMatch(names, entries[name := entries[name][url := resp]], other) == FirstMatch(names, entries, other)
  {
    if names != [] {
      FirstMatchOtherUrl(names[1..], entries, name, url, resp, other);
    }
  }

  /** Opening a cache that was not there adds it last and empty, and changes no match. */
  lemma {:induction false} FirstMatchAfterOpen(names: seq<string>, entries: map<string, Cache>,
                                               name: string, url: Url)
    requires name !in names
    ensures FirstMatch(names + [name], entries[name := map[]], url) == FirstMatch(names, entries, url)
  {
    if names == [] {
      assert names + [name] == [name];
    } else {
      assert (names + [name])[1..] == names[1..] + [name];
      FirstMatchAfterOpen(names[1..], entries, name, url);
    }
  }

  /** The store `entries` after `caches.open(name)`: the cache added empty when absent. */
  function Opened(entries: map<string, Cache>, name: string): (r: map<string, Cache>)
    ensures name in r && r.Keys == entries.Keys + {name}
    ensures forall n :: n in entries ==> r[n] == entries[n]
    ensures name !in entries ==> r[name] == map[]
  {
    if name in entries then entries else entries[name := map[]]
  }

  /** `response.ok`: a status in 200..299. */
  predicate IsOk(resp: Response)
  {
    200 <= resp.status <= 299
  }

  /** No two requests of a list have the same URL. */
  ghost predicate DistinctUrls(reqs: seq<Request>)
  {
    forall i, j :: 0 <= i < j < |reqs| ==> reqs[i].url != reqs[j].url
  }

  /** Every request of `reqs` is a GET the network answers with an ok, non-error response. */
  ghost predicate AllFetchable(reqs: seq<Request>, net: Request -> NetOutcome)
  {
    forall i :: 0 <= i < |reqs| ==>
      reqs[i].verb == "GET" && net(reqs[i]).NetResponse? &&
      net(reqs[i]).response.kind != Error && IsOk(net(reqs[i]).response)
  }

  /** When `cache.addAll(reqs)` resolves: every fetch succeeded and no URL is repeated. */
  ghost predicate AddAllSucceeds(reqs: seq<Request>, net: Request -> NetOutcome)
  {
    AllFetchable(reqs, net) && DistinctUrls(reqs)
  }

  /** The cache after storing the network's response for each request, in order. */
  function StoreAll(cache: Cache, reqs: seq<Request>, net: Request -> NetOutcome): Cache
    requires forall i :: 0 <= i < |reqs| ==> net(reqs[i]).NetResponse?
  {
    if reqs == [] then cache
    else
      var last := reqs[|reqs| - 1];
      StoreAll(cache, reqs[..|reqs| - 1], net)[last.url := net(last).response]
  }

  /**
   * A successful `addAll` holds every requested URL with the response the
   * network gave for it, and keeps every other stored URL as it was.
   */
  lemma {:induction false} StoreAllEffect(cache: Cache, reqs: seq<Request>, net: Request -> NetOutcome)
    requires forall i :: 0 <= i < |reqs| ==> net(reqs[i]).NetResponse?
    requires DistinctUrls(reqs)
    ensures var r := StoreAll(cache, reqs, net);
      && (forall i :: 0 <= i < |reqs| ==> reqs[i].url in r && r[reqs[i].url] == net(reqs[i]).response)
      && (forall u :: u in cache && (forall i :: 0 <= i < |reqs| ==> reqs[i].url != u) ==> u in r && r[u] == cache[u])
      && (forall u :: u in r ==> u in cache || exists i :: 0 <= i < |reqs| && reqs[i].url == u)
  {
    if reqs != [] {
      var init, last := reqs[..|reqs| - 1], reqs[|reqs| - 1];
      StoreAllEffect(cache, init, net);
      var before := StoreAll(cache, init, net);
      var r := StoreAll(cache, reqs, net);
      assert r == before[last.url := net(last).response];
      forall i | 0 <= i < |reqs| ensures reqs[i].url in r && r[reqs[i].url] == net(reqs[i]).response {
        if i < |init| {
          assert init[i] == reqs[i];
          assert reqs[i].url != last.url;
        }
      }
      forall u | u in r ensures u in cache || exists i :: 0 <= i < |reqs| && reqs[i].url == u {
        if u != last.url {
          assert u in before;
          if u !in cache {
            var i :| 0 <= i < |init| && init[i].url == u;
            assert reqs[i].url == u;
          }
        }
      }
      forall u | u in cache && (forall i :: 0 <= i < |reqs| ==> reqs[i].url != u)
        ensures u in r && r[u] == cache[u]
      {
        assert forall i :: 0 <= i < |init| ==> init[i].url == reqs[i].url;
      }
    }
  }

  /**
   * `self.caches`: the caches by name, in creation order, which is the order
   * `match` and `keys` use.
   */
  class CacheStorage {
    var names: seq<string>
    var entries: map<string, Cache>

    /** Each name once, and exactly the listed names have a cache. */
    ghost predicate Valid()
      reads this
    {
      Distinct(names) && entries.Keys == set n | n in names
    }

    constructor ()
      ensures Valid()
      ensures names == [] && entries == map[]
    {
      names := [];
      entries := map[];
    }

    /**
     * `caches.match(req)`: the response of the first cache holding the
     * request's URL; a request other than GET matches nothing.
     */
    function Match(req: Request): (r: Option<Response>)
      reads this
      ensures req.verb != "GET" ==> r == None
      ensures req.verb == "GET" ==> (r == None <==>
        forall i :: 0 <= i < |names| && names[i] in entries ==> req.url !in entries[names[i]])
      ensures r.Some? ==>
        exists i :: (0 <= i < |names| && names[i] in entries && req.url in entries[names[i]]
          && r.value == entries[names[i]][req.url]
          && forall j :: 0 <= j < i && names[j] in entries ==> req.url !in entries[names[j]])
    {
      FirstMatchSpec(names, entries, req.url);
      if req.verb != "GET" then None else FirstMatch(names, entries, req.url)
    }

    /** `caches.open(name)`: the cache is created, empty and last in order, when it does not exist. */
    method Open(name: string)
      requires Valid()
      modifies this
      ensures Valid()
      ensures names == if name in old(names) then old(names) else old(names) + [name]
      ensures entries == Opened(old(entries), name)
    {
      if name !in names {
        names := names + [name];
        entries := entries[name := map[]];
      }
    }

    /**
     * `cache.put(req, resp)` on the open cache `name`: the response replaces
     * whatever the cache held for the URL; a request other than GET is
     * rejected (`stored` false) and nothing changes.
     */
    method Put(name: string, req: Request, resp: Response) returns (stored: bool)
      requires Valid() && name in names
      modifies this
      ensures Valid()
      ensures names == old(names)
      ensures stored == (req.verb == "GET")
      ensures stored ==> entries == old(entries)[name := old(entries)[name][req.url := resp]]
      ensures !stored ==> entries == old(entries)
    {
      stored := req.verb == "GET";
      if stored {
        entries := entries[name := entries[name][req.url := resp]];
      }
    }

    /** `caches.delete(name)`: the cache goes, with its place in the order; `existed` is the promise's result. */
    method Delete(name: string) returns (existed: bool)
      requires Valid()
      modifies this
      ensures Valid()
      ensures existed == (name in old(names))
      ensures names == Remove(old(names), name)
      ensures entries == old(entries) - {name}
    {
      existed := name in names;
      RemoveMembers(names, name);
      names := Remove(names, name);
      entries := entries - {name};
    }

    /**
     * `cache.addAll(reqs)` on the open cache `name`: each request is fetched;
     * only when all of them are GETs answered ok, with no URL twice, are the
     * responses stored, all together; otherwise the promise rejects and the
     * cache is left as it was.
     */
    method AddAll(name: string, reqs: seq<Request>, net: Request -> NetOutcome) returns (ok: bool)
      requires Valid() && name in names
      modifies this
      ensures Valid()
      ensures names == old(names)
      ensures ok == AddAllSucceeds(reqs, net)
      ensures ok ==> entries == old(entries)[name := StoreAll(old(entries)[name], reqs, net)]
      ensures !ok ==> entries == old(entries)
    {
      var batch := entries[name];
      var seen: set<Url> := {};
      for i := 0 to |reqs|
        invariant AllFetchable(reqs[..i], net) && DistinctUrls(reqs[..i])
        invariant seen == set k | 0 <= k < i :: reqs[k].url
        invariant batch == StoreAll(entries[name], reqs[..i], net)
      {
        var req := reqs[i];
        var outcome := net(req);
        if req.verb != "GET" || outcome.NetFail? || outcome.response.kind == Error
           || !IsOk(outcome.response) {
          assert !AllFetchable(reqs, net);
          return false;
        }
        if req.url in seen {
          var k :| 0 <= k < i && reqs[k].url == req.url;
          assert !DistinctUrls(reqs);
          return false;
        }
        assert reqs[..i + 1][..i] == reqs[..i];
        seen := seen + {req.url};
        batch := batch[req.url := outcome.response];
      }
      assert reqs[..|reqs|] == reqs;
      entries := entries[name := batch];
      ok := true;
    }
  }
}
