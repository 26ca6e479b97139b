/**
 * The service worker's caching policy over the cache store: `install`
 * precaches the app shell into STATIC_CACHE before `skipWaiting`,
 * `activate` deletes every cache but the two current ones, and `fetch`
 * answers same-origin documents, styles and scripts cache-first, storing
 * good network responses in CACHE_NAME and falling back to the offline page
 * for documents. The network is the `net` parameter; the worker's own origin
 * (`location.origin`) is `selfOrigin`.
 */
module ServiceWorker {
  import opened Wrappers
  import opened Caches

  /** `CACHE_NAME`: where fetched responses are kept. */
  const CacheName: string := "text-to-voice-v1"

  /** `STATIC_CACHE`: where the precached app shell is kept. */
  const StaticCache: string := "static-v1"

  /** `PRECACHE_RESOURCES`: the paths `install` fetches. */
  const PrecacheResources: seq<string> := ["/", "/index.html", "/index-optimized.html"]

  /** The page returned for a document when the network fails. */
  const OfflineFallback: string := "/index-optimized.html"

  // ---------------------------------------------------------------------
  // install
  // ---------------------------------------------------------------------

  /** The request `addAll` builds from a path: a GET on the worker's origin. */
  function PrecacheRequest(selfOrigin: string, path: string): Request
  {
    Request("GET", Url(selfOrigin, path), "")
  }

  /** The requests for `PRECACHE_RESOURCES`, in order. */
  function PrecacheRequests(selfOrigin: string): (reqs: seq<Request>)
    ensures |reqs| == |PrecacheResources|
    ensures forall i :: 0 <= i < |reqs| ==> reqs[i] == PrecacheRequest(selfOrigin, PrecacheResources[i])
  {
    seq(|PrecacheResources|, i requires 0 <= i < |PrecacheResources| =>
      PrecacheRequest(selfOrigin, PrecacheResources[i]))
  }

  /**
   * The precache list names each URL once, so `addAll` can only fail on the
   * network, and the offline fallback is one of the precached pages.
   */
  lemma PrecacheList(selfOrigin: string)
    ensures DistinctUrls(PrecacheRequests(selfOrigin))
    ensures OfflineFallback in PrecacheResources
  {
    var reqs := PrecacheRequests(selfOrigin);
    forall i, j | 0 <= i < j < |reqs| ensures reqs[i].url != reqs[j].url {
      assert reqs[i].url.path == PrecacheResources[i] && reqs[j].url.path == PrecacheResources[j];
      assert PrecacheResources[0] != PrecacheResources[1] && PrecacheResources[1] != PrecacheResources[2];
      assert |PrecacheResources[0]| != |PrecacheResources[2]|;
    }
    assert OfflineFallback == PrecacheResources[2];
  }

  /**
   * The install handler: STATIC_CACHE is opened (and created if absent),
   * every precache path is added to it, and `skipWaiting` is reached only
   * when that succeeds, which happens exactly when every path fetches ok. On
   * failure no response is stored.
   */
  method Install(storage: CacheStorage, selfOrigin: string, net: Request -> NetOutcome)
    returns (skipWaiting: bool)
    requires storage.Valid()
    modifies storage
    ensures storage.Valid()
    ensures storage.names == if StaticCache in old(storage.names) then old(storage.names)
                             else old(storage.names) + [StaticCache]
    ensures skipWaiting == AllFetchable(PrecacheRequests(selfOrigin), net)
    ensures skipWaiting ==> (storage.entries ==
      Opened(old(storage.entries), StaticCache)[StaticCache :=
        StoreAll(Opened(old(storage.entries), StaticCache)[StaticCache], PrecacheRequests(selfOrigin), net)])
    ensures skipWaiting ==> forall p :: p in PrecacheResources ==>
      Url(selfOrigin, p) in storage.entries[StaticCache] &&
      storage.entries[StaticCache][Url(selfOrigin, p)] == net(PrecacheRequest(selfOrigin, p)).response
    ensures !skipWaiting ==> storage.entries == Opened(old(storage.entries), StaticCache)
  {
    storage.Open(StaticCache);
    PrecacheList(selfOrigin);
    var reqs := PrecacheRequests(selfOrigin);
    ghost var cache := storage.entries[StaticCache];
    skipWaiting := storage.AddAll(StaticCache, reqs, net);
    if skipWaiting {
      StoreAllEffect(cache, reqs, net);
      forall p | p in PrecacheResources
        ensures Url(selfOrigin, p) in storage.entries[StaticCache]
        ensures storage.entries[StaticCache][Url(selfOrigin, p)] == net(PrecacheRequest(selfOrigin, p)).response
      {
        var i :| 0 <= i < |PrecacheResources| && PrecacheResources[i] == p;
        assert reqs[i] == PrecacheRequest(selfOrigin, p);
      }
    }
  }

  // ---------------------------------------------------------------------
  // activate
  // ---------------------------------------------------------------------

  /** The two cache names the current version uses. */
  predicate IsCurrentCache(name: string)
  {
    name == CacheName || name == StaticCache
  }

  /** The names `activate` keeps, in order. */
  function KeptCaches(names: seq<string>): seq<string>
  {
    if names == [] then []
    else
      var last := names[|names| - 1];
      KeptCaches(names[..|names| - 1]) + (if IsCurrentCache(last) then [last] else [])
  }

  /** The names `activate` deletes, in order. */
  function StaleCaches(names: seq<string>): seq<string>
  {
    if names == [] then []
    else
      var last := names[|names| - 1];
      StaleCaches(names[..|names| - 1]) + (if IsCurrentCache(last) then [] else [last])
  }

  /**
   * Every name is either kept or deleted, never both: exactly the current
   * names are kept and exactly the others deleted.
   */
  lemma {:induction false} CacheNameFilter(names: seq<string>)
    ensures forall n :: n in KeptCaches(names) <==> n in names && IsCurrentCache(n)
    ensures forall n :: n in StaleCaches(names) <==> n in names && !IsCurrentCache(n)
    ensures |KeptCaches(names)| + |StaleCaches(names)| == |names|
  {
    if names != [] {
      var init, last := names[..|names| - 1], names[|names| - 1];
      CacheNameFilter(init);
      assert names == init + [last];
    }
  }

  /** After one activation only current names remain, so another deletes nothing and keeps all. */
  lemma {:induction false} ActivateIdempotent(names: seq<string>)
    ensures StaleCaches(KeptCaches(names)) == []
    ensures KeptCaches(KeptCaches(names)) == KeptCaches(names)
  {
    CacheNameFilter(names);
    CacheNameFilter(KeptCaches(names));
    KeptAllCurrent(KeptCaches(names));
  }

  /** A list of current names is kept whole. */
  lemma {:induction false} KeptAllCurrent(names: seq<string>)
    requires forall n :: n in names ==> IsCurrentCache(n)
    ensures KeptCaches(names) == names
  {
    if names != [] {
      var init := names[..|names| - 1];
      KeptAllCurrent(init);
      assert names == init + [names[|names| - 1]];
    }
  }

  /** Taking one more name of the snapshot into account extends the kept or the deleted names. */
  lemma FilterStep(snapshot: seq<string>, i: nat)
    requires i < |snapshot|
    ensures KeptCaches(snapshot[..i + 1]) ==
      KeptCaches(snapshot[..i]) + (if IsCurrentCache(snapshot[i]) then [snapshot[i]] else [])
    ensures StaleCaches(snapshot[..i + 1]) ==
      StaleCaches(snapshot[..i]) + (if IsCurrentCache(snapshot[i]) then [] else [snapshot[i]])
  {
    assert snapshot[..i + 1][..i] == snapshot[..i];
  }

  /** One name of the snapshot handled: the store's names and the deletions move on by one. */
  lemma ActivateStep(snapshot: seq<string>, i: nat)
    requires Distinct(snapshot) && i < |snapshot|
    ensures StaleCaches(snapshot[..i + 1]) ==
      StaleCaches(snapshot[..i]) + (if IsCurrentCache(snapshot[i]) then [] else [snapshot[i]])
    ensures IsCurrentCache(snapshot[i]) ==>
      KeptCaches(snapshot[..i]) + snapshot[i..] == KeptCaches(snapshot[..i + 1]) + snapshot[i + 1..]
    ensures !IsCurrentCache(snapshot[i]) ==>
      Remove(KeptCaches(snapshot[..i]) + snapshot[i..], snapshot[i]) ==
      KeptCaches(snapshot[..i + 1]) + snapshot[i + 1..]
  {
    var x, kept, rest := snapshot[i], KeptCaches(snapshot[..i]), snapshot[i + 1..];
    FilterStep(snapshot, i);
    assert snapshot[i..] == [x] + rest;
    if !IsCurrentCache(x) {
      CacheNameFilter(snapshot[..i]);
      assert x !in rest by {
        forall k | 0 <= k < |rest| ensures rest[k] != x {
          assert rest[k] == snapshot[i + 1 + k];
        }
      }
      RemoveBetween(kept, x, rest);
    } else {
      assert kept + ([x] + rest) == (kept + [x]) + rest;
    }
  }

  /**
   * The activate handler: every cache whose name is neither CACHE_NAME nor
   * STATIC_CACHE is deleted (`deleted`, in the order `caches.keys()` gave),
   * the two current caches are kept with their contents, in their order.
   */
  method Activate(storage: CacheStorage) returns (deleted: seq<string>)
    requires storage.Valid()
    modifies storage
    ensures storage.Valid()
    ensures deleted == StaleCaches(old(storage.names))
    ensures storage.names == KeptCaches(old(storage.names))
    ensures forall n :: n in storage.entries ==> n in old(storage.entries) && storage.entries[n] == old(storage.entries)[n]
  {
    var cacheNames := storage.names;
    deleted := [];
    for i := 0 to |cacheNames|
      invariant storage.Valid()
      invariant deleted == StaleCaches(cacheNames[..i])
      invariant storage.names == KeptCaches(cacheNames[..i]) + cacheNames[i..]
      invariant forall n :: n in storage.entries ==>
        n in old(storage.entries) && storage.entries[n] == old(storage.entries)[n]
    {
      var cacheName := cacheNames[i];
      ActivateStep(cacheNames, i);
      if cacheName != CacheName && cacheName != StaticCache {
        var _ := storage.Delete(cacheName);
        deleted := deleted + [cacheName];
      }
    }
    assert cacheNames[..|cacheNames|] == cacheNames;
  }

  // ---------------------------------------------------------------------
  // fetch
  // ---------------------------------------------------------------------

  /** The destinations served cache-first. */
  predicate IsStaticDestination(destination: string)
  {
    destination == "document" || destination == "style" || destination == "script"
  }

  /** Whether the handler calls `respondWith`: same origin and a static destination. */
  predicate Intercepts(req: Request, selfOrigin: string)
  {
    req.url.origin == selfOrigin && IsStaticDestination(req.destination)
  }

  /** A response worth caching: status 200 and type `basic`. */
  predicate IsCacheable(resp: Response)
  {
    resp.status == 200 && resp.kind == Basic
  }

  /** `caches.match('/index-optimized.html')`, the path taken relative to the worker's origin. */
  function OfflineRequest(selfOrigin: string): Request
  {
    Request("GET", Url(selfOrigin, OfflineFallback), "")
  }

  /** What the handler does with a fetch event: nothing, or answer with a response or `undefined`. */
  datatype FetchOutcome = NotIntercepted | RespondWith(response: Option<Response>)

  /** A cacheable response stored after a miss is what the same GET request then matches. */
  lemma CachedResponseMatches(names: seq<string>, entries: map<string, Cache>, url: Url, resp: Response)
    requires entries.Keys == set n | n in names
    requires FirstMatch(names, entries, url) == None
    ensures var names' := if CacheName in names then names else names + [CacheName];
      var store := Opened(entries, CacheName);
      FirstMatch(names', store[CacheName := store[CacheName][url := resp]], url) == Some(resp)
  {
    var store := Opened(entries, CacheName);
    if CacheName in names {
      FirstMatchAfterStore(names, store, CacheName, url, resp);
    } else {
      FirstMatchAfterOpen(names, entries, CacheName, url);
      FirstMatchAfterStore(names + [CacheName], store, CacheName, url, resp);
    }
  }

  /**
   * The fetch handler, with the un-awaited `cache.put` taken as part of the
   * same step. `fetched` tells whether the network was asked.
   *  - Cross-origin requests and other destinations are not intercepted.
   *  - A cache hit answers with the cached response, without the network.
   *  - A miss asks the network: a 200 `basic` response is returned and stored
   *    under the request in CACHE_NAME (opened first), so the same GET request
   *    then hits; any other response is returned as it is and nothing is stored.
   *  - When the network fails, a document gets the cached offline page (or
   *    `undefined` when that is not cached), anything else `undefined`.
   */
  method HandleFetch(storage: CacheStorage, req: Request, selfOrigin: string, net: Request -> NetOutcome)
    returns (outcome: FetchOutcome, fetched: bool)
    requires storage.Valid()
    modifies storage
    ensures storage.Valid()
    ensures !Intercepts(req, selfOrigin) ==>
      outcome == NotIntercepted && !fetched && unchanged(storage)
    ensures Intercepts(req, selfOrigin) && old(storage.Match(req)).Some? ==>
      outcome == RespondWith(old(storage.Match(req))) && !fetched && unchanged(storage)
    ensures fetched <==> Intercepts(req, selfOrigin) && old(storage.Match(req)) == None
    ensures fetched && net(req).NetFail? ==>
      unchanged(storage) &&
      outcome == RespondWith(if req.destination == "document" then old(storage.Match(OfflineRequest(selfOrigin)))
                             else None)
    ensures fetched && net(req).NetResponse? && !IsCacheable(net(req).response) ==>
      outcome == RespondWith(Some(net(req).response)) && unchanged(storage)
    ensures fetched && net(req).NetResponse? && IsCacheable(net(req).response) ==>
      && outcome == RespondWith(Some(net(req).response))
      && storage.names == (if CacheName in old(storage.names) then old(storage.names)
                           else old(storage.names) + [CacheName])
      && (req.verb == "GET" ==> (storage.entries ==
            Opened(old(storage.entries), CacheName)[CacheName :=
              Opened(old(storage.entries), CacheName)[CacheName][req.url := net(req).response]]))
      && (req.verb != "GET" ==> storage.entries == Opened(old(storage.entries), CacheName))
      && (req.verb == "GET" ==> storage.Match(req) == Some(net(req).response))
  {
    if !Intercepts(req, selfOrigin) {
      return NotIntercepted, false;
    }
    var cachedResponse := storage.Match(req);
    if cachedResponse.Some? {
      return RespondWith(cachedResponse), false;
    }
    fetched := true;
    var result := net(req);
    if result.NetFail? {
      if req.destination == "document" {
        outcome := RespondWith(storage.Match(OfflineRequest(selfOrigin)));
      } else {
        outcome := RespondWith(None);
      }
      return;
    }
    var response := result.response;
    if !IsCacheable(response) {
      return RespondWith(Some(response)), true;
    }
    if req.verb == "GET" {
      CachedResponseMatches(storage.names, storage.entries, req.url, response);
    }
    storage.Open(CacheName);
    var _ := storage.Put(CacheName, req, response);
    outcome := RespondWith(Some(response));
  }
}
