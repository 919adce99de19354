/** The service worker (public/sw.js): its install, activate, fetch and
    message handlers over the browser's cache storage. The storage is the
    list of cache names in creation order (what `caches.keys()` returns and
    the order in which `caches.match` searches) together with each cache's
    entries, keyed by request URL. The network is an input outcome, and one
    interception is handled at a time. */
module OfflineCache {
  import opened Wrappers

  /** A request URL, already resolved against the worker's origin, so that
      the path '/' stands for the site root. */
  type Url = string

  /** The `type` attribute of a Fetch API response. */
  datatype ResponseType = Basic | Cors | Default | Error | Opaque | OpaqueRedirect

  datatype Response = Response(status: int, statusText: string, kind: ResponseType,
                               headers: seq<(string, string)>, body: string)

  datatype Request = Request(httpMethod: string, url: Url)

  /** What `fetch(request)` settles to: a response, or a rejection. */
  datatype NetOutcome = Fetched(response: Response) | NetworkFailure

  /** Whether the fetch handler called `respondWith`, and with what. */
  datatype FetchResult = NotIntercepted | RespondWith(response: Response)

  /** `event.data` of a message event: absent (falsy) or an object whose
      `type` property may be missing. */
  datatype MessageData = NoData | Payload(messageType: Option<string>)

  type Bucket = map<Url, Response>

  const CacheName: string := "nelson-gpt-v1"

  const UrlsToCache: seq<Url> := ["/", "/index.html", "/manifest.json", "/favicon.ico", "/favicon.png"]

  const RootUrl: Url := "/"

  const OfflineBody: string := "Offline - Nelson-GPT is available in offline mode"

  const SkipWaitingType: string := "SKIP_WAITING"

  /** The synthetic response served when neither the cache nor the network
      can answer. */
  function OfflineResponse(): (r: Response)
    ensures r.status == 503 && r.statusText == "Service Unavailable"
    ensures r.headers == [("Content-Type", "text/plain")] && r.body == OfflineBody
  {
    Response(503, "Service Unavailable", Default, [("Content-Type", "text/plain")], OfflineBody)
  }

  /** The fetch handler writes a network response to the cache only when
      it is a 200 that is not an error response; such a response would also
      be accepted by addAll. */
  predicate Cacheable(r: Response): (b: bool)
    ensures b ==> Seedable(r)
    ensures r.kind == Error ==> !b
  {
    r.status == 200 && r.kind != Error
  }

  /** Cache.addAll accepts a response unless its type is "error", its status
      is outside 200-299, or its status is 206 (section 5.4.4 of the W3C
      Service Workers specification, the addAll algorithm). */
  predicate Seedable(r: Response): (b: bool)
    ensures r.kind == Error || r.status == 206 ==> !b
    ensures b ==> 200 <= r.status < 300
    ensures r.status == 200 && r.kind != Error ==> b
  {
    r.kind != Error && 200 <= r.status <= 299 && r.status != 206
  }

  predicate Distinct(names: seq<string>)
  {
    forall i, j :: 0 <= i < j < |names| ==> names[i] != names[j]
  }

  // ---------------------------------------------------------------------
  // caches.match: the first cache, in creation order, holding the URL
  // ---------------------------------------------------------------------

  function Lookup(names: seq<string>, buckets: map<string, Bucket>, url: Url): (r: Option<Response>)
    ensures r.None? <==> forall i :: 0 <= i < |names| && names[i] in buckets ==> url !in buckets[names[i]]
    ensures r.Some? ==> exists i :: 0 <= i < |names| && names[i] in buckets && url in buckets[names[i]]
                                    && r.value == buckets[names[i]][url]
  {
    if names == [] then None
    else if names[0] in buckets && url in buckets[names[0]] then Some(buckets[names[0]][url])
    else
      var r := Lookup(names[1..], buckets, url);
      assert r.Some? ==> exists i :: 1 <= i < |names| && names[i] in buckets && url in buckets[names[i]]
                                     && r.value == buckets[names[i]][url] by {
        if r.Some? {
          var k :| 0 <= k < |names[1..]| && names[1..][k] in buckets && url in buckets[names[1..][k]]
                   && r.value == buckets[names[1..][k]][url];
          assert names[k + 1] == names[1..][k];
        }
      }
      r
  }

  /** The search runs over the name list in order: a hit in an earlier cache
      hides every later one. */
  lemma {:induction false} LookupConcat(a: seq<string>, b: seq<string>, buckets: map<string, Bucket>, url: Url)
    ensures Lookup(a + b, buckets, url)
      == if Lookup(a, buckets, url).Some? then Lookup(a, buckets, url) else Lookup(b, buckets, url)
  {
    if a == [] {
      assert a + b == b;
    } else {
      assert (a + b)[1..] == a[1..] + b;
      LookupConcat(a[1..], b, buckets, url);
    }
  }

  // ---------------------------------------------------------------------
  // Cache.addAll: all-or-nothing seeding
  // ---------------------------------------------------------------------

  /** The entries addAll asks the cache to write, or None when any request
      fails or any response is refused, in which case nothing is written. */
  function AddAll(urls: seq<Url>, network: Url -> NetOutcome): (r: Option<Bucket>)
    ensures r.Some? <==> forall u :: u in urls ==> network(u).Fetched? && Seedable(network(u).response)
    ensures r.Some? ==> r.value.Keys == set u | u in urls
    ensures r.Some? ==> forall u :: u in urls ==> r.value[u] == network(u).response
  {
    if urls == [] then Some(map[])
    else
      var rest := AddAll(urls[1..], network);
      match network(urls[0])
      case NetworkFailure => None
      case Fetched(resp) =>
        if !Seedable(resp) || rest.None? then None
        else Some(rest.value[urls[0] := resp])
  }

  /** The current cache after an addAll batch: every entry of an accepted
      batch is written, over whatever the cache held; a refused batch writes
      nothing. */
  function Seeded(before: Bucket, batch: Option<Bucket>): (after: Bucket)
    ensures batch.None? ==> after == before
    ensures batch.Some? ==> after.Keys == before.Keys + batch.value.Keys
    ensures batch.Some? ==> forall u :: u in batch.value ==> after[u] == batch.value[u]
    ensures batch.Some? ==> forall u :: u in before && u !in batch.value ==> after[u] == before[u]
  {
    if batch.Some? then before + batch.value else before
  }

  /** The caches after install: CACHE_NAME exists and holds the seed
      entries, if addAll accepted every response and the cache accepted the
      batch write (`writeAccepted`: it can refuse one, for instance over
      quota); every other cache is as it was. */
  function InstalledBuckets(buckets: map<string, Bucket>, network: Url -> NetOutcome, writeAccepted: bool): (r: map<string, Bucket>)
    ensures r.Keys == buckets.Keys + {CacheName}
    ensures forall n :: n in buckets && n != CacheName ==> r[n] == buckets[n]
  {
    var batch := if writeAccepted then AddAll(UrlsToCache, network) else None;
    buckets[CacheName := Seeded(CurrentBucket(buckets), batch)]
  }

  /** When every shell resource is fetched with an acceptable response and
      the write is accepted, all five are in the current cache after install;
      otherwise the current cache holds what it held before (empty if it was
      just created). */
  lemma InstallSeedsShell(buckets: map<string, Bucket>, network: Url -> NetOutcome, writeAccepted: bool)
    ensures writeAccepted && (forall u :: u in UrlsToCache ==> network(u).Fetched? && Seedable(network(u).response)) ==>
      forall u :: u in UrlsToCache ==>
        u in InstalledBuckets(buckets, network, writeAccepted)[CacheName] &&
        InstalledBuckets(buckets, network, writeAccepted)[CacheName][u] == network(u).response
    ensures !writeAccepted || !(forall u :: u in UrlsToCache ==> network(u).Fetched? && Seedable(network(u).response)) ==>
      InstalledBuckets(buckets, network, writeAccepted)[CacheName] == CurrentBucket(buckets)
  {
  }

  // ---------------------------------------------------------------------
  // The fetch handler's decision
  // ---------------------------------------------------------------------

  /** What the fetch handler answers, given the cache lookup for the request,
      the network outcome, and the cache lookup for '/'. Only GET requests
      are answered, and every answer comes from the cache, the network or
      the synthetic 503. */
  function Route(request: Request, cached: Option<Response>, network: NetOutcome, root: Option<Response>): (r: FetchResult)
    ensures r.NotIntercepted? <==> request.httpMethod != "GET"
    ensures r.RespondWith? ==>
      (cached.Some? && r.response == cached.value) ||
      (network.Fetched? && r.response == network.response) ||
      (root.Some? && r.response == root.value) ||
      r.response == OfflineResponse()
  {
    if request.httpMethod != "GET" then NotIntercepted
    else if cached.Some? then RespondWith(cached.value)
    else match network
      case Fetched(resp) => RespondWith(resp)
      case NetworkFailure => RespondWith(if root.Some? then root.value else OfflineResponse())
  }

  /** The handler goes to the network exactly on a GET that misses the cache. */
  predicate ConsultsNetwork(request: Request, cached: Option<Response>)
  {
    request.httpMethod == "GET" && cached.None?
  }

  /** The handler asks the cache to store the response exactly when the
      network answered a cache miss with a cacheable response. */
  predicate StoresResponse(request: Request, cached: Option<Response>, network: NetOutcome)
  {
    ConsultsNetwork(request, cached) && network.Fetched? && Cacheable(network.response)
  }

  /** Every GET is answered; the answer is the cached entry on a hit, the
      unchanged network response on a miss the network answers (cacheable or
      not), and otherwise the cached root or the synthetic 503. */
  lemma RouteAnswers(request: Request, cached: Option<Response>, network: NetOutcome, root: Option<Response>)
    ensures request.httpMethod != "GET" <==> Route(request, cached, network, root) == NotIntercepted
    ensures request.httpMethod == "GET" && cached.Some? ==>
      Route(request, cached, network, root) == RespondWith(cached.value)
    ensures ConsultsNetwork(request, cached) && network.Fetched? ==>
      Route(request, cached, network, root) == RespondWith(network.response)
    ensures ConsultsNetwork(request, cached) && network.NetworkFailure? && root.Some? ==>
      Route(request, cached, network, root) == RespondWith(root.value)
    ensures ConsultsNetwork(request, cached) && network.NetworkFailure? && root.None? ==>
      Route(request, cached, network, root) == RespondWith(OfflineResponse())
  {
  }

  /** `caches.open(CACHE_NAME)`: the names after the cache is opened,
      created at the end if it did not exist. */
  function OpenedNames(names: seq<string>): (r: seq<string>)
    ensures forall n :: n in r <==> n in names || n == CacheName
    ensures names <= r && |r| <= |names| + 1
    ensures CacheName in names ==> r == names
    ensures Distinct(names) ==> Distinct(r)
  {
    if CacheName in names then names else names + [CacheName]
  }

  /** The entries of CACHE_NAME, none if it does not exist: what a search
      restricted to the current cache finds. */
  function CurrentBucket(buckets: map<string, Bucket>): (r: Bucket)
    ensures forall u :: Lookup([CacheName], buckets, u) == if u in r then Some(r[u]) else None
  {
    if CacheName in buckets then buckets[CacheName] else map[]
  }

  /** The caches after `caches.open(CACHE_NAME)`: the current cache exists,
      empty if it was just created, and nothing else changes. */
  function OpenedBuckets(buckets: map<string, Bucket>): (r: map<string, Bucket>)
    ensures r.Keys == buckets.Keys + {CacheName}
    ensures forall n :: n in buckets ==> r[n] == buckets[n]
    ensures CacheName !in buckets ==> r[CacheName] == map[]
  {
    buckets[CacheName := CurrentBucket(buckets)]
  }

  /** The caches after the fetch handler stores `resp` under `url` in
      CACHE_NAME, opening it first if needed; every other cache is as it was. */
  function StoredBuckets(buckets: map<string, Bucket>, url: Url, resp: Response): (r: map<string, Bucket>)
    ensures r.Keys == buckets.Keys + {CacheName}
    ensures forall n :: n in buckets && n != CacheName ==> r[n] == buckets[n]
    ensures url in r[CacheName] && r[CacheName][url] == resp
    ensures r[CacheName].Keys == CurrentBucket(buckets).Keys + {url}
    ensures forall u :: u in CurrentBucket(buckets) && u != url ==> r[CacheName][u] == CurrentBucket(buckets)[u]
  {
    buckets[CacheName := CurrentBucket(buckets)[url := resp]]
  }

  /** After a miss has been answered and stored, the next lookup of that URL
      is a hit on the stored response: the network is not consulted again. */
  lemma {:induction false} StoredResponseIsFound(names: seq<string>, buckets: map<string, Bucket>, url: Url, resp: Response)
    requires forall n :: n in buckets <==> n in names
    requires Lookup(names, buckets, url).None?
    ensures Lookup(OpenedNames(names), StoredBuckets(buckets, url, resp), url) == Some(resp)
  {
    var after := StoredBuckets(buckets, url, resp);
    if CacheName in names {
      StoredResponseFoundIn(names, buckets, url, resp);
    } else {
      LookupConcat(names, [CacheName], after, url);
      UnchangedLookup(names, buckets, after, url);
    }
  }

  /** Lookup only reads the caches it names. */
  lemma {:induction false} UnchangedLookup(names: seq<string>, b1: map<string, Bucket>, b2: map<string, Bucket>, url: Url)
    requires forall n :: n in names ==> (n in b1 <==> n in b2) && (n in b1 ==> b1[n] == b2[n])
    ensures Lookup(names, b1, url) == Lookup(names, b2, url)
  {
    if names != [] {
      UnchangedLookup(names[1..], b1, b2, url);
    }
  }

  lemma StoredResponseFoundIn(names: seq<string>, buckets: map<string, Bucket>, url: Url, resp: Response)
    requires CacheName in names && CacheName in buckets
    requires Lookup(names, buckets, url).None?
    ensures Lookup(names, buckets[CacheName := buckets[CacheName][url := resp]], url) == Some(resp)
  {
  }

  /** The name list once one cache is deleted: the others keep their order. */
  function WithoutName(names: seq<string>, name: string): (r: seq<string>)
    ensures |r| <= |names|
    ensures forall n :: n in r <==> n in names && n != name
    ensures Distinct(names) ==> Distinct(r)
  {
    if names == [] then []
    else
      var rest := WithoutName(names[1..], name);
      assert Distinct(names) ==> names[0] !in names[1..];
      if names[0] == name then rest else [names[0]] + rest
  }

  /** The deletion works piecewise over the name list, so the remaining
      names keep their creation order. */
  lemma {:induction false} WithoutNameConcat(a: seq<string>, b: seq<string>, name: string)
    ensures WithoutName(a + b, name) == WithoutName(a, name) + WithoutName(b, name)
  {
    if a != [] {
      var head := if a[0] == name then [] else [a[0]];
      assert (a + b)[0] == a[0] && (a + b)[1..] == a[1..] + b;
      assert WithoutName(a + b, name) == head + WithoutName(a[1..] + b, name);
      WithoutNameConcat(a[1..], b, name);
      assert WithoutName(a, name) == head + WithoutName(a[1..], name);
    } else {
      assert a + b == b;
    }
  }

  // ---------------------------------------------------------------------
  // The worker
  // ---------------------------------------------------------------------

  /** The service worker together with the cache storage it manages, and
      counters of its calls to `skipWaiting` and to the network. */
  class Worker {
    /** `caches.keys()`, in creation order. */
    var names: seq<string>
    var buckets: map<string, Bucket>
    var skipWaitingCalls: nat
    var networkFetches: nat

    ghost predicate Valid()
      reads this
    {
      Distinct(names) && forall n :: n in buckets <==> n in names
    }

    /** A worker starting over the storage an earlier version left behind. */
    constructor (initialNames: seq<string>, initialBuckets: map<string, Bucket>)
      requires Distinct(initialNames)
      requires forall n :: n in initialBuckets <==> n in initialNames
      ensures Valid()
      ensures names == initialNames && buckets == initialBuckets
      ensures skipWaitingCalls == 0 && networkFetches == 0
    {
      names := initialNames;
      buckets := initialBuckets;
      skipWaitingCalls := 0;
      networkFetches := 0;
    }

    /** `caches.match(url)`. */
    method Match(url: Url) returns (r: Option<Response>)
      ensures r == Lookup(names, buckets, url)
    {
      var i := 0;
      while i < |names|
        invariant 0 <= i <= |names|
        invariant Lookup(names, buckets, url) == Lookup(names[i..], buckets, url)
      {
        assert names[i..][1..] == names[i + 1..];
        if names[i] in buckets && url in buckets[names[i]] {
          return Some(buckets[names[i]][url]);
        }
        i := i + 1;
      }
      return None;
    }

    /** `caches.open(CACHE_NAME)`. */
    method OpenCurrent()
      requires Valid()
      modifies this
      ensures Valid()
      ensures names == OpenedNames(old(names))
      ensures buckets == OpenedBuckets(old(buckets))
      ensures skipWaitingCalls == old(skipWaitingCalls) && networkFetches == old(networkFetches)
    {
      if CacheName !in names {
        names := names + [CacheName];
        buckets := buckets[CacheName := map[]];
      }
    }

    /** `caches.delete(name)`. */
    method Delete(name: string)
      requires Valid()
      modifies this
      ensures Valid()
      ensures names == WithoutName(old(names), name)
      ensures buckets == old(buckets) - {name}
      ensures skipWaitingCalls == old(skipWaitingCalls) && networkFetches == old(networkFetches)
    {
      names := WithoutName(names, name);
      buckets := buckets - {name};
    }

    /** The install handler: opens the current cache, seeds it with the
        shell resources all-or-nothing (a failure is swallowed), and calls
        `skipWaiting` whatever the outcome. `writeAccepted` says whether the
        cache would accept the batch write. */
    method Install(network: Url -> NetOutcome, writeAccepted: bool)
      requires Valid()
      modifies this
      ensures Valid()
      ensures names == OpenedNames(old(names))
      ensures buckets == InstalledBuckets(old(buckets), network, writeAccepted)
      ensures skipWaitingCalls == old(skipWaitingCalls) + 1
      ensures networkFetches == old(networkFetches) + |UrlsToCache|
    {
      var before := buckets;
      OpenCurrent();
      networkFetches := networkFetches + |UrlsToCache|;
      buckets := InstalledBuckets(before, network, writeAccepted);
      skipWaitingCalls := skipWaitingCalls + 1;
    }

    /** The activate handler: deletes every cache whose name is not
        CACHE_NAME; the current cache survives with its entries. */
    method Activate()
      requires Valid()
      modifies this
      ensures Valid()
      ensures names == if CacheName in old(names) then [CacheName] else []
      ensures buckets == if CacheName in old(buckets) then map[CacheName := old(buckets)[CacheName]] else map[]
      ensures skipWaitingCalls == old(skipWaitingCalls) && networkFetches == old(networkFetches)
    {
      var keys := names;
      var i := 0;
      while i < |keys|
        invariant 0 <= i <= |keys|
        invariant Valid()
        invariant forall n :: n in names <==> n in keys && (n == CacheName || n in keys[i..])
        invariant forall n :: n in buckets ==> n in old(buckets) && buckets[n] == old(buckets)[n]
        invariant skipWaitingCalls == old(skipWaitingCalls) && networkFetches == old(networkFetches)
      {
        if keys[i] != CacheName {
          Delete(keys[i]);
        }
        i := i + 1;
      }
      OnlyCurrentLeft(names);
    }

    /** `caches.open(CACHE_NAME).then((cache) => cache.put(url, resp))`: the
        current cache is opened, and receives the entry if the cache accepts
        the write. */
    method Store(url: Url, resp: Response, writeAccepted: bool)
      requires Valid()
      modifies this
      ensures Valid()
      ensures names == OpenedNames(old(names))
      ensures buckets == if writeAccepted then StoredBuckets(old(buckets), url, resp) else OpenedBuckets(old(buckets))
      ensures skipWaitingCalls == old(skipWaitingCalls) && networkFetches == old(networkFetches)
    {
      var before := buckets;
      OpenCurrent();
      if writeAccepted {
        buckets := StoredBuckets(before, url, resp);
      }
    }

    /** The fetch handler for one request, given what the network would
        answer if it were asked and whether the cache would accept a write
        of the response. */
    method HandleFetch(request: Request, network: NetOutcome, writeAccepted: bool) returns (result: FetchResult)
      requires Valid()
      modifies this
      ensures Valid()
      ensures result == Route(request, Lookup(old(names), old(buckets), request.url), network,
                              Lookup(old(names), old(buckets), RootUrl))
      ensures networkFetches == old(networkFetches) +
        if ConsultsNetwork(request, Lookup(old(names), old(buckets), request.url)) then 1 else 0
      ensures StoresResponse(request, Lookup(old(names), old(buckets), request.url), network) ==>
        names == OpenedNames(old(names)) &&
        buckets == if writeAccepted then StoredBuckets(old(buckets), request.url, network.response)
                   else OpenedBuckets(old(buckets))
      ensures !StoresResponse(request, Lookup(old(names), old(buckets), request.url), network) ==>
        names == old(names) && buckets == old(buckets)
      ensures skipWaitingCalls == old(skipWaitingCalls)
    {
      if request.httpMethod != "GET" {
        return NotIntercepted;
      }
      var cached := Match(request.url);
      if cached.Some? {
        return RespondWith(cached.value);
      }
      networkFetches := networkFetches + 1;
      match network {
        case NetworkFailure =>
          var root := Match(RootUrl);
          result := RespondWith(if root.Some? then root.value else OfflineResponse());
        case Fetched(resp) =>
          if Cacheable(resp) {
            Store(request.url, resp, writeAccepted);
          }
          result := RespondWith(resp);
      }
    }

    /** The message handler: `{type: 'SKIP_WAITING'}` calls `skipWaiting`. */
    method HandleMessage(data: MessageData)
      modifies this
      ensures skipWaitingCalls == old(skipWaitingCalls) + if data == Payload(Some(SkipWaitingType)) then 1 else 0
      ensures names == old(names) && buckets == old(buckets) && networkFetches == old(networkFetches)
    {
      if data.Payload? && data.messageType == Some(SkipWaitingType) {
        skipWaitingCalls := skipWaitingCalls + 1;
      }
    }
  }

  /** A duplicate-free list has as many elements as distinct members. */
  lemma {:induction false} DistinctCardinality(names: seq<string>)
    requires Distinct(names)
    ensures |set n | n in names| == |names|
  {
    if names != [] {
      var rest := names[1..];
      DistinctCardinality(rest);
      assert names[0] !in rest;
      assert (set n | n in names) == {names[0]} + (set n | n in rest);
    }
  }

  /** A duplicate-free list whose only possible member is CACHE_NAME is
      either that one name or empty. */
  lemma OnlyCurrentLeft(names: seq<string>)
    requires Distinct(names)
    requires forall n :: n in names ==> n == CacheName
    ensures names == if CacheName in names then [CacheName] else []
  {
    DistinctCardinality(names);
    if names != [] {
      assert names[0] in names;
      assert (set n | n in names) == {CacheName};
      assert names == [names[0]];
    }
  }
}
