/**
 * The fetch handler of the service worker (sw.js): it routes each
 * intercepted request by hostname to one of two strategies, and the activate
 * handler purges cache buckets of other versions.
 */
module Router {
  import opened Wrappers
  import opened Http
  import opened Text
  import opened Caches

  /** The one bucket name the current version keeps. */
  const CACHE_NAME := "pagerrys-pos-v1"

  /**
   * Requests to the remote database are served network-first; all others
   * cache-first. The third test adds nothing: its host already contains the
   * second, so a host qualifies exactly when one of the first two domains
   * occurs in it.
   */
  predicate IsRemoteApi(host: string)
    ensures IsRemoteApi(host) <==>
              (exists i: nat :: OccursAt(host, "firebaseio.com", i)) ||
              (exists i: nat :: OccursAt(host, "googleapis.com", i))
  {
    ContainsIffOccurs(host, "firebaseio.com");
    ContainsIffOccurs(host, "googleapis.com");
    assert "firestore.googleapis.com" == "firestore." + "googleapis.com";
    ContainsSuffix(host, "firestore.", "googleapis.com");
    Contains(host, "firebaseio.com") ||
    Contains(host, "googleapis.com") ||
    Contains(host, "firestore.googleapis.com")
  }

  /** The three-test classification is the two-test one. */
  lemma RemoteApiIffTwoHosts(host: string)
    ensures IsRemoteApi(host) <==> Contains(host, "firebaseio.com") || Contains(host, "googleapis.com")
  {
    ContainsIffOccurs(host, "firebaseio.com");
    ContainsIffOccurs(host, "googleapis.com");
  }

  /**
   * Every host under googleapis.com, such as the precached font stylesheet's
   * fonts.googleapis.com, is routed network-first.
   */
  lemma GoogleApisHostIsNetworkFirst(subdomain: string)
    ensures IsRemoteApi(subdomain + "googleapis.com")
  {
    OccursAfter(subdomain, "googleapis.com");
    ContainsIffOccurs(subdomain + "googleapis.com", "googleapis.com");
  }

  /** What a network-first request gets when the network and the cache both fail. */
  const OFFLINE_BODY := "{\"error\":\"Offline - Request failed\",\"offline\":true}"

  /** The synthesized reply: a failure status, JSON content, and a body that flags the app as offline. */
  function OfflineResponse(): (r: Response)
    ensures r.status == 503 && !r.OkStatus() && r.statusText == "Service Unavailable"
    ensures r.headers == map["Content-Type" := "application/json"] && r.body == OFFLINE_BODY
  {
    Response(503, "Service Unavailable", Default, map["Content-Type" := "application/json"], OFFLINE_BODY)
  }

  /** A fetched static asset is worth caching: a 200 from the same origin. */
  predicate IsCacheable(resp: Response)
    ensures IsCacheable(resp) ==> resp.status == 200 && resp.OkStatus()
    ensures resp.kind != Basic ==> !IsCacheable(resp)
  {
    resp.status == 200 && resp.kind == Basic
  }

  /** The answer given to the page: a response, or the fetch's own failure. */
  datatype Reply = Respond(response: Response) | NetworkError

  /**
   * Network-first: the network's response is returned as it is and, when its
   * status is 200, also stored; if the network fails, the cached entry is
   * returned, and without one a synthesized 503.
   */
  method NetworkFirst(caches: CacheStorage, req: Request, net: Outcome) returns (resp: Response, fetches: seq<Request>)
    requires caches.Valid()
    modifies caches
    ensures caches.Valid()
    ensures fetches == [req]
    ensures net.Ok? ==> resp == net.response
    ensures net.NetErr? ==> resp == match old(caches.Match(req)) case Some(hit) => hit case None => OfflineResponse()
    ensures net.Ok? && net.response.status == 200 ==>
              caches.names == NamesAfterPut(old(caches.names), old(caches.buckets), CACHE_NAME) &&
              caches.buckets == BucketsAfterPut(old(caches.buckets), CACHE_NAME, req, net.response)
    ensures !(net.Ok? && net.response.status == 200) ==>
              caches.names == old(caches.names) && caches.buckets == old(caches.buckets)
  {
    fetches := [req];
    match net
    case Ok(response) =>
      if response.status == 200 {
        caches.Open(CACHE_NAME);
        caches.Put(CACHE_NAME, req, response);
      }
      resp := response;
    case NetErr =>
      var cached := caches.Match(req);
      if cached.Some? {
        resp := cached.value;
      } else {
        resp := OfflineResponse();
      }
  }

  /**
   * Cache-first: a hit is returned without touching the network; on a miss
   * exactly one fetch is made, its outcome is passed on unchanged, and the
   * response is stored only when it is cacheable.
   */
  method CacheFirst(caches: CacheStorage, req: Request, net: Outcome) returns (reply: Reply, fetches: seq<Request>)
    requires caches.Valid()
    modifies caches
    ensures caches.Valid()
    ensures old(caches.Match(req)).Some? ==>
              reply == Respond(old(caches.Match(req)).value) && fetches == [] &&
              caches.names == old(caches.names) && caches.buckets == old(caches.buckets)
    ensures old(caches.Match(req)).None? ==>
              fetches == [req] && reply == (if net.Ok? then Respond(net.response) else NetworkError)
    ensures old(caches.Match(req)).None? && net.Ok? && IsCacheable(net.response) ==>
              caches.names == NamesAfterPut(old(caches.names), old(caches.buckets), CACHE_NAME) &&
              caches.buckets == BucketsAfterPut(old(caches.buckets), CACHE_NAME, req, net.response)
    ensures !(old(caches.Match(req)).None? && net.Ok? && IsCacheable(net.response)) ==>
              caches.names == old(caches.names) && caches.buckets == old(caches.buckets)
  {
    var cached := caches.Match(req);
    if cached.Some? {
      return Respond(cached.value), [];
    }
    fetches := [req];
    match net
    case NetErr =>
      reply := NetworkError;
    case Ok(response) =>
      if IsCacheable(response) {
        caches.Open(CACHE_NAME);
        caches.Put(CACHE_NAME, req, response);
      }
      reply := Respond(response);
  }

  /**
   * The fetch event: every intercepted request gets exactly one reply, and a
   * reply fails only for a static asset that missed the cache and whose
   * fetch failed.
   */
  method HandleFetch(caches: CacheStorage, req: Request, net: Outcome) returns (reply: Reply, fetches: seq<Request>)
    requires caches.Valid()
    modifies caches
    ensures caches.Valid()
    ensures IsRemoteApi(req.host) ==>
              fetches == [req] && reply == Respond(if net.Ok? then net.response else
                                                    match old(caches.Match(req)) case Some(hit) => hit case None => OfflineResponse())
    ensures !IsRemoteApi(req.host) && old(caches.Match(req)).Some? ==>
              fetches == [] && reply == Respond(old(caches.Match(req)).value)
    ensures !IsRemoteApi(req.host) && old(caches.Match(req)).None? ==>
              fetches == [req] && reply == (if net.Ok? then Respond(net.response) else NetworkError)
    ensures reply.NetworkError? <==> !IsRemoteApi(req.host) && old(caches.Match(req)).None? && net.NetErr?
    ensures (if IsRemoteApi(req.host) then net.Ok? && net.response.status == 200
             else old(caches.Match(req)).None? && net.Ok? && IsCacheable(net.response)) ==>
              caches.names == NamesAfterPut(old(caches.names), old(caches.buckets), CACHE_NAME) &&
              caches.buckets == BucketsAfterPut(old(caches.buckets), CACHE_NAME, req, net.response)
    ensures !(if IsRemoteApi(req.host) then net.Ok? && net.response.status == 200
              else old(caches.Match(req)).None? && net.Ok? && IsCacheable(net.response)) ==>
              caches.names == old(caches.names) && caches.buckets == old(caches.buckets)
  {
    if IsRemoteApi(req.host) {
      var resp;
      resp, fetches := NetworkFirst(caches, req, net);
      reply := Respond(resp);
    } else {
      reply, fetches := CacheFirst(caches, req, net);
    }
  }

  /**
   * The activate event: every bucket other than CACHE_NAME is deleted; the
   * CACHE_NAME bucket, if any, keeps its entries.
   */
  method Activate(caches: CacheStorage)
    requires caches.Valid()
    modifies caches
    ensures caches.Valid()
    ensures forall n :: n in caches.names ==> n == CACHE_NAME
    ensures caches.names == if CACHE_NAME in old(caches.buckets) then [CACHE_NAME] else []
    ensures caches.buckets == if CACHE_NAME in old(caches.buckets)
                              then map[CACHE_NAME := old(caches.buckets)[CACHE_NAME]] else map[]
  {
    var cacheNames := caches.Keys();
    ghost var gone: set<string> := {};
    RetainNothing(cacheNames);
    for i := 0 to |cacheNames|
      invariant caches.Valid()
      invariant forall n :: n in gone <==> n in cacheNames[..i] && n != CACHE_NAME
      invariant caches.names == Retain(cacheNames, gone)
      invariant caches.buckets == old(caches.buckets) - gone
    {
      if cacheNames[i] != CACHE_NAME {
        var deleted := caches.Delete(cacheNames[i]);
        RetainTwice(cacheNames, gone, {cacheNames[i]});
        RemoveTwice(old(caches.buckets), gone, {cacheNames[i]});
        GoneGrows(cacheNames, i, gone, CACHE_NAME);
        gone := gone + {cacheNames[i]};
      } else {
        GoneGrows(cacheNames, i, gone, CACHE_NAME);
      }
    }
    assert cacheNames[..|cacheNames|] == cacheNames;
    PurgeKeepsOnly(cacheNames, old(caches.buckets), gone, CACHE_NAME);
  }

  /** One more name scanned: `gone` grows by that name unless it is the one kept. */
  lemma GoneGrows(names: seq<string>, i: nat, gone: set<string>, keep: string)
    requires i < |names|
    requires forall n :: n in gone <==> n in names[..i] && n != keep
    ensures names[i] != keep ==> forall n :: n in gone + {names[i]} <==> n in names[..i + 1] && n != keep
    ensures names[i] == keep ==> forall n :: n in gone <==> n in names[..i + 1] && n != keep
  {
    assert names[..i + 1] == names[..i] + [names[i]];
  }

  lemma RemoveTwice(buckets: map<string, Bucket>, a: set<string>, b: set<string>)
    ensures buckets - a - b == buckets - (a + b)
  {
  }

  /** Removing every name but `keep` leaves at most `keep`, with its bucket intact. */
  lemma PurgeKeepsOnly(names: seq<string>, buckets: map<string, Bucket>, gone: set<string>, keep: string)
    requires Distinct(names) && forall n :: n in buckets <==> n in names
    requires forall n :: n in gone <==> n in names && n != keep
    ensures Retain(names, gone) == if keep in buckets then [keep] else []
    ensures buckets - gone == if keep in buckets then map[keep := buckets[keep]] else map[]
  {
    var left := Retain(names, gone);
    assert forall n :: n in left ==> n == keep;
    OnlyOneLeft(left, keep);
    PurgedBuckets(buckets, gone, keep);
  }

  /** Removing every key but `keep` leaves at most `keep`'s entry. */
  lemma PurgedBuckets(buckets: map<string, Bucket>, gone: set<string>, keep: string)
    requires forall n :: n in buckets && n != keep ==> n in gone
    requires keep !in gone
    ensures buckets - gone == if keep in buckets then map[keep := buckets[keep]] else map[]
  {
    var rest := buckets - gone;
    assert rest.Keys == if keep in buckets then {keep} else {};
  }

  /** A repetition-free list of copies of `c` is empty or just `[c]`. */
  lemma OnlyOneLeft(names: seq<string>, c: string)
    requires Distinct(names) && forall n :: n in names ==> n == c
    ensures names == if c in names then [c] else []
  {
    if names != [] {
      assert names[0] in names;
      assert c !in names[1..];
      assert forall n :: n in names[1..] ==> n in names;
      OnlyOneLeft(names[1..], c);
      assert names == [names[0]] + names[1..];
    }
  }
}
