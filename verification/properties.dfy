/** Properties that relate several handler calls: activation is idempotent,
    a stored response is served on the next request, precached resources
    are served without the network, and invariants of the cache storage
    that hold across any sequence of events. */
module Properties {
  import opened Wrappers
  import opened Http
  import opened Caches
  import opened ServiceWorker
  import Seqs

  // --------------------------------------------------------------- activate

  /** A second activation deletes nothing more. */
  lemma ActivateIdempotent(st: State)
    requires Valid(st.storage)
    ensures OnActivate(OnActivate(st)) == OnActivate(st)
  {
    var once := OnActivate(st);
    var twice := OnActivate(once);
    assert twice.storage.buckets.Keys == once.storage.buckets.Keys;
    assert twice.storage.buckets == once.storage.buckets;
  }

  // ------------------------------------------------------------------ fetch

  /** `/api/` anywhere in a GET's URL, not only at the start of its path,
      makes the handler step aside. */
  lemma ApiAnywhereBypassed(st: State, origin: string, before: string, after: string,
                            accept: Option<string>, net: Url -> NetOutcome)
    ensures OnFetch(st, origin, Request("GET", before + ApiMarker + after, accept), net) == (st, PassThrough)
  {
    Seqs.IncludesInside(before, ApiMarker, after);
  }

  /** On a cache hit the network is never consulted: the outcome is the
      same whatever the network would have done. */
  lemma CacheHitIgnoresNetwork(st: State, origin: string, req: Request, net1: Url -> NetOutcome, net2: Url -> NetOutcome)
    requires !Bypassed(req)
    requires Match(st.storage, req.url).Some?
    ensures OnFetch(st, origin, req, net1) == OnFetch(st, origin, req, net2)
    ensures OnFetch(st, origin, req, net1).1.Cached?
  {
  }

  /** On a miss answered by the network, the response is stored under the
      request URL in `CacheName` exactly when its status is 200. */
  lemma MissStoresIffOk(st: State, origin: string, req: Request, net: Url -> NetOutcome)
    requires Valid(st.storage)
    requires !Bypassed(req)
    requires Match(st.storage, req.url).None?
    requires net(req.url).Delivered?
    ensures Lookup(OnFetch(st, origin, req, net).0.storage, CacheName, req.url) == Some(net(req.url).response)
        <==> net(req.url).response.status == StatusOk
  {
    if net(req.url).response.status != StatusOk {
      assert Lookup(st.storage, CacheName, req.url).None?;
    }
  }

  /** After a miss whose network response had status 200, the same request
      is a hit returning that response, whatever the network does then. */
  lemma MissThenHit(st: State, origin: string, req: Request, net: Url -> NetOutcome, later: Url -> NetOutcome)
    requires Valid(st.storage)
    requires !Bypassed(req)
    requires Match(st.storage, req.url).None?
    requires net(req.url).Delivered? && net(req.url).response.status == StatusOk
    ensures var next := OnFetch(st, origin, req, net).0;
            OnFetch(next, origin, req, later) == (next, Cached(net(req.url).response))
  {
    var next := OnFetch(st, origin, req, net).0;
    forall n | n != CacheName
      ensures Lookup(next.storage, n, req.url).None?
    {
      assert Lookup(st.storage, n, req.url).None?;
    }
    MatchUnique(next.storage, CacheName, req.url);
  }

  /** A fetch changes what `caches.match` returns for no URL other than its
      own: the store after a miss goes to the request's own key, and a new
      bucket is only ever appended to the creation order. */
  lemma FetchKeepsOtherMatches(st: State, origin: string, req: Request,
                                                  net: Url -> NetOutcome, u: Url)
    requires Valid(st.storage)
    requires u != req.url
    ensures Match(OnFetch(st, origin, req, net).0.storage, u) == Match(st.storage, u)
  {
    var next := OnFetch(st, origin, req, net).0;
    MatchFrame(st.storage, next.storage, u);
  }

  // ---------------------------------------------------------------- install

  /** After a successful install and activation, every precached resource
      is served from the cache, exactly as it was fetched at install time,
      whatever the network does afterwards. */
  lemma PrecacheServedOffline(st: State, origin: string, net: Url -> NetOutcome,
                                                 p: string, accept: Option<string>, later: Url -> NetOutcome)
    requires Valid(st.storage)
    requires PrecacheSucceeds(origin, net)
    requires PrecacheOutsideApi(origin)
    requires p in PrecacheResources
    ensures var ready := OnActivate(OnInstall(st, origin, net));
            var url := Resolve(origin, p);
            OnFetch(ready, origin, Request("GET", url, accept), later) == (ready, Cached(net(url).response))
  {
    var installed := OnInstall(st, origin, net);
    var ready := OnActivate(installed);
    var url := Resolve(origin, p);
    PrecacheUrlOf(origin, p);
    assert Lookup(installed.storage, CacheName, url) == Some(net(url).response);
    forall n
      ensures Lookup(ready.storage, n, url) == (if n == CacheName then Some(net(url).response) else None)
    {
      ActivateLookup(installed, n, url);
    }
    ServedFromOnlyBucket(ready, origin, Request("GET", url, accept), later, CacheName);
  }

  /** Each precache resource has its resolved URL among the precache URLs. */
  lemma PrecacheUrlOf(origin: string, p: string)
    requires p in PrecacheResources
    ensures Resolve(origin, p) in PrecacheUrls(origin)
  {
    var i :| 0 <= i < |PrecacheResources| && PrecacheResources[i] == p;
    assert PrecacheUrls(origin)[i] == Resolve(origin, p);
  }

  /** While this worker is active, a newer version's install adds a later
      bucket. A URL missing from `CacheName` but held by that bucket is then
      served from it, without consulting the network. */
  lemma NewerBucketAnswersMiss(st: State, origin: string, req: Request,
                                                  net: Url -> NetOutcome, newer: string)
    requires Valid(st.storage)
    requires !Bypassed(req)
    requires st.storage.names == [CacheName, newer]
    requires Lookup(st.storage, CacheName, req.url).None?
    requires Lookup(st.storage, newer, req.url).Some?
    ensures OnFetch(st, origin, req, net) == (st, Cached(Lookup(st.storage, newer, req.url).value))
  {
    forall n | n != newer
      ensures Lookup(st.storage, n, req.url).None?
    {
      if n in st.storage.buckets {
        assert n in st.storage.names;
      }
    }
    ServedFromOnlyBucket(st, origin, req, net, newer);
  }

  /** A request held by exactly one bucket is answered from that bucket. */
  lemma ServedFromOnlyBucket(st: State, origin: string, req: Request, net: Url -> NetOutcome, name: string)
    requires Valid(st.storage)
    requires !Bypassed(req)
    requires Lookup(st.storage, name, req.url).Some?
    requires forall n :: n != name ==> Lookup(st.storage, n, req.url).None?
    ensures OnFetch(st, origin, req, net) == (st, Cached(Lookup(st.storage, name, req.url).value))
  {
    MatchUnique(st.storage, name, req.url);
  }

  /** `/offline.html` is not among the precache resources, so installing
      never stores it: if no bucket held the offline page before install,
      the offline-page lookup still misses afterwards. */
  lemma OfflinePageNotPrecached(st: State, origin: string, net: Url -> NetOutcome)
    requires Valid(st.storage)
    requires forall n :: Lookup(st.storage, n, Resolve(origin, OfflineUrl)).None?
    ensures Match(OnInstall(st, origin, net).storage, Resolve(origin, OfflineUrl)).None?
  {
    InstallSkipsOfflinePage(st, origin, net);
  }

  /** Helper for the above: the URLs installed into `CacheName` are the
      precache URLs and the entries that were there before. */
  lemma InstallSkipsOfflinePage(st: State, origin: string, net: Url -> NetOutcome)
    requires Lookup(st.storage, CacheName, Resolve(origin, OfflineUrl)).None?
    ensures Lookup(OnInstall(st, origin, net).storage, CacheName, Resolve(origin, OfflineUrl)).None?
  {
    var offline := Resolve(origin, OfflineUrl);
    var created := Open(st.storage, CacheName);
    var urls := PrecacheUrls(origin);
    assert offline !in urls by {
      if offline in urls {
        var i :| 0 <= i < |urls| && urls[i] == offline;
        ResolveInjective(origin, PrecacheResources[i], OfflineUrl);
        assert false;
      }
    }
  }

  /** After activation only `CacheName` can answer a lookup, and it answers
      as before. */
  lemma ActivateLookup(st: State, n: string, u: Url)
    requires Valid(st.storage)
    ensures Lookup(OnActivate(st).storage, n, u) == (if n == CacheName then Lookup(st.storage, n, u) else None)
  {
  }

  /** Consequently, on a fresh install with the network down for a URL, an
      HTML navigation to it gets an empty offline page. When the URL is a
      precache URL, its failed fetch fails the whole install. */
  lemma OfflinePageMissingAfterFreshInstall(origin: string, net: Url -> NetOutcome, url: Url)
    requires !Seqs.Includes(url, ApiMarker)
    requires net(url).NetworkError?
    ensures var ready := OnActivate(OnInstall(State(Empty, false), origin, net));
            OnFetch(ready, origin, Request("GET", url, Some("text/html")), net) == (ready, OfflinePage(None))
  {
    var st := State(Empty, false);
    assert Valid(st.storage);
    var installed := OnInstall(st, origin, net);
    var ready := OnActivate(installed);
    var offline := Resolve(origin, OfflineUrl);
    InstallSkipsOfflinePage(st, origin, net);
    if url in PrecacheUrls(origin) {
      assert !PrecacheSucceeds(origin, net) by {
        PrecacheUrlsResolve(origin);
        var i :| 0 <= i < |PrecacheUrls(origin)| && PrecacheUrls(origin)[i] == url;
        assert PrecacheResources[i] in PrecacheResources;
      }
    }
    forall n
      ensures Lookup(ready.storage, n, url).None? && Lookup(ready.storage, n, offline).None?
    {
      ActivateLookup(installed, n, url);
      ActivateLookup(installed, n, offline);
    }
    assert Match(ready.storage, url).None?;
    assert Match(ready.storage, offline).None?;
    assert Seqs.Includes("text/html", "text/html") by {
      Seqs.IncludesInside("", "text/html", "");
    }
  }
}
