/** The FitMaster Pro service worker: one pure function per event handler
    (install, activate, fetch, push, notificationclick). Each takes the
    worker's state and what the host supplies (the origin, the network, the
    open windows) and returns the new state and what the handler does. */
module ServiceWorker {
  import opened Wrappers
  import opened Http
  import opened Caches
  import Seqs

  /** The versioned name of the bucket this worker owns. */
  const CacheName: string := "fitmaster-pro-v1.0.0"

  /** The path of the offline fallback page. */
  const OfflineUrl: string := "/offline.html"

  /** The paths stored at install time, in order. */
  const PrecacheResources: seq<string> := [
    "/",
    "/index.html",
    "/src/main.jsx",
    "/src/App.jsx",
    "/src/index.css",
    "/manifest.json",
    "/icons/icon-72.png",
    "/icons/icon-192.png",
    "/icons/icon-512.png"
  ]

  /** The marker whose presence anywhere in a URL exempts it from caching. */
  const ApiMarker: string := "/api/"

  /** What the worker keeps between events: the origin's cache storage and
      whether it has asked to skip the waiting phase. */
  datatype State = State(storage: CacheStorage, skipWaitingCalled: bool)

  /** A path relative to the worker's origin, made absolute. */
  function Resolve(origin: string, path: string): Url {
    origin + path
  }

  /** Distinct paths resolve to distinct URLs. */
  lemma ResolveInjective(origin: string, p: string, q: string)
    requires Resolve(origin, p) == Resolve(origin, q)
    ensures p == q
  {
    assert p == Resolve(origin, p)[|origin|..];
    assert q == Resolve(origin, q)[|origin|..];
  }

  // ---------------------------------------------------------------- install

  /** `cache.addAll` accepts a fetched response only when it is an ok
      status other than 206 (Cache interface, section 5.4 of the W3C
      Service Workers specification). */
  predicate AddAllAccepts(outcome: NetOutcome) {
    outcome.Delivered? && IsOkStatus(outcome.response.status)
    && outcome.response.status != StatusPartialContent
  }

  /** Fetches every URL of `urls`; all-or-nothing: one refused fetch makes
      the whole batch fail. */
  function FetchAll(urls: seq<Url>, net: Url -> NetOutcome): (r: Option<seq<Response>>)
    ensures r.Some? <==> forall i :: 0 <= i < |urls| ==> AddAllAccepts(net(urls[i]))
    ensures r.Some? ==> |r.value| == |urls|
    ensures r.Some? ==> forall i :: 0 <= i < |urls| ==> r.value[i] == net(urls[i]).response
  {
    if |urls| == 0 then Some([])
    else if !AddAllAccepts(net(urls[0])) then None
    else
      match FetchAll(urls[1..], net)
      case None => None
      case Some(rest) => Some([net(urls[0]).response] + rest)
  }

  /** Stores `responses[i]` under `urls[i]` in bucket `name`, in order. */
  function PutAll(s: CacheStorage, name: string, urls: seq<Url>, responses: seq<Response>): (r: CacheStorage)
    requires |urls| == |responses|
    ensures Seqs.Distinct(urls) ==> forall i :: 0 <= i < |urls| ==> Lookup(r, name, urls[i]) == Some(responses[i])
    ensures forall n, u :: n != name || u !in urls ==> Lookup(r, n, u) == Lookup(s, n, u)
    ensures |urls| > 0 ==> r.buckets.Keys == s.buckets.Keys + {name}
    ensures |urls| == 0 ==> r == s
    ensures s.names <= r.names
    ensures Valid(s) ==> Valid(r)
    decreases |urls|
  {
    if |urls| == 0 then s
    else
      var r := PutAll(Put(s, name, urls[0], responses[0]), name, urls[1..], responses[1..]);
      assert Seqs.Distinct(urls) ==> urls[0] !in urls[1..];
      r
  }

  /** The precache URLs for a given origin. */
  function PrecacheUrls(origin: string): seq<Url> {
    seq(|PrecacheResources|, i requires 0 <= i < |PrecacheResources| => Resolve(origin, PrecacheResources[i]))
  }

  /** No precache URL of this origin contains `/api/`, so the fetch
      handler never steps aside for one. */
  predicate PrecacheOutsideApi(origin: string) {
    forall u :: u in PrecacheUrls(origin) ==> !Seqs.Includes(u, ApiMarker)
  }

  /** Every precache resource is fetched with an acceptable response. */
  predicate PrecacheSucceeds(origin: string, net: Url -> NetOutcome) {
    forall p :: p in PrecacheResources ==> AddAllAccepts(net(Resolve(origin, p)))
  }

  /** The install handler. It opens bucket `CacheName` (creating it), then
      stores every precache resource in it all-or-nothing, and only on success
      asks to skip waiting. A failed batch is logged and swallowed: the
      handler still settles normally, and the bucket stays created. */
  function OnInstall(st: State, origin: string, net: Url -> NetOutcome): (r: State)
    ensures CacheName in r.storage.buckets
    ensures PrecacheSucceeds(origin, net) ==>
      && r.skipWaitingCalled
      && forall p :: p in PrecacheResources ==>
           Lookup(r.storage, CacheName, Resolve(origin, p)) == Some(net(Resolve(origin, p)).response)
    ensures !PrecacheSucceeds(origin, net) ==>
      && r.skipWaitingCalled == st.skipWaitingCalled
      && forall n, u :: Lookup(r.storage, n, u) == Lookup(st.storage, n, u)
    ensures forall n, u :: n != CacheName || u !in PrecacheUrls(origin) ==>
      Lookup(r.storage, n, u) == Lookup(st.storage, n, u)
    ensures r.storage.buckets.Keys == st.storage.buckets.Keys + {CacheName}
    ensures st.storage.names <= r.storage.names
    ensures Valid(st.storage) ==> Valid(r.storage)
  {
    var created := Open(st.storage, CacheName);
    var urls := PrecacheUrls(origin);
    PrecacheUrlsDistinct(origin);
    PrecacheUrlsResolve(origin);
    match FetchAll(urls, net)
    case None =>
      assert !PrecacheSucceeds(origin, net) by {
        var i :| 0 <= i < |urls| && !AddAllAccepts(net(urls[i]));
        assert PrecacheResources[i] in PrecacheResources;
      }
      State(created, st.skipWaitingCalled)
    case Some(responses) =>
      var stored := PutAll(created, CacheName, urls, responses);
      assert PrecacheSucceeds(origin, net);
      assert forall p :: p in PrecacheResources ==>
        Lookup(stored, CacheName, Resolve(origin, p)) == Some(net(Resolve(origin, p)).response) by {
        forall p | p in PrecacheResources
          ensures Lookup(stored, CacheName, Resolve(origin, p)) == Some(net(Resolve(origin, p)).response)
        {
          var i :| 0 <= i < |PrecacheResources| && PrecacheResources[i] == p;
          assert urls[i] == Resolve(origin, p);
        }
      }
      State(stored, true)
  }

  /** The precache URLs are the precache paths, resolved one by one. */
  lemma PrecacheUrlsResolve(origin: string)
    ensures |PrecacheUrls(origin)| == |PrecacheResources|
    ensures forall i :: 0 <= i < |PrecacheResources| ==> PrecacheUrls(origin)[i] == Resolve(origin, PrecacheResources[i])
  {
  }

  /** The precache list names no path twice, so no resolved URL repeats. */
  lemma PrecacheUrlsDistinct(origin: string)
    ensures Seqs.Distinct(PrecacheUrls(origin))
  {
    var urls := PrecacheUrls(origin);
    assert Seqs.Distinct(PrecacheResources);
    forall i, j | 0 <= i < j < |urls|
      ensures urls[i] != urls[j]
    {
      if urls[i] == urls[j] {
        ResolveInjective(origin, PrecacheResources[i], PrecacheResources[j]);
      }
    }
  }

  // --------------------------------------------------------------- activate

  /** The activate handler: every bucket whose name is not `CacheName` is
      deleted; the current bucket, if present, is kept as it is. */
  function OnActivate(st: State): (r: State)
    ensures Valid(st.storage) ==> r.storage.buckets.Keys == st.storage.buckets.Keys * {CacheName}
    ensures CacheName in st.storage.buckets ==>
      CacheName in r.storage.buckets && r.storage.buckets[CacheName] == st.storage.buckets[CacheName]
    ensures Valid(st.storage) ==> Valid(r.storage)
    ensures Valid(st.storage) ==> r.storage.names == (if CacheName in st.storage.buckets then [CacheName] else [])
    ensures r.skipWaitingCalled == st.skipWaitingCalled
  {
    var swept := DeleteAllExcept(st.storage, st.storage.names, CacheName);
    assert Valid(st.storage) ==>
      swept.names == (if CacheName in st.storage.buckets then [CacheName] else []) by {
      if Valid(st.storage) {
        SingleName(swept.names, CacheName);
      }
    }
    st.(storage := swept)
  }

  /** A list without repeats whose only possible element is `x` is `[x]` or
      empty. */
  lemma SingleName(names: seq<string>, x: string)
    requires Seqs.Distinct(names)
    requires forall n :: n in names ==> n == x
    ensures names == (if x in names then [x] else [])
  {
    if |names| >= 2 {
      HeadsIn(names);
      assert false;
    } else if |names| == 1 {
      assert names[0] in names;
    }
  }

  /** The first two elements of a list are members of it. */
  lemma HeadsIn(names: seq<string>)
    requires |names| >= 2
    ensures names[0] in names && names[1] in names
  {
  }

  // ------------------------------------------------------------------ fetch

  /** What the fetch handler does with a request. */
  datatype FetchOutcome =
    | PassThrough                          // no respondWith: the browser fetches as usual
    | Cached(response: Response)           // served from cache storage
    | Network(response: Response)          // the network's response, whatever its status
    | OfflinePage(page: Option<Response>)  // the offline page lookup, which can miss
    | Stub(response: Response)             // the synthetic "unavailable" reply
    | Rejected                             // the handler's promise rejects (no accept header)

  /** The handler leaves the request alone: not a GET, or `/api/` occurs
      anywhere in its URL. */
  predicate Bypassed(req: Request) {
    req.verb != "GET" || Seqs.Includes(req.url, ApiMarker)
  }

  /** The reply used for a failed non-HTML request. */
  const OfflineStub: Response :=
    Response(StatusServiceUnavailable, "Service Unavailable", Some("text/plain; charset=utf-8"), "Оффлайн режим")

  /** The request asks for HTML. A missing `accept` header makes the
      handler throw, hence `None`. */
  function AcceptsHtml(req: Request): Option<bool> {
    match req.accept
    case None => None
    case Some(a) => Some(Seqs.Includes(a, "text/html"))
  }

  /** The fetch handler: cache first (any bucket), then the network, whose
      status-200 responses are stored in `CacheName`; on a network error, the
      offline page for HTML requests and a 503 stub otherwise. */
  function OnFetch(st: State, origin: string, req: Request, net: Url -> NetOutcome): (r: (State, FetchOutcome))
    ensures Bypassed(req) ==> r == (st, PassThrough)
    ensures !Bypassed(req) && Match(st.storage, req.url).Some? ==>
      r == (st, Cached(Match(st.storage, req.url).value))
    ensures !Bypassed(req) && Match(st.storage, req.url).None? && net(req.url).Delivered? ==>
      && r.1 == Network(net(req.url).response)
      && r.0.skipWaitingCalled == st.skipWaitingCalled
      && (Lookup(r.0.storage, CacheName, req.url) == Some(net(req.url).response)
          || net(req.url).response.status != StatusOk)
      && (net(req.url).response.status != StatusOk ==> r.0 == st)
      && forall n, u :: n != CacheName || u != req.url ==> Lookup(r.0.storage, n, u) == Lookup(st.storage, n, u)
    ensures !Bypassed(req) && Match(st.storage, req.url).None? && net(req.url).NetworkError? ==>
      && r.0 == st
      && (req.accept.None? ==> r.1 == Rejected)
      && (req.accept.Some? && Seqs.Includes(req.accept.value, "text/html") ==>
            r.1 == OfflinePage(Match(st.storage, Resolve(origin, OfflineUrl))))
      && (req.accept.Some? && !Seqs.Includes(req.accept.value, "text/html") ==>
            && r.1.Stub?
            && r.1.response.status == StatusServiceUnavailable
            && r.1.response.statusText == "Service Unavailable"
            && r.1.response.contentType == Some("text/plain; charset=utf-8"))
    ensures r.0.skipWaitingCalled == st.skipWaitingCalled
    ensures st.storage.names <= r.0.storage.names
    ensures r.0.storage.buckets.Keys <= st.storage.buckets.Keys + {CacheName}
    ensures Valid(st.storage) ==> Valid(r.0.storage)
  {
    if req.verb != "GET" then (st, PassThrough)
    else if Seqs.Includes(req.url, ApiMarker) then (st, PassThrough)
    else
      match Match(st.storage, req.url)
      case Some(cached) => (st, Cached(cached))
      case None =>
        match net(req.url)
        case Delivered(response) =>
          if response.status == StatusOk then
            (st.(storage := Put(st.storage, CacheName, req.url, response)), Network(response))
          else
            (st, Network(response))
        case NetworkError =>
          match AcceptsHtml(req)
          case None => (st, Rejected)
          case Some(true) => (st, OfflinePage(Match(st.storage, Resolve(origin, OfflineUrl))))
          case Some(false) => (st, Stub(OfflineStub))
  }

  // ------------------------------------------------------------------- push

  /** The fields of a push message's JSON payload that the handler reads. */
  datatype PushPayload = PushPayload(title: Option<string>, body: Option<string>, url: Option<string>)

  /** The notification shown; `url` is carried in its data. */
  datatype Notification = Notification(title: string, body: string, url: string)

  const DefaultTitle: string := "FitMaster Pro"
  const DefaultBody: string := "Новое уведомление"
  const DefaultUrl: string := "/"

  /** JavaScript's `field || fallback` for a string field that may be
      missing: an absent or empty string is falsy. */
  function OrElse(field: Option<string>, fallback: string): string {
    if field.Some? && field.value != "" then field.value else fallback
  }

  /** The push handler: each field of the payload, when present and
      non-empty, else its default; no payload at all gives every default. */
  function OnPush(payload: Option<PushPayload>): (r: Notification)
    ensures r.title != "" && r.body != "" && r.url != ""
    ensures payload.None? ==> r == Notification(DefaultTitle, DefaultBody, DefaultUrl)
    ensures payload.Some? ==>
      && (payload.value.title.Some? && payload.value.title.value != "" ==> r.title == payload.value.title.value)
      && (payload.value.body.Some? && payload.value.body.value != "" ==> r.body == payload.value.body.value)
      && (payload.value.url.Some? && payload.value.url.value != "" ==> r.url == payload.value.url.value)
    ensures payload.Some? ==>
      && (payload.value.title.None? || payload.value.title.value == "" ==> r.title == DefaultTitle)
      && (payload.value.body.None? || payload.value.body.value == "" ==> r.body == DefaultBody)
      && (payload.value.url.None? || payload.value.url.value == "" ==> r.url == DefaultUrl)
  {
    var data := payload.GetOr(PushPayload(None, None, None));
    Notification(OrElse(data.title, DefaultTitle), OrElse(data.body, DefaultBody), OrElse(data.url, DefaultUrl))
  }

  // ------------------------------------------------------ notification click

  /** An open window as `clients.matchAll` reports it. */
  datatype Client = Client(url: string, focusable: bool)

  /** What a notification click does. */
  datatype ClickOutcome = Focus(index: nat) | OpenWindow(url: string) | NoOp

  /** The client the click loop stops at: same URL as the target, and
      focusable. */
  predicate Reusable(c: Client, target: string) {
    c.url == target && c.focusable
  }

  /** The notificationclick handler: focus the first reusable window in list
      order; failing that, open a window at the target when the host can,
      else do nothing. */
  function OnNotificationClick(clients: seq<Client>, canOpenWindow: bool, target: string): (r: ClickOutcome)
    ensures r.Focus? ==>
      && r.index < |clients| && Reusable(clients[r.index], target)
      && forall j :: 0 <= j < r.index ==> !Reusable(clients[j], target)
    ensures r.OpenWindow? ==>
      r.url == target && canOpenWindow && forall j :: 0 <= j < |clients| ==> !Reusable(clients[j], target)
    ensures r.NoOp? ==>
      !canOpenWindow && forall j :: 0 <= j < |clients| ==> !Reusable(clients[j], target)
  {
    match Seqs.FirstIndex(clients, c => Reusable(c, target))
    case Some(i) => Focus(i)
    case None => if canOpenWindow then OpenWindow(target) else NoOp
  }
}
