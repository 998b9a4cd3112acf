/** The worker as a dispatch table: each lifecycle, fetch, push or click
    event is routed to its handler, and a run is the handlers applied to a
    sequence of events in turn. */
module Events {
  import opened Wrappers
  import opened Http
  import opened Caches
  import opened ServiceWorker
  import Seqs

  /** What the host supplies: the worker's origin, the network (the outcome
      of fetching each URL), the open windows and whether
      `clients.openWindow` exists. */
  datatype Host = Host(origin: string, net: Url -> NetOutcome, windows: seq<Client>, canOpenWindow: bool)

  /** The events the worker listens for. */
  datatype Event =
    | InstallEvent
    | ActivateEvent
    | FetchEvent(request: Request)
    | PushEvent(payload: Option<PushPayload>)
    | ClickEvent(notification: Notification)

  /** What a handler does beyond changing the state. */
  datatype Effect =
    | Settled                         // install and activate: the lifecycle promise resolves
    | Responded(fetched: FetchOutcome)
    | Shown(notification: Notification)
    | Clicked(click: ClickOutcome)

  /** Routes one event to its handler. The install handler swallows its own
      error, so install always settles. */
  function Dispatch(st: State, ev: Event, host: Host): (r: (State, Effect))
    ensures ev.InstallEvent? || ev.ActivateEvent? ==> r.1 == Settled
    ensures ev.PushEvent? || ev.ClickEvent? ==> r.0 == st
    ensures !ev.InstallEvent? ==> r.0.skipWaitingCalled == st.skipWaitingCalled
    ensures st.skipWaitingCalled ==> r.0.skipWaitingCalled
    ensures Valid(st.storage) ==> Valid(r.0.storage)
  {
    match ev
    case InstallEvent => (OnInstall(st, host.origin, host.net), Settled)
    case ActivateEvent => (OnActivate(st), Settled)
    case FetchEvent(req) =>
      var (next, outcome) := OnFetch(st, host.origin, req, host.net);
      (next, Responded(outcome))
    case PushEvent(payload) => (st, Shown(OnPush(payload)))
    case ClickEvent(n) => (st, Clicked(OnNotificationClick(host.windows, host.canOpenWindow, n.url)))
  }

  /** The state after handling `events` in order. */
  function Run(st: State, events: seq<Event>, host: Host): State
    decreases |events|
  {
    if |events| == 0 then st else Run(Dispatch(st, events[0], host).0, events[1..], host)
  }

  /** Every run keeps the cache storage well formed. */
  lemma {:induction false} RunKeepsValid(st: State, events: seq<Event>, host: Host)
    requires Valid(st.storage)
    ensures Valid(Run(st, events, host).storage)
    decreases |events|
  {
    if |events| > 0 {
      RunKeepsValid(Dispatch(st, events[0], host).0, events[1..], host);
    }
  }

  /** Once asked for, skipping the waiting phase is never withdrawn; and
      only an install event can ask for it. */
  lemma {:induction false} RunSkipWaiting(st: State, events: seq<Event>, host: Host)
    ensures st.skipWaitingCalled ==> Run(st, events, host).skipWaitingCalled
    ensures (forall i :: 0 <= i < |events| ==> !events[i].InstallEvent?) ==>
      Run(st, events, host).skipWaitingCalled == st.skipWaitingCalled
    decreases |events|
  {
    if |events| > 0 {
      RunSkipWaiting(Dispatch(st, events[0], host).0, events[1..], host);
      assert (forall i :: 0 <= i < |events| ==> !events[i].InstallEvent?) ==>
        (forall i :: 0 <= i < |events[1..]| ==> !events[1..][i].InstallEvent?) by {
        if forall i :: 0 <= i < |events| ==> !events[i].InstallEvent? {
          forall i | 0 <= i < |events[1..]|
            ensures !events[1..][i].InstallEvent?
          {
            assert events[1..][i] == events[i + 1];
          }
        }
      }
    }
  }

  /** No bucket holds an entry for a URL containing `/api/`. */
  predicate NoApiEntries(s: CacheStorage) {
    forall n, u :: n in s.buckets && u in s.buckets[n] ==> !Seqs.Includes(u, ApiMarker)
  }

  /** One event never introduces an `/api/` entry. */
  lemma DispatchNoApiEntries(st: State, ev: Event, host: Host)
    requires NoApiEntries(st.storage)
    requires PrecacheOutsideApi(host.origin)
    ensures NoApiEntries(Dispatch(st, ev, host).0.storage)
  {
    var next := Dispatch(st, ev, host).0;
    forall n, u | n in next.storage.buckets && u in next.storage.buckets[n]
      ensures !Seqs.Includes(u, ApiMarker)
    {
      assert Lookup(next.storage, n, u).Some?;
      match ev
      case InstallEvent =>
        if !(n == CacheName && u in PrecacheUrls(host.origin)) {
          assert Lookup(st.storage, n, u).Some?;
        }
      case ActivateEvent =>
        assert Lookup(st.storage, n, u).Some?;
      case FetchEvent(req) =>
        if !(n == CacheName && u == req.url) {
          assert Lookup(st.storage, n, u).Some?;
        }
      case PushEvent(_) =>
      case ClickEvent(_) =>
    }
  }

  /** An API URL is never written to, and so never found in, the cache, in
      any run that starts without one. */
  lemma {:induction false} RunNoApiEntries(st: State, events: seq<Event>, host: Host)
    requires NoApiEntries(st.storage)
    requires PrecacheOutsideApi(host.origin)
    ensures NoApiEntries(Run(st, events, host).storage)
    decreases |events|
  {
    if |events| > 0 {
      DispatchNoApiEntries(st, events[0], host);
      RunNoApiEntries(Dispatch(st, events[0], host).0, events[1..], host);
    }
  }

  // ------------------------------------------------- push and notification

  /** A click on a pushed notification focuses an open focusable window at
      its URL when there is one, and never opens a second window then. */
  lemma ClickReusesWindow(payload: Option<PushPayload>, host: Host, i: nat)
    requires i < |host.windows|
    requires Reusable(host.windows[i], OnPush(payload).url)
    ensures var outcome := OnNotificationClick(host.windows, host.canOpenWindow, OnPush(payload).url);
            outcome.Focus? && outcome.index <= i
  {
  }

  /** A URL as `clients.matchAll` reports it: absolute, so never starting
      with `/`. */
  predicate AbsoluteUrl(u: string) {
    |u| > 0 && u[0] != '/'
  }

  /** The click handler compares raw strings, so a relative target such as
      the default `/` never equals an open window's absolute URL: no window
      is ever focused for it. */
  lemma RelativeTargetNeverFocuses(clients: seq<Client>, canOpenWindow: bool, target: string)
    requires |target| > 0 && target[0] == '/'
    requires forall i :: 0 <= i < |clients| ==> AbsoluteUrl(clients[i].url)
    ensures !OnNotificationClick(clients, canOpenWindow, target).Focus?
  {
  }

  /** In particular a notification pushed without a payload always opens a
      new window at `/` when the host can open one. */
  lemma DefaultClickOpensWindow(clients: seq<Client>)
    requires forall i :: 0 <= i < |clients| ==> AbsoluteUrl(clients[i].url)
    ensures OnNotificationClick(clients, true, OnPush(None).url) == OpenWindow(DefaultUrl)
  {
    RelativeTargetNeverFocuses(clients, true, OnPush(None).url);
  }

  /** The precache URLs can fall under `/api/` for some origins: on a host
      named `api`, `/` resolves to `http://api/`. A successful install there
      stores an entry for a URL containing `/api/`, which the fetch handler
      always bypasses, so the origin condition of `RunNoApiEntries` cannot be
      dropped. */
  lemma ApiHostPrecacheInsideApi(net: Url -> NetOutcome)
    ensures !PrecacheOutsideApi("http://api")
    ensures PrecacheSucceeds("http://api", net) ==>
              !NoApiEntries(OnInstall(State(Empty, false), "http://api", net).storage)
  {
    var url := Resolve("http://api", "/");
    assert url == "http:/" + ApiMarker + "";
    Seqs.IncludesInside("http:/", ApiMarker, "");
    assert url in PrecacheUrls("http://api") by {
      PrecacheUrlsResolve("http://api");
      assert PrecacheUrls("http://api")[0] == url;
    }
    if PrecacheSucceeds("http://api", net) {
      var installed := OnInstall(State(Empty, false), "http://api", net).storage;
      assert "/" in PrecacheResources;
      assert Lookup(installed, CacheName, url).Some?;
      assert CacheName in installed.buckets && url in installed.buckets[CacheName];
    }
  }
}
