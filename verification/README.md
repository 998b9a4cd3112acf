# FitMaster Pro service worker, modelled in Dafny

FitMaster Pro is a Progressive Web App scaffold. Its only component with real
behaviour is the offline cache manager in `public/service-worker.js`. This
project models that worker as a small state machine and proves properties of
it.

The worker's state is the origin's cache storage plus a flag saying whether
`skipWaiting` was called. Cache storage is a map from bucket name to bucket,
together with the bucket names in creation order. A bucket maps a request URL
to a response. Each event listener is a pure function. It takes the state and
what the host supplies (the origin, the network as a function from URL to
fetch outcome, the open windows), and it returns the new state and what the
handler does:

- `install` (`OnInstall`): opens bucket `fitmaster-pro-v1.0.0`. It then stores
  the nine precache resources all-or-nothing, with the atomicity of
  `Cache.addAll` from section 5.4 of the W3C Service Workers specification
  taken as given. It asks to skip waiting only on success.
- `activate` (`OnActivate`): deletes every bucket not named
  `fitmaster-pro-v1.0.0`.
- `fetch` (`OnFetch`): a request that is not a GET, or whose URL contains
  `/api/` anywhere, is passed through. Otherwise it is looked up in every
  bucket, in creation order. On a miss it goes to the network, and a status
  200 response (RFC 9110 section 15.3.1) is stored under its URL. On a network
  error, an HTML request gets the lookup of `/offline.html`, which may miss.
  Any other request gets a 503 stub (RFC 9110 section 15.6.4).
- `push` (`OnPush`): title, body and URL come from the payload when present
  and non-empty. Otherwise they are `FitMaster Pro`, `Новое уведомление` and `/`.
- `notificationclick` (`OnNotificationClick`): focuses the first open window
  whose URL string equals the notification's URL and that can be focused.
  Failing that, it opens a window when the host can, and otherwise does
  nothing. Window URLs are absolute, so a relative target such as the
  default `/` never matches (see below).

`Events.Dispatch` routes each event to its handler, and `Events.Run` folds
the handlers over a sequence of events.

Files: `wrappers.dfy` (Option), `seqs.dfy` (first-match search, removal,
JavaScript `includes`), `http.dfy` (requests, responses, status constants),
`caches.dfy` (cache storage), `service_worker.dfy` (the handlers),
`properties.dfy` (lemmas relating several calls), `events.dfy` (dispatch and
runs of events).

## Behaviour of the code the model keeps

- Install errors are caught and logged, not propagated. A failed precache
  still settles the install normally; only `skipWaiting` is skipped.
- `caches.open` runs before `addAll`. A failed install therefore still
  creates bucket `fitmaster-pro-v1.0.0` (empty if it was new). No existing
  entry changes.
- `/offline.html` is not in the precache list. After a fresh install the
  offline fallback misses (`Properties.OfflinePageMissingAfterFreshInstall`).
  The handler then resolves `respondWith` with `undefined`, which the browser
  turns into a network error.
- The API exclusion is a substring test, not a path-prefix test
  (`Properties.ApiAnywhereBypassed`).
- `caches.match` searches every bucket, not only the current one, in creation
  order. While this worker is active, a newer version's install creates a
  later bucket. A URL missing from `fitmaster-pro-v1.0.0` is then served from
  that newer bucket, without going to the network
  (`Properties.NewerBucketAnswersMiss`).
- The click handler compares `client.url` with the notification's URL as raw
  strings. Window URLs are absolute while the default target is `/`, so a
  notification pushed without a `url` (or with a relative one) never focuses
  a window; it always opens a new one (`Events.DefaultClickOpensWindow`).
- Precache paths are resolved against the origin, and the `/api/` test runs
  on the resolved URL. For an origin such as `http://api`, the path `/`
  resolves to `http://api/`, which contains `/api/`: install stores it, but
  the fetch handler always bypasses it (`Events.ApiHostPrecacheInsideApi`).
- A request with no `accept` header makes the failure branch throw. The model
  gives the outcome `Rejected`.

## Model

| member | source | states |
|---|---|---|
| Seqs.Includes | public/service-worker.js:67 | `s.includes(sub)` holds exactly when `sub` occurs at some position of `s` (both directions) |
| Seqs.IncludesInside | public/service-worker.js:67 | an occurrence anywhere in a longer string is found, so the test is not a prefix test |
| Seqs.FirstIndex | public/service-worker.js:149-153 | returns the first position whose element satisfies the test, with no earlier one satisfying it, or reports that none does |
| Seqs.Without | public/service-worker.js:52 | removing a name keeps exactly the other names, in their original order, and keeps them free of repeats |
| Caches.Open | public/service-worker.js:26 | after `caches.open` the bucket exists and no entry changes; an existing bucket is reused, a new one is the only bucket added and goes at the end of the creation order; the name list stays well formed |
| Caches.Put | public/service-worker.js:84-88 | after `cache.put` the key maps to the response, every other (bucket, key) pair is unchanged, and the storage stays well formed |
| Caches.Delete | public/service-worker.js:52 | `caches.delete` removes exactly that bucket and its name, leaves every other bucket's contents alone and keeps the creation order of the rest |
| Caches.Match | public/service-worker.js:70 | a hit is the entry of the first bucket in creation order that holds the URL, no earlier bucket holding it; on well-formed storage it misses exactly when no bucket holds the URL |
| Caches.MatchUnique | public/service-worker.js:70 | when exactly one bucket holds the URL, `caches.match` returns that bucket's entry whatever the order |
| Caches.DeleteAllExcept | public/service-worker.js:47-55 | deleting every listed name except the current one leaves exactly the unlisted buckets and the current one, contents untouched and in creation order |
| ServiceWorker.FetchAll | public/service-worker.js:29 | the batch succeeds exactly when every fetch is delivered with an ok, non-206 status, and yields those responses in order |
| ServiceWorker.PutAll | public/service-worker.js:29 | storing a batch of distinct URLs makes each map to its own response and changes no other key |
| ServiceWorker.PrecacheUrlsDistinct | public/service-worker.js:9-19 | no precache URL repeats, for any origin |
| ServiceWorker.OnInstall | public/service-worker.js:22-39 | on success every precache path maps to its fetched response and skip-waiting is set; on failure no entry changes and the flag stays; in both cases the current bucket exists and nothing outside the precache URLs changes |
| ServiceWorker.OnActivate | public/service-worker.js:42-61 | the surviving bucket names are the old ones intersected with the current name, the current bucket keeps its contents, and the name list becomes `[current]` or empty |
| ServiceWorker.OnFetch | public/service-worker.js:64-111 | bypass leaves the state alone; a hit is served unchanged; a miss returns the network response and stores it only at status 200, touching no other key, adding no bucket but the current one and keeping the creation order; a network error keeps the state and yields the offline-page lookup, the 503 stub, or a rejection when `accept` is absent |
| ServiceWorker.OnPush | public/service-worker.js:122-140 | each field is the payload's when present and non-empty and the default otherwise; no payload gives all defaults; no field is ever empty |
| ServiceWorker.OnNotificationClick | public/service-worker.js:143-159 | focuses the first reusable window in list order; otherwise opens the target when possible, else does nothing |
| Properties.ActivateIdempotent | public/service-worker.js:47-55 | a second activation changes nothing |
| Properties.ApiAnywhereBypassed | public/service-worker.js:66-67 | a GET with `/api/` anywhere in its URL is passed through with the state unchanged |
| Properties.CacheHitIgnoresNetwork | public/service-worker.js:70-76 | on a hit the outcome is `Cached` and does not depend on the network |
| Properties.MissStoresIffOk | public/service-worker.js:79-90 | on a miss the response is stored under the request URL in the current bucket if and only if its status is 200 |
| Properties.MissThenHit | public/service-worker.js:70-90 | after a status-200 miss the same request is a hit returning that response, whatever the network then does |
| Properties.FetchKeepsOtherMatches | public/service-worker.js:70-90 | on well-formed storage a fetch changes what `caches.match` returns for no URL other than its own |
| Caches.MatchFrame | public/service-worker.js:70 | appending buckets to the creation order while every bucket answers the same for a URL leaves `caches.match` for it unchanged |
| Properties.PrecacheServedOffline | public/service-worker.js:25-34 | provided no precache URL of the origin contains `/api/`, after a successful install and an activation, each precache resource is served from the cache as fetched at install time |
| Properties.NewerBucketAnswersMiss | public/service-worker.js:70-76 | when a newer version's bucket follows the current one, a URL missing from the current bucket is served from the newer one whatever the network does |
| Properties.ServedFromOnlyBucket | public/service-worker.js:70-76 | a request held by exactly one bucket is answered with that bucket's entry |
| Properties.InstallSkipsOfflinePage | public/service-worker.js:6-19 | if the current bucket did not hold the offline page, install does not store it there, since its path is not in the precache list |
| Properties.OfflinePageNotPrecached | public/service-worker.js:6-19 | if no bucket held the offline page before install, `caches.match` for it still misses afterwards |
| Properties.OfflinePageMissingAfterFreshInstall | public/service-worker.js:92-98 | after a fresh install and activation, an HTML navigation to any non-API URL whose fetch fails gets `OfflinePage(None)`; if that URL is a precache URL, its failure failed the install too |
| Properties.ActivateLookup | public/service-worker.js:47-55 | after activation only the current bucket answers lookups, and it answers as before |
| Events.Dispatch | public/service-worker.js:22-159 | install and activate settle normally; push and click leave the state alone; only install can set skip-waiting; well-formed storage stays well formed |
| Events.RunKeepsValid | public/service-worker.js:22-111 | any sequence of events keeps the cache storage well formed |
| Events.RunSkipWaiting | public/service-worker.js:32 | skip-waiting, once set, stays set, and a run with no install event never changes it |
| Events.DispatchNoApiEntries | public/service-worker.js:67 | provided no precache URL of the origin contains `/api/`, no single event stores an entry for a URL containing `/api/` |
| Events.RunNoApiEntries | public/service-worker.js:66-90 | provided no precache URL of the origin contains `/api/`, a run that starts without API entries never stores one |
| Events.ApiHostPrecacheInsideApi | public/service-worker.js:9-19 | the origin condition above is needed: for origin `http://api` the precache URL `http://api/` contains `/api/`, and a successful fresh install there leaves an entry for a URL containing `/api/` |
| Events.RelativeTargetNeverFocuses | public/service-worker.js:149-153 | when every window URL is absolute, a target starting with `/` never focuses a window |
| Events.DefaultClickOpensWindow | public/service-worker.js:133-156 | a click on the default notification opens a window at `/` whenever the host can, because no absolute window URL equals `/` |
| Events.ClickReusesWindow | public/service-worker.js:149-153 | when a focusable window is open at the pushed URL, the click focuses such a window at or before it and opens none |

## Left out

- The `sync` listener and `syncData`: a placeholder that always resolves.
- `clients.claim`, `notification.close`, response cloning and `console` logging: host effects with no bearing on the cache state or the outcome.
- Promise timing, `waitUntil` and `respondWith` lifetimes, and concurrent events: each handler runs to completion as one step. The cache write after a network hit is fire-and-forget in the code; the model performs it at once.
- Notification cosmetics (`icon`, `badge`, `vibrate`).
- Push payloads that are not JSON objects, and fields that are not strings: `event.data.json()` errors are not handled by the code, and only string fields are modelled.
- Request matching is by absolute URL string. The Cache API's handling of fragments, `Vary` headers and query options is not modelled, and precache paths are resolved by concatenation onto the origin.
- HTTP method normalisation by the host: the method is compared as given.
- The host is fixed for a whole run of events: the network (a function from URL to outcome), the open windows and whether `clients.openWindow` exists cannot change between events.
- `Events.Run` does not enforce the lifecycle order the browser imposes (install, then activate once its `waitUntil` settles, and only then fetch events for the active worker). It accepts events in any order, so some runs it admits cannot happen in a browser.
- Cache storage never fails in the model. A full quota or unavailable storage makes `cache.addAll` reject, which the install's `.catch` swallows (no entries, no `skipWaiting`), and makes the fire-and-forget `cache.put` reject (nothing stored). In the model `OnInstall`'s success and `OnFetch`'s store depend on the network alone.
- `Vary` headers: `Response` carries no `Vary` header, so the rejections it causes are not modelled. A `Vary: *` answer to a precache URL makes `cache.addAll` reject, and one at status 200 makes the fetch handler's `cache.put` reject so nothing is stored; the model stores it. `cache.addAll` refusing non-GET requests cannot arise, since the precache requests are GETs.
