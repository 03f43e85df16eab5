# Flutter service worker cache lifecycle, in Dafny

This project models the cache-management core of the generated Flutter web
service worker `docs/flutter_service_worker.js`. The worker owns three named
caches: `TEMP` stages the application shell at install, `CACHE_NAME` holds the
content served to pages, and `MANIFEST` records the fingerprint table
(`RESOURCES`) of the last successful activation. The model covers these steps:

- the derivation of a table key from a request URL, both the fetch handler's
  (which cuts a `?v=` version query and folds the root aliases onto `/`) and
  the one activation and `downloadOffline` use (which cuts nothing);
- the routing of a fetch: not intercepted, online-first for `/`, cache-first
  for every other key in the table;
- the cache-first and online-first policies, as functions from the content
  cache and the network outcome to the reply and the new content cache;
- install, which stages every `CORE` file all or nothing;
- activation, with its cold-start branch, its upgrade branch (evict entries whose
  fingerprint changed or vanished, then promote `TEMP` and record the new table)
  and its catch block, which deletes all three caches;
- `downloadOffline`, which fetches every table key with no entry in the content
  cache, and the message handler that triggers it.

Modules:
- `Types` holds the values: URLs, responses, network outcomes, fingerprint tables and JavaScript truthiness.
- `UrlKeys` holds key derivation and URL resolution.
- `CacheApi` holds `Cache.addAll`.
- `FetchPolicy` holds routing and the two response policies.
- `Lifecycle` holds what install, activate and `downloadOffline` do to the caches, as functions, with the lemmas that relate several events.
- `ServiceWorker` holds the class `Worker`. Its three cache fields are updated in place by the handlers' loops. Each handler is proved to reach the state the corresponding `Lifecycle` or `FetchPolicy` function gives.

The `RESOURCES` table and the `CORE` list are parameters (`resources`,
`resourceKeys` for the table's key order, `core`). So are the worker's origin
and the network. The network is a function from request URL to outcome, or
the single outcome of the one fetch a request makes. Whether a host storage
call rejects during activation is the parameter `hostFault`.

`downloadOffline` reads an `origin` it does not declare. In a worker's global
scope that name is the global `self.origin` property, the same string as
`self.location.origin` that the other handlers use. So the model passes the
origin explicitly and does not treat the name as a defect.

## Model

| member | source | states |
|---|---|---|
| `UrlKeys.Substring` | docs/flutter_service_worker.js:152 | `substring(n)` keeps the characters from index n, and is empty when n is past the end |
| `UrlKeys.IndexOfMarker` | docs/flutter_service_worker.js:154 | `indexOf('?v=')` returns -1 exactly when there is no marker; otherwise it returns the first index where one starts |
| `UrlKeys.CutVersion` | docs/flutter_service_worker.js:154-156 | the cut key is a prefix of the key with no `?v=` in it; it is the whole key when there is no marker, and ends exactly at the first marker otherwise |
| `UrlKeys.FetchKey` | docs/flutter_service_worker.js:151-159 | the fetch key is never empty and never holds `?v=`; it is `/` or a prefix of the URL after the origin and slash; the bare origin and any `origin/#...` give `/` |
| `UrlKeys.ActivationKey` | docs/flutter_service_worker.js:113-116 | the activation key is never empty, and is the whole remainder after the origin whenever that remainder is not empty |
| `UrlKeys.Resolve` | docs/flutter_service_worker.js:81 | a relative path resolved against the worker yields a URL under `origin/` |
| `UrlKeys.ResolveAll` | docs/flutter_service_worker.js:81 | `CORE.map(value => new Request(value))` resolves each path in order |
| `UrlKeys.ActivationKeyOfResolved` | docs/flutter_service_worker.js:113-116 | for `/` or any non-empty path not starting with `/`, the activation key of the resolved URL is the path itself |
| `UrlKeys.FetchKeyOfResolved` | docs/flutter_service_worker.js:151-159 | the fetch key of a resolved table path is the path itself when it holds no `?v=` and does not start with `#` |
| `UrlKeys.FirstMarkerAtEnd` | docs/flutter_service_worker.js:154-156 | cutting `path?v=...` at the first marker gives back `path` when `path` has no marker |
| `UrlKeys.FragmentPrefix` | docs/flutter_service_worker.js:157 | `origin/rest` starts with `origin/#` exactly when `rest` starts with `#` |
| `UrlKeys.FetchKeyOfTail` | docs/flutter_service_worker.js:151-159 | the fetch key of `origin/rest` is `/` when `rest` starts with `#` or is cut to nothing, and otherwise `rest` cut at its first `?v=` |
| `UrlKeys.VersionQueryIgnored` | docs/flutter_service_worker.js:151-159 | `asset.js?v=123` and `asset.js` give the same fetch key, which is the path itself unless the path is empty or starts with `#` |
| `UrlKeys.RootAliases` | docs/flutter_service_worker.js:157-159 | the bare origin, `origin/`, `origin/#fragment` and `origin/?v=...` all give the key `/` |
| `UrlKeys.VersionedKeysDiverge` | docs/flutter_service_worker.js:152-156 | on `origin/path?v=x`, the fetch key is `path` but the activation key (line 113) is `path?v=x` |
| `CacheApi.AddAll` | docs/flutter_service_worker.js:80-81 | `addAll` writes nothing unless every fetch resolves with an ok response; when it does, it writes exactly the requested URLs with their fetched responses |
| `FetchPolicy.RouteOf` | docs/flutter_service_worker.js:147-168 | a request is not intercepted exactly when it is not a GET or its fetch key has no truthy fingerprint; it goes online-first exactly when it is a GET whose key is `/` with a truthy fingerprint |
| `FetchPolicy.CacheFirstReply` | docs/flutter_service_worker.js:169-182 | a hit returns the cached response and changes nothing; a miss returns the network response and stores it only when it is ok; a network failure on a miss is the rejection; no existing entry is ever replaced or dropped |
| `FetchPolicy.OnlineFirstReply` | docs/flutter_service_worker.js:218-236 | a network response is stored whatever its status and then returned; on network failure the cache is unchanged and the reply is the cached copy or the original error; any response returned is the one now cached |
| `FetchPolicy.HandleFetch` | docs/flutter_service_worker.js:147-183 | the handler answers exactly the routed requests; a request it does not answer changes nothing; only the request's own URL can be added or replaced |
| `FetchPolicy.CacheFirstRepeatIsHit` | docs/flutter_service_worker.js:171-179 | once cache-first holds an entry for a URL, a repeat request gets the same reply from the cache whatever the network does |
| `FetchPolicy.OnlineFirstOfflineFallback` | docs/flutter_service_worker.js:220-233 | after one successful online-first fetch, a later fetch whose network fails returns that response |
| `FetchPolicy.EntryDocumentOnlineFirst` | docs/flutter_service_worker.js:157-168 | the bare origin, `origin/`, `origin/#...` and `origin/?v=...` are routed online-first whenever `/` has a fingerprint |
| `Lifecycle.ParseManifest` | docs/flutter_service_worker.js:110 | `manifest.json()` succeeds exactly on a serialised table, and gives back the table that was serialised |
| `Lifecycle.Survivors` | docs/flutter_service_worker.js:112-123 | an entry survives eviction, unchanged, exactly when its activation key has a truthy fingerprint equal to the previous manifest's |
| `Lifecycle.Activated` | docs/flutter_service_worker.js:88-144 | failure leaves all three caches empty. Success always empties `TEMP`, replaces the manifest record with the new table, and leaves every staged file in the content cache with its staged response. A cold start leaves exactly the staged files. An upgrade keeps an earlier, non-staged entry unchanged exactly when its key is retained. Nothing else enters |
| `Lifecycle.DerivedKeys` | docs/flutter_service_worker.js:202-208 | `currentContent` holds the activation key of every cached URL and nothing else |
| `Lifecycle.Missing` | docs/flutter_service_worker.js:209-213 | a table key is requested exactly when it is absent from `currentContent`; the list is at most as long as the table |
| `Lifecycle.ReactivationIsStable` | docs/flutter_service_worker.js:110-132 | a second activation with the same table evicts exactly the entries whose key has no truthy fingerprint, and changes nothing at all when every staged file has one |
| `Lifecycle.VersionedEntryEvicted` | docs/flutter_service_worker.js:112-123 | an entry stored under `origin/path?v=x` is evicted by an upgrade whenever `path?v=x` itself has no fingerprint, though its fetch key is `path` |
| `Lifecycle.UpgradeExample` | docs/flutter_service_worker.js:110-132 | previous manifest {a: h1, b: h2}, new table {a: h1, c: h3}, cache holding a and b: afterwards only a remains, with its old body |
| `Lifecycle.ColdStartHoldsShellOnly` | docs/flutter_service_worker.js:96-108 | install then a cold activation leaves exactly the resolved `CORE` URLs in the content cache, with their install-time responses, and records the table |
| `Lifecycle.DownloadOfflineCompletes` | docs/flutter_service_worker.js:198-215 | when every table URL can be fetched, `downloadOffline` succeeds; afterwards every table key is among the cache's derived keys, so a second call requests nothing |
| `ServiceWorker.Dispatch` | docs/flutter_service_worker.js:184-195 | `'skipWaiting'` and `'downloadOffline'`, compared strictly, select their actions; every other message is ignored |
| `ServiceWorker.Worker.Install` | docs/flutter_service_worker.js:76-84 | install stages the whole `addAll` batch into `TEMP`, or nothing when the batch rejects |
| `ServiceWorker.Worker.Activate` | docs/flutter_service_worker.js:88-144 | the handler ends in the state `Activated` gives, and reports failure exactly when `ActivationFails` |
| `ServiceWorker.Worker.Reconcile` | docs/flutter_service_worker.js:90-135 | the try block fails only on an unparsable manifest record; otherwise it reaches the successful `Activated` state |
| `ServiceWorker.Worker.EvictStale` | docs/flutter_service_worker.js:112-123 | the deletion loop leaves exactly `Survivors` of the content cache |
| `ServiceWorker.Worker.PromoteTemp` | docs/flutter_service_worker.js:126-129 | the copy loop (also lines 99-102) adds every `TEMP` entry to the content cache, overwriting |
| `ServiceWorker.Worker.MissingKeys` | docs/flutter_service_worker.js:199-213 | the two loops compute exactly `Missing` of the table keys against the derived keys of the content cache |
| `ServiceWorker.Worker.DownloadOffline` | docs/flutter_service_worker.js:198-215 | the content cache gains the `addAll` batch of the missing keys, or nothing when the batch rejects |
| `ServiceWorker.Worker.OnMessage` | docs/flutter_service_worker.js:184-195 | only `'downloadOffline'` changes the content cache, and then exactly as `DownloadOffline` does |
| `ServiceWorker.Worker.OnFetch` | docs/flutter_service_worker.js:147-183 | the fetch handler on the worker's content cache replies and updates the cache as `HandleFetch` gives |

## Left out

- Browser I/O is not modelled: `fetch`, `Request` and `Response` objects, `response.clone()` and the `{'cache': 'reload'}` option. A response is a value with an `ok` flag and a body, and the network is a parameter.
- Promises, `event.waitUntil` and `event.respondWith` are not modelled, and neither is the interleaving of concurrent handlers. Each handler runs as one sequential step. In particular, the un-awaited `cache.put` of cache-first and the un-awaited `downloadOffline()` of the message handler complete before the handler returns.
- `self.skipWaiting()`, `self.clients.claim()` and `console.error` are not modelled. They change the host's lifecycle or log; they touch no cache.
- `JSON.stringify` and `manifest.json()` are not modelled as text. A stored manifest is either a serialised table or a body that does not parse; a body that does not parse sends activation to its catch block.
- The literal `RESOURCES` table and `CORE` list (lines 6-73) are build output. They are parameters here.
- `Worker.Activate`: a rejected host storage call is the flag `hostFault`, not a position in the try block. The catch block deletes all three caches whatever had been done, so the final state does not depend on that position.
- `Worker.Activate`: the deletions in the catch block are taken to succeed. A rejection there would end the handler with some caches still present.
- JavaScript property lookup on `RESOURCES`, `oldManifest` and `currentContent` is modelled as own keys only. A key such as `constructor` would find an inherited property in JavaScript.
- URL resolution assumes the worker is served from the root of its origin. Paths are joined with one `/`; `./`, `../` and percent-encoding are not normalised.
- Cache matching is by exact URL string. `Vary` headers and request options are not modelled.
- `CacheApi.AddAll`: a batch that names the same URL twice is accepted. The Cache API rejects such a batch.
- A deleted cache is modelled as an empty one. `caches.open` recreates a deleted cache empty, and the worker never asks whether a cache exists.
