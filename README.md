# Service worker of a SvelteKit app, modelled in Dafny

This project models the service worker in `src/service-worker.ts`. The worker
precaches the app at install time and keeps one cache generation per build
version. On activation it deletes every cache whose name is not the current
generation's, whether older, newer or belonging to other code. It serves GET
requests stale-while-revalidate.

The model has five modules:

- `Manifest` (`manifest.dfy`, pure) builds the precache list `toCache`. It
  filters the static files with the icon-exclusion pattern. It prefixes the
  kept static files, the bundler output and the hard-coded routes with the
  worker's origin, then appends the three cross-origin assets. It also gives
  the set image `staticAssets` and the cache name `"cache" + version`. The
  pattern `/\/icons\/(apple.*?|original.png)/` is written out as a substring
  predicate. It is unanchored. Its unescaped `.` matches any single UTF-16
  code unit except a line terminator, so a character outside the Basic
  Multilingual Plane at that position does not match.
- `Interceptor` (`interceptor.dfy`, pure) is the fetch listener's
  eligibility test. It works on a request record whose URL is already parsed
  into protocol, hostname, port and href.
- `CacheStorage` (`cache_storage.dfy`, pure) models the browser's
  CacheStorage as a map from cache name to a map from URL to an opaque
  response token. A token carries its HTTP status and an opaque body. The functions give
  the state after `open`, `addAll`, the activation pruning and one
  revalidation.
- `ServiceWorker` (`service_worker.dfy`, imperative) holds the class
  `Worker`. Its fields are the cache storage, the skip-waiting and
  clients-claimed flags, and a log of every URL the worker fetched. The
  install, activate and fetch handlers are methods that change those fields,
  each in one step. Network answers are parameters: a map from URL to
  response for install, where a URL that is missing fails, and an
  `Option<Response>` for one request.
- `Scenarios` (`scenarios.dfy`) holds end-to-end scenarios proved from the
  handlers' contracts alone: install followed by a stale hit, install into
  empty storage, a ranged request, and activation with two generations
  present.

Three behaviours of the code are easy to miss:

- `toCache` keeps duplicates and only `staticAssets` is a set
  (`Manifest.ToCacheMayRepeat`).
- Only `files` is filtered, so an excluded path also listed in `build` is
  still precached (`Manifest.BuildNeverFiltered`).
- The pattern also matches `/icons/original_png` (`Manifest.UnescapedDotQuirk`)
  and any path containing `/icons/apple` (`Manifest.AppleIconsExcluded`).

## Model

| member | source | states |
|---|---|---|
| `Manifest.CacheName` | src/service-worker.ts:6 | the cache name is `cache` followed by exactly the version string |
| `Manifest.CacheNameInjective` | src/service-worker.ts:6 | two versions with the same cache name are the same version |
| `Manifest.AppleIconsExcluded` | src/service-worker.ts:30 | any static path containing `/icons/apple` anywhere is excluded |
| `Manifest.OriginalAnyCharExcluded` | src/service-worker.ts:30 | `/icons/original`, one single-code-unit character that is not a line terminator, then `png` is excluded |
| `Manifest.DotNeedsOneCodeUnit` | src/service-worker.ts:30 | for every character the `.` cannot match (outside the Basic Multilingual Plane, or a line terminator), `/icons/original` + that character + `png` is kept |
| `Manifest.DotRefusals` | src/service-worker.ts:30 | `/icons/original😀png` is kept, and so is the path with any of the four line terminators in that place |
| `Manifest.UnescapedDotQuirk` | src/service-worker.ts:30 | `/icons/original.png` and `/icons/original_png` are both excluded |
| `Manifest.ShortPathsKept` | src/service-worker.ts:30 | a path shorter than 12 characters is never excluded |
| `Manifest.ExcludedOnlyUnderIcons` | src/service-worker.ts:30 | every excluded path contains `/icons/` |
| `Manifest.KeptFiles` | src/service-worker.ts:30 | the filter is no longer than its input and keeps a path exactly when it is listed and not excluded |
| `Manifest.KeptFilesCount` | src/service-worker.ts:30 | the filter keeps each non-excluded path as often as it was listed and drops every copy of an excluded one |
| `Manifest.AddDomain` | src/service-worker.ts:22-23 | same length as the input; entry i is the origin followed by path i |
| `Manifest.AddDomainAppend` | src/service-worker.ts:29-33 | prefixing the spread lists equals prefixing each list and concatenating |
| `Manifest.AddDomainMembership` | src/service-worker.ts:22-23 | origin+p is in the prefixed list exactly when p is in the input list |
| `Manifest.OurAssets` | src/service-worker.ts:29-33 | one URL per kept file, build entry and route, in that order; entry i is the origin followed by path i of the spread list |
| `Manifest.ToCache` | src/service-worker.ts:35 | the layout of `toCache`: prefixed kept files, then prefixed build entries, then prefixed routes, then the three custom assets unchanged |
| `Manifest.StaticAssets` | src/service-worker.ts:36 | a URL is a static asset exactly when it occurs in `toCache`; the set is no larger than the list |
| `Manifest.StaticAssetsCollapse` | src/service-worker.ts:35-36 | the set has as many elements as `toCache` exactly when `toCache` has no duplicates |
| `Manifest.ToCacheMayRepeat` | src/service-worker.ts:35 | a static file `/settings` appears twice in `toCache` and once in `staticAssets` |
| `Manifest.FilesContribution` | src/service-worker.ts:29-30 | origin+p comes from the static files exactly when p is listed there and not excluded |
| `Manifest.BuildNeverFiltered` | src/service-worker.ts:29-33 | every build entry, prefixed, is a static asset, whatever its path |
| `Manifest.ExcludedFileAbsent` | src/service-worker.ts:29-36 | an excluded static file is not a static asset unless a build entry, a route or a custom asset gives the same URL |
| `Manifest.StaticAssetsMembership` | src/service-worker.ts:29-36 | a URL is a static asset exactly when one of the four sources contributes it |
| `Interceptor.ShouldHandle` | src/service-worker.ts:97-120 | a request is handled exactly when it is a GET without a range header, has an http scheme, is not a dev-server request, and is not `only-if-cached` outside the static assets |
| `Interceptor.StaticAssetsOnlyMatterForOnlyIfCached` | src/service-worker.ts:108-110 | outside `only-if-cached` mode the decision does not depend on the static assets |
| `Interceptor.MoreStaticAssetsHandleMore` | src/service-worker.ts:108-110 | adding static assets never turns a handled request into an unhandled one |
| `Interceptor.OnlyIfCachedStaticAssetHandled` | src/service-worker.ts:108-118 | an `only-if-cached` GET for a static asset on another host is still handled |
| `Interceptor.SchemeTest` | src/service-worker.ts:104-105 | `http:` and `https:` pass the scheme test; `data:` and `blob:` fail it |
| `CacheStorage.Open` | src/service-worker.ts:79 | opening adds the named cache, empty if it was missing, and leaves every existing cache as it was |
| `CacheStorage.Match` | src/service-worker.ts:82 | a lookup finds an entry exactly when the URL is in the cache, and returns that entry |
| `CacheStorage.AddAll` | src/service-worker.ts:45 | succeeds exactly when every URL is answered with a 2xx response other than 206; on success stores each response under its URL and keeps the other entries |
| `CacheStorage.Installed` | src/service-worker.ts:41-46 | after install the current cache exists; when all fetches succeeded it holds every precached URL with its answer, gains no other key and keeps its earlier entries; otherwise the storage is as after opening the cache; other caches are untouched |
| `CacheStorage.InstallIdempotent` | src/service-worker.ts:41-46 | installing again with the same network answers leaves the storage unchanged |
| `CacheStorage.Pruned` | src/service-worker.ts:60-66 | only the current cache name can remain, with unchanged contents, and every other name is gone |
| `CacheStorage.ActivationRemovesOtherVersions` | src/service-worker.ts:6 | after version v2 activates, no cache named for a different version v1 remains |
| `CacheStorage.Revalidated` | src/service-worker.ts:85-86 | a network response overwrites exactly the entry for its URL, whatever its status; a failed fetch changes nothing; other entries are unchanged |
| `CacheStorage.Delivered` | src/service-worker.ts:91 | the page gets the cached entry if there was one, else the network response, and a network error only when both are missing |
| `CacheStorage.RevalidationRefreshesNextMatch` | src/service-worker.ts:85-86 | after a successful revalidation the next lookup of that URL finds the network response |
| `ServiceWorker.Worker.constructor` | src/service-worker.ts:5-36 | the worker starts with the cache name, `toCache` and `staticAssets` of its build data and with the existing caches; neither flag is set |
| `ServiceWorker.Worker.Install` | src/service-worker.ts:38-51 | succeeds exactly when every `toCache` URL is answered with a 2xx response other than 206; storage becomes `Installed`; skip-waiting is set only on success; every `toCache` URL is fetched |
| `ServiceWorker.Worker.Activate` | src/service-worker.ts:53-70 | clients are claimed and storage becomes `Pruned`: only the current cache can remain |
| `ServiceWorker.Worker.StaleWhileRevalidate` | src/service-worker.ts:77-95 | opens the current cache; the reply is `Delivered` from the lookup and the network outcome; the cache becomes `Revalidated`; the URL is fetched once on both hit and miss |
| `ServiceWorker.Worker.OnFetch` | src/service-worker.ts:97-121 | a request is passed through exactly when `ShouldHandle` is false, and then no cache or fetch log changes; otherwise it behaves as `StaleWhileRevalidate` on the request's href |

## Left out

- `console.log` calls are diagnostics only and are not modelled.
- URL parsing by `new URL` (line 102) is not modelled. The request carries protocol, hostname, port and href already parsed.
- The regular-expression engine is not modelled. Line 30's pattern is stated as a substring predicate (`Manifest.IconExcluded`).
- Promise scheduling, `waitUntil` and `respondWith` are not modelled. Each handler is one atomic step, so the race between two concurrent `put`s for one URL (last write wins) is not represented.
- `ServiceWorker.Worker.Activate`: the source does not await the `caches.delete` calls (the `map` callback returns nothing). The model performs the deletions inside the step and says nothing about when they finish.
- Cache request matching (Vary, `ignoreSearch`, method) and response cloning are not modelled. Entries are keyed by the URL string and responses are opaque tokens.
- `CacheStorage.AddAll`: the browser's rejection of a request list with duplicate URLs is not modelled. Duplicates are stored once, with their one network answer.
- `CacheStorage.Revalidated`: the browser's rejection of a `put` with status 206 is not modelled. The source puts every response without a status check, and ranged requests never reach it.
- `fetch` is not modelled. Its results are inputs to the handlers.
- `clients.claim()` and `skipWaiting()` are recorded only as flags. Their effect on which worker controls the pages is not modelled.
- The `$service-worker` module (`build`, `files`) and `__KIT_VERSION__` come from the build. They are constructor parameters, as are the worker's location and the caches left by earlier versions.
