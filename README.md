# Offline caching and location state of the St Theresa campus navigator

This project models, in Dafny, the two stateful pieces of the campus navigation web app:

- **The service worker (`sw.js`).** It works on the browser's cache storage, a list of named caches in creation order, each mapping request URLs to stored responses.
  - On *install* it opens `st-theresa-nav-v1` and `addAll`s a fixed shell of seven URLs.
  - On *activate* it deletes every cache whose name is not `st-theresa-nav-v1`.
  - On *fetch* it routes by a substring test on the hostname. Map-tile hosts (`basemaps.cartocdn.com`, `tile.openstreetmap.org`) go to `map-tiles-cache` with stale-while-revalidate. Everything else goes cache-first through `caches.match`, which searches every cache.
- **The location and view state of `App.tsx`.** This covers the loading splash, the location prompt, the last known position, the geolocation watches, the current view and the admin flag. Each React callback is one atomic transition.

Files:

- `wrappers.dfy`: the `Option` type.
- `cache_api.dfy` (module `CacheApi`): the cache-storage primitives the worker calls, modelled as functions on a `Store` value. These are `caches.open`, `caches.match`, `caches.delete`, `cache.put` and `cache.addAll`, following sections 5.4 and 5.5 of the W3C Service Workers specification.
- `service_worker.dfy` (module `ServiceWorker`): the constants and the shell manifest. It defines one specification function per handler (`Installed`, `Activated`, `TileResponse`, `TileRefreshed`, `DefaultResponse`) and the lemmas about them. It also has the class `CacheStorage`, whose methods are the handlers acting on the storage in place. Each method is proved equal to its specification function.
- `app.dfy` (module `App`): `UiState`, the callback `Event`s, and `Apply`, which gives the effect of one callback. `Enabled` says when the browser can deliver an event. `Run` and `Feasible` cover sequences of events, and `Render` gives what is on screen. The class `AppState` has the component's fields, and each callback is a method proved to perform `Apply`.

Modelling choices:

- The network is an oracle. `network: Url -> Option<Response>` gives the install fetches, and `net: Option<Response>` gives the outcome of the single fetch a request issues. `None` is a rejected fetch; an HTTP error status is still `Some`.
- The tile path is split into two steps. `TileRespond` answers the request and returns the `Handle` of the Cache object it opened. `TileRefresh` is the later `put` on that object.
- Every cache `caches.open` creates gets the next number of the storage's `created` counter, kept in `ids`. A `Handle` is a name with such a number. A `put` through a handle whose cache has been deleted goes to a detached object and changes nothing visible, even when a new cache of the same name has been created since.
- URLs are kept parsed: scheme, hostname, port, path and query. The three root-relative shell entries are resolved against the worker's `Origin`.
- `cache.addAll` accepts only responses with an ok status (200 to 299) other than 206, and fails as a whole otherwise. `cache.put` refuses a 206 response. Both rules come from the W3C Service Workers specification, sections 5.4.4 and 5.4.5.
- The browser environment is given as inputs. Whether `navigator.geolocation` exists is the constant `geolocation`. The admin flag read from session storage is `storedAdmin`, and `window.confirm`'s answer to the logout question is a Boolean.
- Watch ids are the index of the watch in `watches`.

Behaviour a reader might not expect; the model follows the code:

- Activation deletes `map-tiles-cache` as well, because its name is not the current cache name (sw.js:28).
- The default path searches every cache, not only the current generation. This includes the tile cache and any old generation that has not been deleted yet (sw.js:60).
- A watch error does not clear the watch, so later successes still update the position (App.tsx:43, 52-56). There is no fail-stop state.
- A denied permission only ends loading: it shows no prompt and sets no error state (App.tsx:78-79).
- Accepting the prompt does not hide it. Only a watch callback does, or declining (App.tsx:44-56, 141-142).
- The view `full_map` renders no page at all (App.tsx:168-220).

## Model

| member | source | states |
|---|---|---|
| `CacheApi.AddFresh` | sw.js:16 | A cache created under a new name, with the next object number, keeps the storage well formed. |
| `CacheApi.Opened` | sw.js:45 | The object `caches.open` resolves to is the current one for that name afterwards. It is the existing object when the name exists, and otherwise a number no existing cache has. |
| `CacheApi.Match` | sw.js:60 | `caches.match` answers an entry of some listed cache that holds the URL, and answers nothing only when no listed cache holds it. |
| `CacheApi.Put` | sw.js:48 | `cache.put` through a current object accepting the response replaces that URL's entry in that cache. Otherwise, including through a deleted object, the storage is unchanged. It never changes the names, the object numbers or any other cache. |
| `CacheApi.Delete` | sw.js:29 | `caches.delete` reports whether the cache existed and removes exactly that name from the caches and object numbers. |
| `CacheApi.AddAll` | sw.js:17 | `cache.addAll` changes no name and no object number. On failure it changes nothing. |
| `CacheApi.Open` | sw.js:16 | `caches.open` yields a well-formed storage that holds the named cache. All existing caches are kept unchanged and the name order is kept as a prefix. A new cache starts empty. |
| `CacheApi.MatchAll` | sw.js:60 | `caches.match` finds an entry exactly when some cache holds the URL. The answer comes from the first such cache in creation order. |
| `CacheApi.FetchAll` | sw.js:17 | The batch `addAll` stores exists exactly when every fetch is accepted. Its keys are then exactly the listed URLs, each mapped to its fetched response. |
| `CacheApi.AddAllAtomic` | sw.js:17 | `addAll` is all-or-nothing. On success each URL maps to its fetched response and other entries are kept. On failure the storage is unchanged. No other cache is touched. |
| `CacheApi.RetainMembers` | sw.js:28 | Keeping the names equal to the current one keeps exactly the members equal to it. |
| `CacheApi.WithoutMembers` | sw.js:29 | Deleting a name leaves exactly the other names. |
| `CacheApi.RetainDistinct` | sw.js:25-31 | Over a list of distinct names, the sweep keeps `[CACHE_NAME]` if it was present and nothing otherwise. |
| `CacheApi.RetainIdempotent` | sw.js:25-31 | Sweeping an already swept list changes nothing. |
| `CacheApi.SweepKeeps` | sw.js:27-28 | When the next listed name is the current one, the sweep keeps it, and the swept prefix grows by that name. |
| `CacheApi.DistinctNotInSuffix` | sw.js:25 | A name that `caches.keys()` lists is not listed again later. |
| `CacheApi.SweepDeletes` | sw.js:27-29 | When the next listed name is not the current one, deleting it (it is not listed again) leaves the swept prefix followed by the remaining names. |
| `CacheApi.DeleteKeepsOthers` | sw.js:29 | `caches.delete` removes that cache, keeps the storage well formed and leaves every other cache and its object number as it was. |
| `ServiceWorker.AssetsToCache` | sw.js:3-11 | The shell has seven URLs. The first three are on the worker's own origin, with distinct paths. The other four are `https` URLs with the default port. |
| `ServiceWorker.Includes` | sw.js:43 | `String.includes` holds for the empty needle and never for a needle longer than the haystack. |
| `ServiceWorker.IsTileRequest` | sw.js:43 | A hostname shorter than `basemaps.cartocdn.com` never takes the tile path. |
| `ServiceWorker.Installed` | sw.js:14-20 | Install leaves a well-formed storage that holds `st-theresa-nav-v1`. On success it holds every shell URL. |
| `ServiceWorker.Activated` | sw.js:23-35 | Activation keeps at most `st-theresa-nav-v1`, as the same object with the same contents. |
| `ServiceWorker.TileResponse` | sw.js:45-51 | The tile respond step answers either the network's outcome or the cached tile for that URL. |
| `ServiceWorker.TileRefreshed` | sw.js:47-49 | The refresh changes no name, no object number and no cache other than the handle's. |
| `ServiceWorker.DefaultResponse` | sw.js:59-63 | The default path answers the network's outcome or the entry `caches.match` found. |
| `ServiceWorker.IncludesIffOccurs` | sw.js:43 | The model of `String.includes` is true exactly when the needle occurs at some position. |
| `ServiceWorker.TileRouteIffHostname` | sw.js:43 | A request takes the tile path iff one of the two provider names occurs in its hostname. Scheme, port, path and query do not affect the route. |
| `ServiceWorker.TileRouteExamples` | sw.js:43 | A provider subdomain and a look-alike host that contains a provider name both take the tile path. The shell's CDN host does not. |
| `ServiceWorker.InstallAllOrNothing` | sw.js:2-20 | Install succeeds iff every one of the seven shell fetches is accepted, and then stores each asset's fetched response. On failure `st-theresa-nav-v1` exists with only its earlier contents. No other cache changes. |
| `ServiceWorker.ActivateLeavesOnlyCurrent` | sw.js:23-35 | After activation only `st-theresa-nav-v1` can remain, with unchanged contents. `map-tiles-cache` is gone. |
| `ServiceWorker.ActivateIdempotent` | sw.js:25-31 | A second activation deletes nothing. |
| `ServiceWorker.TileHitIgnoresNetwork` | sw.js:45-51 | On a tile-cache hit the answer is the cached entry, whatever the network returns. |
| `ServiceWorker.TileMissReturnsNetwork` | sw.js:46-51 | On a tile-cache miss the caller gets the network's outcome, a failure included. |
| `ServiceWorker.TileRefreshReplacesOneEntry` | sw.js:47-49 | While the tile cache is still the object the respond step opened, a refresh with any status `put` accepts replaces exactly the tile entry for that URL. Every other entry and cache, and the name list, are unchanged. |
| `ServiceWorker.DetachedRefreshLost` | sw.js:23-49 | If activation deletes the tile cache between the respond step and its refresh, and a later request opens a new `map-tiles-cache`, the late refresh does not appear in the new cache. That cache stays empty and misses. |
| `ServiceWorker.TileRefreshFailureWritesNothing` | sw.js:47-50 | A failed refresh fetch writes nothing. |
| `ServiceWorker.StaleThenFresh` | sw.js:44-54 | With tile `e` cached and the network giving `e2`, the request is answered with `e`. After the refresh, the next request is answered with `e2`. |
| `ServiceWorker.DefaultSearchesEveryCache` | sw.js:59-63 | On the default path, an entry in any cache answers the request without the network, including the tile cache and old generations. |
| `ServiceWorker.DefaultMissReturnsNetwork` | sw.js:60-61 | When no cache holds the URL, the default path answers with the network's outcome. |
| `ServiceWorker.ShellServedOffline` | sw.js:14-63 | After a successful install, every shell asset is served by the default path even when every fetch fails. |
| `ServiceWorker.CacheStorage.Open` | sw.js:16 | Opening updates the storage in place, as `CacheApi.Open`. |
| `ServiceWorker.CacheStorage.Delete` | sw.js:29 | Deleting updates the storage in place, as `CacheApi.Delete`, and reports whether the cache existed. |
| `ServiceWorker.CacheStorage.Install` | sw.js:14-20 | The install handler leaves the storage and result of `Installed`. |
| `ServiceWorker.CacheStorage.Activate` | sw.js:23-35 | The activate handler deletes each listed non-current name in turn. It ends in `Activated(old storage)`. |
| `ServiceWorker.CacheStorage.SweepNext` | sw.js:27-29 | One step of the activate sweep deletes the next listed name unless it is the current one. The caches left keep their original contents and object numbers. |
| `ServiceWorker.CacheStorage.TileRespond` | sw.js:43-53 | The respond step opens `map-tiles-cache`, answers `TileResponse` and returns the object it opened. |
| `ServiceWorker.CacheStorage.TileRefresh` | sw.js:47-50 | The refresh step puts into the object the respond step opened, leaving `TileRefreshed(old storage)`. |
| `ServiceWorker.CacheStorage.DefaultFetch` | sw.js:59-63 | The default path answers `DefaultResponse` and modifies nothing. It asks the network exactly when no cache holds the URL. |
| `ServiceWorker.CacheStorage.OnFetch` | sw.js:38-64 | Tile requests take the respond step and hand its object to the refresh. All other requests take the default path, which leaves the storage unchanged and schedules no refresh. |
| `App.Initial` | App.tsx:17-26 | The first state renders the splash, has no watch and no position, and takes the admin flag from session storage. |
| `App.StartTracking` | App.tsx:41-63 | `startLocationTracking` adds exactly one watch with geolocation and none without. It ends loading only without geolocation, and changes nothing else. |
| `App.Apply` | App.tsx:44-124 | Only a watch registration adds a watch, and no callback removes one. Only a watch success changes the position. Only the PIN and the logout change the admin flag. Once loading has ended, no callback restarts it. |
| `App.Enabled` | App.tsx:126-212 | While the splash shows, only the permission outcome and watch callbacks can arrive. |
| `App.Render` | App.tsx:126-220 | While loading, only the splash is rendered. Otherwise the prompt overlay shows exactly when `showLocationPrompt` is set. The admin panel renders exactly when `view == admin` and `isAdmin`. |
| `App.InitialShowsSplash` | App.tsx:17-21 | The first state is loading, has no prompt and no position, renders the splash and satisfies the invariant. |
| `App.PermissionOutcomes` | App.tsx:71-85 | `granted` starts tracking without touching the prompt. `prompt` ends loading and shows the prompt. Any other state only ends loading. Without the permissions API, the prompt shows and loading ends. |
| `App.PositionReplacesLocation` | App.tsx:44-50 | A watch success sets the position to exactly that sample's latitude and longitude. It also ends loading and hides the prompt. |
| `App.ErrorKeepsWatching` | App.tsx:43-58 | A watch error ends loading and hides the prompt, and keeps the position. The watch stays live, so a later success still updates the position. |
| `App.NoGeolocationOnlyEndsLoading` | App.tsx:61-62 | Without geolocation, starting to track only ends loading. No watch is registered and the prompt is untouched. |
| `App.PromptChoices` | App.tsx:139-143 | Declining only hides the prompt. Accepting registers a watch with the fixed options and leaves the prompt as it was. |
| `App.HeaderNavGatesAdmin` | App.tsx:118-124 | Header navigation to `admin` while not admin goes to `admin_login`. Any other target is taken as given. Nothing else changes. |
| `App.AdminPinGate` | App.tsx:102-108 | The PIN `8121` sets the admin flag and the admin view. Any other PIN changes nothing. |
| `App.LoadingNeverReturns` | App.tsx:41-85 | Once loading has ended, no sequence of events brings the splash back. |
| `App.ApplyKeepsInv` | App.tsx:41-124 | Every deliverable callback keeps the invariant: the admin view implies the admin flag, every watch uses `{enableHighAccuracy: true, timeout: 10000, maximumAge: 0}`, no watch exists without geolocation, and a position implies a watch. |
| `App.RunKeepsInv` | App.tsx:41-124 | Every feasible sequence of callbacks keeps that invariant. |
| `App.LocationIsLastFix` | App.tsx:44-50 | After any sequence of events the position is the last one delivered (last write wins), or the earlier position when none was delivered. |
| `App.ThreeFixesKeepTheLast` | App.tsx:44-50 | After three successive fixes, the position is the third fix's coordinates. |
| `App.NoWatchNoLocation` | App.tsx:41-143 | With no watch and the prompt hidden, no feasible run without a `granted` or `prompt` answer or a missing permissions API ever records a position, registers a watch or shows the prompt. Accepting cannot happen, because its button is only rendered with the prompt. |
| `App.DeniedNeverLocates` | App.tsx:78-80 | After a denied permission at startup, no feasible run without another `granted` or `prompt` answer records a position. |
| `App.DeclinedNeverLocates` | App.tsx:139-143 | Declining the prompt before any watch exists leaves the user unlocated in every feasible run that does not raise the prompt again. |
| `App.DeniedStartup` | App.tsx:78-80 | A denied permission at startup shows the home page without prompt, watch or position. |
| `App.AppState.StartLocationTracking` | App.tsx:41-63 | `startLocationTracking` performs `StartTracking`. It returns the new watch's id, or none without geolocation. |
| `App.AppState.OnPermissionState` | App.tsx:72-81 | The permissions-query callback performs the matching transition. |
| `App.AppState.OnPermissionsUnavailable` | App.tsx:82-85 | The no-permissions-API branch shows the prompt and ends loading. |
| `App.AppState.OnAccept` | App.tsx:141 | Accept calls `startLocationTracking`. |
| `App.AppState.OnDecline` | App.tsx:142 | Decline hides the prompt. |
| `App.AppState.OnPosition` | App.tsx:44-51 | The watch success callback performs its transition. |
| `App.AppState.OnPositionError` | App.tsx:52-56 | The watch error callback performs its transition. |
| `App.AppState.HandleHeaderNav` | App.tsx:118-124 | `handleHeaderNav` performs the gated view change. |
| `App.AppState.HandleAdminAuth` | App.tsx:102-108 | `handleAdminAuth` performs the PIN check. |
| `App.AppState.HandleLogout` | App.tsx:110-116 | On confirmation, logout clears the admin flag and goes home. Otherwise nothing changes. |
| `App.AppState.HandleStartNavigation` | App.tsx:97-100 | `handleStartNavigation` records the location when one is given and switches to the AR view. |
| `App.AppState.SetViewFromChild` | App.tsx:156-212 | The children's inline `setView` callbacks (admin button, AR close, hero start, explorer button, login cancel) set that view. |

## Left out

- JSX layout, the footer and all child components (Header, CampusMap, ARView, AdminPanel and the rest): presentational, or their source is not part of this model. `Render` keeps only the splash, the prompt overlay and which page shows.
- The online/offline listeners and `isOffline` (App.tsx:22, 66-69): browser event plumbing.
- localStorage and sessionStorage persistence, and the `JSON.parse` of the location catalogue (App.tsx:24-39, 93-95): foreign storage and parser calls. The stored admin flag is an input to `Initial`, and `setLocations` is not modelled.
- A rejected permissions query (App.tsx:72-81 has no handler for it): no transition is invented.
- Promise scheduling and interleaving: only the order "respond, then optional put" of the tile path is kept. Unhandled rejections of the background refresh are not modelled either.
- Latitude and longitude are copied as `real`s. No floating-point behaviour is modelled.
- URL parsing and resolution are not modelled (the `URL` constructor is a foreign call). Requests arrive parsed, and the shell's URLs are written out in parsed form.
- Request methods, `Vary` headers and duplicate-request rejection in `cache.addAll` are not modelled. Every cached request is a GET, and the shell's seven URLs are distinct for any origin other than the CDN hosts.
- constants.ts and types.ts: only the `CampusLocation` shape and the category values are used.
- Which events happen at all, and when: the startup effect's single run and the browser's delivery of watch callbacks are not modelled as a schedule. `Enabled` states only what a callback needs in order to be deliverable: a registered watch, or a rendered element.
