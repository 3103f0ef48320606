/** The service worker (sw.js): installs a fixed static shell into one versioned cache,
    removes every other cache on activation, and answers each fetch either from the
    map-tile cache (stale-while-revalidate) or cache-first over all caches. */
module ServiceWorker {
  import opened Wrappers
  import opened CacheApi

  const CACHE_NAME: CacheName := "st-theresa-nav-v1"
  const TILE_CACHE: CacheName := "map-tiles-cache"
  const CARTO_HOST := "basemaps.cartocdn.com"
  const OSM_HOST := "tile.openstreetmap.org"

  /** The worker's own origin, against which the root-relative assets are resolved. */
  datatype Origin = Origin(scheme: string, hostname: string, port: string)

  /** The static shell, in the order listed, each URL as the URL parser yields it. */
  function AssetsToCache(o: Origin): (r: seq<Url>)
    ensures |r| == 7
    ensures forall i :: 0 <= i < 3 ==> (r[i].scheme, r[i].hostname, r[i].port) == (o.scheme, o.hostname, o.port)
    ensures forall i :: 3 <= i < 7 ==> r[i].scheme == "https" && r[i].port == ""
    ensures forall i, j :: 0 <= i < j < 3 ==> r[i].path != r[j].path
  {
    [ Url(o.scheme, o.hostname, o.port, "/", ""),
      Url(o.scheme, o.hostname, o.port, "/index.html", ""),
      Url(o.scheme, o.hostname, o.port, "/manifest.json", ""),
      Url("https", "cdn.tailwindcss.com", "", "/", ""),
      Url("https", "cdnjs.cloudflare.com", "", "/ajax/libs/font-awesome/6.4.0/css/all.min.css", ""),
      Url("https", "unpkg.com", "", "/leaflet@1.9.4/dist/leaflet.css", ""),
      Url("https", "unpkg.com", "", "/leaflet@1.9.4/dist/leaflet.js", "") ]
  }

  /** JavaScript's `s.includes(t)`. */
  function Includes(s: string, t: string): (r: bool)
    ensures r ==> |t| <= |s|
    ensures t == [] ==> r
    decreases |s|
  {
    if |s| < |t| then false
    else if s[..|t|] == t then true
    else Includes(s[1..], t)
  }

  predicate OccursAt(s: string, t: string, i: int)
  {
    0 <= i <= |s| - |t| && s[i..i + |t|] == t
  }

  /** The routing test of the fetch handler: a substring test on the hostname only. */
  predicate IsTileRequest(u: Url)
    ensures IsTileRequest(u) ==> |u.hostname| >= |CARTO_HOST|
  {
    Includes(u.hostname, CARTO_HOST) || Includes(u.hostname, OSM_HOST)
  }

  // ---------------------------------------------------------------------------
  // The handlers' effects on the cache storage, as functions of the storage

  /** Install: open CACHE_NAME, then `addAll` the shell; the Boolean says whether the
      install step succeeded. */
  function Installed(s: Store, o: Origin, network: Url -> Option<Response>): (r: (Store, bool))
    requires WellFormed(s)
    ensures WellFormed(r.0) && CACHE_NAME in r.0.caches
    ensures r.1 ==> forall u :: u in AssetsToCache(o) ==> HasEntry(r.0.caches, CACHE_NAME, u)
  {
    AddAllAtomic(Open(s, CACHE_NAME), CACHE_NAME, AssetsToCache(o), network);
    AddAll(Open(s, CACHE_NAME), CACHE_NAME, AssetsToCache(o), network)
  }

  /** Activate: every listed cache whose name is not CACHE_NAME is deleted. */
  function Activated(s: Store): (r: Store)
    ensures r.caches.Keys == s.caches.Keys * {CACHE_NAME}
    ensures SubStore(r, s)
  {
    Store(Retain(s.names, CACHE_NAME),
          map n | n in s.caches && n == CACHE_NAME :: s.caches[n],
          map n | n in s.ids && n == CACHE_NAME :: s.ids[n],
          s.created)
  }

  /** Tile path, respond step: the cached tile if there is one, else what the fetch
      issued in the same step gives (a failed fetch propagates as None). */
  function TileResponse(s: Store, u: Url, net: Option<Response>): (r: Option<Response>)
    requires WellFormed(s)
    ensures r == net || (HasEntry(s.caches, TILE_CACHE, u) && r == Some(s.caches[TILE_CACHE][u]))
  {
    var tiles := Open(s, TILE_CACHE).caches[TILE_CACHE];
    if u in tiles then Some(tiles[u]) else net
  }

  /** Tile path, later refresh step: a network response is put into the tile cache
      object `h` the respond step opened, with no status check in the handler; a
      failed fetch writes nothing. */
  function TileRefreshed(s: Store, h: Handle, u: Url, net: Option<Response>): (t: Store)
    ensures t.names == s.names && t.ids == s.ids && t.created == s.created
    ensures t.caches.Keys == s.caches.Keys
    ensures forall n :: n in s.caches && n != h.name ==> t.caches[n] == s.caches[n]
  {
    if net.Some? then Put(s, h, u, net.value) else s
  }

  /** Default path: cache-first over all caches, the network on a miss. */
  function DefaultResponse(s: Store, u: Url, net: Option<Response>): (r: Option<Response>)
    ensures r == net || (r.Some? && r == Match(s, u))
  {
    var hit := Match(s, u);
    if hit.Some? then hit else net
  }

  // ---------------------------------------------------------------------------
  // Properties

  lemma {:induction false} IncludesIffOccurs(s: string, t: string)
    ensures Includes(s, t) <==> exists i :: OccursAt(s, t, i)
    decreases |s|
  {
    if |s| < |t| {
    } else if s[..|t|] == t {
      assert OccursAt(s, t, 0);
    } else {
      IncludesIffOccurs(s[1..], t);
      if Includes(s[1..], t) {
        var i :| OccursAt(s[1..], t, i);
        assert s[1..][i..i + |t|] == s[i + 1..i + 1 + |t|];
        assert OccursAt(s, t, i + 1);
      } else {
        forall i | 0 <= i <= |s| - |t| ensures !OccursAt(s, t, i) {
          if i > 0 {
            assert s[1..][i - 1..i - 1 + |t|] == s[i..i + |t|];
            assert !OccursAt(s[1..], t, i - 1);
          } else {
            assert s[..|t|] == s[0..|t|];
          }
        }
      }
    }
  }

  /** A request takes the tile path exactly when one of the two provider names occurs
      in its hostname; scheme, port, path and query play no part. */
  lemma TileRouteIffHostname(u: Url)
    ensures IsTileRequest(u) <==> (exists i :: OccursAt(u.hostname, CARTO_HOST, i)) || (exists i :: OccursAt(u.hostname, OSM_HOST, i))
    ensures forall scheme, port, path, query ::
      IsTileRequest(Url(scheme, u.hostname, port, path, query)) == IsTileRequest(u)
  {
    IncludesIffOccurs(u.hostname, CARTO_HOST);
    IncludesIffOccurs(u.hostname, OSM_HOST);
  }

  /** The substring test also routes subdomains and look-alike hosts that merely
      contain a provider name, and sends the shell's own CDN hosts down the default path. */
  lemma TileRouteExamples()
    ensures IsTileRequest(Url("https", "a.basemaps.cartocdn.com", "", "/light_all/3/4/5.png", ""))
    ensures IsTileRequest(Url("https", "tile.openstreetmap.org.example.net", "", "/", ""))
    ensures !IsTileRequest(Url("https", "unpkg.com", "", "/leaflet@1.9.4/dist/leaflet.js", ""))
  {
    var sub := "a.basemaps.cartocdn.com";
    assert OccursAt(sub, CARTO_HOST, 2);
    IncludesIffOccurs(sub, CARTO_HOST);
    var look := "tile.openstreetmap.org.example.net";
    assert OccursAt(look, OSM_HOST, 0);
    IncludesIffOccurs(look, OSM_HOST);
  }

  /** Install stores the whole shell or nothing: it succeeds exactly when every asset
      fetch is accepted, and then each asset maps to its fetched response; on failure
      CACHE_NAME exists but holds only what it held before. No other cache changes. */
  lemma InstallAllOrNothing(s: Store, o: Origin, network: Url -> Option<Response>)
    requires WellFormed(s)
    ensures var (t, ok) := Installed(s, o, network);
      && WellFormed(t) && CACHE_NAME in t.caches
      && t.caches.Keys == s.caches.Keys + {CACHE_NAME} && s.names <= t.names
      && (ok <==> forall u :: u in AssetsToCache(o) ==> FetchAccepted(network(u)))
      && (ok ==> forall u :: u in AssetsToCache(o) ==>
                   HasEntry(t.caches, CACHE_NAME, u) && Some(t.caches[CACHE_NAME][u]) == network(u))
      && (ok ==> forall u :: HasEntry(t.caches, CACHE_NAME, u) && u !in AssetsToCache(o) ==>
                   HasEntry(s.caches, CACHE_NAME, u) && t.caches[CACHE_NAME][u] == s.caches[CACHE_NAME][u])
      && (!ok ==> t.caches[CACHE_NAME] == if CACHE_NAME in s.caches then s.caches[CACHE_NAME] else map[])
      && (forall n :: n in s.caches && n != CACHE_NAME ==> n in t.caches && t.caches[n] == s.caches[n])
  {
    AddAllAtomic(Open(s, CACHE_NAME), CACHE_NAME, AssetsToCache(o), network);
  }

  lemma ActivateLeavesOnlyCurrent(s: Store)
    requires WellFormed(s)
    ensures WellFormed(Activated(s))
    ensures Activated(s).caches.Keys == s.caches.Keys * {CACHE_NAME}
    ensures Activated(s).names == if CACHE_NAME in s.caches then [CACHE_NAME] else []
    ensures CACHE_NAME in s.caches ==> Activated(s).caches[CACHE_NAME] == s.caches[CACHE_NAME]
    ensures TILE_CACHE !in Activated(s).caches
  {
    RetainDistinct(s.names, CACHE_NAME);
  }

  /** A second activation deletes nothing. */
  lemma ActivateIdempotent(s: Store)
    ensures Activated(Activated(s)) == Activated(s)
  {
    RetainIdempotent(s.names, CACHE_NAME);
  }

  /** Tile path with a hit: the cached tile is returned whatever the network does. */
  lemma TileHitIgnoresNetwork(s: Store, u: Url, net1: Option<Response>, net2: Option<Response>)
    requires WellFormed(s) && HasEntry(s.caches, TILE_CACHE, u)
    ensures TileResponse(s, u, net1) == TileResponse(s, u, net2) == Some(s.caches[TILE_CACHE][u])
  {
  }

  /** Tile path with a miss: the caller gets the network's answer, failure included. */
  lemma TileMissReturnsNetwork(s: Store, u: Url, net: Option<Response>)
    requires WellFormed(s) && !HasEntry(s.caches, TILE_CACHE, u)
    ensures TileResponse(s, u, net) == net
  {
  }

  /** While the tile cache is still the object the respond step opened, the refresh
      replaces exactly the entry for `u` in it, whatever the status (bar the 206 that
      `put` refuses); every other entry and cache is as before. */
  lemma TileRefreshReplacesOneEntry(s: Store, u: Url, r: Response)
    requires WellFormed(s) && TILE_CACHE in s.caches && PutAccepted(r)
    ensures var t := TileRefreshed(s, Opened(s, TILE_CACHE), u, Some(r));
      && WellFormed(t) && t.names == s.names && t.caches.Keys == s.caches.Keys
      && t.caches[TILE_CACHE][u] == r
      && (forall n, v :: HasEntry(s.caches, n, v) && (n, v) != (TILE_CACHE, u) ==>
            HasEntry(t.caches, n, v) && t.caches[n][v] == s.caches[n][v])
      && (forall n, v :: HasEntry(t.caches, n, v) ==> HasEntry(s.caches, n, v) || (n, v) == (TILE_CACHE, u))
  {
  }

  /** A failed refresh fetch leaves the storage as it was. */
  lemma TileRefreshFailureWritesNothing(s: Store, h: Handle, u: Url)
    ensures TileRefreshed(s, h, u, None) == s
  {
  }

  /** A refresh into a tile cache object that activation has since deleted is out of
      sight: even when a later request has opened a new, empty `map-tiles-cache`, the
      late response does not appear in it. */
  lemma DetachedRefreshLost(s: Store, u: Url, v: Url, r: Response)
    requires WellFormed(s)
    ensures WellFormed(Activated(Open(s, TILE_CACHE)))
    ensures var h := Opened(s, TILE_CACHE);
      var reopened := Open(Activated(Open(s, TILE_CACHE)), TILE_CACHE);
      && TileRefreshed(reopened, h, u, Some(r)) == reopened
      && reopened.caches[TILE_CACHE] == map[]
      && TileResponse(reopened, v, None) == None
  {
    var h := Opened(s, TILE_CACHE);
    var first := Open(s, TILE_CACHE);
    ActivateLeavesOnlyCurrent(first);
    var reopened := Open(Activated(first), TILE_CACHE);
    assert h.id < first.created;
    assert reopened.ids[TILE_CACHE] == first.created;
  }

  /** Stale-while-revalidate: with tile `e` cached, a request answers `e`; once the
      refresh with `e2` has been stored, the next request answers `e2`. */
  lemma StaleThenFresh(s: Store, u: Url, e: Response, e2: Response, later: Option<Response>)
    requires WellFormed(s) && HasEntry(s.caches, TILE_CACHE, u) && s.caches[TILE_CACHE][u] == e
    requires PutAccepted(e2)
    ensures TileResponse(s, u, Some(e2)) == Some(e)
    ensures var t := TileRefreshed(Open(s, TILE_CACHE), Opened(s, TILE_CACHE), u, Some(e2));
      WellFormed(t) && TileResponse(t, u, later) == Some(e2)
  {
  }

  /** The default lookup searches every cache in the storage (the tile cache and
      older generations included): any cache holding `u` answers without the network. */
  lemma DefaultSearchesEveryCache(s: Store, u: Url, n: CacheName, net: Option<Response>)
    requires WellFormed(s) && HasEntry(s.caches, n, u)
    ensures DefaultResponse(s, u, net).Some?
    ensures exists m :: HasEntry(s.caches, m, u) && DefaultResponse(s, u, net) == Some(s.caches[m][u])
  {
    var i :| 0 <= i < |s.names| && s.names[i] == n;
    assert HasEntry(s.caches, s.names[i], u);
  }

  /** The default path answers the network only on a miss in every cache. */
  lemma DefaultMissReturnsNetwork(s: Store, u: Url, net: Option<Response>)
    requires WellFormed(s) && forall n :: n in s.caches ==> u !in s.caches[n]
    ensures DefaultResponse(s, u, net) == net
  {
  }

  /** Offline after a successful install: every shell asset is served from the cache
      although every fetch now fails. */
  lemma ShellServedOffline(s: Store, o: Origin, network: Url -> Option<Response>, u: Url)
    requires WellFormed(s) && Installed(s, o, network).1 && u in AssetsToCache(o)
    ensures DefaultResponse(Installed(s, o, network).0, u, None).Some?
  {
    InstallAllOrNothing(s, o, network);
    var t := Installed(s, o, network).0;
    DefaultSearchesEveryCache(t, u, CACHE_NAME, None);
  }

  /** The state a completed sweep reaches is the activated storage. */
  lemma SweepComplete(s: Store, t: Store)
    requires WellFormed(s) && WellFormed(t) && t.names == Retain(s.names, CACHE_NAME)
    requires SubStore(t, s)
    ensures t == Activated(s)
  {
    RetainMembers(s.names, CACHE_NAME);
    assert t.caches.Keys == Activated(s).caches.Keys;
    assert t.ids.Keys == Activated(s).ids.Keys;
  }

  // ---------------------------------------------------------------------------
  // The worker's handlers over the process-wide cache storage

  class CacheStorage {
    var names: seq<CacheName>
    var caches: map<CacheName, Entries>
    var ids: map<CacheName, nat>
    var created: nat

    function Value(): Store
      reads this
    {
      Store(names, caches, ids, created)
    }

    ghost predicate Valid()
      reads this
    {
      WellFormed(Value())
    }

    constructor (initial: Store)
      requires WellFormed(initial)
      ensures Valid() && Value() == initial
    {
      names, caches, ids, created := initial.names, initial.caches, initial.ids, initial.created;
    }

    /** `caches.open(name)`. */
    method Open(name: CacheName)
      requires Valid()
      modifies this
      ensures Valid() && Value() == CacheApi.Open(old(Value()), name)
    {
      if name !in caches {
        names, caches, ids, created := names + [name], caches[name := map[]], ids[name := created], created + 1;
      }
    }

    /** `caches.delete(name)`. */
    method Delete(name: CacheName) returns (deleted: bool)
      requires Valid()
      modifies this
      ensures Valid() && (Value(), deleted) == CacheApi.Delete(old(Value()), name)
    {
      DeleteKeepsOthers(Value(), name);
      deleted := name in caches;
      names, caches, ids := Without(names, name), caches - {name}, ids - {name};
    }

    /** The install handler; `network` stands for the outcome of fetching each URL. */
    method Install(origin: Origin, network: Url -> Option<Response>) returns (ok: bool)
      requires Valid()
      modifies this
      ensures Valid() && (Value(), ok) == Installed(old(Value()), origin, network)
    {
      ghost var before := Value();
      Open(CACHE_NAME);
      ghost var shellCache := Value();
      var assets := AssetsToCache(origin);
      var batch := FetchAll(assets, network);
      if batch.Some? {
        caches := caches[CACHE_NAME := caches[CACHE_NAME] + batch.value];
      }
      ok := batch.Some?;
      assert (Value(), ok) == AddAll(shellCache, CACHE_NAME, assets, network);
      assert Installed(before, origin, network) == AddAll(shellCache, CACHE_NAME, assets, network);
    }

    /** The activate handler: deletes, one by one, every name `caches.keys()` listed
        that is not CACHE_NAME. */
    method Activate()
      requires Valid()
      modifies this
      ensures Valid() && Value() == Activated(old(Value()))
    {
      var keys := names;
      ghost var orig := Value();
      for i := 0 to |keys|
        invariant Valid()
        invariant names == Retain(keys[..i], CACHE_NAME) + keys[i..]
        invariant SubStore(Value(), orig)
      {
        SweepNext(keys, i, orig);
      }
      assert keys[..|keys|] == keys;
      SweepComplete(orig, Value());
    }

    /** One iteration of the activate handler: the listed name `keys[i]` is deleted
        unless it is CACHE_NAME; the caches left are still those of `orig`. */
    method SweepNext(keys: seq<CacheName>, i: nat, ghost orig: Store)
      requires Valid() && Distinct(keys) && i < |keys|
      requires names == Retain(keys[..i], CACHE_NAME) + keys[i..]
      requires SubStore(Value(), orig)
      modifies this
      ensures Valid() && names == Retain(keys[..i + 1], CACHE_NAME) + keys[i + 1..]
      ensures SubStore(Value(), orig)
    {
      if keys[i] == CACHE_NAME {
        SweepKeeps(keys, i, CACHE_NAME);
      } else {
        DistinctNotInSuffix(keys, i);
        SweepDeletes(keys, i, CACHE_NAME);
        var deleted := Delete(keys[i]);
      }
    }

    /** Tile path, respond step: opens the tile cache and answers the cached tile or,
        on a miss, the outcome `net` of the fetch issued in this step. */
    method TileRespond(u: Url, net: Option<Response>) returns (resp: Option<Response>, tiles: Handle)
      requires Valid()
      modifies this
      ensures Valid() && Value() == CacheApi.Open(old(Value()), TILE_CACHE)
      ensures resp == TileResponse(old(Value()), u, net)
      ensures tiles == Opened(old(Value()), TILE_CACHE)
    {
      Open(TILE_CACHE);
      tiles := Handle(TILE_CACHE, ids[TILE_CACHE]);
      var entries := caches[TILE_CACHE];
      resp := if u in entries then Some(entries[u]) else net;
    }

    /** Tile path, later refresh step: a fetched response is put into the tile cache
        object `tiles` the respond step opened. */
    method TileRefresh(tiles: Handle, u: Url, net: Option<Response>)
      requires Valid()
      modifies this
      ensures Valid() && Value() == TileRefreshed(old(Value()), tiles, u, net)
    {
      if net.Some? && Current(Value(), tiles) && PutAccepted(net.value) {
        caches := caches[tiles.name := caches[tiles.name][u := net.value]];
      }
    }

    /** Default path: `fetched` says whether the network was asked at all. */
    method DefaultFetch(u: Url, net: Option<Response>) returns (resp: Option<Response>, fetched: bool)
      requires Valid()
      ensures resp == DefaultResponse(Value(), u, net)
      ensures fetched <==> forall n :: n in caches ==> u !in caches[n]
    {
      var hit := MatchAll(names, caches, u);
      forall n | n in caches && u in caches[n] ensures hit.Some? {
        var i :| 0 <= i < |names| && names[i] == n;
        assert HasEntry(caches, names[i], u);
      }
      fetched := hit.None?;
      resp := if fetched then net else hit;
    }

    /** The fetch handler: routes by hostname; on the tile path the refresh is the
        separate later step TileRefresh, into the object `refresh` names. */
    method OnFetch(u: Url, net: Option<Response>) returns (resp: Option<Response>, refresh: Option<Handle>)
      requires Valid()
      modifies this
      ensures Valid()
      ensures IsTileRequest(u) ==>
        && resp == TileResponse(old(Value()), u, net) && Value() == CacheApi.Open(old(Value()), TILE_CACHE)
        && refresh == Some(Opened(old(Value()), TILE_CACHE))
      ensures !IsTileRequest(u) ==>
        resp == DefaultResponse(old(Value()), u, net) && Value() == old(Value()) && refresh == None
    {
      refresh := None;
      if IsTileRequest(u) {
        var tiles;
        resp, tiles := TileRespond(u, net);
        refresh := Some(tiles);
      } else {
        var fetched;
        resp, fetched := DefaultFetch(u, net);
      }
    }
  }
}
