/** The browser's cache storage (CacheStorage and Cache objects of the W3C Service
    Workers specification, sections 5.4 and 5.5) as values: an ordered list of cache
    names, each naming a map from request URL to stored response. */
module CacheApi {
  import opened Wrappers

  type CacheName = string

  /** A request URL after parsing. The fragment takes no part in cache matching and is
      not kept. */
  datatype Url = Url(scheme: string, hostname: string, port: string, path: string, query: string)

  /** A response snapshot; only its status matters to the caching rules. */
  datatype Response = Response(status: int, body: seq<int>)

  type Entries = map<Url, Response>

  /** The whole cache storage: names in creation order (the order `caches.keys()`
      reports), the contents of each named cache, and which Cache object each name
      currently stands for. Every cache created gets the next number of `created`,
      so a cache deleted and created again under the same name is a new object. */
  datatype Store = Store(names: seq<CacheName>, caches: map<CacheName, Entries>, ids: map<CacheName, nat>, created: nat)

  /** A Cache object as a script holds it after `caches.open`: the name it was opened
      under and the number of the object it was then. */
  datatype Handle = Handle(name: CacheName, id: nat)

  predicate Distinct<T(==)>(xs: seq<T>)
  {
    forall i, j :: 0 <= i < j < |xs| ==> xs[i] != xs[j]
  }

  /** Every name is listed once, the list and the maps agree on which caches exist,
      and every existing cache was numbered before `created`. */
  ghost predicate WellFormed(s: Store)
  {
    && Distinct(s.names)
    && s.caches.Keys == (set n | n in s.names)
    && s.ids.Keys == s.caches.Keys
    && forall n :: n in s.ids ==> s.ids[n] < s.created
  }

  /** The object `h` is still the one its name stands for in the storage. */
  predicate Current(s: Store, h: Handle)
  {
    h.name in s.ids && s.ids[h.name] == h.id && h.name in s.caches
  }

  /** Every cache of `t` is the same object, with the same contents, in `s`. */
  ghost predicate SubStore(t: Store, s: Store)
  {
    && t.created == s.created
    && (forall n :: n in t.caches ==> n in s.caches && t.caches[n] == s.caches[n])
    && (forall n :: n in t.ids ==> n in s.ids && t.ids[n] == s.ids[n])
  }

  predicate HasEntry(caches: map<CacheName, Entries>, n: CacheName, u: Url)
  {
    n in caches && u in caches[n]
  }

  /** `caches.open(name)`: the named cache, created empty and appended to the name
      list when absent. */
  function Open(s: Store, name: CacheName): (r: Store)
    requires WellFormed(s)
    ensures WellFormed(r) && name in r.caches
    ensures r.caches.Keys == s.caches.Keys + {name}
    ensures forall n :: n in s.caches ==> r.caches[n] == s.caches[n] && r.ids[n] == s.ids[n]
    ensures name !in s.caches ==> r.caches[name] == map[] && r.ids[name] == s.created
    ensures s.names <= r.names && s.created <= r.created
  {
    if name in s.caches then s
    else
      AddFresh(s, name);
      Store(s.names + [name], s.caches[name := map[]], s.ids[name := s.created], s.created + 1)
  }

  /** A cache created under a new name, numbered `created`, keeps the storage well formed. */
  lemma AddFresh(s: Store, name: CacheName)
    requires WellFormed(s) && name !in s.caches
    ensures WellFormed(Store(s.names + [name], s.caches[name := map[]], s.ids[name := s.created], s.created + 1))
  {
    var names := s.names + [name];
    assert forall i :: 0 <= i < |s.names| ==> names[i] == s.names[i] != name;
    assert (set n | n in names) == (set n | n in s.names) + {name};
  }

  /** The object `caches.open(name)` resolves to. */
  function Opened(s: Store, name: CacheName): (h: Handle)
    requires WellFormed(s)
    ensures Current(Open(s, name), h) && h.name == name
    ensures name in s.caches ==> Current(s, h)
    ensures name !in s.caches ==> forall n :: n in s.ids ==> s.ids[n] != h.id
  {
    Handle(name, Open(s, name).ids[name])
  }

  /** `caches.match(u)`: the entry for `u` in the first cache, in creation order,
      that holds one. */
  function MatchAll(names: seq<CacheName>, caches: map<CacheName, Entries>, u: Url): (r: Option<Response>)
    ensures r.Some? <==> exists i :: 0 <= i < |names| && HasEntry(caches, names[i], u)
    ensures r.Some? ==>
      exists i :: 0 <= i < |names| && HasEntry(caches, names[i], u) && r.value == caches[names[i]][u]
        && forall j :: 0 <= j < i ==> !HasEntry(caches, names[j], u)
    decreases |names|
  {
    if names == [] then None
    else if HasEntry(caches, names[0], u) then Some(caches[names[0]][u])
    else
      var r := MatchAll(names[1..], caches, u);
      assert forall i :: 1 <= i < |names| ==> names[i] == names[1..][i - 1];
      r
  }

  function Match(s: Store, u: Url): (r: Option<Response>)
    ensures r.Some? ==> exists n :: n in s.names && HasEntry(s.caches, n, u) && r.value == s.caches[n][u]
    ensures r.None? ==> forall n :: n in s.names ==> !HasEntry(s.caches, n, u)
  {
    var r := MatchAll(s.names, s.caches, u);
    if r.Some? then
      var i :| 0 <= i < |s.names| && HasEntry(s.caches, s.names[i], u) && r.value == s.caches[s.names[i]][u];
      r
    else r
  }

  /** `cache.put` refuses a partial (206) response; any other status is stored. */
  predicate PutAccepted(r: Response)
  {
    r.status != 206
  }

  /** `cache.put(u, r)` on the object `h`. An object that has since been deleted from
      the storage takes the write out of sight, even when a new cache of the same name
      has been created meanwhile, so the storage is unchanged. */
  function Put(s: Store, h: Handle, u: Url, r: Response): (t: Store)
    ensures t.names == s.names && t.ids == s.ids && t.created == s.created
    ensures t.caches.Keys == s.caches.Keys
    ensures forall n :: n in s.caches && n != h.name ==> t.caches[n] == s.caches[n]
    ensures Current(s, h) && PutAccepted(r) ==> t.caches[h.name] == s.caches[h.name][u := r]
    ensures !Current(s, h) || !PutAccepted(r) ==> t == s
  {
    if Current(s, h) && PutAccepted(r) then s.(caches := s.caches[h.name := s.caches[h.name][u := r]])
    else s
  }

  /** The names of `xs` other than `x`, in order. */
  function Without(xs: seq<CacheName>, x: CacheName): seq<CacheName>
  {
    if xs == [] then [] else (if xs[0] == x then [] else [xs[0]]) + Without(xs[1..], x)
  }

  /** The names of `xs` equal to `keep`, in order. */
  function Retain(xs: seq<CacheName>, keep: CacheName): seq<CacheName>
  {
    if xs == [] then [] else (if xs[0] == keep then [xs[0]] else []) + Retain(xs[1..], keep)
  }

  /** `caches.delete(name)`: the storage without that cache, and whether it existed. */
  function Delete(s: Store, name: CacheName): (r: (Store, bool))
    ensures r.1 <==> name in s.caches
    ensures r.0.caches.Keys == s.caches.Keys - {name} && r.0.ids.Keys == s.ids.Keys - {name}
    ensures r.0.created == s.created
  {
    (Store(Without(s.names, name), s.caches - {name}, s.ids - {name}, s.created), name in s.caches)
  }

  /** `cache.addAll` accepts a fetched response only when it is an ok status
      (200 to 299) other than 206, and a failed fetch not at all. */
  predicate FetchAccepted(r: Option<Response>)
  {
    r.Some? && 200 <= r.value.status <= 299 && r.value.status != 206
  }

  /** The batch `cache.addAll(urls)` would store: present only when every fetch is
      accepted, and then holding exactly the fetched response for each URL. */
  function FetchAll(urls: seq<Url>, network: Url -> Option<Response>): (r: Option<Entries>)
    ensures r.Some? <==> forall i :: 0 <= i < |urls| ==> FetchAccepted(network(urls[i]))
    ensures r.Some? ==> r.value.Keys == set u | u in urls
    ensures r.Some? ==> forall u :: u in r.value ==> network(u) == Some(r.value[u])
    decreases |urls|
  {
    if urls == [] then Some(map[])
    else
      var rest := FetchAll(urls[1..], network);
      if FetchAccepted(network(urls[0])) && rest.Some? then Some(rest.value[urls[0] := network(urls[0]).value])
      else None
  }

  /** `cache.addAll(urls)` on the cache called `name`: all of the batch or nothing. */
  function AddAll(s: Store, name: CacheName, urls: seq<Url>, network: Url -> Option<Response>): (r: (Store, bool))
    requires name in s.caches
    ensures r.0.names == s.names && r.0.ids == s.ids && r.0.created == s.created
    ensures r.0.caches.Keys == s.caches.Keys
    ensures !r.1 ==> r.0 == s
  {
    match FetchAll(urls, network)
    case None => (s, false)
    case Some(batch) => (s.(caches := s.caches[name := s.caches[name] + batch]), true)
  }

  lemma {:induction false} WithoutMembers(xs: seq<CacheName>, x: CacheName)
    ensures forall y :: y in Without(xs, x) <==> y in xs && y != x
    decreases |xs|
  {
    if xs != [] {
      WithoutMembers(xs[1..], x);
      assert xs == [xs[0]] + xs[1..];
    }
  }

  lemma {:induction false} RetainMembers(xs: seq<CacheName>, keep: CacheName)
    ensures forall y :: y in Retain(xs, keep) <==> y in xs && y == keep
    decreases |xs|
  {
    if xs != [] {
      RetainMembers(xs[1..], keep);
      assert xs == [xs[0]] + xs[1..];
    }
  }

  lemma {:induction false} RetainIdempotent(xs: seq<CacheName>, keep: CacheName)
    ensures Retain(Retain(xs, keep), keep) == Retain(xs, keep)
    decreases |xs|
  {
    if xs != [] {
      RetainIdempotent(xs[1..], keep);
      var head := if xs[0] == keep then [xs[0]] else [];
      assert Retain(xs, keep) == head + Retain(xs[1..], keep);
      if xs[0] == keep {
        assert (head + Retain(xs[1..], keep))[1..] == Retain(xs[1..], keep);
      } else {
        assert head + Retain(xs[1..], keep) == Retain(xs[1..], keep);
      }
    }
  }

  /** In a list without repetitions, at most the one copy of `keep` is retained. */
  lemma {:induction false} RetainDistinct(xs: seq<CacheName>, keep: CacheName)
    requires Distinct(xs)
    ensures Retain(xs, keep) == if keep in xs then [keep] else []
    decreases |xs|
  {
    if xs != [] {
      assert Distinct(xs[1..]) by {
        forall i, j | 0 <= i < j < |xs[1..]| ensures xs[1..][i] != xs[1..][j] {
          assert xs[1..][i] == xs[i + 1] && xs[1..][j] == xs[j + 1];
        }
      }
      RetainDistinct(xs[1..], keep);
      if xs[0] == keep {
        assert keep !in xs[1..] by {
          forall j | 0 <= j < |xs[1..]| ensures xs[1..][j] != keep {
            assert xs[1..][j] == xs[j + 1];
          }
        }
      } else {
        assert keep in xs <==> keep in xs[1..] by {
          assert xs == [xs[0]] + xs[1..];
        }
      }
    }
  }

  lemma {:induction false} RetainSnoc(xs: seq<CacheName>, x: CacheName, keep: CacheName)
    ensures Retain(xs + [x], keep) == Retain(xs, keep) + (if x == keep then [x] else [])
    decreases |xs|
  {
    var tail := if x == keep then [x] else [];
    if xs == [] {
      assert xs + [x] == [x] && [x][1..] == [];
    } else {
      var ys := xs + [x];
      var head := if xs[0] == keep then [xs[0]] else [];
      assert ys[0] == xs[0] && ys[1..] == xs[1..] + [x];
      RetainSnoc(xs[1..], x, keep);
      calc {
        Retain(ys, keep);
        head + Retain(xs[1..] + [x], keep);
        head + (Retain(xs[1..], keep) + tail);
        (head + Retain(xs[1..], keep)) + tail;
        Retain(xs, keep) + tail;
      }
    }
  }

  lemma {:induction false} WithoutAbsent(xs: seq<CacheName>, x: CacheName)
    requires x !in xs
    ensures Without(xs, x) == xs
    decreases |xs|
  {
    if xs != [] {
      WithoutAbsent(xs[1..], x);
      assert xs == [xs[0]] + xs[1..];
    }
  }

  lemma {:induction false} WithoutAppend(a: seq<CacheName>, b: seq<CacheName>, x: CacheName)
    ensures Without(a + b, x) == Without(a, x) + Without(b, x)
    decreases |a|
  {
    if a != [] {
      assert (a + b)[1..] == a[1..] + b;
      WithoutAppend(a[1..], b, x);
    } else {
      assert a + b == b;
    }
  }

  lemma {:induction false} WithoutDistinct(xs: seq<CacheName>, x: CacheName)
    requires Distinct(xs)
    ensures Distinct(Without(xs, x))
    decreases |xs|
  {
    if xs != [] {
      assert Distinct(xs[1..]) by {
        forall i, j | 0 <= i < j < |xs[1..]| ensures xs[1..][i] != xs[1..][j] {
          assert xs[1..][i] == xs[i + 1] && xs[1..][j] == xs[j + 1];
        }
      }
      WithoutDistinct(xs[1..], x);
      WithoutMembers(xs[1..], x);
      var w := Without(xs[1..], x);
      if xs[0] != x {
        assert xs[0] !in w by {
          assert xs[0] !in xs[1..] by {
            forall j | 0 <= j < |xs[1..]| ensures xs[1..][j] != xs[0] {
              assert xs[1..][j] == xs[j + 1];
            }
          }
        }
        forall i, j | 0 <= i < j < |[xs[0]] + w| ensures ([xs[0]] + w)[i] != ([xs[0]] + w)[j] {
          if i == 0 {
            assert ([xs[0]] + w)[j] == w[j - 1];
          } else {
            assert ([xs[0]] + w)[i] == w[i - 1] && ([xs[0]] + w)[j] == w[j - 1];
          }
        }
      } else {
        assert Without(xs, x) == w;
      }
    }
  }

  lemma DistinctNotInSuffix(keys: seq<CacheName>, i: nat)
    requires Distinct(keys) && i < |keys|
    ensures keys[i] !in keys[i + 1..]
  {
    var rest := keys[i + 1..];
    forall k | 0 <= k < |rest| ensures rest[k] != keys[i] {
      assert rest[k] == keys[i + 1 + k];
    }
  }

  /** One step of a sweep over the listed names `keys`, when `keys[i]` is the name
      kept: the swept prefix grows by that name. */
  lemma SweepKeeps(keys: seq<CacheName>, i: nat, keep: CacheName)
    requires i < |keys| && keys[i] == keep
    ensures Retain(keys[..i], keep) + keys[i..] == Retain(keys[..i + 1], keep) + keys[i + 1..]
  {
    var x, rest, kept := keys[i], keys[i + 1..], Retain(keys[..i], keep);
    assert keys[i..] == [x] + rest;
    assert keys[..i + 1] == keys[..i] + [x];
    RetainSnoc(keys[..i], x, keep);
    assert kept + ([x] + rest) == (kept + [x]) + rest;
  }

  /** One step of a sweep over the listed names `keys`, when `keys[i]` is not the name
      kept and is not listed again: deleting it leaves the swept prefix followed by the
      rest. */
  lemma SweepDeletes(keys: seq<CacheName>, i: nat, keep: CacheName)
    requires i < |keys| && keys[i] != keep && keys[i] !in keys[i + 1..]
    ensures Without(Retain(keys[..i], keep) + keys[i..], keys[i]) == Retain(keys[..i + 1], keep) + keys[i + 1..]
  {
    var x, rest, kept := keys[i], keys[i + 1..], Retain(keys[..i], keep);
    assert keys[i..] == [x] + rest;
    assert keys[..i + 1] == keys[..i] + [x];
    RetainSnoc(keys[..i], x, keep);
    RetainMembers(keys[..i], keep);
    WithoutBetween(kept, x, rest);
  }

  /** Deleting a name listed once removes just that one entry. */
  lemma WithoutBetween(a: seq<CacheName>, x: CacheName, b: seq<CacheName>)
    requires x !in a && x !in b
    ensures Without(a + ([x] + b), x) == a + b
  {
    WithoutAppend(a, [x] + b, x);
    WithoutHead(x, b);
    WithoutAbsent(a, x);
    WithoutAbsent(b, x);
  }

  lemma WithoutHead(x: CacheName, b: seq<CacheName>)
    ensures Without([x] + b, x) == Without(b, x)
  {
    assert ([x] + b)[1..] == b;
  }

  /** `cache.addAll` is all-or-nothing: on success every URL maps to its fetched
      response and other entries are kept; on failure the storage is unchanged. */
  lemma AddAllAtomic(s: Store, name: CacheName, urls: seq<Url>, network: Url -> Option<Response>)
    requires WellFormed(s) && name in s.caches
    ensures var (t, ok) := AddAll(s, name, urls, network);
      && WellFormed(t) && t.names == s.names && t.caches.Keys == s.caches.Keys && t.ids == s.ids
      && (ok <==> forall u :: u in urls ==> FetchAccepted(network(u)))
      && (ok ==> forall u :: u in urls ==> HasEntry(t.caches, name, u) && Some(t.caches[name][u]) == network(u))
      && (ok ==> forall u :: u in t.caches[name] && u !in urls ==> u in s.caches[name] && t.caches[name][u] == s.caches[name][u])
      && (!ok ==> t == s)
      && (forall n :: n in s.caches && n != name ==> t.caches[n] == s.caches[n])
  {
    var b := FetchAll(urls, network);
    assert (forall i :: 0 <= i < |urls| ==> FetchAccepted(network(urls[i])))
       <==> (forall u :: u in urls ==> FetchAccepted(network(u)));
    if b.Some? {
      forall u | u in urls ensures u in b.value {
      }
    }
  }

  /** Deleting a cache keeps the storage well formed and touches no other cache or
      object. */
  lemma DeleteKeepsOthers(s: Store, name: CacheName)
    requires WellFormed(s)
    ensures WellFormed(Delete(s, name).0)
    ensures name !in Delete(s, name).0.caches
    ensures forall n :: n in s.caches && n != name ==> n in Delete(s, name).0.caches && Delete(s, name).0.caches[n] == s.caches[n]
    ensures SubStore(Delete(s, name).0, s)
  {
    WithoutDistinct(s.names, name);
    WithoutMembers(s.names, name);
    var t := Delete(s, name).0;
    assert t.caches.Keys == set n | n in t.names;
  }
}
