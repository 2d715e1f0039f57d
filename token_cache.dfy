/** The per-user ADAL token cache, as far as the controllers touch it: on a 401 they read its
    items, pick those issued for one resource, and delete them one by one. */
module TokenCache {

  /** A cached token. `resource` is the application id the token was issued for. */
  datatype CacheItem = CacheItem(authority: string, resource: string, clientId: string,
                                 uniqueId: string, accessToken: string)

  /** The cache with an item removed (a cache holds an entry at most once, so this removes
      every copy). */
  function Without(s: seq<CacheItem>, item: CacheItem): (r: seq<CacheItem>)
    ensures forall x :: x in r <==> x in s && x != item
    ensures |r| <= |s|
  {
    if s == [] then []
    else (if s[0] == item then [] else [s[0]]) + Without(s[1..], item)
  }

  /** `cache.ReadItems().Where(a => a.Resource == resource)` */
  function WithResource(s: seq<CacheItem>, resource: string): (r: seq<CacheItem>)
    ensures forall x :: x in r <==> x in s && x.resource == resource
  {
    if s == [] then []
    else (if s[0].resource == resource then [s[0]] else []) + WithResource(s[1..], resource)
  }

  /** What the eviction promises: exactly the items of other resources stay, in their order. */
  function Evicted(s: seq<CacheItem>, resource: string): seq<CacheItem> {
    if s == [] then []
    else (if s[0].resource != resource then [s[0]] else []) + Evicted(s[1..], resource)
  }

  /** The items not yet deleted after deleting those in `done`. */
  function Remaining(s: seq<CacheItem>, done: seq<CacheItem>): seq<CacheItem> {
    if s == [] then []
    else (if s[0] !in done then [s[0]] else []) + Remaining(s[1..], done)
  }

  class Cache {
    var items: seq<CacheItem>

    constructor (initial: seq<CacheItem>)
      ensures items == initial
    {
      items := initial;
    }

    /** `TokenCache.ReadItems()` */
    method ReadItems() returns (r: seq<CacheItem>)
      ensures r == items
    {
      r := items;
    }

    /** `TokenCache.DeleteItem(item)` */
    method DeleteItem(item: CacheItem)
      modifies this
      ensures items == Without(old(items), item)
    {
      items := Without(items, item);
    }
  }

  /** `foreach (var tokenCacheItem in authContext.TokenCache.ReadItems().Where(a => a.Resource == resource))
      authContext.TokenCache.DeleteItem(tokenCacheItem);` */
  method EvictResource(cache: Cache, resource: string)
    modifies cache
    ensures cache.items == Evicted(old(cache.items), resource)
  {
    var all := cache.ReadItems();
    var cachedTokens := WithResource(all, resource);
    RemainingNothing(all);
    var i := 0;
    while i < |cachedTokens|
      invariant 0 <= i <= |cachedTokens|
      invariant cache.items == Remaining(all, cachedTokens[..i])
    {
      RemainingStep(all, cachedTokens[..i], cachedTokens[i]);
      assert cachedTokens[..i + 1] == cachedTokens[..i] + [cachedTokens[i]];
      cache.DeleteItem(cachedTokens[i]);
      i := i + 1;
    }
    assert cachedTokens[..i] == cachedTokens;
    RemainingIsEvicted(all, cachedTokens, resource);
  }

  lemma {:induction false} RemainingNothing(s: seq<CacheItem>)
    ensures Remaining(s, []) == s
  {
    if s != [] {
      RemainingNothing(s[1..]);
      assert s == [s[0]] + s[1..];
    }
  }

  /** Deleting one more item from what remains. */
  lemma {:induction false} RemainingStep(s: seq<CacheItem>, done: seq<CacheItem>, item: CacheItem)
    ensures Without(Remaining(s, done), item) == Remaining(s, done + [item])
  {
    if s != [] {
      RemainingStep(s[1..], done, item);
      var head := if s[0] !in done then [s[0]] else [];
      WithoutAppend(head, Remaining(s[1..], done), item);
      if s[0] !in done {
        assert [s[0]][1..] == [];
      }
    }
  }

  lemma {:induction false} WithoutAppend(a: seq<CacheItem>, b: seq<CacheItem>, item: CacheItem)
    ensures Without(a + b, item) == Without(a, item) + Without(b, item)
  {
    if a == [] {
      assert a + b == b;
    } else {
      assert (a + b)[0] == a[0];
      assert (a + b)[1..] == a[1..] + b;
      WithoutAppend(a[1..], b, item);
    }
  }

  /** Once every item of the resource has been deleted, what remains is the eviction. */
  lemma {:induction false} RemainingIsEvicted(s: seq<CacheItem>, done: seq<CacheItem>, resource: string)
    requires forall x :: x in s ==> (x in done <==> x.resource == resource)
    ensures Remaining(s, done) == Evicted(s, resource)
  {
    if s != [] {
      assert s[0] in s;
      assert forall x :: x in s[1..] ==> x in s;
      RemainingIsEvicted(s[1..], done, resource);
    }
  }

  /** Eviction deletes exactly the items of `resource`: an item survives iff it was cached and
      belongs to another resource. */
  lemma {:induction false} EvictedMembers(s: seq<CacheItem>, resource: string)
    ensures forall x :: x in Evicted(s, resource) <==> x in s && x.resource != resource
  {
    if s != [] {
      EvictedMembers(s[1..], resource);
      assert forall x :: x in s <==> x == s[0] || x in s[1..];
    }
  }

  /** The items of every other resource are untouched: the same items, in the same order. */
  lemma {:induction false} EvictedKeepsOthers(s: seq<CacheItem>, resource: string, other: string)
    requires other != resource
    ensures WithResource(Evicted(s, resource), other) == WithResource(s, other)
  {
    if s != [] {
      EvictedKeepsOthers(s[1..], resource, other);
      var head := if s[0].resource != resource then [s[0]] else [];
      WithResourceAppend(head, Evicted(s[1..], resource), other);
      if s[0].resource != resource { assert [s[0]][1..] == []; }
    }
  }

  lemma {:induction false} WithResourceAppend(a: seq<CacheItem>, b: seq<CacheItem>, resource: string)
    ensures WithResource(a + b, resource) == WithResource(a, resource) + WithResource(b, resource)
  {
    if a == [] {
      assert a + b == b;
    } else {
      assert (a + b)[0] == a[0];
      assert (a + b)[1..] == a[1..] + b;
      WithResourceAppend(a[1..], b, resource);
    }
  }

  /** A second eviction of the same resource changes nothing. */
  lemma {:induction false} EvictedIdempotent(s: seq<CacheItem>, resource: string)
    ensures Evicted(Evicted(s, resource), resource) == Evicted(s, resource)
  {
    if s != [] {
      EvictedIdempotent(s[1..], resource);
      var head := if s[0].resource != resource then [s[0]] else [];
      EvictedAppend(head, Evicted(s[1..], resource), resource);
      if s[0].resource != resource { assert [s[0]][1..] == []; }
    }
  }

  lemma {:induction false} EvictedAppend(a: seq<CacheItem>, b: seq<CacheItem>, resource: string)
    ensures Evicted(a + b, resource) == Evicted(a, resource) + Evicted(b, resource)
  {
    if a == [] {
      assert a + b == b;
    } else {
      assert (a + b)[0] == a[0];
      assert (a + b)[1..] == a[1..] + b;
      EvictedAppend(a[1..], b, resource);
    }
  }
}
