/**
 * ResourceManager: on a route change, pre-loads the resources a fixed table
 * predicts for that route into the store under `cache:<url>`, unless the
 * connection is offline or poor. Fetching is mocked in the source: the
 * cached value is a small record naming the url and the time.
 */
module Resources {
  import Wrappers
  import opened JsValues
  import opened MemoryStore
  import opened Network

  /** `predictNextResources(route)`: the transition table, and nothing for any other route. */
  function PredictNextResources(route: string): (urls: seq<string>)
    ensures |urls| <= 3
    ensures urls != [] <==> route == "/home" || route == "/dashboard" || route == "/profile"
  {
    if route == "/home" then ["/profile", "/settings", "user-avatar.png"]
    else if route == "/dashboard" then ["/reports", "/analytics", "chart-library.js"]
    else if route == "/profile" then ["/edit-profile", "user-data.json"]
    else []
  }

  /** Routes outside the table predict nothing. */
  lemma UnknownRoutePredictsNothing(route: string)
    requires route != "/home" && route != "/dashboard" && route != "/profile"
    ensures PredictNextResources(route) == []
  {
  }

  /** The store key a url is cached under. */
  function CacheKey(url: string): (k: string)
    ensures |k| == |url| + 6 && k[..6] == "cache:" && k[6..] == url
  {
    "cache:" + url
  }

  /** Distinct urls are cached under distinct keys. */
  lemma CacheKeyInjective(u: string, v: string)
    requires CacheKey(u) == CacheKey(v)
    ensures u == v
  {
    assert u == CacheKey(u)[6..];
  }

  /** The keys prefetching `urls` may write. */
  function CacheKeys(urls: seq<string>): set<string> {
    set u | u in urls :: CacheKey(u)
  }

  /** The mock payload `{ content, timestamp }` written for a url. */
  function MockData(url: string, now: int): Value {
    Obj(map["content" := Str("Pre-fetched content for " + url), "timestamp" := Num(now)])
  }

  /**
   * The store after `prefetch(url)`: unchanged when `cache:<url>` already
   * reads as truthy or when the write throws (`url in failing`), otherwise
   * with the mock payload under `cache:<url>`.
   */
  function PrefetchOne(store: map<string, Value>, url: string, now: int, failing: set<string>): (r: map<string, Value>)
    ensures forall k :: k != CacheKey(url) ==> (k in r <==> k in store) && (k in store ==> r[k] == store[k])
    ensures Truthy(Lookup(store, CacheKey(url))) ==> r == store
    ensures url !in failing ==> Truthy(Lookup(r, CacheKey(url)))
  {
    if Truthy(Lookup(store, CacheKey(url))) || url in failing then store
    else store[CacheKey(url) := MockData(url, now)]
  }

  /** The store after prefetching each of `urls` in turn. */
  function PrefetchAll(store: map<string, Value>, urls: seq<string>, now: int, failing: set<string>): (r: map<string, Value>)
    decreases |urls|
    ensures forall k :: k !in CacheKeys(urls) ==> (k in r <==> k in store) && (k in store ==> r[k] == store[k])
    ensures forall k :: k in store && Truthy(store[k]) ==> k in r && r[k] == store[k]
    ensures forall u :: u in urls && u !in failing ==> Truthy(Lookup(r, CacheKey(u)))
  {
    if urls == [] then store
    else
      var init := urls[..|urls| - 1];
      var url := urls[|urls| - 1];
      var before := PrefetchAll(store, init, now, failing);
      assert forall u :: u in urls ==> u in init || u == url;
      assert CacheKeys(urls) == CacheKeys(init) + {CacheKey(url)};
      PrefetchOne(before, url, now, failing)
  }

  /**
   * The store's key order after prefetching each of `urls` in turn: a cache
   * key that was not stored joins at the end when its write succeeds.
   */
  function PrefetchOrder(store: map<string, Value>, order: seq<string>, urls: seq<string>, now: int, failing: set<string>): (r: seq<string>)
    decreases |urls|
    ensures order <= r
  {
    if urls == [] then order
    else
      var init := urls[..|urls| - 1];
      var url := urls[|urls| - 1];
      var before := PrefetchOrder(store, order, init, now, failing);
      if CacheKey(url) !in PrefetchAll(store, init, now, failing) && url !in failing then before + [CacheKey(url)]
      else before
  }

  class ResourceManager {
    const network: NetworkMonitor
    const storage: InMemoryStorage

    constructor(network: NetworkMonitor, storage: InMemoryStorage)
      ensures this.network == network && this.storage == storage
    {
      this.network := network;
      this.storage := storage;
    }

    /**
     * `optimizeForRoute(route)`: writes nothing when quality is OFFLINE or
     * POOR; otherwise prefetches every predicted url, in table order.
     */
    method OptimizeForRoute(route: string, now: int, failing: set<string>)
      requires storage.Valid()
      modifies storage
      ensures storage.Valid()
      ensures network.quality == Offline || network.quality == Poor ==> unchanged(storage)
      ensures network.quality != Offline && network.quality != Poor ==>
        storage.store == PrefetchAll(old(storage.store), PredictNextResources(route), now, failing)
      ensures network.quality != Offline && network.quality != Poor ==>
        storage.order == PrefetchOrder(old(storage.store), old(storage.order), PredictNextResources(route), now, failing)
    {
      var quality := network.GetQuality();
      if quality == Offline || quality == Poor {
        return;
      }
      var predictions := PredictNextResources(route);
      for i := 0 to |predictions|
        invariant storage.Valid()
        invariant storage.store == PrefetchAll(old(storage.store), predictions[..i], now, failing)
        invariant storage.order == PrefetchOrder(old(storage.store), old(storage.order), predictions[..i], now, failing)
      {
        Prefetch(predictions[i], now, failing);
        assert predictions[..i + 1][..i] == predictions[..i];
      }
      assert predictions[..|predictions|] == predictions;
    }

    /**
     * `prefetch(url)`: leaves an entry that reads as truthy alone; otherwise
     * writes the mock payload under `cache:<url>`. A write that throws
     * (`url in failing`) is caught and logged.
     */
    method Prefetch(url: string, now: int, failing: set<string>)
      requires storage.Valid()
      modifies storage
      ensures storage.Valid()
      ensures storage.store == PrefetchOne(old(storage.store), url, now, failing)
      ensures storage.order == old(storage.order) +
        (if CacheKey(url) !in old(storage.store) && url !in failing then [CacheKey(url)] else [])
    {
      var cached := storage.Get(CacheKey(url));
      if Truthy(cached) {
        return;
      }
      if url in failing {
        // the put threw: logged, not rethrown
        return;
      }
      storage.Put(CacheKey(url), MockData(url, now));
    }
  }

  /** Under GOOD quality, routing to '/home' caches the avatar, even if something else failed. */
  lemma HomePrefetchCachesAvatar(store: map<string, Value>, now: int, failing: set<string>)
    requires "user-avatar.png" !in failing
    ensures Lookup(PrefetchAll(store, PredictNextResources("/home"), now, failing), "cache:user-avatar.png") != Null
  {
    var urls := PredictNextResources("/home");
    assert urls[2] == "user-avatar.png";
    assert CacheKey("user-avatar.png") == "cache:user-avatar.png";
  }

  /** A client under GOOD quality: routing to '/home' caches the avatar. */
  method PrefetchWhenGood(now: int)
  {
    var storage := new InMemoryStorage();
    var network := new NetworkMonitor();
    var manager := new ResourceManager(network, storage);
    manager.OptimizeForRoute("/home", now, {});
    HomePrefetchCachesAvatar(map[], now, {});
    assert storage.Get("cache:user-avatar.png") != Null;
  }

  /** A client under POOR quality: routing to '/home' caches nothing. */
  method PrefetchWhenPoor(now: int)
  {
    var storage := new InMemoryStorage();
    var network := new NetworkMonitor();
    network.quality := Poor;
    var manager := new ResourceManager(network, storage);
    manager.OptimizeForRoute("/home", now, {});
    assert storage.Get("cache:user-avatar.png") == Null;
  }

  /**
   * With the shipped browser constructor, a monitor that started offline
   * still reports GOOD, so routing to '/home' caches the avatar.
   */
  method PrefetchWhenStartedOfflineAsWritten(now: int)
  {
    var storage := new InMemoryStorage();
    var network := new NetworkMonitor.InBrowserAsWritten(false, HasNavigator(Wrappers.None));
    var manager := new ResourceManager(network, storage);
    manager.OptimizeForRoute("/home", now, {});
    HomePrefetchCachesAvatar(map[], now, {});
    assert storage.Get("cache:user-avatar.png") != Null;
  }

  /** With the corrected browser constructor, a monitor that started offline caches nothing. */
  method PrefetchWhenStartedOffline(now: int)
  {
    var storage := new InMemoryStorage();
    var network := new NetworkMonitor.InBrowser(false, HasNavigator(Wrappers.None));
    var manager := new ResourceManager(network, storage);
    manager.OptimizeForRoute("/home", now, {});
    assert storage.Get("cache:user-avatar.png") == Null;
  }
}
