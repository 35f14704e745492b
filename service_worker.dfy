/** The service worker itself: the state the browser keeps for it (its
    CacheStorage, whether it asked to skip waiting, whether it claimed its
    clients) and its three event handlers. Each handler runs as one step.
    Network answers are inputs; `fetchLog` records every URL the worker
    fetched, in order. */
module ServiceWorker {
  import Manifest
  import Interceptor
  import opened CacheStorage

  /** What the fetch listener does with a request. */
  datatype Handling = PassThrough | Responded(reply: Reply)

  class Worker {
    const version: string
    const location: Interceptor.Location
    const cacheName: string
    const toCache: seq<string>
    const staticAssets: set<string>

    var caches: Storage
    var skippedWaiting: bool
    var clientsClaimed: bool
    var fetchLog: seq<string>

    /** Worker start-up: the build data comes in, the manifest and the cache
        name are computed, and the browser's existing caches are kept. */
    constructor (version: string, files: seq<string>, build: seq<string>,
                 location: Interceptor.Location, existing: Storage)
      ensures this.version == version && this.location == location
      ensures cacheName == Manifest.CacheName(version)
      ensures toCache == Manifest.ToCache(location.origin, files, build)
      ensures staticAssets == Manifest.StaticAssets(toCache)
      ensures caches == existing && !skippedWaiting && !clientsClaimed && fetchLog == []
    {
      this.version := version;
      this.location := location;
      cacheName := Manifest.CacheName(version);
      toCache := Manifest.ToCache(location.origin, files, build);
      staticAssets := Manifest.StaticAssets(Manifest.ToCache(location.origin, files, build));
      caches := existing;
      skippedWaiting := false;
      clientsClaimed := false;
      fetchLog := [];
    }

    /** The install handler: open the current cache, addAll `toCache`, and
        only when that succeeds ask to skip waiting. */
    method Install(network: map<string, Response>) returns (ok: bool)
      modifies this
      ensures ok <==> AllFetchedOk(toCache, network)
      ensures caches == Installed(old(caches), cacheName, toCache, network)
      ensures ok ==> forall u :: u in toCache ==> u in caches[cacheName] && caches[cacheName][u] == network[u]
      ensures !ok ==> cacheName in caches && caches[cacheName] == Open(old(caches), cacheName)[cacheName]
      ensures skippedWaiting == (ok || old(skippedWaiting))
      ensures clientsClaimed == old(clientsClaimed)
      ensures fetchLog == old(fetchLog) + toCache
    {
      caches := Open(caches, cacheName);
      var added := AddAll(caches[cacheName], toCache, network);
      fetchLog := fetchLog + toCache;
      match added {
        case Some(cache) =>
          caches := caches[cacheName := cache];
          skippedWaiting := true;
          ok := true;
        case None =>
          ok := false;
      }
    }

    /** The activate handler: claim the clients, then delete every cache
        whose name is not the current one. */
    method Activate()
      modifies this
      ensures caches == Pruned(old(caches), cacheName)
      ensures clientsClaimed
      ensures skippedWaiting == old(skippedWaiting) && fetchLog == old(fetchLog)
    {
      var keys := caches.Keys;
      clientsClaimed := true;
      var stale := set k | k in keys && k != cacheName;
      ghost var deleted: set<string> := {};
      while stale != {}
        invariant stale + deleted == keys - {cacheName} && stale !! deleted
        invariant caches == old(caches) - deleted
        invariant clientsClaimed && skippedWaiting == old(skippedWaiting) && fetchLog == old(fetchLog)
        decreases stale
      {
        var k :| k in stale;
        caches := caches - {k};
        stale := stale - {k};
        deleted := deleted + {k};
      }
      assert caches == Pruned(old(caches), cacheName);
    }

    /** Stale-while-revalidate for one request: look the URL up, always fetch
        it, store whatever the network returns, and deliver the cached entry
        when there was one. */
    method StaleWhileRevalidate(url: string, network: Option<Response>) returns (reply: Reply)
      modifies this
      ensures var before := Open(old(caches), cacheName);
        && reply == Delivered(Match(before[cacheName], url), network)
        && caches == before[cacheName := Revalidated(before[cacheName], url, network)]
      ensures fetchLog == old(fetchLog) + [url]
      ensures skippedWaiting == old(skippedWaiting) && clientsClaimed == old(clientsClaimed)
    {
      caches := Open(caches, cacheName);
      var cachedResponse := Match(caches[cacheName], url);
      fetchLog := fetchLog + [url];
      if network.Some? {
        caches := caches[cacheName := caches[cacheName][url := network.value]];
      }
      if cachedResponse.Some? {
        reply := Served(cachedResponse.value);
      } else if network.Some? {
        reply := Served(network.value);
      } else {
        reply := NetworkError;
      }
    }

    /** The fetch listener. A request it does not take over is left alone:
        no cache is opened, read or written and nothing is fetched. */
    method OnFetch(req: Interceptor.Request, network: Option<Response>) returns (h: Handling)
      modifies this
      ensures h.PassThrough? <==> !Interceptor.ShouldHandle(req, location, staticAssets)
      ensures h.PassThrough? ==> caches == old(caches) && fetchLog == old(fetchLog)
      ensures h.Responded? ==>
        var before := Open(old(caches), cacheName);
        && h.reply == Delivered(Match(before[cacheName], req.url.href), network)
        && caches == before[cacheName := Revalidated(before[cacheName], req.url.href, network)]
        && fetchLog == old(fetchLog) + [req.url.href]
      ensures skippedWaiting == old(skippedWaiting) && clientsClaimed == old(clientsClaimed)
    {
      if Interceptor.ShouldHandle(req, location, staticAssets) {
        var reply := StaleWhileRevalidate(req.url.href, network);
        h := Responded(reply);
      } else {
        h := PassThrough;
      }
    }
  }
}
