/** End-to-end scenarios of the worker, proved from the handlers' contracts alone. */
module Scenarios {
  import Interceptor
  import Manifest
  import opened CacheStorage
  import opened ServiceWorker

  /** Install version "V1", then serve `/app.js`: the precached copy is
      delivered, the network is still asked, and its answer replaces the
      cached entry for next time. */
  method InstallThenServeStale(origin: string, latest: Response) {
    var here := Interceptor.Location(origin, "app.example", "");
    var w := new Worker("V1", [], ["/app.js"], here, map[]);
    assert w.cacheName == "cacheV1";
    assert Manifest.KeptFiles([]) == [];
    var appJs := origin + "/app.js";
    assert w.toCache[0] == appJs;
    var precached := Response(200, 1);
    var network := map u | u in w.toCache :: precached;
    assert AllFetchedOk(w.toCache, network);
    var ok := w.Install(network);
    assert ok && w.skippedWaiting;
    assert w.fetchLog == [] + w.toCache == w.toCache;
    assert w.caches["cacheV1"][appJs] == precached;

    var url := Interceptor.Url("https:", "app.example", "", appJs);
    assert appJs in w.staticAssets;
    assert Interceptor.StartsWith("https:", "http") by {
      Interceptor.SchemeTest();
    }
    var h := w.OnFetch(Interceptor.Request("GET", false, url, "default"), Some(latest));
    assert h == Responded(Served(precached));
    assert w.caches["cacheV1"][appJs] == latest;
    assert w.fetchLog == w.toCache + [appJs];
  }

  /** Installing into empty storage leaves exactly one cache, "cacheV1",
      holding exactly the `toCache` URLs. */
  method InstallHoldsExactlyToCache(origin: string, files: seq<string>, build: seq<string>, answer: Response)
    requires AddAllAccepts(answer)
  {
    var w := new Worker("V1", files, build, Interceptor.Location(origin, "app.example", ""), map[]);
    var network := map u | u in w.toCache :: answer;
    assert w.cacheName == "cacheV1";
    assert AllFetchedOk(w.toCache, network);
    var ok := w.Install(network);
    assert ok;
    assert w.caches.Keys == {"cacheV1"};
    assert Open(map[], "cacheV1")["cacheV1"] == map[];
    assert w.caches["cacheV1"].Keys == set u | u in w.toCache;
  }

  /** A ranged request is left to the browser: nothing is read, written or fetched. */
  method RangedRequestUntouched(w: Worker, url: Interceptor.Url, network: Option<Response>)
    modifies w
  {
    var before := w.caches;
    var log := w.fetchLog;
    var h := w.OnFetch(Interceptor.Request("GET", true, url, "default"), network);
    assert h == PassThrough && w.caches == before && w.fetchLog == log;
  }

  /** Caches "cacheV0" and "cacheV1" exist and "V1" activates: only "cacheV1" is left. */
  method ActivateDropsOldGeneration(origin: string) {
    var current: Cache := map[origin + "/" := Response(200, 7)];
    var existing: Storage := map["cacheV0" := map[], "cacheV1" := current];
    var w := new Worker("V1", [], [], Interceptor.Location(origin, "app.example", ""), existing);
    w.Activate();
    assert w.caches == map["cacheV1" := current];
    assert w.clientsClaimed;
  }
}
