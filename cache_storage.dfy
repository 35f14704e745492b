/** The browser's CacheStorage as the worker uses it: named caches, each a map
    from request URL to a stored response. Responses are opaque tokens that
    carry their HTTP status and an opaque body. The functions here give the state each
    handler of the worker leaves behind. */
module CacheStorage {
  import Manifest

  datatype Option<T> = None | Some(value: T)

  /** A response as the network delivers it: its status and an opaque body. */
  datatype Response = Response(status: int, body: nat)

  /** What the page finally receives from stale-while-revalidate. */
  datatype Reply = Served(response: Response) | NetworkError

  type Cache = map<string, Response>
  type Storage = map<string, Cache>

  /** A status in the 200-299 range. */
  predicate OkStatus(r: Response) {
    200 <= r.status <= 299
  }

  /** A response `addAll` accepts: ok, and not a partial (206) response. */
  predicate AddAllAccepts(r: Response) {
    OkStatus(r) && r.status != 206
  }

  /** `caches.open(name)`: the named cache, created empty when it is missing. */
  function Open(storage: Storage, name: string): (s: Storage)
    ensures s.Keys == storage.Keys + {name}
    ensures s[name] == if name in storage then storage[name] else map[]
    ensures forall n :: n in storage ==> s[n] == storage[n]
  {
    if name in storage then storage else storage[name := map[]]
  }

  /** `cache.match(url)`. */
  function Match(cache: Cache, url: string): (r: Option<Response>)
    ensures r.Some? <==> url in cache
    ensures r.Some? ==> r.value == cache[url]
  {
    if url in cache then Some(cache[url]) else None
  }

  /** The network answers every URL of the list with an ok, non-partial
      response. A URL missing from `network` is one whose fetch fails. */
  predicate AllFetchedOk(urls: seq<string>, network: map<string, Response>) {
    forall u :: u in urls ==> u in network && AddAllAccepts(network[u])
  }

  /** `cache.addAll(urls)`: every URL is fetched; if one fetch fails, is not
      ok or is a 206 the call rejects (None) and nothing is stored, otherwise every
      response is stored under its URL. */
  function AddAll(cache: Cache, urls: seq<string>, network: map<string, Response>): (r: Option<Cache>)
    ensures r.Some? <==> AllFetchedOk(urls, network)
    ensures r.Some? ==> r.value.Keys == cache.Keys + set u | u in urls
    ensures r.Some? ==> forall u :: u in urls ==> r.value[u] == network[u]
    ensures r.Some? ==> forall k :: k in cache && k !in urls ==> r.value[k] == cache[k]
  {
    if AllFetchedOk(urls, network) then Some(cache + map u | u in urls :: network[u]) else None
  }

  /** The storage after the install handler: open the cache, then addAll. */
  function Installed(storage: Storage, name: string, urls: seq<string>, network: map<string, Response>): (s: Storage)
    ensures s.Keys == storage.Keys + {name}
    ensures forall n :: n in storage && n != name ==> s[n] == storage[n]
    ensures AllFetchedOk(urls, network) ==>
      forall u :: u in urls ==> u in s[name] && s[name][u] == network[u]
    ensures AllFetchedOk(urls, network) ==>
      var before := Open(storage, name)[name];
      && s[name].Keys == before.Keys + (set u | u in urls)
      && forall k :: k in before && k !in urls ==> s[name][k] == before[k]
    ensures !AllFetchedOk(urls, network) ==> s == Open(storage, name)
  {
    var ready := Open(storage, name);
    match AddAll(ready[name], urls, network)
    case Some(cache) => ready[name := cache]
    case None => ready
  }

  /** Installing a second time with the same network answers changes nothing more. */
  lemma InstallIdempotent(storage: Storage, name: string, urls: seq<string>, network: map<string, Response>)
    ensures var once := Installed(storage, name, urls, network);
      Installed(once, name, urls, network) == once
  {
    var once := Installed(storage, name, urls, network);
    if AllFetchedOk(urls, network) {
      var c := once[name];
      var again := AddAll(c, urls, network).value;
      assert again == c;
    }
  }

  /** The storage after the activate handler has deleted every other cache. */
  function Pruned(storage: Storage, name: string): (s: Storage)
    ensures s.Keys <= {name}
    ensures name in storage ==> name in s && s[name] == storage[name]
    ensures forall n :: n in storage && n != name ==> n !in s
    ensures name in s ==> name in storage
  {
    map n | n in storage && n == name :: storage[n]
  }

  /** After version `v2` activates, no cache of another version `v1` is left. */
  lemma ActivationRemovesOtherVersions(storage: Storage, v1: string, v2: string)
    requires v1 != v2
    ensures Manifest.CacheName(v1) !in Pruned(storage, Manifest.CacheName(v2))
  {
    Manifest.CacheNameInjective(v1, v2);
  }

  /** The cache after a revalidation: a network response overwrites exactly
      the entry for its URL, whatever its status; a failed fetch leaves the
      cache as it was. */
  function Revalidated(cache: Cache, url: string, network: Option<Response>): (c: Cache)
    ensures network.Some? ==> url in c && c[url] == network.value
    ensures network.None? ==> c == cache
    ensures forall k :: k != url ==> (k in c <==> k in cache)
    ensures forall k :: k != url && k in cache ==> c[k] == cache[k]
  {
    match network
    case Some(response) => cache[url := response]
    case None => cache
  }

  /** `cachedResponse || fetchedResponse`: the cached entry when there was
      one, otherwise the network response, otherwise a network error. */
  function Delivered(cached: Option<Response>, network: Option<Response>): (r: Reply)
    ensures cached.Some? ==> r == Served(cached.value)
    ensures cached.None? && network.Some? ==> r == Served(network.value)
    ensures r == NetworkError <==> cached.None? && network.None?
  {
    if cached.Some? then Served(cached.value)
    else if network.Some? then Served(network.value)
    else NetworkError
  }

  /** After a successful revalidation the next lookup finds the fresh response. */
  lemma RevalidationRefreshesNextMatch(cache: Cache, url: string, response: Response)
    ensures Match(Revalidated(cache, url, Some(response)), url) == Some(response)
  {
  }
}
