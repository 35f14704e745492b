/** The fetch listener's decision: whether an intercepted request is handed to
    stale-while-revalidate or left to the browser's default network handling.
    The request URL is taken as already parsed into its parts. */
module Interceptor {

  /** The parts of a parsed URL the listener looks at. `protocol` keeps its
      trailing colon (`https:`), `port` is empty for the scheme's default port. */
  datatype Url = Url(protocol: string, hostname: string, port: string, href: string)

  /** An intercepted request: its method, whether it carries a `range` header,
      its URL and its cache mode (`default`, `only-if-cached`, ...). */
  datatype Request = Request(verb: string, hasRange: bool, url: Url, cacheMode: string)

  /** The worker's own location. */
  datatype Location = Location(origin: string, hostname: string, port: string)

  predicate StartsWith(s: string, prefix: string) {
    |prefix| <= |s| && s[..|prefix|] == prefix
  }

  /** Same host as the worker but another port: taken to be a development server. */
  predicate IsDevServerRequest(url: Url, self: Location) {
    url.hostname == self.hostname && url.port != self.port
  }

  /** The listener takes the request over (calls stale-while-revalidate). The
      early return for non-GET and ranged requests comes first, then the
      flags are combined. */
  function ShouldHandle(req: Request, self: Location, staticAssets: set<string>): (handle: bool)
    ensures handle ==> req.verb == "GET" && !req.hasRange
    ensures handle ==> StartsWith(req.url.protocol, "http")
    ensures handle ==> !IsDevServerRequest(req.url, self)
    ensures handle ==> req.cacheMode == "only-if-cached" ==> req.url.href in staticAssets
    ensures (&& req.verb == "GET" && !req.hasRange
             && StartsWith(req.url.protocol, "http")
             && !IsDevServerRequest(req.url, self)
             && (req.cacheMode != "only-if-cached" || req.url.href in staticAssets)) ==> handle
  {
    if req.verb != "GET" || req.hasRange then false
    else
      var isHttp := StartsWith(req.url.protocol, "http");
      var isDevServerRequest := IsDevServerRequest(req.url, self);
      var isStaticAsset := req.url.href in staticAssets;
      var skipBecauseUncached := req.cacheMode == "only-if-cached" && !isStaticAsset;
      isHttp && !isDevServerRequest && !skipBecauseUncached
  }

  /** The static-asset set matters only for `only-if-cached` requests. */
  lemma StaticAssetsOnlyMatterForOnlyIfCached(req: Request, self: Location, a: set<string>, b: set<string>)
    requires req.cacheMode != "only-if-cached"
    ensures ShouldHandle(req, self, a) == ShouldHandle(req, self, b)
  {
  }

  /** Knowing more static assets never makes the listener decline a request. */
  lemma MoreStaticAssetsHandleMore(req: Request, self: Location, a: set<string>, b: set<string>)
    requires a <= b
    ensures ShouldHandle(req, self, a) ==> ShouldHandle(req, self, b)
  {
  }

  /** An `only-if-cached` request for a static asset is still taken over when
      everything else allows it. */
  lemma OnlyIfCachedStaticAssetHandled(req: Request, self: Location, staticAssets: set<string>)
    requires req.verb == "GET" && !req.hasRange && req.cacheMode == "only-if-cached"
    requires req.url.protocol == "https:" && req.url.hostname != self.hostname
    requires req.url.href in staticAssets
    ensures ShouldHandle(req, self, staticAssets)
  {
    assert StartsWith("https:", "http");
  }

  /** Both `http:` and `https:` pass the scheme test; `data:` and `blob:` do not. */
  lemma SchemeTest()
    ensures StartsWith("http:", "http") && StartsWith("https:", "http")
    ensures !StartsWith("data:", "http") && !StartsWith("blob:", "http")
  {
    assert "http:"[..4] == "http" && "https:"[..4] == "http";
    assert "data:"[0] != 'h' && "blob:"[0] != 'h';
  }
}
