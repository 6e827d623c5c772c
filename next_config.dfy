/** The WebSocket proxy settings of frontend/next.config.mjs: the public
    proxy path, the service URL with its WebSocket scheme turned into the
    matching HTTP scheme, and the rewrite rule built from the two. The
    environment variables are parameters; an unset variable is None. */
module NextConfig {
  import opened Wrappers
  import opened Text

  const DefaultPath := "/api/ws"

  /** A value JavaScript treats as false: undefined or the empty string. */
  predicate Falsy(v: Option<string>) {
    v.None? || v.value == ""
  }

  /** The path with a leading "/" (the default path when unset or empty). */
  function WithLeadingSlash(path: Option<string>): (r: string)
    ensures |r| >= 1 && r[0] == '/'
    ensures Falsy(path) ==> r == DefaultPath
    ensures !Falsy(path) && path.value[0] == '/' ==> r == path.value
    ensures !Falsy(path) && path.value[0] != '/' ==> r == "/" + path.value
  {
    if Falsy(path) then DefaultPath
    else if StartsWith(path.value, "/") then path.value
    else "/" + path.value
  }

  /** normalizePath (next.config.mjs:2-8). */
  function NormalizePath(path: Option<string>): (r: string)
    ensures |r| >= 1 && r[0] == '/'
    ensures Falsy(path) ==> r == DefaultPath
    ensures var w := WithLeadingSlash(path);
            && (r == w || r == w[..|w| - 1])
            && (r != w <==> |w| > 1 && w[|w| - 1] == '/')
  {
    var w := WithLeadingSlash(path);
    if |w| > 1 && EndsWith(w, "/") then w[..|w| - 1] else w
  }

  /** "/" is left as it is: the one slash is never removed. */
  lemma RootPathStays()
    ensures NormalizePath(Some("/")) == "/"
  {
  }

  /** A path that has no trailing slash after its leading one is its own normalisation. */
  lemma NormalizedPathIsFixed(p: string)
    requires |p| >= 1 && p[0] == '/' && (|p| == 1 || p[|p| - 1] != '/')
    ensures NormalizePath(Some(p)) == p
  {
  }

  /** Only one trailing slash is removed, so normalising a path that ends in
      two slashes and normalising the result give different paths. */
  lemma NormalizePathNotIdempotent()
    ensures NormalizePath(Some("/a//")) == "/a/"
    ensures NormalizePath(Some(NormalizePath(Some("/a//")))) == "/a"
  {
    assert NormalizePath(Some("/a//")) == "/a/";
  }

  const WsScheme := "ws://"
  const WssScheme := "wss://"

  /** normalizeDestination (next.config.mjs:10-19). */
  function NormalizeDestination(url: Option<string>): (r: Option<string>)
    ensures Falsy(url) ==> r == url
    ensures !Falsy(url) && StartsWith(url.value, WsScheme) ==> r == Some("http://" + url.value[5..])
    ensures !Falsy(url) && StartsWith(url.value, WssScheme) ==> r == Some("https://" + url.value[6..])
    ensures !Falsy(url) && !StartsWith(url.value, WsScheme) && !StartsWith(url.value, WssScheme) ==> r == url
  {
    if Falsy(url) then url
    else if StartsWith(url.value, WsScheme) then
      assert |url.value| < 6 || url.value[..6][2] == url.value[..5][2];
      Some("http://" + url.value[5..])
    else if StartsWith(url.value, WssScheme) then Some("https://" + url.value[6..])
    else url
  }

  /** A URL beginning with 'h' has neither WebSocket scheme. */
  lemma HttpIsNoWebSocketScheme(u: string)
    requires |u| >= 1 && u[0] == 'h'
    ensures !StartsWith(u, WsScheme) && !StartsWith(u, WssScheme)
  {
    assert |u| < 5 || u[..5][0] == 'h';
    assert |u| < 6 || u[..6][0] == 'h';
  }

  /** Normalising a destination twice is normalising it once. */
  lemma NormalizeDestinationIdempotent(url: Option<string>)
    ensures NormalizeDestination(NormalizeDestination(url)) == NormalizeDestination(url)
  {
    var r := NormalizeDestination(url);
    if !Falsy(url) && r != url {
      HttpIsNoWebSocketScheme(r.value);
    }
  }

  datatype Rewrite = Rewrite(source: string, destination: string)

  /** rewrites(), given the normalised proxy path and service URL (next.config.mjs:34-45). */
  function Rewrites(wsProxyPath: string, wsServiceUrl: Option<string>): (r: seq<Rewrite>)
    ensures Falsy(wsServiceUrl) <==> r == []
    ensures !Falsy(wsServiceUrl) ==> r == [Rewrite(wsProxyPath, wsServiceUrl.value)]
  {
    if Falsy(wsServiceUrl) then [] else [Rewrite(wsProxyPath, wsServiceUrl.value)]
  }

  /** The rewrite table of the configuration for the two environment variables
      NEXT_PUBLIC_WS_PATH and WS_SERVICE_URL (next.config.mjs:21-22). */
  function ConfiguredRewrites(wsPath: Option<string>, serviceUrl: Option<string>): seq<Rewrite> {
    Rewrites(NormalizePath(wsPath), NormalizeDestination(serviceUrl))
  }

  /** With a service URL there is exactly one rule; its source starts with "/"
      and its destination never keeps a WebSocket scheme. */
  lemma ConfiguredRewritesShape(wsPath: Option<string>, serviceUrl: Option<string>)
    ensures Falsy(serviceUrl) ==> ConfiguredRewrites(wsPath, serviceUrl) == []
    ensures !Falsy(serviceUrl) ==>
      var rs := ConfiguredRewrites(wsPath, serviceUrl);
      && |rs| == 1 && rs[0].source[0] == '/'
      && !StartsWith(rs[0].destination, WsScheme) && !StartsWith(rs[0].destination, WssScheme)
  {
    if !Falsy(serviceUrl) {
      var d := NormalizeDestination(serviceUrl);
      if d != serviceUrl {
        HttpIsNoWebSocketScheme(d.value);
      }
    }
  }
}
