/** The development proxy of vite.config.ts: requests under the proxy path
    are forwarded to the internal origin with the path prefix rewritten by
    the anchored pattern /^\/kilimostat-api/. */
module ViteConfig {
  import opened Base
  import opened ApiService

  const RewrittenPrefix := "/en/kilimostat-api"

  /** `path.replace(/^\/kilimostat-api/, '/en/kilimostat-api')`. */
  function Rewrite(path: string): (r: string)
    ensures ApiBaseUrl <= path ==> r == RewrittenPrefix + path[|ApiBaseUrl|..]
    ensures !(ApiBaseUrl <= path) ==> r == path
  {
    if ApiBaseUrl <= path then RewrittenPrefix + path[|ApiBaseUrl|..] else path
  }

  /** The match is a raw prefix, not a path segment. */
  lemma RewriteRawPrefix()
    ensures Rewrite("/kilimostat-apix") == "/en/kilimostat-apix"
    ensures Rewrite("/api/kilimostat-api") == "/api/kilimostat-api"
  {
    assert ApiBaseUrl <= "/kilimostat-apix";
    assert "/kilimostat-apix"[|ApiBaseUrl|..] == "x";
    assert "/api/kilimostat-api"[1] != ApiBaseUrl[1];
  }

  /** The rewrite target is the internal API's path prefix. */
  lemma RewrittenPrefixInternal()
    ensures RewrittenPrefix == InternalPathPrefix
  {
  }

  /** Round trip: the proxy forwards a proxy path to the internal origin,
      and toProxyUrl maps the forwarded URL back to the same path. */
  lemma RewriteToProxyUrl(p: string)
    requires ApiBaseUrl <= p
    ensures ToProxyUrl(InternalOrigin + Rewrite(p)) == p
  {
    var tail := p[|ApiBaseUrl|..];
    RewrittenPrefixInternal();
    AppendAssoc(InternalOrigin, InternalPathPrefix, tail);
    assert InternalOrigin + Rewrite(p) == InternalApi + tail;
    AppendPrefix(InternalApi, tail);
    PrefixSplit(ApiBaseUrl, ToProxyUrl(InternalApi + tail));
    PrefixSplit(ApiBaseUrl, p);
  }

  /** The other direction: a URL toProxyUrl rewrote is forwarded back to
      the internal URL it came from. */
  lemma ToProxyUrlRewrite(url: string)
    requires InternalApi <= url
    ensures InternalOrigin + Rewrite(ToProxyUrl(url)) == url
  {
    var tail := url[|InternalApi|..];
    var p := ToProxyUrl(url);
    PrefixSplit(ApiBaseUrl, p);
    assert Rewrite(p) == RewrittenPrefix + tail;
    RewrittenPrefixInternal();
    AppendAssoc(InternalOrigin, InternalPathPrefix, tail);
    PrefixSplit(InternalApi, url);
  }
}
