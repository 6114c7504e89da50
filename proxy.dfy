/**
 * src/proxy.rs: a handler that forwards a request, unchanged, to whichever
 * plugin of the earlier registry its path matches.
 */
module Proxy {
  import opened Wrappers
  import opened Http
  import opened LegacyRegistry

  const ProxyHeader := "x-valor-proxy"
  const NotSupportedPrefix := "Plugin not supported: "

  /** A registered plugin's own `handle_request`. */
  type Forward = (HandlerRef, Request) -> Response

  /**
   * `ReverseProxyHandler::handle_request`: the matched plugin's response with
   * `x-valor-proxy` set to that plugin's name, or a 404 naming the path.
   */
  method HandleRequest(registry: PluginRegistry, request: Request, forward: Forward) returns (res: Response)
    ensures MatchPluginHandler(registry.State(), request.path).Some? ==>
      var (plugin, handler) := MatchPluginHandler(registry.State(), request.path).value;
      var inner := forward(handler, request);
      && res.status == inner.status && res.body == inner.body
      && Values(res.headers, ProxyHeader) == [plugin.name]
      && (forall n :: n != ProxyHeader ==> Values(res.headers, n) == Values(inner.headers, n))
    ensures MatchPluginHandler(registry.State(), request.path).None? ==>
      && res.status == StatusNotFound
      && res.body == Text(NotSupportedPrefix + request.path)
      && Values(res.headers, ContentType) == [PlainTextMime]
      && Values(res.headers, ProxyHeader) == []
  {
    var path := request.path;
    var maybePlugin := MatchPluginHandler(registry.State(), path);
    if maybePlugin.Some? {
      var (plugin, handler) := maybePlugin.value;
      var r := forward(handler, request);
      r := r.(headers := InsertHeader(r.headers, ProxyHeader, plugin.name));
      return r;
    }
    var body := NotSupportedPrefix;
    body := body + path;
    res := FromStatus(StatusNotFound);
    res := SetBody(res, Text(body));
  }
}
