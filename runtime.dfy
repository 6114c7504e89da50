/**
 * src/runtime.rs: the runtime, itself a plugin, that routes each request
 * to the plugin mounted under its path and tags the answer.
 */
module Runtime {
  import opened Wrappers
  import opened Text
  import opened Http
  import opened VluginDefinition
  import opened RuntimeErrors
  import opened RuntimeRegistry
  import Vlugin

  const RequestIdHeader := "x-request-id"
  const CorrelationIdHeader := "x-correlation-id"
  const PluginHeader := "x-valor-plugin"

  /** `Url::set_path` on an `http` URL: a path always starts with `/`. */
  function SetPath(p: string): (r: string)
    ensures StartsWith(r, "/")
    ensures r == p || r == "/" + p
    ensures StartsWith(p, "/") ==> r == p
  {
    if StartsWith(p, "/") then p else "/" + p
  }

  /**
   * The path handed to the plugin: leading slashes trimmed, the mount point
   * stripped, and the remainder made absolute again.
   */
  function ForwardedPath(path: string, mount: string): (r: string)
    requires StartsWith(TrimStart(path, {'/'}), mount)
    ensures var rest := TrimStart(path, {'/'})[|mount|..];
      && TrimStart(path, {'/'}) == mount + rest
      && r == (if StartsWith(rest, "/") then rest else "/" + rest)
  {
    SetPath(StripPrefix(TrimStart(path, {'/'}), mount).value)
  }

  /** The two headers every HTTP answer gains, in this order. */
  function Tagged(hs: Headers, requestId: string, plugin: string): (r: Headers)
    ensures Values(r, CorrelationIdHeader) == Values(hs, CorrelationIdHeader) + [requestId]
    ensures Values(r, PluginHeader) == Values(hs, PluginHeader) + [plugin]
    ensures forall n :: n != CorrelationIdHeader && n != PluginHeader ==> Values(r, n) == Values(hs, n)
  {
    AppendHeader(AppendHeader(hs, CorrelationIdHeader, requestId), PluginHeader, plugin)
  }

  /** What the runtime makes of the plugin's answer: an HTTP answer is tagged, `Pong` and errors pass through. */
  function Answered(out: Result<Vlugin.Answer, Vlugin.Error>, requestId: string, plugin: string): (r: Result<Vlugin.Answer, Vlugin.Error>)
    ensures out.Err? ==> r == out
    ensures out == Ok(Vlugin.Pong) ==> r == out
    ensures out.Ok? && out.value.Http? ==>
      && r.Ok? && r.value.Http?
      && r.value.res.status == out.value.res.status && r.value.res.body == out.value.res.body
      && r.value.res.headers == Tagged(out.value.res.headers, requestId, plugin)
  {
    match out
    case Err(e) => Err(e)
    case Ok(Http(res)) => Ok(Vlugin.Answer.Http(res.(headers := Tagged(res.headers, requestId, plugin))))
    case Ok(Pong) => Ok(Vlugin.Pong)
  }

  /** A plugin's own handler, called with the forwarded message. */
  type Invoke = (HandlerRef, Vlugin.Message) -> Result<Vlugin.Answer, Vlugin.Error>

  /** `Loader::load` for a definition, and the factory it returns applied to a configuration. */
  type Load = VluginDef -> Result<FactoryRef, RuntimeError>

  class Runtime {
    var cx: Vlugin.Context
    const registry: PluginRegistry

    ghost predicate Valid()
      reads this, registry
    {
      registry.Valid() && MountsLiteral(registry.State())
    }

    /** `Runtime::new`: a default context and an empty registry of its own. */
    constructor ()
      ensures Valid() && fresh(registry) && fresh(cx)
      ensures registry.State() == EmptyRegistry && cx.State() == Vlugin.ContextState(map[], None)
    {
      cx := new Vlugin.Context();
      registry := new PluginRegistry();
    }

    /** `Clone`: a fresh default context, but the same registry. */
    method Clone() returns (r: Runtime)
      ensures fresh(r) && fresh(r.cx) && r.registry == registry
      ensures r.cx.State() == Vlugin.ContextState(map[], None)
    {
      r := new Runtime.Share(registry);
    }

    constructor Share(registry: PluginRegistry)
      ensures fresh(cx) && this.registry == registry && cx.State() == Vlugin.ContextState(map[], None)
    {
      cx := new Vlugin.Context();
      this.registry := registry;
    }

    /** `register_plugin`: a taken name becomes `RegisterVlugin(name)`. */
    method RegisterPlugin(def: VluginDef, handler: HandlerRef) returns (r: Result<(), RuntimeError>)
      requires registry.Valid()
      modifies registry
      ensures registry.Valid()
      ensures r.Err? <==> def.name in old(registry.plugins)
      ensures r.Err? ==> r.error == RegisterVlugin(def.name) && registry.State() == old(registry.State())
      ensures r.Ok? ==> registry.State() == WithPlugin(old(registry.State()), def, handler).value
      ensures MountsLiteral(old(registry.State())) && LiteralMount(def) ==> MountsLiteral(registry.State())
    {
      var name := def.name;
      var added := registry.Register(def, handler);
      if added.Err? {
        return Err(RegisterVlugin(name));
      }
      return Ok(());
    }

    /**
     * `load_plugin`: the loader's failure is `LoadVlugin`, the factory's is
     * `InstantiateVlugin`; the factory receives the configuration, which the
     * registered definition no longer holds.
     */
    method LoadPlugin(def: VluginDef, load: Load, instantiate: Instantiate) returns (r: Result<(), RuntimeError>)
      requires registry.Valid()
      modifies registry
      ensures registry.Valid()
      ensures MountsLiteral(old(registry.State())) && LiteralMount(def) ==> MountsLiteral(registry.State())
      ensures load(def).Err? ==> r == Err(LoadVlugin(def.name)) && registry.State() == old(registry.State())
      ensures load(def).Ok? && instantiate(load(def).value, def.config).Err? ==>
        r == Err(InstantiateVlugin(def.name)) && registry.State() == old(registry.State())
      ensures load(def).Ok? && instantiate(load(def).value, def.config).Ok? ==>
        var handler := instantiate(load(def).value, def.config).value;
        && (def.name in old(registry.plugins) ==> r == Err(RegisterVlugin(def.name)) && registry.State() == old(registry.State()))
        && (def.name !in old(registry.plugins) ==>
              r == Ok(()) && registry.State() == WithPlugin(old(registry.State()), def.(config := None), handler).value)
    {
      var factory := load(def);
      if factory.Err? {
        return Err(LoadVlugin(def.name));
      }
      var handler := instantiate(factory.value, def.config);
      if handler.Err? {
        return Err(InstantiateVlugin(def.name));
      }
      var plugin := def.(config := None);
      assert plugin.name == def.name;
      r := RegisterPlugin(plugin, handler.value);
      if r.Ok? {
        assert r.value == ();
      }
    }

    /**
     * `on_msg`: requires `x-request-id`, routes by path, forwards the request
     * with the mount point stripped, and tags an HTTP answer with
     * `x-correlation-id` (the request id) and `x-valor-plugin` (the plugin).
     */
    method OnMsg(msg: Vlugin.Message, invoke: Invoke) returns (r: Result<Vlugin.Answer, Vlugin.Error>)
      requires Valid()
      ensures msg.Ping? ==> r == Err(Vlugin.NotSupported)
      ensures msg.Http? && Header(msg.req.headers, RequestIdHeader).None? ==>
        r == Err(Vlugin.Error.Http(HttpError(StatusBadRequest, "Missing request ID")))
      ensures msg.Http? && Header(msg.req.headers, RequestIdHeader).Some? && registry.MatchVlugin(msg.req.path).None? ==>
        r == Err(Vlugin.Error.Http(HttpError(StatusNotFound, "No plugin matched")))
      ensures msg.Http? && Header(msg.req.headers, RequestIdHeader).Some? && registry.MatchVlugin(msg.req.path).Some? ==>
        var id := Header(msg.req.headers, RequestIdHeader).value;
        var matched := registry.MatchVlugin(msg.req.path).value;
        && StartsWith(TrimStart(msg.req.path, {'/'}), PrefixOrName(matched.0))
        && r == Answered(invoke(matched.1, Vlugin.Message.Http(msg.req.(path := ForwardedPath(msg.req.path, PrefixOrName(matched.0))))), id, matched.0.name)
    {
      if msg.Ping? {
        return Err(Vlugin.NotSupported);
      }
      var request := msg.req;
      var reqId := Header(request.headers, RequestIdHeader);
      if reqId.None? {
        return Err(Vlugin.Error.Http(HttpError(StatusBadRequest, "Missing request ID")));
      }
      var matched := registry.MatchVlugin(request.path);
      if matched.None? {
        return Err(Vlugin.Error.Http(HttpError(StatusNotFound, "No plugin matched")));
      }
      var (plugin, handler) := matched.value;
      MatchedPathHasPrefix(registry.State(), request.path);
      request := request.(path := ForwardedPath(request.path, PrefixOrName(plugin)));
      var out := invoke(handler, Vlugin.Message.Http(request));
      return Answered(out, reqId.value, plugin.name);
    }
  }

  /** The forwarded path is what follows the mount point, made absolute. */
  lemma ForwardedPathBelowMount(mount: string, rest: string)
    requires mount != [] && mount[0] != '/'
    ensures StartsWith(TrimStart("/" + mount + rest, {'/'}), mount)
    ensures ForwardedPath("/" + mount + rest, mount) == SetPath(rest)
  {
    assert "/" + mount + rest == "/" + (mount + rest);
    TrimSlashes(mount + rest);
  }

  /** The documented example: `/_foo/bar/baz` reaches plugin `foo` as `/bar/baz`. */
  lemma DocExampleForwarding(mount: string, rest: string)
    requires mount == "_foo" && rest == "/bar/baz"
    ensures StartsWith(TrimStart("/" + mount + rest, {'/'}), mount)
    ensures ForwardedPath("/" + mount + rest, mount) == rest
  {
    ForwardedPathBelowMount(mount, rest);
    assert rest[..1] == "/";
  }

  /**
   * The tags read back as the documentation shows: the request id under
   * `x-correlation-id` and the plugin name under `x-valor-plugin`, when the
   * plugin's own response did not already carry them.
   */
  lemma TagsReadBack(hs: Headers, requestId: string, plugin: string)
    requires Values(hs, CorrelationIdHeader) == [] && Values(hs, PluginHeader) == []
    ensures Header(Tagged(hs, requestId, plugin), CorrelationIdHeader) == Some(requestId)
    ensures Header(Tagged(hs, requestId, plugin), PluginHeader) == Some(plugin)
  {
  }
}
