/**
 * src/registry.rs: the earlier plugin registry. A plugin brings its own
 * route (`prefix()`), registration never fails and a second registration
 * under a name replaces the first.
 */
module LegacyRegistry {
  import opened Wrappers
  import opened Http
  import opened RouteTree

  /** A plugin as this registry sees it: its name and the route it is served under. */
  datatype Plugin = Plugin(name: string, prefix: string)

  /** The identity of a registered `RequestHandler`. */
  type HandlerRef = nat

  type PluginHandler = (Plugin, HandlerRef)

  datatype Registry = Registry(plugins: map<string, PluginHandler>, routes: RouteTable)

  /** Plugins are keyed by their names and every route names a registered plugin. */
  ghost predicate Keyed(reg: Registry) {
    && (forall n :: n in reg.plugins ==> reg.plugins[n].0.name == n)
    && (forall p :: p in reg.routes ==> reg.routes[p] in reg.plugins)
  }

  /** `register`: route the plugin's prefix to its name and (re)place its entry. */
  function WithPlugin(reg: Registry, plugin: Plugin, handler: HandlerRef): (r: Registry)
    ensures Keyed(reg) ==> Keyed(r)
    ensures r.plugins.Keys == reg.plugins.Keys + {plugin.name} && r.plugins[plugin.name] == (plugin, handler)
    ensures forall n :: n in reg.plugins && n != plugin.name ==> r.plugins[n] == reg.plugins[n]
    ensures r.routes.Keys == reg.routes.Keys + {plugin.prefix} && r.routes[plugin.prefix] == plugin.name
  {
    Registry(reg.plugins[plugin.name := (plugin, handler)], reg.routes[plugin.prefix := plugin.name])
  }

  /** `match_plugin_handler`: `None` when no route matches or the routed name has no entry. */
  function MatchPluginHandler(reg: Registry, path: string): (r: Option<PluginHandler>)
    ensures Find(reg.routes, path).None? ==> r.None?
    ensures Find(reg.routes, path).Some? ==>
      (r.Some? <==> Find(reg.routes, path).value in reg.plugins)
    ensures r.Some? ==> r.value == reg.plugins[Find(reg.routes, path).value]
  {
    match Find(reg.routes, path)
    case None => None
    case Some(name) => if name in reg.plugins then Some(reg.plugins[name]) else None
  }

  /** `plugin_list`: the registered plugins. */
  function PluginList(reg: Registry): (r: set<Plugin>)
    ensures forall p :: p in r <==> exists n :: n in reg.plugins && reg.plugins[n].0 == p
  {
    set n | n in reg.plugins :: reg.plugins[n].0
  }

  lemma {:induction false} ListOfKeyed(plugins: map<string, PluginHandler>)
    requires forall n :: n in plugins ==> plugins[n].0.name == n
    ensures |set n | n in plugins :: plugins[n].0| == |plugins|
    decreases |plugins|
  {
    if plugins != map[] {
      var n :| n in plugins;
      var rest := plugins - {n};
      ListOfKeyed(rest);
      var all := set m | m in plugins :: plugins[m].0;
      var restList := set m | m in rest :: rest[m].0;
      forall p | p in all
        ensures p in restList + {plugins[n].0}
      {
        var m :| m in plugins && plugins[m].0 == p;
        if m != n {
          assert m in rest && rest[m].0 == p;
        }
      }
      assert all == restList + {plugins[n].0};
      assert plugins[n].0 !in restList;
      assert |rest| == |plugins| - 1;
    }
  }

  /** The list holds exactly one plugin per registered name. */
  lemma PluginListOnePerName(reg: Registry)
    requires Keyed(reg)
    ensures |PluginList(reg)| == |reg.plugins|
    ensures forall p :: p in PluginList(reg) ==> p.name in reg.plugins && reg.plugins[p.name].0 == p
  {
    ListOfKeyed(reg.plugins);
  }

  /** Registering a name again replaces its entry, and its earlier route now leads to the new entry. */
  lemma ReRegisterReplaces(reg: Registry, first: Plugin, second: Plugin, h1: HandlerRef, h2: HandlerRef, path: string)
    requires first.name == second.name
    requires Find(WithPlugin(WithPlugin(reg, first, h1), second, h2).routes, path) == Some(first.name)
    ensures MatchPluginHandler(WithPlugin(WithPlugin(reg, first, h1), second, h2), path) == Some((second, h2))
    ensures |WithPlugin(WithPlugin(reg, first, h1), second, h2).plugins| == |WithPlugin(reg, first, h1).plugins|
  {
    var once := WithPlugin(reg, first, h1);
    assert WithPlugin(once, second, h2).plugins.Keys == once.plugins.Keys;
  }

  /** The mutable registry. */
  class PluginRegistry {
    var plugins: map<string, PluginHandler>
    var routes: RouteTable

    function State(): Registry
      reads this
    {
      Registry(plugins, routes)
    }

    ghost predicate Valid()
      reads this
    {
      Keyed(State())
    }

    constructor ()
      ensures Valid() && State() == Registry(map[], map[])
    {
      plugins := map[];
      routes := map[];
    }

    method Register(plugin: Plugin, handler: HandlerRef)
      requires Valid()
      modifies this
      ensures Valid() && State() == WithPlugin(old(State()), plugin, handler)
    {
      routes := routes[plugin.prefix := plugin.name];
      plugins := plugins[plugin.name := (plugin, handler)];
    }
  }

  /** `request.body_json()`: a plugin, or the decoding error's text. */
  type Decoder = Body -> Result<Plugin, string>
  /** `loader.load(&plugin)`: the handler, or `None` when loading fails. */
  type Loader = Plugin -> Option<HandlerRef>
  /** `json::to_vec` of the listed plugins, `None` when it fails. */
  type Encoder = set<Plugin> -> Option<seq<bv8>>

  const LoadFailure := "Can't load plugin"

  /** `RegistryHandler::handle_request`: the response and the registry afterwards. */
  function Endpoint(reg: Registry, request: Request, decode: Decoder, load: Loader, encode: Encoder): (r: (Response, Registry))
    ensures Keyed(reg) ==> Keyed(r.1)
    ensures r.1 != reg ==> r.0 == FromStatus(StatusCreated) && request.verb == Post
  {
    match request.verb
    case Get =>
      (match encode(PluginList(reg))
       case Some(list) => Response(StatusOk, map[ContentType := [JsonMime]], Bytes(list))
       case None => FromStatus(StatusInternalServerError), reg)
    case Post =>
      (match decode(request.body)
       case Ok(plugin) =>
         (match load(plugin)
          case Some(handler) => (FromStatus(StatusCreated), WithPlugin(reg, plugin, handler))
          case None => (Response(StatusUnprocessableEntity, map[], Text(LoadFailure)), reg))
       case Err(e) => (Response(StatusBadRequest, map[], Text(e)), reg))
    case Other(_) => (FromStatus(StatusMethodNotAllowed), reg)
  }

  method HandleRequest(registry: PluginRegistry, request: Request, decode: Decoder, load: Loader, encode: Encoder)
    returns (res: Response)
    requires registry.Valid()
    modifies registry
    ensures registry.Valid()
    ensures (res, registry.State()) == Endpoint(old(registry.State()), request, decode, load, encode)
  {
    match request.verb {
      case Get =>
        var list := encode(PluginList(registry.State()));
        if list.None? {
          return FromStatus(StatusInternalServerError);
        }
        return Response(StatusOk, map[ContentType := [JsonMime]], Bytes(list.value));
      case Post =>
        var plugin := decode(request.body);
        if plugin.Err? {
          return Response(StatusBadRequest, map[], Text(plugin.error));
        }
        var handler := load(plugin.value);
        if handler.None? {
          return Response(StatusUnprocessableEntity, map[], Text(LoadFailure));
        }
        registry.Register(plugin.value, handler.value);
        return FromStatus(StatusCreated);
      case Other(_) =>
        return FromStatus(StatusMethodNotAllowed);
    }
  }

  /** What `Endpoint` returns for a POST, case by case. */
  lemma EndpointPostCases(reg: Registry, request: Request, decode: Decoder, load: Loader, encode: Encoder)
    requires request.verb == Post
    ensures decode(request.body).Err? ==>
      Endpoint(reg, request, decode, load, encode) == (Response(StatusBadRequest, map[], Text(decode(request.body).error)), reg)
    ensures decode(request.body).Ok? && load(decode(request.body).value).None? ==>
      Endpoint(reg, request, decode, load, encode) == (Response(StatusUnprocessableEntity, map[], Text(LoadFailure)), reg)
    ensures decode(request.body).Ok? && load(decode(request.body).value).Some? ==>
      var plugin := decode(request.body).value;
      Endpoint(reg, request, decode, load, encode) == (FromStatus(StatusCreated), WithPlugin(reg, plugin, load(plugin).value))
  {
  }

  /**
   * POST outcomes: a loadable plugin is registered (replacing any namesake)
   * with 201; a failing loader gives 422 "Can't load plugin" and an
   * undecodable body 400 with the decoder's message, both leaving the
   * registry as it was.
   */
  lemma EndpointPost(reg: Registry, request: Request, decode: Decoder, load: Loader, encode: Encoder)
    requires Keyed(reg) && request.verb == Post
    ensures var (res, next) := Endpoint(reg, request, decode, load, encode);
      && Keyed(next)
      && (decode(request.body).Ok? && load(decode(request.body).value).Some? ==>
            var plugin := decode(request.body).value;
            && res.status == StatusCreated
            && next.plugins[plugin.name] == (plugin, load(plugin).value)
            && |next.plugins| == |reg.plugins| + (if plugin.name in reg.plugins then 0 else 1))
      && (decode(request.body).Ok? && load(decode(request.body).value).None? ==>
            res == Response(StatusUnprocessableEntity, map[], Text(LoadFailure)) && next == reg)
      && (decode(request.body).Err? ==>
            res.status == StatusBadRequest && res.body == Text(decode(request.body).error) && next == reg)
  {
    EndpointPostCases(reg, request, decode, load, encode);
    if decode(request.body).Ok? && load(decode(request.body).value).Some? {
      var plugin := decode(request.body).value;
      WithPluginCount(reg, plugin, load(plugin).value);
    }
  }

  /** Registering adds one entry for a new name and none for a known one. */
  lemma WithPluginCount(reg: Registry, plugin: Plugin, handler: HandlerRef)
    ensures |WithPlugin(reg, plugin, handler).plugins| == |reg.plugins| + (if plugin.name in reg.plugins then 0 else 1)
  {
    var next := WithPlugin(reg, plugin, handler);
    if plugin.name in reg.plugins {
      assert next.plugins.Keys == reg.plugins.Keys;
    } else {
      assert next.plugins.Keys == reg.plugins.Keys + {plugin.name};
    }
  }

  /** GET and the other verbs never change the registry; other verbs get 405. */
  lemma EndpointReadOnly(reg: Registry, request: Request, decode: Decoder, load: Loader, encode: Encoder)
    requires request.verb != Post
    ensures Endpoint(reg, request, decode, load, encode).1 == reg
    ensures request.verb.Other? ==> Endpoint(reg, request, decode, load, encode).0 == FromStatus(StatusMethodNotAllowed)
    ensures request.verb == Get ==> Endpoint(reg, request, decode, load, encode).0.status
                                    == (if encode(PluginList(reg)).Some? then StatusOk else StatusInternalServerError)
    ensures request.verb == Get && encode(PluginList(reg)).Some? ==>
      Endpoint(reg, request, decode, load, encode).0 == Response(StatusOk, map[ContentType := [JsonMime]], Bytes(encode(PluginList(reg)).value))
  {
  }
}
