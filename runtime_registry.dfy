/**
 * src/runtime/registry.rs: the plugin registry of the runtime (plugins by
 * name plus two routes per plugin) and the `_plugins` endpoint handler that
 * lists and adds plugins.
 */
module RuntimeRegistry {
  import opened Wrappers
  import opened Text
  import opened Http
  import opened VluginDefinition
  import opened RuntimeErrors
  import opened RouteTree
  import Vlugin

  /** The identity of a registered `Rc<dyn Vlugin>`. */
  type HandlerRef = nat

  type PluginHandler = (VluginDef, HandlerRef)

  datatype Registry = Registry(plugins: map<string, PluginHandler>, routes: RouteTable)

  datatype RegistrationError = RegistrationError

  const EmptyRegistry := Registry(map[], map[])

  /** The literal route a plugin is mounted at: `/` followed by `prefix_or_name`. */
  function MountRoute(def: VluginDef): string {
    "/" + PrefixOrName(def)
  }

  /** The catch-all route below the mount point. */
  function MountCatchAll(def: VluginDef): string {
    MountRoute(def) + "/*"
  }

  /**
   * Plugins are keyed by their own names, and every route leads to a
   * registered plugin whose mount point produced that route.
   */
  ghost predicate Consistent(reg: Registry) {
    && (forall n :: n in reg.plugins ==> reg.plugins[n].0.name == n)
    && (forall p :: p in reg.routes ==>
          && reg.routes[p] in reg.plugins
          && (p == MountRoute(reg.plugins[reg.routes[p]].0) || p == MountCatchAll(reg.plugins[reg.routes[p]].0)))
  }

  /** `register`: refuse a taken name; otherwise add the plugin and its two routes. */
  function WithPlugin(reg: Registry, def: VluginDef, handler: HandlerRef): (r: Result<Registry, RegistrationError>)
    ensures r.Err? <==> def.name in reg.plugins
    ensures r.Ok? ==> && r.value.plugins == reg.plugins[def.name := (def, handler)]
                      && r.value.routes == reg.routes[MountRoute(def) := def.name][MountCatchAll(def) := def.name]
  {
    if def.name in reg.plugins then Err(RegistrationError)
    else
      var routes := reg.routes[MountRoute(def) := def.name][MountCatchAll(def) := def.name];
      Ok(Registry(reg.plugins[def.name := (def, handler)], routes))
  }

  /** Registration keeps the registry consistent. */
  lemma WithPluginConsistent(reg: Registry, def: VluginDef, handler: HandlerRef)
    requires Consistent(reg) && WithPlugin(reg, def, handler).Ok?
    ensures Consistent(WithPlugin(reg, def, handler).value)
  {
    var r := WithPlugin(reg, def, handler).value;
    forall n | n in r.plugins
      ensures r.plugins[n].0.name == n
    {
      if n != def.name {
        assert r.plugins[n] == reg.plugins[n];
      }
    }
    forall p | p in r.routes
      ensures r.routes[p] in r.plugins
      ensures p == MountRoute(r.plugins[r.routes[p]].0) || p == MountCatchAll(r.plugins[r.routes[p]].0)
    {
      RouteKept(reg, def, handler, r, p);
    }
  }

  /** One route of the new registry: a route of the new plugin, or an old route left as it was. */
  lemma RouteKept(reg: Registry, def: VluginDef, handler: HandlerRef, r: Registry, p: string)
    requires Consistent(reg) && def.name !in reg.plugins
    requires r.plugins == reg.plugins[def.name := (def, handler)]
    requires r.routes == reg.routes[MountRoute(def) := def.name][MountCatchAll(def) := def.name]
    requires p in r.routes
    ensures r.routes[p] in r.plugins
    ensures p == MountRoute(r.plugins[r.routes[p]].0) || p == MountCatchAll(r.plugins[r.routes[p]].0)
  {
    if p == MountRoute(def) || p == MountCatchAll(def) {
      assert r.routes[p] == def.name;
      assert r.plugins[def.name] == (def, handler);
    } else {
      var n := reg.routes[p];
      assert r.routes[p] == n;
      assert n in reg.plugins && n != def.name;
      assert r.plugins[n] == reg.plugins[n];
    }
  }

  /**
   * `match_vlugin`: the definition and handler of the plugin routed to
   * `path`; `None` when no route matches or the routed name has no entry.
   */
  function Match(reg: Registry, path: string): (r: Option<PluginHandler>)
    ensures Find(reg.routes, path).None? ==> r.None?
    ensures Find(reg.routes, path).Some? ==> (r.Some? <==> Find(reg.routes, path).value in reg.plugins)
    ensures r.Some? ==> r.value == reg.plugins[Find(reg.routes, path).value]
    ensures r.Some? ==> exists n :: n in reg.plugins && reg.plugins[n] == r.value
  {
    match Find(reg.routes, path)
    case None => None
    case Some(name) => if name in reg.plugins then Some(reg.plugins[name]) else None
  }

  /** No `:` (a `PathTree` parameter) and no `*` (a wildcard) anywhere in `m`. */
  predicate NoPatternSyntax(m: string) {
    forall k :: 0 <= k < |m| ==> m[k] != ':' && m[k] != '*'
  }

  /** A mount point that `PathTree` reads literally: it holds none of the pattern syntax. */
  predicate LiteralMount(def: VluginDef) {
    NoPatternSyntax(PrefixOrName(def))
  }

  ghost predicate MountsLiteral(reg: Registry) {
    forall n :: n in reg.plugins ==> LiteralMount(reg.plugins[n].0)
  }

  lemma TrimSlashes(s: string)
    requires s == [] || s[0] != '/'
    ensures TrimStart("/" + s, {'/'}) == s
  {
    assert ("/" + s)[1..] == s;
  }

  /** A path matching either route of a literal mount point starts, after its leading slashes, with the mount point. */
  lemma MountRoutePrefix(def: VluginDef, p: string, path: string)
    requires LiteralMount(def) && (p == MountRoute(def) || p == MountCatchAll(def)) && Matches(p, path)
    ensures StartsWith(TrimStart(path, {'/'}), PrefixOrName(def))
  {
    var m := PrefixOrName(def);
    if m != [] {
      assert m[|m| - 1] != '*';
      if p == MountRoute(def) {
        LiteralRoutePrefix(m, path);
      } else {
        CatchAllRoutePrefix(m, path);
      }
    }
  }

  lemma LiteralRoutePrefix(m: string, path: string)
    requires m != [] && m[0] != '/' && m[|m| - 1] != '*' && Matches("/" + m, path)
    ensures StartsWith(TrimStart(path, {'/'}), m)
  {
    var p := "/" + m;
    assert p[|p| - 1] == m[|m| - 1];
    TrimSlashes(m);
  }

  lemma CatchAllRoutePrefix(m: string, path: string)
    requires m != [] && m[0] != '/' && Matches("/" + m + "/*", path)
    ensures StartsWith(TrimStart(path, {'/'}), m)
  {
    var p := "/" + m + "/*";
    assert p[..|p| - 1] == "/" + m + "/";
    var rest := path[|m| + 2..];
    assert path == "/" + (m + "/" + rest);
    TrimSlashes(m + "/" + rest);
  }

  /** A match comes from a route that matches the path and names a registered plugin. */
  lemma MatchRouted(reg: Registry, path: string) returns (p: string)
    requires Match(reg, path).Some?
    ensures p in reg.routes && Matches(p, path)
    ensures reg.routes[p] in reg.plugins && Match(reg, path).value == reg.plugins[reg.routes[p]]
  {
    p := FindSound(reg.routes, path);
  }

  /** In a consistent registry, every path some route matches finds a plugin. */
  lemma MatchComplete(reg: Registry, path: string, p: string)
    requires Consistent(reg) && p in reg.routes && Matches(p, path)
    ensures Match(reg, path).Some?
  {
    FindComplete(reg.routes, path, p);
    var q := FindSound(reg.routes, path);
    assert reg.routes[q] in reg.plugins;
  }

  /**
   * The `expect("prefix")` in the runtime cannot fail: once leading slashes
   * are trimmed, a path the registry routes to a plugin starts with that
   * plugin's `prefix_or_name`.
   */
  lemma MatchedPathHasPrefix(reg: Registry, path: string)
    requires Consistent(reg) && MountsLiteral(reg) && Match(reg, path).Some?
    ensures StartsWith(TrimStart(path, {'/'}), PrefixOrName(Match(reg, path).value.0))
  {
    var p := FindSound(reg.routes, path);
    var n := reg.routes[p];
    assert Match(reg, path) == Some(reg.plugins[n]);
    MountRoutePrefix(reg.plugins[n].0, p, path);
  }

  /**
   * Why the runtime needs literal mount points: a plugin mounted at `*` gets
   * the catch-all route "slash, star", which swallows every other path, although none
   * of those paths starts with `*`.
   */
  lemma StarMountMisroutes(def: VluginDef, handler: HandlerRef, s: string)
    requires PrefixOrName(def) == "*" && s != [] && s[0] != '/' && s[0] != '*'
    ensures Match(WithPlugin(EmptyRegistry, def, handler).value, "/" + s) == Some((def, handler))
    ensures !StartsWith(TrimStart("/" + s, {'/'}), PrefixOrName(def))
  {
    StarMountMatches(def, handler, "/" + s);
    TrimSlashes(s);
  }

  /** A plugin mounted at `*` alone in the registry is matched by every path that starts with a slash. */
  lemma StarMountMatches(def: VluginDef, handler: HandlerRef, path: string)
    requires PrefixOrName(def) == "*" && path != [] && path[0] == '/'
    ensures Match(WithPlugin(EmptyRegistry, def, handler).value, path) == Some((def, handler))
  {
    var reg := WithPlugin(EmptyRegistry, def, handler).value;
    assert MountRoute(def) == "/*" && IsCatchAll("/*");
    assert Matches("/*", path);
    FindComplete(reg.routes, path, "/*");
    var _ := FindSound(reg.routes, path);
  }

  /**
   * Why the runtime also needs mount points without `:`: `PathTree` reads a
   * `:name` segment as a parameter, so the routes of a mount `pre:name` also
   * answer `/pre` followed by any other segment. Such a path does not start
   * with the mount point, and the runtime's `expect("prefix")` would panic.
   * The route tables here read `:` literally, so only the failing strip is stated.
   */
  lemma ParamMountMisforwards(def: VluginDef, pre: string, param: string, seg: string)
    requires PrefixOrName(def) == pre + ":" + param && seg != [] && seg[0] != ':' && seg[0] != '/'
    ensures !LiteralMount(def)
    ensures !StartsWith(TrimStart("/" + pre + seg, {'/'}), PrefixOrName(def))
  {
    var m := PrefixOrName(def);
    assert m[|pre|] == ':';
    var s := pre + seg;
    assert "/" + pre + seg == "/" + s;
    if pre != [] {
      assert s[0] == m[0];
    }
    TrimSlashes(s);
    assert |s| <= |pre| || s[|pre|] != m[|pre|];
  }

  /** The documented example: a plugin mounted at `api/:v` is refused, and `/api/x` would not strip. */
  lemma ApiParamMount(def: VluginDef)
    requires PrefixOrName(def) == "api/:v"
    ensures !LiteralMount(def)
    ensures !StartsWith(TrimStart("/api/x", {'/'}), PrefixOrName(def))
  {
    assert "api/:v" == "api/" + ":" + "v";
    ParamMountMisforwards(def, "api/", "v", "x");
  }

  /** A plugin alone in the registry answers its mount route and every path below it. */
  lemma OnlyPluginMatches(def: VluginDef, handler: HandlerRef, path: string)
    requires path == MountRoute(def) || StartsWith(path, MountRoute(def) + "/")
    ensures Match(WithPlugin(EmptyRegistry, def, handler).value, path) == Some((def, handler))
  {
    var reg := WithPlugin(EmptyRegistry, def, handler).value;
    assert reg.routes == map[MountRoute(def) := def.name][MountRoute(def) + "/*" := def.name];
    LoneRoutesFind(MountRoute(def), def.name, path);
  }

  /** A lone plugin answers every path that continues its mount route with `/`. */
  lemma BelowMountMatches(def: VluginDef, handler: HandlerRef, rest: string)
    requires rest != [] && rest[0] == '/'
    ensures Match(WithPlugin(EmptyRegistry, def, handler).value, MountRoute(def) + rest) == Some((def, handler))
  {
    var reg := WithPlugin(EmptyRegistry, def, handler).value;
    assert reg.routes == map[MountRoute(def) := def.name][MountRoute(def) + "/*" := def.name];
    LoneRoutesFindBelow(MountRoute(def), def.name, rest);
  }

  /**
   * `match_with_leading_slash`, `match_without_leading_slash` and
   * `match_all_after_prefix`, for a plugin registered as `name` (`"foo"` in
   * the tests, so the paths are `/_foo`, `/_foo/`, `/_foo/bar`, `/_foo/bar/`
   * and `/_foo/bar/baz`).
   */
  lemma FooMatches(name: string, handler: HandlerRef)
    requires name == "foo"
    ensures var reg := WithPlugin(EmptyRegistry, FromName(name), handler).value;
      var m := "/_" + name;
      && Match(reg, m) == Some((FromName(name), handler))
      && Match(reg, m + "/") == Some((FromName(name), handler))
      && Match(reg, m + "/bar") == Some((FromName(name), handler))
      && Match(reg, m + "/bar/") == Some((FromName(name), handler))
      && Match(reg, m + "/bar/baz") == Some((FromName(name), handler))
  {
    var def := FromName(name);
    FromNameMountPoint(name);
    assert MountRoute(def) == "/_" + name;
    OnlyPluginMatches(def, handler, MountRoute(def));
    BelowMountMatches(def, handler, "/");
    BelowMountMatches(def, handler, "/bar");
    BelowMountMatches(def, handler, "/bar/");
    BelowMountMatches(def, handler, "/bar/baz");
  }

  /** `register_multiple_times_gives_an_error`: the second registration is refused and one plugin remains. */
  lemma RegisterTwiceFails(name: string, h1: HandlerRef, h2: HandlerRef)
    ensures var once := WithPlugin(EmptyRegistry, FromName(name), h1);
      && once.Ok?
      && WithPlugin(once.value, FromName(name), h2).Err?
      && |once.value.plugins| == 1
  {
    var once := WithPlugin(EmptyRegistry, FromName(name), h1);
    assert once.value.plugins.Keys == {name};
  }

  /** `PluginRegistry`: the mutable registry the runtime and its clones share. */
  class PluginRegistry {
    var plugins: map<string, PluginHandler>
    var routes: RouteTable

    function State(): Registry
      reads this
    {
      Registry(plugins, routes)
    }

    ghost predicate Valid()
      reads this
    {
      Consistent(State())
    }

    constructor ()
      ensures Valid() && State() == EmptyRegistry
    {
      plugins := map[];
      routes := map[];
    }

    /** `register`: on a taken name nothing changes. */
    method Register(def: VluginDef, handler: HandlerRef) returns (r: Result<(), RegistrationError>)
      requires Valid()
      modifies this
      ensures Valid()
      ensures r.Err? <==> def.name in old(plugins)
      ensures r.Err? ==> State() == old(State())
      ensures r.Ok? ==> State() == WithPlugin(old(State()), def, handler).value
    {
      if def.name in plugins {
        return Err(RegistrationError);
      }
      WithPluginConsistent(State(), def, handler);
      var prefix := "/" + PrefixOrName(def);
      routes := routes[prefix := def.name];
      routes := routes[prefix + "/*" := def.name];
      plugins := plugins[def.name := (def, handler)];
      return Ok(());
    }

    /** `match_vlugin`. */
    function MatchVlugin(path: string): Option<PluginHandler>
      reads this
    {
      Match(State(), path)
    }
  }

  /** The abstract parts of the `_plugins` endpoint. */
  type FactoryRef = nat
  /** `request.body_json()`: a definition, or the decoding error. */
  type Decoder = Body -> Result<VluginDef, HttpError>
  /** `loader.load(&plugin)`. */
  type Loader = VluginDef -> Result<FactoryRef, RuntimeError>
  /** `factory(config)`: instantiates the handler. */
  type Instantiate = (FactoryRef, Option<VluginConfig>) -> Result<HandlerRef, Vlugin.Error>
  /** `serde_json::to_vec` of the listed definitions. */
  type Encoder = set<VluginDef> -> Result<seq<bv8>, string>

  /** The definitions the endpoint lists: one per registered plugin. */
  function Listing(reg: Registry): (r: set<VluginDef>)
    ensures forall d :: d in r <==> exists n :: n in reg.plugins && reg.plugins[n].0 == d
  {
    set n | n in reg.plugins :: reg.plugins[n].0
  }

  /** `RegistryHandler::on_msg`: the reply and the registry afterwards. */
  function Endpoint(reg: Registry, msg: Vlugin.Message, decode: Decoder, load: Loader, instantiate: Instantiate, encode: Encoder)
    : (r: (Result<Vlugin.Answer, Vlugin.Error>, Registry))
    ensures r.1 != reg ==> r.0 == Ok(Vlugin.Answer.Http(FromStatus(StatusCreated))) && msg.Http? && msg.req.verb == Post
    ensures msg.Ping? ==> r.0 == Err(Vlugin.NotSupported)
  {
    match msg
    case Ping => (Err(Vlugin.NotSupported), reg)
    case Http(request) =>
      match request.verb
      case Get =>
        (match encode(Listing(reg))
         case Ok(list) =>
           var res := FromBody(Bytes(list));
           Ok(Vlugin.Answer.Http(res.(headers := AppendHeader(res.headers, ContentType, JsonMime))))
         case Err(e) => Err(Vlugin.Error.Http(HttpError(StatusInternalServerError, e))), reg)
      case Post =>
        (match decode(request.body)
         case Err(e) => (Err(Vlugin.Error.Http(e)), reg)
         case Ok(plugin) =>
           match load(plugin)
           case Err(e) => (Err(Vlugin.Runtime(e)), reg)
           case Ok(factory) =>
             match instantiate(factory, plugin.config)
             case Err(e) => (Err(e), reg)
             case Ok(handler) =>
               match WithPlugin(reg, plugin.(config := None), handler)
               case Err(_) => (Err(Vlugin.Error.Http(HttpError(StatusConflict, plugin.name + " already exists"))), reg)
               case Ok(next) => (Ok(Vlugin.Answer.Http(FromStatus(StatusCreated))), next))
      case Other(_) => (Ok(Vlugin.Answer.Http(FromStatus(StatusMethodNotAllowed))), reg)
  }

  /** The endpoint serves the shared registry. */
  method HandleMessage(registry: PluginRegistry, msg: Vlugin.Message, decode: Decoder, load: Loader, instantiate: Instantiate, encode: Encoder)
    returns (r: Result<Vlugin.Answer, Vlugin.Error>)
    requires registry.Valid()
    modifies registry
    ensures registry.Valid()
    ensures (r, registry.State()) == Endpoint(old(registry.State()), msg, decode, load, instantiate, encode)
  {
    if msg.Ping? {
      return Err(Vlugin.NotSupported);
    }
    var request := msg.req;
    match request.verb {
      case Get =>
        var list := encode(Listing(registry.State()));
        if list.Err? {
          return Err(Vlugin.Error.Http(HttpError(StatusInternalServerError, list.error)));
        }
        var res := FromBody(Bytes(list.value));
        res := res.(headers := AppendHeader(res.headers, ContentType, JsonMime));
        return Ok(Vlugin.Answer.Http(res));
      case Post =>
        var plugin := decode(request.body);
        if plugin.Err? {
          return Err(Vlugin.Error.Http(plugin.error));
        }
        var def := plugin.value;
        var name := def.name;
        var factory := load(def);
        if factory.Err? {
          return Err(Vlugin.Runtime(factory.error));
        }
        var handler := instantiate(factory.value, def.config);
        if handler.Err? {
          return Err(handler.error);
        }
        def := def.(config := None);
        var added := registry.Register(def, handler.value);
        if added.Err? {
          return Err(Vlugin.Error.Http(HttpError(StatusConflict, name + " already exists")));
        }
        return Ok(Vlugin.Answer.Http(FromStatus(StatusCreated)));
      case Other(_) =>
        return Ok(Vlugin.Answer.Http(FromStatus(StatusMethodNotAllowed)));
    }
  }

  /** Only GET and POST are served: `Ping` is refused and any other verb gets 405, the registry untouched. */
  lemma EndpointRefuses(reg: Registry, req: Request, decode: Decoder, load: Loader, instantiate: Instantiate, encode: Encoder)
    ensures Endpoint(reg, Vlugin.Ping, decode, load, instantiate, encode) == (Err(Vlugin.NotSupported), reg)
    ensures req.verb.Other? ==> Endpoint(reg, Vlugin.Message.Http(req), decode, load, instantiate, encode)
                                == (Ok(Vlugin.Answer.Http(FromStatus(StatusMethodNotAllowed))), reg)
  {
  }

  /**
   * GET leaves the registry alone and answers the encoded listing, or a 500
   * with the encoder's message. The JSON type is appended after the byte
   * stream type the body already set, so the content type read back first
   * is the byte stream one.
   */
  lemma EndpointLists(reg: Registry, req: Request, decode: Decoder, load: Loader, instantiate: Instantiate, encode: Encoder)
    requires req.verb == Get
    ensures var (r, next) := Endpoint(reg, Vlugin.Message.Http(req), decode, load, instantiate, encode);
      && next == reg
      && (encode(Listing(reg)).Ok? ==>
            && r.Ok? && r.value.Http? && r.value.res.status == StatusOk
            && r.value.res.body == Bytes(encode(Listing(reg)).value)
            && Values(r.value.res.headers, ContentType) == [ByteStreamMime, JsonMime]
            && Header(r.value.res.headers, ContentType) == Some(ByteStreamMime))
      && (encode(Listing(reg)).Err? ==> r == Err(Vlugin.Error.Http(HttpError(StatusInternalServerError, encode(Listing(reg)).error))))
  {
  }

  /** What `Endpoint` returns for a POST whose definition decodes, loads and instantiates. */
  lemma EndpointPostOk(reg: Registry, req: Request, decode: Decoder, load: Loader, instantiate: Instantiate, encode: Encoder)
    requires req.verb == Post
    requires decode(req.body).Ok? && load(decode(req.body).value).Ok?
    requires instantiate(load(decode(req.body).value).value, decode(req.body).value.config).Ok?
    ensures var def := decode(req.body).value;
      var handler := instantiate(load(def).value, def.config).value;
      Endpoint(reg, Vlugin.Message.Http(req), decode, load, instantiate, encode)
        == if def.name in reg.plugins then (Err(Vlugin.Error.Http(HttpError(StatusConflict, def.name + " already exists"))), reg)
           else (Ok(Vlugin.Answer.Http(FromStatus(StatusCreated))), WithPlugin(reg, def.(config := None), handler).value)
  {
  }

  /**
   * A POST whose definition decodes, loads and instantiates registers it
   * without its configuration (which went to the factory) and answers 201;
   * a taken name answers 409 "<name> already exists" and changes nothing.
   */
  lemma EndpointAdds(reg: Registry, req: Request, decode: Decoder, load: Loader, instantiate: Instantiate, encode: Encoder)
    requires Consistent(reg) && req.verb == Post
    requires decode(req.body).Ok? && load(decode(req.body).value).Ok?
    requires instantiate(load(decode(req.body).value).value, decode(req.body).value.config).Ok?
    ensures var def := decode(req.body).value;
      var handler := instantiate(load(def).value, def.config).value;
      var (r, next) := Endpoint(reg, Vlugin.Message.Http(req), decode, load, instantiate, encode);
      && (def.name in reg.plugins ==> r == Err(Vlugin.Error.Http(HttpError(StatusConflict, def.name + " already exists"))) && next == reg)
      && (def.name !in reg.plugins ==>
            && r == Ok(Vlugin.Answer.Http(FromStatus(StatusCreated)))
            && Consistent(next)
            && def.name in next.plugins && next.plugins[def.name] == (def.(config := None), handler)
            && Match(next, MountRoute(def)) == Some((def.(config := None), handler)))
  {
    var def := decode(req.body).value;
    var handler := instantiate(load(def).value, def.config).value;
    var stored := def.(config := None);
    EndpointPostOk(reg, req, decode, load, instantiate, encode);
    if def.name !in reg.plugins {
      WithPluginConsistent(reg, stored, handler);
      var next := WithPlugin(reg, stored, handler).value;
      assert MountRoute(stored) == MountRoute(def);
      assert next.routes[MountRoute(def)] == def.name;
    }
  }

  /** A failing decode, load or instantiation is passed on as the error and changes nothing. */
  lemma EndpointPostFailures(reg: Registry, req: Request, decode: Decoder, load: Loader, instantiate: Instantiate, encode: Encoder)
    requires req.verb == Post
    ensures var (r, next) := Endpoint(reg, Vlugin.Message.Http(req), decode, load, instantiate, encode);
      && (decode(req.body).Err? ==> r == Err(Vlugin.Error.Http(decode(req.body).error)) && next == reg)
      && (decode(req.body).Ok? && load(decode(req.body).value).Err? ==>
            r == Err(Vlugin.Runtime(load(decode(req.body).value).error)) && next == reg)
      && (decode(req.body).Ok? && load(decode(req.body).value).Ok?
          && instantiate(load(decode(req.body).value).value, decode(req.body).value.config).Err? ==>
            r == Err(instantiate(load(decode(req.body).value).value, decode(req.body).value.config).error) && next == reg)
  {
  }
}
