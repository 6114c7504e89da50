# Valor, modelled in Dafny

Valor runs "vlugins": plugins mounted under URL prefixes, which are reached either through a browser service worker or through a native runtime. This project models the parts of Valor that decide where a message goes and what comes back. Those parts are:

- **The service worker's request/response correlation** (`valor_web/sw.js`, and the variant `valor-web/sw.js`). The worker intercepts each fetch that is not allow-listed. It tags the fetch with a fresh `x-request-id` and broadcasts it. It then races the reply whose `x-correlation-id` echoes that id against a 3000 ms timer that answers 504 "Timeout!".
  - `Correlation` states this protocol as pure functions over a table of pending calls.
  - `ValorWebWorker.Worker` and `HashedWorker.Worker` are the two workers as classes. Their methods are proved to move that table exactly as the functions say.
- **The runtime** (`src/runtime.rs`, `src/runtime/*.rs`):
  - the plugin registry and its `_plugins` endpoint;
  - mount-point derivation (`prefix_or_name`);
  - routing by path;
  - prefix stripping and the `x-correlation-id` / `x-valor-plugin` tagging of answers;
  - plugin loading and its error mapping.
- **The earlier handler API:**
  - the legacy registry (`src/registry.rs`);
  - the reverse proxy (`src/proxy.rs`);
  - `Handler`'s context and conversions (`src/message_handler.rs`).
- **`Vlugin`:** its context, its creation and the conversions between its message types and HTTP (`src/vlugin.rs`).
- **The managed-module dispatch** (`lib/core/src/interop/managed.rs`, `lib/core/src/structures/method.rs`).
- **The `module` procedural macro:** parsing extension attributes and method names (`lib/proc/src/parse.rs`), and the code it emits (`lib/proc/src/expand.rs`).
- **The `#[vlugin]` attribute's checks** (`valor_plugin/src/lib.rs`).
- **How `valor-run` picks the plugins to start** from a typed list of indices (`bin/valor-run/src/main.rs`).

Code that updates state in place is modelled as classes with `modifies` clauses. Each such method is specified by a pure function of the old state, and the properties are proved about those functions:

- the service workers;
- both `PluginRegistry` types;
- `Context`;
- `Runtime`;
- the token streams of the macro;
- the activation loop of `valor-run`.

Parsing, routing, conversions and validation are modelled as functions, and lemmas relate them.

Modules and files:

- `Wrappers`, `Text` (wrappers.dfy, text.dfy): `Option`/`Result`; `str` trimming, prefix stripping, joining
- `Envelope` (sw_envelope.dfy): the data the workers move: request, envelope, reply, response
- `Correlation` (sw_correlation.dfy): the pending-call table and its events
- `ValorWebWorker` (sw_valor_web.dfy): `valor_web/sw.js`
- `HashedWorker` (sw_valor_web_hashed.dfy): `valor-web/sw.js`, and the key mismatch it has
- `Http` (http.dfy): the parts of `http-types` the code uses: status, multi-valued headers, body
- `VluginDefinition` (vlugin_definition.dfy): `VluginDef`, `prefix_or_name`, its `From` impls
- `RuntimeErrors` (runtime_error.dfy): the runtime's `Error`
- `TypeMap` (type_map.dfy): the `TypeId`-keyed store behind both `Context`s
- `Vlugin`, `MessageHandler` (vlugin.dfy, message_handler.dfy): contexts, `create`, message and error conversions
- `RouteTree` (routes.dfy): the `path-tree` lookups the registries rely on
- `RuntimeRegistry` (runtime_registry.dfy): `src/runtime/registry.rs`
- `Runtime` (runtime.dfy): `src/runtime.rs`
- `LegacyRegistry`, `Proxy` (legacy_registry.dfy, proxy.dfy): `src/registry.rs`, `src/proxy.rs`
- `Managed` (managed.dfy): `handle_command`, `make_call`, `Method::call`
- `Tokens`, `ProcParse`, `ProcExpand` (tokens.dfy, proc_parse.dfy, proc_expand.dfy): the `module` macro
- `PluginAttr` (plugin_attr.dfy): the `#[vlugin]` attribute
- `PluginSelection` (plugin_selection.dfy): plugin selection in `valor-run`

## Model

| member | source | states |
|---|---|---|
| Envelope.Files | valor_web/sw.js:1-6 | the allow-list is exactly the four fixed paths resolved against the worker's origin, in order |
| Envelope.ToTransferable | valor_web/sw.js:12-17 | an envelope exists exactly when the body drains; it carries the request's url, method, header list and body unchanged |
| Envelope.WithRequestId | valor_web/sw.js:36 | the envelope gains exactly one header, `x-request-id: rid`, after all existing ones; nothing else changes |
| Envelope.RequestIdReadBack | valor_web/sw.js:36 | a responder reading `x-request-id` from the posted envelope gets back exactly the generated id (when the request carried none) |
| Envelope.CorrelationKey | valor_web/sw.js:59-61 | the lookup key is the `x-correlation-id` value; a missing or empty header yields no key |
| Envelope.HeadersGet | valor_web/sw.js:59-60 | a header read gives `null` exactly when no header of that name (in any ASCII case) is present; a single value comes back as it is |
| Envelope.ToResponse | valor_web/sw.js:53-66 | status defaults to 200 and headers to none, and the body is passed through, when the reply omits them |
| Correlation.Post | valor_web/sw.js:34-38 | posting appends a new unregistered call and the tagged envelope to the sent log; registry and clock are unchanged |
| Correlation.Register | valor_web/sw.js:40-44 | the call's resolver is stored under the key, and the call records the key and the time its timer started |
| Correlation.Dispatch | valor_web/sw.js:34-46 | one call is appended, registered under `rid` with its timer started now and its race open; the tagged envelope is sent; earlier calls are unchanged |
| Correlation.Advance | valor_web/sw.js:27-29 | time passes: the clock moves forward by the elapsed time and nothing else changes |
| Correlation.Resolve | valor_web/sw.js:46 | the first settlement of the race wins: a later resolution changes neither the response nor the outcome |
| Correlation.Deliver | valor_web/sw.js:63-66 | delivery never changes the registry, the sent log or the clock, and keeps the number of calls |
| Correlation.Fire | valor_web/sw.js:28-32 | the timer deletes exactly its own key from the registry |
| Correlation.StepWf | valor_web/sw.js:34-67 | every event keeps the registry well formed: each key points to a call that records that key |
| Correlation.Step | valor_web/sw.js:19-67 | an event never removes a call, never moves the clock back and never unsends an envelope |
| Correlation.Run | valor_web/sw.js:19-67 | any sequence of events keeps the registry well formed, never removes a call, never moves the clock back and never unsends an envelope |
| Correlation.RunPair | valor_web/sw.js:19-67 | running two events is stepping through the first, then the second |
| Correlation.StepExtends | valor_web/sw.js:34-67 | events only append calls and sent messages; earlier ids never change |
| Correlation.RunExtends | valor_web/sw.js:34-67 | any sequence of events only appends calls and sent messages |
| Correlation.StepLive | valor_web/sw.js:34-67 | allowed events keep the invariant that a call's key is registered exactly while its timer has not fired, keys unique |
| Correlation.RegisterLive | valor_web/sw.js:44 | registering under a fresh key keeps that invariant |
| Correlation.RunLive | valor_web/sw.js:34-67 | every allowed sequence of events keeps that invariant |
| Correlation.DeliverTargetsOwner | valor_web/sw.js:63-66 | a reply carrying a live call's key settles that call and no other |
| Correlation.DeliverUnknownIsNoOp | valor_web/sw.js:60-64 | a reply with no key, or an unknown key, changes nothing |
| Correlation.LateReplyDropped | valor_web/sw.js:28-32 | once a call's timer fired, its reply changes nothing |
| Correlation.DeliveryKeepsEntry | valor_web/sw.js:63-66 | delivery settles the call but leaves its registry entry in place (only the timer removes it) |
| Correlation.FireSettles | valor_web/sw.js:28-32 | when the timer fires the entry is gone and the caller's outcome is the earlier reply or 504 "Timeout!" |
| Correlation.FirstSettlementWins | valor_web/sw.js:46 | reply first: the caller keeps the reply after the timer; timer first: 504, and the later reply is dropped |
| Correlation.OutOfOrderReplies | valor_web/sw.js:44-66 | two calls answered in reverse order each receive their own reply |
| Correlation.NoResponderTimesOut | valor_web/sw.js:26-32 | with no responder, a dispatched call ends in 504 "Timeout!" with an empty registry |
| ValorWebWorker.Worker.constructor | valor_web/sw.js:51 | a worker starts with no pending requests, no calls, nothing sent and the clock at 0 |
| ValorWebWorker.Worker.HandleRequest | valor_web/sw.js:19-24 | a body error or an allow-listed URL leaves the table alone; any other URL is posted and registered under the raw id |
| ValorWebWorker.Worker.BroadcastAndWaitResponse | valor_web/sw.js:34-47 | the table moves as `Dispatch`: the tagged envelope is sent, `rid` maps to the new call, and its race is open |
| ValorWebWorker.Worker.OnMessage | valor_web/sw.js:53-67 | the table moves as `Deliver` with the reply's correlation key, and the registry is untouched |
| ValorWebWorker.Worker.TimerFired | valor_web/sw.js:28-32 | the table moves as `Fire`; the key is removed and the outcome is the earlier reply or 504 |
| ValorWebWorker.Worker.Elapse | valor_web/sw.js:27 | time passes; only the clock changes |
| ValorWebWorker.AllowListedIsFetched | valor_web/sw.js:21-22 | an allow-listed URL is fetched and the worker's table is unchanged |
| ValorWebWorker.ReplyBeforeTimeout | valor_web/sw.js:34-66 | a reply echoing the id that arrives before the timer is what the caller gets (status 200, its headers and body), even after the timer fires; the key is then gone |
| HashedWorker.Worker.HandleRequest | valor-web/sw.js:19-24 | as in valor_web, but the posted call waits for its hashed key |
| HashedWorker.Worker.Broadcast | valor-web/sw.js:26-35 | the table moves as `Post`: the envelope carries `x-request-id: rid` |
| HashedWorker.Worker.HashResolved | valor-web/sw.js:36-39 | the resolver is registered under `hash(rid)`, not under `rid` |
| HashedWorker.RegisterHashed | valor-web/sw.js:36-39 | registering a call under the hash of its own id keeps every key the digest of its call's id |
| HashedWorker.Worker.OnMessage | valor-web/sw.js:46-60 | as written: the table moves as `Deliver` with the raw correlation id |
| HashedWorker.Worker.OnMessageHashed | valor-web/sw.js:46-60 | corrected: the table moves as `Deliver` with the hashed correlation id |
| HashedWorker.Worker.TimerFired | valor-web/sw.js:62-68 | the table moves as `Fire`, removing `hash(rid)` |
| HashedWorker.Worker.constructor | valor-web/sw.js:44 | a worker starts with no pending requests, no calls, nothing sent and the clock at 0 |
| HashedWorker.Worker.Elapse | valor-web/sw.js:63 | time passes; only the clock changes |
| HashedWorker.HashedKey | valor-web/sw.js:82-86 | the corrected lookup key exists exactly when the id does and is its digest |
| HashedWorker.RawLookupMisses | valor-web/sw.js:53-57 | with every key a 44-character digest, a 36-character id never matches: delivery changes nothing |
| HashedWorker.EchoedReplyTimesOut | valor-web/sw.js:36-57 | a reply echoing the request id is dropped and the call still ends in 504 "Timeout!" |
| HashedWorker.EchoedReplyResolvesWhenHashed | valor-web/sw.js:36-57 | with the lookup hashed, the echoed reply settles its own call and wins the race |
| VluginDefinition.MountSource | src/runtime/vlugin_definition.rs:24-27 | the mount source is the prefix when set, otherwise the name |
| VluginDefinition.PrefixOrName | src/runtime/vlugin_definition.rs:24-29 | the mount point neither starts nor ends with `/` or a space |
| VluginDefinition.PrefixOrNameIsInfix | src/runtime/vlugin_definition.rs:24-29 | the mount point is one contiguous slice of the source, with only `/` and spaces around it |
| VluginDefinition.PrefixOrNameIdempotent | src/runtime/vlugin_definition.rs:24-29 | mounting at a mount point's own value mounts at the same place |
| VluginDefinition.FromName | src/runtime/vlugin_definition.rs:50-59 | a name alone gives a static plugin with prefix `_name` and no configuration |
| VluginDefinition.FromPair | src/runtime/vlugin_definition.rs:61-70 | a name and prefix give a static plugin storing the prefix verbatim |
| VluginDefinition.FromNameMountPoint | src/runtime/vlugin_definition.rs:50-59 | a plugin built from a name not ending in `/` or a space mounts at exactly `_name` |
| Http.Header | src/runtime.rs:117-121 | a header is read exactly when it holds a value, and the read gives its first value |
| Http.FromStatus | src/vlugin.rs:231 | a response made from a status has that status, no headers and an empty body |
| Http.SetBody | src/proxy.rs:73 | setting a body keeps the status and the other headers; when no content type is set yet, the body's MIME type becomes the content type |
| Http.FromBody | src/runtime/registry.rs:91 | a response made from a body is a 200 with that body, whose only header is the body's MIME type as content type |
| Http.AppendHeader | src/runtime.rs:139-142 | `append_header` adds the value after the header's existing values; other headers are unchanged |
| Http.InsertHeader | src/proxy.rs:67 | `insert_header` leaves exactly the one value under the name; other headers are unchanged |
| Http.AppendKeepsFirst | src/runtime.rs:139-142 | appending to a header that already has a value does not change what is read back |
| TypeMap.Insert | src/vlugin.rs:19-21 | `set` puts the value in its type's slot, keeps every other slot, and keeps slots typed |
| TypeMap.Lookup | src/vlugin.rs:23-28 | a found value has the asked type; in a typed store, a value is found exactly when the slot exists |
| TypeMap.LookupAfterInsert | src/vlugin.rs:19-28 | after `set(x)`, a lookup gives `x` for its type and the previous answer for every other type |
| TypeMap.LookupEmpty | src/vlugin.rs:12-16 | a fresh context holds nothing |
| Vlugin.Context.constructor | src/vlugin.rs:12-16 | a default context holds no data and no configuration |
| Vlugin.Context.Set | src/vlugin.rs:19-21 | `set` stores the value under its type and keeps the configuration |
| Vlugin.Context.WithConfig | src/vlugin.rs:34-36 | `with_config` replaces the configuration and keeps the data |
| Vlugin.Context.Get | src/vlugin.rs:30-32 | `get` is defined only where `try_get` finds a value, and returns that value of the asked type |
| Vlugin.Context.TryGet | src/vlugin.rs:23-28 | a value found has the asked type and is the one stored; in a valid context a value is found exactly when one of that type was set |
| Vlugin.Context.RawConfig | src/vlugin.rs:38-40 | the configuration installed last, `None` when none was given |
| Vlugin.Create | src/vlugin.rs:95-105 | a default context with the configuration, then `on_create`; its error is returned, otherwise the hooked state, in a valid context (every slot typed) when the hook keeps slots typed |
| Vlugin.MessageRoundTrip | src/vlugin.rs:193-218 | a request wrapped as a message converts back to itself; `()` is `Ping` |
| Vlugin.AnswerConversions | src/vlugin.rs:221-253 | a wrapped response comes back unchanged; `Pong` and `()` become a bare 200; a body becomes a 200 whose content type is the body's MIME type |
| Vlugin.ErrorConversions | src/vlugin.rs:272-291 | an HTTP error survives the round trip; every other variant reaches HTTP as a 500 |
| MessageHandler.Create | src/message_handler.rs:66-74 | `create` returns `on_create`'s error, or a fresh valid context holding what it stored, when the hook keeps slots typed |
| MessageHandler.Context.constructor | src/message_handler.rs:12-15 | a default context holds nothing |
| MessageHandler.Context.Set | src/message_handler.rs:18-20 | `set` stores the value under its type, keeping the slots typed |
| MessageHandler.Context.Get | src/message_handler.rs:22-27 | a value found has the asked type and is the one stored; in a valid context a value is found exactly when one of that type was set |
| MessageHandler.MessageRoundTrip | src/message_handler.rs:152-177 | a request wrapped as a message converts back to itself; `()` is `Ping` |
| MessageHandler.OutputConversions | src/message_handler.rs:180-212 | a wrapped response comes back unchanged; `Pong` and `()` become a bare 200; a body becomes a 200 whose content type is the body's MIME type |
| MessageHandler.ErrorConversions | src/message_handler.rs:229-242 | an HTTP error passes through; `NotSupported` becomes a 500 |
| RouteTree.FindSound | src/runtime/registry.rs:26-28 | whatever the route lookup returns is the name of a route that matches the path |
| RouteTree.FindComplete | src/runtime/registry.rs:26-28 | every path some route matches is routed somewhere |
| RouteTree.Find | src/runtime/registry.rs:26-28 | a literal route for the path wins; any name found is one the table routes to; nothing is found only when there is no literal route and no catch-all |
| RouteTree.CatchAllWithin | src/runtime/registry.rs:26-28 | any name found is one the table routes to; nothing is found only when no `/p/` prefix of the path (within the bound) has a catch-all |
| RuntimeRegistry.WithPlugin | src/runtime/registry.rs:32-47 | registration fails exactly when the name is taken; otherwise it adds the plugin and its literal and catch-all routes |
| RuntimeRegistry.WithPluginConsistent | src/runtime/registry.rs:32-47 | registration keeps every route pointing at a registered plugin's own mount routes |
| RuntimeRegistry.PluginRegistry.constructor | src/runtime/registry.rs:19-24 | a new registry holds no plugins and no routes |
| RuntimeRegistry.Match | src/runtime/registry.rs:26-30 | no route for the path gives no match; a routed name gives a match exactly when it is registered, and the match is that name's definition and handler |
| RuntimeRegistry.MatchRouted | src/runtime/registry.rs:26-30 | a match comes from a route that matches the path and names a registered plugin, and is that plugin's entry |
| RuntimeRegistry.MatchComplete | src/runtime/registry.rs:26-30 | in a consistent registry, a path that some route matches always finds a plugin |
| RuntimeRegistry.MatchedPathHasPrefix | src/runtime.rs:123-135 | for mount points without `:` or `*`, a matched path, stripped of leading slashes, starts with the plugin's mount point, so `expect("prefix")` holds |
| RuntimeRegistry.StarMountMisroutes | src/runtime.rs:129-134 | a plugin mounted at `*` matches paths that do not start with its mount point (the `expect` would panic) |
| RuntimeRegistry.StarMountMatches | src/runtime/registry.rs:40-43 | a plugin mounted at `*`, alone in the registry, is matched by every path that starts with a slash |
| RuntimeRegistry.ParamMountMisforwards | src/runtime.rs:129-134 | a mount point with a `:name` segment is not literal, and a path that fills in the parameter does not start with the mount point, so `expect("prefix")` would panic |
| RuntimeRegistry.ApiParamMount | src/runtime.rs:129-134 | the mount point `api/:v` and the path `/api/x` are such a case |
| RuntimeRegistry.OnlyPluginMatches | src/runtime/registry.rs:40-43 | a lone plugin answers its mount route and every path below it |
| RuntimeRegistry.BelowMountMatches | src/runtime/registry.rs:40-43 | a lone plugin answers every path that continues its mount route with `/` |
| RuntimeRegistry.FooMatches | src/runtime/registry.rs:137-163 | `foo` is matched for `/_foo`, `/_foo/`, `/_foo/bar`, `/_foo/bar/` and `/_foo/bar/baz` |
| RuntimeRegistry.RegisterTwiceFails | src/runtime/registry.rs:128-135 | registering a name twice fails and leaves one plugin |
| RuntimeRegistry.PluginRegistry.Register | src/runtime/registry.rs:32-47 | a taken name changes nothing; otherwise the state becomes `WithPlugin` |
| RuntimeRegistry.Listing | src/runtime/registry.rs:88 | the listing holds exactly the registered definitions |
| RuntimeRegistry.HandleMessage | src/runtime/registry.rs:72-114 | the reply and the new registry are those of `Endpoint` on the old registry |
| RuntimeRegistry.Endpoint | src/runtime/registry.rs:72-114 | only a 201 to a POST changes the registry; `Ping` is refused as not supported |
| RuntimeRegistry.EndpointPostOk | src/runtime/registry.rs:97-108 | a POST that decodes, loads and instantiates answers 409 for a taken name and changes nothing, otherwise answers 201 and registers the definition without its configuration |
| RuntimeRegistry.EndpointRefuses | src/runtime/registry.rs:80-112 | `Ping` is not supported and other verbs get 405; the registry is untouched |
| RuntimeRegistry.EndpointLists | src/runtime/registry.rs:86-96 | GET answers 200 with the encoded listing, whose content type holds the byte-stream type set with the body and then JSON, so the type read back is the byte-stream one; or a 500 with the encoder's message; nothing changes |
| RuntimeRegistry.EndpointAdds | src/runtime/registry.rs:97-107 | a decoded, loaded, instantiated plugin is registered without its config (201), or a taken name gets 409 "<name> already exists" |
| RuntimeRegistry.EndpointPostFailures | src/runtime/registry.rs:98-101 | a decode, load or instantiation failure is passed on and changes nothing |
| Runtime.SetPath | src/runtime.rs:136 | the new path always starts with `/`, and an absolute path is kept as is |
| Runtime.ForwardedPath | src/runtime.rs:129-136 | the path, stripped of leading slashes, is the mount point followed by a rest; the forwarded path is that rest, with a `/` put in front unless it starts with one |
| Runtime.Tagged | src/runtime.rs:139-143 | the answer gains `x-correlation-id` then `x-valor-plugin`; other headers are unchanged |
| Runtime.Answered | src/runtime.rs:138-147 | an HTTP answer keeps its status and body and its headers gain the two tags; `Pong` stays `Pong`; a plugin error passes through unchanged |
| Runtime.Runtime.constructor | src/runtime.rs:43-49 | a runtime starts with a default context and an empty registry of its own |
| Runtime.Runtime.Clone | src/runtime.rs:159-167 | a clone has a fresh default context but shares the registry |
| Runtime.Runtime.Share | src/runtime.rs:159-167 | a runtime over the given registry with a fresh default context |
| Runtime.Runtime.RegisterPlugin | src/runtime.rs:90-101 | a taken name gives `RegisterVlugin(name)` and no change; otherwise the registry becomes `WithPlugin` |
| Runtime.Runtime.LoadPlugin | src/runtime.rs:52-63 | a load failure gives `LoadVlugin`, an instantiation failure `InstantiateVlugin`, otherwise the plugin is registered without its config; a literal mount point keeps every mount point of the registry literal |
| Runtime.Runtime.OnMsg | src/runtime.rs:110-148 | `Ping` is refused; no request id gives 400 "Missing request ID"; no match gives 404 "No plugin matched"; otherwise the plugin gets the request with its prefix stripped, and HTTP answers are tagged |
| Runtime.ForwardedPathBelowMount | src/runtime.rs:129-136 | `/<mount><rest>` is forwarded as `rest` made absolute |
| Runtime.DocExampleForwarding | src/runtime.rs:25-32 | `/_foo/bar/baz` reaches plugin `foo` as `/bar/baz` |
| Runtime.TagsReadBack | src/runtime.rs:139-143 | reading the tagged answer gives back the request id and the plugin name |
| LegacyRegistry.WithPlugin | src/registry.rs:29-33 | registering routes the prefix to the name and replaces the name's entry, keeping all others |
| LegacyRegistry.MatchPluginHandler | src/registry.rs:23-27 | a match exists only when a route matches and its name is registered, and it is that entry |
| LegacyRegistry.PluginList | src/registry.rs:35-37 | the list holds exactly the registered plugins |
| LegacyRegistry.PluginListOnePerName | src/registry.rs:35-37 | the list holds one plugin per registered name |
| LegacyRegistry.ReRegisterReplaces | src/registry.rs:29-33 | registering a name again replaces its entry, and its earlier route leads to the new one |
| LegacyRegistry.PluginRegistry.constructor | src/registry.rs:16-21 | a new registry holds no plugins and no routes |
| LegacyRegistry.PluginRegistry.Register | src/registry.rs:29-33 | the state becomes `WithPlugin` of the old state |
| LegacyRegistry.HandleRequest | src/registry.rs:54-80 | the response and the new registry are those of `Endpoint` on the old registry |
| LegacyRegistry.Endpoint | src/registry.rs:54-80 | the registry stays keyed by name, and only a 201 to a POST changes it |
| LegacyRegistry.EndpointPostCases | src/registry.rs:64-77 | a POST answers 400 with the decoder's message, 422 "Can't load plugin", or 201 with the plugin registered; only the last changes the registry |
| LegacyRegistry.WithPluginCount | src/registry.rs:29-33 | registering adds one entry for a new name and none for a known one |
| LegacyRegistry.EndpointPost | src/registry.rs:64-77 | POST gives 201 and registers, 422 "Can't load plugin", or 400 with the decoding error |
| LegacyRegistry.EndpointReadOnly | src/registry.rs:55-78 | GET and other verbs never change the registry; GET answers 200 with the encoded listing typed as JSON, or 500; other verbs get 405 |
| Proxy.HandleRequest | src/proxy.rs:62-75 | a matched plugin's response is returned with `x-valor-proxy` set to its name; otherwise 404 "Plugin not supported: <path>", typed as plain text |
| Managed.Call | lib/core/src/structures/method.rs:22-31 | a method answers with its closure, or "Method not implemented" when it has none |
| Managed.FindMethod | lib/core/src/interop/managed.rs:21-24 | the first method with the name, or none when no method has it |
| Managed.MakeCallOn | lib/core/src/interop/managed.rs:16-31 | "Method not found" when no method has the name; otherwise the first such method's answer |
| Managed.HandleCommand | lib/core/src/interop/managed.rs:7-14 | export returns the module; a call is dispatched by the request's path |
| Managed.Deserialized | lib/core/src/structures/method.rs:13-18 | a method read back keeps name and extensions but loses its closure |
| Managed.DeserializedNotImplemented | lib/core/src/structures/method.rs:16-31 | a method read back only answers "Method not implemented" |
| Managed.SingleMethodModule | lib/core/src/interop/managed.rs:38-70 | a one-method module answers a call to that method with the closure's answer |
| ProcParse.ParseKV | lib/proc/src/parse.rs:10-42 | a parsed pair is followed by a comma or the end |
| ProcParse.ParseExtensions | lib/proc/src/parse.rs:44-65 | the loop returns what the grammar `ExtensionsOf` gives |
| ProcParse.ExtensionsOf | lib/proc/src/parse.rs:44-65 | a successful parse yields no pairs exactly when there are no tokens |
| ProcParse.ExtensionsRoundTrip | lib/proc/src/parse.rs:44-65 | written-out pairs parse back to the same pairs in order, with or without a trailing comma; no input gives no pairs |
| ProcParse.RejectsMalformedPair | lib/proc/src/parse.rs:12-40 | a non-string literal gets "`value` should be a literal string", an identifier value gets the non-literal message, and a bare key or a key with no value gets the key-value message |
| ProcParse.FindAttr | lib/proc/src/parse.rs:71-74 | the first attribute whose path has the segment, or none |
| ProcParse.AttrExtensions | lib/proc/src/parse.rs:71-81 | the first `extensions` attribute's pairs; none when it is missing, has no list or does not parse |
| ProcParse.ParseMethod | lib/proc/src/parse.rs:67-98 | the method keeps its identifier and takes the attribute extensions |
| ProcParse.MethodNaming | lib/proc/src/parse.rs:83-90 | the name is the first `method` attribute's single string literal, otherwise the identifier |
| ProcParse.MethodDataTests | lib/proc/src/parse.rs:150-186 | the two method parsing tests: a custom name with two extensions, and defaults |
| ProcParse.ParseModule | lib/proc/src/parse.rs:100-141 | a module without a body fails with "Module must have content"; otherwise its methods are its functions in order |
| ProcParse.FunctionsSkipOthers | lib/proc/src/parse.rs:123-132 | non-function items are skipped, and each function item is kept, in order |
| ProcParse.ModuleDataTest | lib/proc/src/parse.rs:188-216 | the module parsing test: module extensions and the one method are read as written |
| ProcExpand.EmitKV | lib/proc/src/expand.rs:5-11 | a pair appends its key string, a comma, its value string |
| ProcExpand.BuildMapBlock | lib/proc/src/expand.rs:29-35 | the extensions block is the prelude, one `hm.insert(..)` per pair wrapping the pair's emitted tokens, then `hm` |
| ProcExpand.EmitMethod | lib/proc/src/expand.rs:13-39 | appends exactly `MethodTokens` of the method |
| ProcExpand.EmitMethodList | lib/proc/src/expand.rs:50-54 | the `vec![..]` contents are each method's tokens followed by a comma, in module order |
| ProcExpand.EmitModule | lib/proc/src/expand.rs:41-65 | appends exactly `ModuleTokens` of the module |
| ProcExpand.InsertsRoundTrip | lib/proc/src/expand.rs:29-35 | the inserts read back as exactly the pairs, in source order |
| ProcExpand.InsertsExact | lib/proc/src/expand.rs:29-35 | only emitted insert runs read back: what reads as `kvs` is `Inserts(kvs)` |
| ProcExpand.MapBlockRoundTrip | lib/proc/src/expand.rs:29-35 | the extensions block reads back as exactly the pairs |
| ProcExpand.EmptyMapBlock | lib/proc/src/expand.rs:55-61 | a block reads back as no extensions exactly when it is the prelude followed by `hm` |
| ProcExpand.CallTargetRoundTrip | lib/proc/src/expand.rs:19-28 | the emitted closure calls exactly the method's identifier |
| ProcExpand.MethodRoundTrip | lib/proc/src/expand.rs:15-37 | the emitted method carries `name` in its name field, a closure calling the identifier, and the extensions |
| ProcExpand.MethodListRoundTrip | lib/proc/src/expand.rs:50-54 | methods are emitted in module order, each followed by a comma |
| ProcExpand.ModuleRoundTrip | lib/proc/src/expand.rs:47-63 | the emitted module reads back as its name, extensions and methods |
| PluginAttr.Acceptance | valor_plugin/src/lib.rs:11-64 | a function is accepted exactly when `pub`, `async` and named `on_create` or `on_request`; a non-function gets "Can only annotate functions" |
| PluginAttr.PubAsyncCheckedFirst | valor_plugin/src/lib.rs:19-26 | a function that is not `pub async` gets that error whatever its name |
| PluginAttr.Expand | valor_plugin/src/lib.rs:11-64 | an accepted function becomes the glue followed by the item unchanged; a `pub async` function that is refused is refused for its name |
| PluginAttr.ItemKept | valor_plugin/src/lib.rs:44-56 | an accepted function is re-emitted unchanged, after the glue |
| PluginSelection.NewVec | bin/valor-run/src/main.rs:21 | one plugin per path, in order, each `active` as given |
| PluginSelection.SplitCommas | bin/valor-run/src/main.rs:35 | pieces contain no comma and there is at least one |
| PluginSelection.SplitJoin | bin/valor-run/src/main.rs:35 | joining the pieces with commas gives the input back |
| PluginSelection.ParseUsize | bin/valor-run/src/main.rs:36 | a parsed index fits in 64 bits |
| PluginSelection.ParseDecimal | bin/valor-run/src/main.rs:36 | every index that fits parses from its decimal form |
| PluginSelection.ParseRefuses | bin/valor-run/src/main.rs:36 | empty text, a lone `+` and a non-digit are refused |
| PluginSelection.ParseAll | bin/valor-run/src/main.rs:33-37 | the selection exists exactly when every piece parses, and then lists their values in order |
| PluginSelection.BlankLinePanics | bin/valor-run/src/main.rs:32-37 | a blank line is not a selection (the `unwrap` panics) |
| PluginSelection.SortDedup | bin/valor-run/src/main.rs:39-40 | the keys come out strictly increasing, holding exactly the input's values |
| PluginSelection.IncreasingUnique | bin/valor-run/src/main.rs:39-40 | an increasing list is determined by its elements, so sort-then-dedup has exactly one result |
| PluginSelection.ParseSelection | bin/valor-run/src/main.rs:33-37 | a selection that parses holds at least one index, one per comma-separated piece of the trimmed line, each the parse of its piece |
| PluginSelection.OutOfRange | bin/valor-run/src/main.rs:43-48 | the skipped keys are exactly those at or past the plugin count |
| PluginSelection.OutOfRangeIncreasing | bin/valor-run/src/main.rs:43-48 | the skipped keys stay in increasing order, because the keys were sorted |
| PluginSelection.Activate | bin/valor-run/src/main.rs:43-49 | a plugin becomes active when a key names it, never inactive; names are unchanged; out-of-range keys are skipped |
| PluginSelection.Select | bin/valor-run/src/main.rs:21-50 | with `all_active` every plugin is active; otherwise a bad entry panics, or plugin `i` is active exactly when `i` was typed, and the skipped keys are the increasing out-of-range ones |

## Left out

- Browser and network plumbing is not modelled: `BroadcastChannel`, `fetch`, `respondWith`, timers, `crypto.getRandomValues` and `crypto.subtle.digest`.
  - The uuid a request receives is a parameter constrained by `IsUuidV4`.
  - The digest is a function parameter constrained to 44-character values.
  - Time is an explicit clock with `Elapse`, and a timer is an explicit `TimerFired` event.
- The `Headers` object of the browser is not modelled: its lower-casing, sorting and combining of live request headers. The envelope carries the header list as iterated.
- A `Response` built with a status outside 200-599 throws a `RangeError` in the browser; the reply's status is taken as valid.
- Loaders, plugin factories and plugin handlers are function parameters. JSON encoding and decoding (`serde_json`, `body_json`) are abstract functions, and the encoders receive a set, so the `HashMap` iteration order of the listing is not modelled.
- `RouteTree` models only the `path-tree` features the registries use: literal routes and catch-alls ending in slash and star. Named `:param` segments are read literally, and `path-tree`'s tie-breaking between overlapping patterns is not modelled. `Find` prefers the exact route, then the longest catch-all.
- Runtime.Runtime.OnMsg: requires that no mount point holds `:` or `*` anywhere (`LiteralMount`). `path-tree` reads `:name` as a parameter and `*` as a catch-all, so it can match a path that does not start with the mount point, and then `expect("prefix")` panics. `RuntimeRegistry.StarMountMisroutes`, `ParamMountMisforwards` and `ApiParamMount` show those cases instead of modelling the panic.
- RuntimeRegistry.MatchedPathHasPrefix: is stated only for mount points without `:` or `*`. The route table here reads `:` literally, so for such a mount it would hold only of the model; `ParamMountMisforwards` shows that a path `path-tree` matches against a `:name` mount does not start with the mount point.
- Runtime.Tagged: appends `x-valor-plugin` with the plugin's name whatever its characters. In the source, `append_header(..).expect("valid header")` (src/runtime.rs:142-143) panics when the name is not ASCII, because a header value must be ASCII. The same holds for `Proxy.HandleRequest`, whose `insert_header("x-valor-proxy", plugin.name())` (src/proxy.rs:67) panics on a non-ASCII name. A definition with an ASCII prefix and a non-ASCII name reaches that panic; the model does not capture it.
- Correlation.FreshKey: the model takes a generated uuid (valor_web/sw.js:35), or its digest (valor-web/sw.js), never to collide with a key registered earlier. On a collision, `Map.set` would overwrite the earlier resolver and its caller would time out.
- `http-types` details are not modelled. Header names are lower-case strings without case folding; URLs are paths without percent-encoding or query strings; `Display` impls and error messages other than those quoted are left out.
- `with_registry`, `with_health` and `with_plugin` are not modelled separately. They are `register_plugin` with a fixed definition, which `RegisterPlugin` covers.
- Http.FromBody: a body carries only the MIME type of its kind: plain text for a string, a byte stream otherwise. `Body::from_json`, `set_mime` and `set_content_type` are not modelled.
- LegacyRegistry.Endpoint: the `res!` macro is defined outside this repository and is not part of this model. Its responses are taken as their status, the `content_type` it is given as the only content type, and the body.
- Legacy `Plugin::prefix()` is not part of this model; the legacy `Plugin` is taken as its name and route.
- `Context::config` (JSON decoding of the configuration) is not modelled; `RawConfig` is.
- `FnHandler`, `h`, the `Box<T>` forwarding impls and `()` handlers only delegate and are not modelled.
- `syn` parsing of items is not modelled: attributes, function items and modules arrive already split. Only the key/value grammar of `extensions` is parsed token by token. Two simplifications in it:
  - ProcParse.ParseKV: takes the value to run up to the next top-level comma, and does not parse it as an expression. A missing value gets the key-value message, as in the source. A value that `syn` cannot parse as an expression (`k = = x`, `k = #[a] b`) gets `NotLiteral` here, but the key-value message in the source, where the failed `Meta` parse falls through to that message. Two more inputs get a different error here: `k = true` is a boolean literal to `syn` and gets the "literal string" message there, but `true` is an identifier token here and gets `NotLiteral`; and `k = "a" "b"` parses as a pair in the source, whose loop then fails expecting a comma, while here it gets `NotLiteral`. None of these differences shows through the macro, which replaces any parse error by empty extensions (lib/proc/src/parse.rs:74-77).
  - ProcParse.ParseModule: `syn::parse2` of a re-printed function item cannot fail, so that error path of the module parse is not modelled.
- The literal source text `quote!` produces for the `#[vlugin]` glue and the emitted modules is modelled as token trees. Spans and spacing are not modelled.
- PluginSelection.SortDedup: models `sort` followed by `dedup` on a sequence rather than in place on the vector. `IncreasingUnique` shows that any implementation gives the same list.
- `Plugin::new` reading the file, the prompts and warnings printed, and the thread spawning and joining after selection are not modelled.
- PluginSelection.ParseUsize: models `usize` as 64 bits wide.

## Findings

| source | as written | input that shows it | evidently intended | confidence | as-written member | corrected member |
|---|---|---|---|---|---|---|
| valor-web/sw.js:36-56 | the resolver is stored under `await hash(rid)` (a 44-character base64 SHA-256 digest), but `onmessage` looks up the raw `x-correlation-id`, which echoes the 36-character uuid | any reply echoing the request id, e.g. `x-correlation-id: 123e4567-e89b-42d3-a456-426614174000` for that request | look the reply up under the same key it was stored under (`hash(id)`), so that echoed replies reach their callers | not executed | HashedWorker.EchoedReplyTimesOut | HashedWorker.EchoedReplyResolvesWhenHashed |
