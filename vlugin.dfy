/**
 * src/vlugin.rs: the plugin `Context`, plugin creation and the conversions
 * between `Message`, `Answer`, `Error` and their `http` counterparts.
 */
module Vlugin {
  import opened Wrappers
  import opened Http
  import opened TypeMap
  import opened VluginDefinition
  import opened RuntimeErrors

  /** What a plugin's context holds. */
  datatype ContextState = ContextState(data: Store, conf: Option<VluginConfig>)

  /** `Context`: type-keyed shared state plus an optional configuration. */
  class Context {
    var data: Store
    var conf: Option<VluginConfig>

    ghost predicate Valid()
      reads this
    {
      Typed(data)
    }

    function State(): ContextState
      reads this
    {
      ContextState(data, conf)
    }

    /** `Context::default()`. */
    constructor ()
      ensures Valid() && State() == ContextState(map[], None)
    {
      data := map[];
      conf := None;
    }

    /** `set`: stores `v` under its type; the configuration is untouched. */
    method Set(v: Value)
      requires Valid()
      modifies this
      ensures Valid() && data == Insert(old(data), v) && conf == old(conf)
    {
      data := data[v.ty := v];
    }

    /** `try_get`: a value of the asked type; in a valid context, exactly when one was set. */
    function TryGet(ty: TypeId): (r: Option<Value>)
      reads this
      ensures r.Some? ==> r.value.ty == ty && ty in data && data[ty] == r.value
      ensures Valid() ==> (r.Some? <==> ty in data)
    {
      Lookup(data, ty)
    }

    /** `get`: panics ("user knows what was set") unless a value of that type was set. */
    function Get(ty: TypeId): (r: Value)
      reads this
      requires TryGet(ty).Some?
      ensures r.ty == ty && Some(r) == TryGet(ty)
    {
      TryGet(ty).value
    }

    /** `with_config`: replaces the configuration; the data is untouched. */
    method WithConfig(cfg: VluginConfig)
      modifies this
      ensures conf == Some(cfg) && data == old(data)
    {
      conf := Some(cfg);
    }

    /** `raw_config`: the configuration last installed, `None` when none was given. */
    function RawConfig(): (r: Option<VluginConfig>)
      reads this
      ensures r == State().conf
    {
      conf
    }
  }

  /** `Message`: what a plugin is asked to handle. */
  datatype Message = Http(req: Request) | Ping

  /** `From<()> for Message`. */
  function MessageOfUnit(): Message {
    Ping
  }

  /** `From<Message> for http::Request`: `unimplemented!()` (a panic) for anything but `Http`. */
  function RequestOf(msg: Message): Request
    requires msg.Http?
  {
    msg.req
  }

  /** `Answer`: what a plugin replies. */
  datatype Answer = Http(res: Response) | Pong

  /** `From<()> for Answer`. */
  function AnswerOfUnit(): Answer {
    Pong
  }

  /** `From<Answer> for http::Response`: `Pong` becomes a bare 200. */
  function ResponseOf(answer: Answer): Response {
    match answer
    case Http(res) => res
    case Pong => FromStatus(StatusOk)
  }

  /** `From<http::Body> for Answer`: through a 200 response. */
  function AnswerOfBody(body: Body): Answer {
    Answer.Http(FromBody(body))
  }

  datatype Error = Http(err: HttpError) | Runtime(failure: RuntimeError) | NotSupported

  /** `From<Error> for http::Error`: an `Http` error passes through, anything else is a 500 with an empty message. */
  function HttpErrorOf(e: Error): HttpError {
    match e
    case Http(err) => err
    case _ => HttpError(StatusInternalServerError, "")
  }

  /** A plugin's `on_create` hook: it sees the context and may change it or fail. */
  type CreateHook = ContextState -> Result<ContextState, Error>

  /** The hook reaches the store only through `set`, so a typed store stays typed. */
  ghost predicate KeepsTyped(onCreate: CreateHook) {
    forall s: ContextState :: Typed(s.data) && onCreate(s).Ok? ==> Typed(onCreate(s).value.data)
  }

  /**
   * `Vlugin::create`: a default plugin, the configuration (when given)
   * installed before `on_create` runs, and `on_create`'s error propagated.
   */
  method Create(config: Option<VluginConfig>, onCreate: CreateHook) returns (r: Result<Context, Error>)
    requires KeepsTyped(onCreate)
    ensures var hooked := onCreate(ContextState(map[], config));
      && (r.Err? <==> hooked.Err?)
      && (r.Err? ==> r.error == hooked.error)
      && (r.Ok? ==> fresh(r.value) && r.value.Valid() && r.value.State() == hooked.value)
  {
    var v := new Context();
    if config.Some? {
      v.WithConfig(config.value);
    }
    var hooked := onCreate(v.State());
    if hooked.Err? {
      return Err(hooked.error);
    }
    v.data, v.conf := hooked.value.data, hooked.value.conf;
    return Ok(v);
  }

  /** A `Message` built from a request converts back to that request, and back again. */
  lemma MessageRoundTrip(req: Request, msg: Message)
    ensures RequestOf(Message.Http(req)) == req
    ensures msg.Http? ==> Message.Http(RequestOf(msg)) == msg
    ensures MessageOfUnit() == Ping
  {
  }

  /** A response wrapped as an `Answer` comes back unchanged; `Pong` and `()` become a bare 200 OK. */
  lemma AnswerConversions(res: Response, body: Body)
    ensures ResponseOf(Answer.Http(res)) == res
    ensures ResponseOf(Pong) == Response(StatusOk, map[], Empty)
    ensures ResponseOf(AnswerOfUnit()) == ResponseOf(Pong)
    ensures ResponseOf(AnswerOfBody(body)) == Response(StatusOk, map[ContentType := [BodyMime(body)]], body)
  {
  }

  /** `http::Error` survives the trip through `Error`; every other variant reaches HTTP as a 500. */
  lemma ErrorConversions(h: HttpError, e: Error)
    ensures HttpErrorOf(Error.Http(h)) == h
    ensures !e.Http? ==> HttpErrorOf(e) == HttpError(StatusInternalServerError, "")
    ensures HttpErrorOf(e).status != StatusInternalServerError ==> e.Http?
  {
  }
}
