/**
 * src/message_handler.rs: the earlier `Handler` API. Its `Context` has no
 * configuration, `create` takes none, and `Error` has no runtime variant.
 */
module MessageHandler {
  import opened Wrappers
  import opened Http
  import opened TypeMap

  /** `Context`: type-keyed shared state. */
  class Context {
    var data: Store

    ghost predicate Valid()
      reads this
    {
      Typed(data)
    }

    /** `Context::default()`. */
    constructor ()
      ensures Valid() && data == map[]
    {
      data := map[];
    }

    /** `set`: stores `v` under its type. */
    method Set(v: Value)
      requires Valid()
      modifies this
      ensures Valid() && data == Insert(old(data), v)
    {
      data := data[v.ty := v];
    }

    /** `get`: `None` unless a value of that type was set. */
    function Get(ty: TypeId): (r: Option<Value>)
      reads this
      ensures r.Some? ==> r.value.ty == ty && ty in data && data[ty] == r.value
      ensures Valid() ==> (r.Some? <==> ty in data)
    {
      Lookup(data, ty)
    }
  }

  datatype Message = Http(req: Request) | Ping

  /** `From<()> for Message`. */
  function MessageOfUnit(): Message {
    Ping
  }

  /** `From<Message> for http::Request`: `unimplemented!()` (a panic) for `Ping`. */
  function RequestOf(msg: Message): Request
    requires msg.Http?
  {
    msg.req
  }

  datatype Output = Http(res: Response) | Pong

  /** `From<()> for Output`. */
  function OutputOfUnit(): Output {
    Pong
  }

  /** `From<Output> for http::Response`: `Pong` becomes a bare 200. */
  function ResponseOf(out: Output): Response {
    match out
    case Http(res) => res
    case Pong => FromStatus(StatusOk)
  }

  /** `From<http::Body> for Output`: through a 200 response. */
  function OutputOfBody(body: Body): Output {
    Output.Http(FromBody(body))
  }

  datatype Error = Http(err: HttpError) | NotSupported

  /** `From<Error> for http::Error`. */
  function HttpErrorOf(e: Error): HttpError {
    match e
    case Http(err) => err
    case NotSupported => HttpError(StatusInternalServerError, "")
  }

  /** A handler's `on_create` hook over its context's data. */
  type CreateHook = Store -> Result<Store, Error>

  /** The hook reaches the store only through `set`, so a typed store stays typed. */
  ghost predicate KeepsTyped(onCreate: CreateHook) {
    forall s: Store :: Typed(s) && onCreate(s).Ok? ==> Typed(onCreate(s).value)
  }

  /** `Handler::create`: a default handler, then `on_create`, whose error is propagated. */
  method Create(onCreate: CreateHook) returns (r: Result<Context, Error>)
    requires KeepsTyped(onCreate)
    ensures r.Err? <==> onCreate(map[]).Err?
    ensures r.Err? ==> r.error == onCreate(map[]).error
    ensures r.Ok? ==> fresh(r.value) && r.value.Valid() && r.value.data == onCreate(map[]).value
  {
    var h := new Context();
    var hooked := onCreate(h.data);
    if hooked.Err? {
      return Err(hooked.error);
    }
    h.data := hooked.value;
    return Ok(h);
  }

  /** A `Message` built from a request converts back to it; `()` is `Ping`. */
  lemma MessageRoundTrip(req: Request, msg: Message)
    ensures RequestOf(Message.Http(req)) == req
    ensures msg.Http? ==> Message.Http(RequestOf(msg)) == msg
    ensures MessageOfUnit() == Ping
  {
  }

  /** A wrapped response comes back unchanged; `Pong` and `()` become a bare 200 OK. */
  lemma OutputConversions(res: Response, body: Body)
    ensures ResponseOf(Output.Http(res)) == res
    ensures ResponseOf(Pong) == Response(StatusOk, map[], Empty)
    ensures ResponseOf(OutputOfUnit()) == ResponseOf(Pong)
    ensures ResponseOf(OutputOfBody(body)) == Response(StatusOk, map[ContentType := [BodyMime(body)]], body)
  {
  }

  /** `http::Error` passes through; `NotSupported` reaches HTTP as a 500 with an empty message. */
  lemma ErrorConversions(h: HttpError)
    ensures HttpErrorOf(Error.Http(h)) == h
    ensures HttpErrorOf(NotSupported) == HttpError(StatusInternalServerError, "")
  {
  }
}
