/**
 * The data a service worker moves around: the live request it intercepts,
 * the transferable envelope it broadcasts, the inbound reply message and the
 * response it resolves a pending request with (valor_web/sw.js and
 * valor-web/sw.js, which agree on all of this).
 */
module Envelope {
  import opened Wrappers
  import Text

  type Header = (string, string)
  type Bytes = seq<bv8>

  /**
   * An intercepted fetch request. `headers` is the list the live `Headers`
   * object yields when iterated (the browser lower-cases, sorts and combines
   * it); `body` is `None` when draining the body stream fails.
   */
  datatype LiveRequest = LiveRequest(url: string, verb: string, headers: seq<Header>, body: Option<Bytes>)

  /** The plain object `{url, method, headers, body}` that is posted. */
  datatype Envelope = Envelope(url: string, verb: string, headers: seq<Header>, body: Bytes)

  /** A JS `Response`: `body == None` is a `null` body. */
  datatype JsResponse = JsResponse(status: int, headers: seq<Header>, body: Option<string>)

  /** The `data` of a message on the response channel; `None` is a missing property. */
  datatype Inbound = Inbound(status: Option<int>, headers: Option<seq<Header>>, body: Option<string>)

  const RequestIdHeader := "x-request-id"
  const CorrelationIdHeader := "x-correlation-id"

  const TimeoutMs := 3000

  /** The allow-list: four paths resolved against the worker's origin. */
  const FilePaths: seq<string> := ["/", "/favicon.ico", "/lib/valor.js", "/lib/valor_bg.wasm"]

  /** `new URL(path, self.location)` for an absolute path is the origin followed by the path. */
  function Files(origin: string): (r: seq<string>)
    ensures |r| == |FilePaths|
    ensures forall k :: 0 <= k < |r| ==> r[k] == origin + FilePaths[k]
  {
    seq(|FilePaths|, k requires 0 <= k < |FilePaths| => origin + FilePaths[k])
  }

  /** `reqToTransferable`: `None` when `await req.arrayBuffer()` rejects. */
  function ToTransferable(req: LiveRequest): (r: Option<Envelope>)
    ensures r.Some? <==> req.body.Some?
    ensures r.Some? ==> && r.value.url == req.url && r.value.verb == req.verb
                        && r.value.headers == req.headers && r.value.body == req.body.value
  {
    match req.body
    case None => None
    case Some(b) => Some(Envelope(req.url, req.verb, req.headers, b))
  }

  /** `req.headers.push(["x-request-id", rid])`. */
  function WithRequestId(env: Envelope, rid: string): (r: Envelope)
    ensures r.url == env.url && r.verb == env.verb && r.body == env.body
    ensures |r.headers| == |env.headers| + 1 && r.headers[..|env.headers|] == env.headers
    ensures r.headers[|env.headers|] == (RequestIdHeader, rid)
  {
    env.(headers := env.headers + [(RequestIdHeader, rid)])
  }

  /** The values of every header whose name equals `name` up to ASCII case, in order. */
  function ValuesOf(hs: seq<Header>, name: string): (r: seq<string>)
    ensures |r| <= |hs|
  {
    if hs == [] then []
    else (if Text.AsciiLower(hs[0].0) == Text.AsciiLower(name) then [hs[0].1] else []) + ValuesOf(hs[1..], name)
  }

  /** `new Headers(hs).get(name)`: `null`, or the values joined by ", ". */
  function HeadersGet(hs: seq<Header>, name: string): (r: Option<string>)
    ensures r.None? <==> ValuesOf(hs, name) == []
    ensures |ValuesOf(hs, name)| == 1 ==> r == Some(ValuesOf(hs, name)[0])
  {
    var vs := ValuesOf(hs, name);
    if vs == [] then None else Some(Text.Join(vs, ", "))
  }

  lemma {:induction false} ValuesOfAppend(hs: seq<Header>, extra: seq<Header>, name: string)
    ensures ValuesOf(hs + extra, name) == ValuesOf(hs, name) + ValuesOf(extra, name)
  {
    if hs == [] {
      assert hs + extra == extra;
    } else {
      assert (hs + extra)[1..] == hs[1..] + extra;
      ValuesOfAppend(hs[1..], extra, name);
    }
  }

  /**
   * The header the worker appends is the one `x-request-id` a responder
   * reads back, provided the request did not already carry one.
   */
  lemma RequestIdReadBack(env: Envelope, rid: string)
    requires ValuesOf(env.headers, RequestIdHeader) == []
    ensures HeadersGet(WithRequestId(env, rid).headers, RequestIdHeader) == Some(rid)
  {
    ValuesOfAppend(env.headers, [(RequestIdHeader, rid)], RequestIdHeader);
    assert ValuesOf([(RequestIdHeader, rid)], RequestIdHeader) == [rid];
  }

  /** A single header is read back by its name. */
  lemma SingleHeaderGet(name: string, v: string)
    ensures HeadersGet([(name, v)], name) == Some(v)
  {
    assert ValuesOf([(name, v)], name) == [v];
  }

  /**
   * The key `onmessage` looks up: the `x-correlation-id` value, or `None`
   * when it is missing or empty (`if (!id) return`).
   */
  function CorrelationKey(m: Inbound): (r: Option<string>)
    ensures r.Some? ==> r.value != ""
    ensures r.Some? <==> m.headers.Some? && HeadersGet(m.headers.value, CorrelationIdHeader).Some?
                         && HeadersGet(m.headers.value, CorrelationIdHeader).value != ""
    ensures r.Some? ==> Some(r.value) == HeadersGet(m.headers.value, CorrelationIdHeader)
  {
    match HeadersGet(m.headers.GetOr([]), CorrelationIdHeader)
    case None => None
    case Some(v) => if v == "" then None else Some(v)
  }

  /** `{...{status: 200, headers: {}, body: null}, ...data}` turned into a `Response`. */
  function ToResponse(m: Inbound): (r: JsResponse)
    ensures r.status == (if m.status.Some? then m.status.value else 200)
    ensures r.headers == (if m.headers.Some? then m.headers.value else [])
    ensures r.body == m.body
  {
    JsResponse(m.status.GetOr(200), m.headers.GetOr([]), m.body)
  }

  /** `new Response("Timeout!", { status: 504 })`. */
  const TimeoutResponse := JsResponse(504, [], Some("Timeout!"))

  predicate IsHexDigit(c: char) {
    '0' <= c <= '9' || 'a' <= c <= 'f'
  }

  /**
   * What `uuidv4()` returns: the template "10000000-1000-4000-8000-100000000000"
   * with every 0, 1 and 8 replaced by a lower-case hex digit, and the 8 by one of 8, 9, a, b.
   */
  predicate IsUuidV4(s: string) {
    && |s| == 36
    && (forall k :: k in {8, 13, 18, 23} ==> s[k] == '-')
    && s[14] == '4'
    && s[19] in {'8', '9', 'a', 'b'}
    && (forall k :: 0 <= k < 36 && k !in {8, 13, 18, 23} ==> IsHexDigit(s[k]))
  }
}
