/**
 * The slice of `http-types` the Rust crate relies on: requests, responses,
 * multi-valued headers, bodies and `http::Error` (a status with a message).
 * Header names are kept as given; every name the core uses is a lower-case
 * literal, which is also the form `http-types` normalises names to.
 */
module Http {
  import opened Wrappers

  datatype Verb = Get | Post | Other(name: string)

  /** Header name to its values, in insertion order. */
  type Headers = map<string, seq<string>>

  datatype Body = Empty | Text(text: string) | Bytes(bytes: seq<bv8>)

  datatype Request = Request(verb: Verb, path: string, headers: Headers, body: Body)

  datatype Response = Response(status: int, headers: Headers, body: Body)

  datatype HttpError = HttpError(status: int, message: string)

  const StatusOk := 200
  const StatusCreated := 201
  const StatusBadRequest := 400
  const StatusNotFound := 404
  const StatusMethodNotAllowed := 405
  const StatusConflict := 409
  const StatusUnprocessableEntity := 422
  const StatusInternalServerError := 500

  const ContentType := "content-type"
  const JsonMime := "application/json"
  const ByteStreamMime := "application/octet-stream"
  const PlainTextMime := "text/plain;charset=utf-8"

  /** The MIME type a body carries: text from a string, a byte stream otherwise. */
  function BodyMime(body: Body): string {
    match body
    case Text(_) => PlainTextMime
    case _ => ByteStreamMime
  }

  /** The values stored under `name` (none when absent). */
  function Values(hs: Headers, name: string): seq<string> {
    if name in hs then hs[name] else []
  }

  /** `Response::from(StatusCode)`: no headers, no body. */
  function FromStatus(status: int): (r: Response)
    ensures r.status == status && r.body == Empty
    ensures forall n :: Values(r.headers, n) == []
  {
    Response(status, map[], Empty)
  }

  /**
   * `set_body`: the body is replaced and, when no content type is set yet,
   * the body's own MIME type becomes the content type.
   */
  function SetBody(res: Response, body: Body): (r: Response)
    ensures r.status == res.status && r.body == body
    ensures Values(res.headers, ContentType) != [] ==> r.headers == res.headers
    ensures Values(res.headers, ContentType) == [] ==> Values(r.headers, ContentType) == [BodyMime(body)]
    ensures forall n :: n != ContentType ==> Values(r.headers, n) == Values(res.headers, n)
  {
    if Values(res.headers, ContentType) != [] then res.(body := body)
    else Response(res.status, res.headers[ContentType := [BodyMime(body)]], body)
  }

  /** `Response::from(Body)`: a 200 whose body is set, so it names the body's MIME type. */
  function FromBody(body: Body): (r: Response)
    ensures r.status == StatusOk && r.body == body
    ensures Values(r.headers, ContentType) == [BodyMime(body)]
    ensures forall n :: n != ContentType ==> Values(r.headers, n) == []
  {
    SetBody(FromStatus(StatusOk), body)
  }

  /** `header(name).as_str()`: the first value, if the header is present. */
  function Header(hs: Headers, name: string): (r: Option<string>)
    ensures r.Some? <==> |Values(hs, name)| > 0
    ensures r.Some? ==> r.value == Values(hs, name)[0]
  {
    if name in hs && |hs[name]| > 0 then Some(hs[name][0]) else None
  }

  /** `append_header`: keep the existing values of `name` and add `value` last. */
  function AppendHeader(hs: Headers, name: string, value: string): (r: Headers)
    ensures Values(r, name) == Values(hs, name) + [value]
    ensures forall n :: n != name ==> Values(r, n) == Values(hs, n)
  {
    hs[name := Values(hs, name) + [value]]
  }

  /** `insert_header`: replace whatever `name` held by the single `value`. */
  function InsertHeader(hs: Headers, name: string, value: string): (r: Headers)
    ensures Values(r, name) == [value]
    ensures forall n :: n != name ==> Values(r, n) == Values(hs, n)
  {
    hs[name := [value]]
  }

  /** Appending never hides a value that was already first: the earliest value stays the one read back. */
  lemma AppendKeepsFirst(hs: Headers, name: string, value: string)
    ensures Header(AppendHeader(hs, name, value), name) == Some(Header(hs, name).GetOr(value))
  {
  }
}
