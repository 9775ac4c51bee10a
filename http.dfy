/** Requests the client issues and the outcomes it reacts to. The network is
    not modelled: each `fetch` the client awaits is given as an `Outcome`. */
module Http {
  import opened Wrappers
  import opened Js

  datatype Method = Get | Post | Patch | Delete

  /** The base URL of a request: the configured backend (`VITE_API_URL`,
      with its hard-coded default in the login screen) or the literal
      `http://localhost:5001` that some components use instead. */
  datatype Origin = ApiUrl | LocalServer

  /** One `fetch` call: `credentials` is `credentials: 'include'`, `body` the
      JSON value handed to `JSON.stringify`, `timeoutMs` the delay after
      which an `AbortController` aborts the request. */
  datatype Request = Request(
    verb: Method,
    origin: Origin,
    path: string,
    headers: map<string, string>,
    credentials: bool,
    body: Option<Json>,
    timeoutMs: Option<nat>)

  /** What a rejected `fetch` (or any other throw) carries: an `AbortError`,
      or another error with its message. */
  datatype Failure = Abort | Other(message: string)

  /** What `response.json()` yields: a value, or a SyntaxError's message. */
  datatype Body = Parsed(value: Json) | Unparseable(message: string)

  /** The settled result of an awaited `fetch`. */
  datatype Outcome = Response(status: int, body: Body) | Thrown(failure: Failure)

  /** `response.ok`: the request completed with a 2xx status. */
  predicate IsOk(o: Outcome) {
    o.Response? && 200 <= o.status <= 299
  }

  const JsonHeaders: map<string, string> := map["Content-Type" := "application/json"]

  /** A plain GET. */
  function Read(origin: Origin, path: string, credentials: bool): Request {
    Request(Get, origin, path, map[], credentials, None, None)
  }

  /** A POST or PATCH with a JSON body. */
  function Send(verb: Method, origin: Origin, path: string, credentials: bool, body: Json): Request {
    Request(verb, origin, path, JsonHeaders, credentials, Some(body), None)
  }

  /** A DELETE. */
  function Remove(origin: Origin, path: string, credentials: bool): Request {
    Request(Delete, origin, path, map[], credentials, None, None)
  }

  /** The alert text for a failed response whose JSON body may carry an
      `error` field: `alert(error.error || fallback)`. `None` is the throw of
      `response.json()` on an unparseable body or of `error.error` on a
      `null` body; the caller only logs it. */
  function ServerErrorAlert(body: Body, fallback: string): (alert: Option<string>)
    ensures body.Unparseable? ==> alert.None?
    ensures body.Parsed? && !Readable(body.value) ==> alert.None?
    ensures body.Parsed? && body.value.Obj? && "error" in body.value.fields
            && Truthy(body.value.fields["error"])
            ==> alert == Some(ToText(body.value.fields["error"]))
    ensures alert.Some? && alert.value != fallback ==>
              body.Parsed? && body.value.Obj? && "error" in body.value.fields
    ensures body.Parsed? && Readable(body.value) && !Truthy(OptionalProp(body.value, "error"))
            ==> alert == Some(fallback)
  {
    match body
    case Unparseable(_) => None
    case Parsed(error) =>
      match Prop(error, "error")
      case None => None
      case Some(e) => Some(ToText(Or(e, Str(fallback))))
  }

  /** The alert of the "add to profile" handlers: `success` when the
      response is OK and its answer parses, the server's `error` or
      `fallback` when it is not OK, and none when the request or a body read
      throws (the handler only logs those). */
  function ResponseAlert(response: Outcome, success: string, fallback: string): (alert: Option<string>)
    ensures IsOk(response) ==> (alert.Some? <==> response.body.Parsed?)
    ensures IsOk(response) && alert.Some? ==> alert.value == success
    ensures response.Response? && !IsOk(response) ==> alert == ServerErrorAlert(response.body, fallback)
    ensures response.Thrown? ==> alert.None?
  {
    match response
    case Thrown(_) => None
    case Response(_, body) =>
      if IsOk(response) then (if body.Parsed? then Some(success) else None)
      else ServerErrorAlert(body, fallback)
  }
}
