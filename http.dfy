/**
 * The values exchanged with the transport, and the classifier `__check_req`
 * (src/cassandra_reaper_api/__init__.py:40-45).
 */
module Http {
  import opened Wrappers

  datatype Verb = GET | POST | PUT | PATCH | DELETE

  /** A query-string or body value as the client hands it to the transport. */
  datatype Value =
    | Str(s: string)
    | Int(i: int)
    | Bool(b: bool)
    | Real(r: real)
    | Strs(items: seq<string>)

  type Params = map<string, Value>

  /** PUT, POST and DELETE bodies are form-encoded, a PATCH body is JSON. */
  datatype Body = NoBody | Form(fields: Params) | Json(fields: Params)

  datatype Request = Request(verb: Verb, url: string, params: Params, body: Body)

  /** A request as it left the session, with the session headers in force at that moment. */
  datatype Sent = Sent(request: Request, headers: map<string, string>)

  /** What the transport answers to one request: a status and a body, or a connection fault. */
  datatype Reply = Answer(status: int, text: string) | Fault

  datatype Response = Response(url: string, status: int, text: string)

  /** The client's error kinds; the first two carry what the source puts in their message. */
  datatype Error =
    | AuthError(url: string, status: int, text: string)
    | HttpError(url: string, status: int, text: string)
    | TransportError(url: string)

  /** Resolving a path against the base URL; reference resolution itself is not modelled. */
  function UrlJoin(base: string, path: string): string
  {
    base + path
  }

  /** The `ok` property of a `requests` response: no client error and no server error. */
  predicate IsOk(status: int)
  {
    !(400 <= status < 600)
  }

  /** The statuses this service uses for an invalid or expired token. */
  const AuthStatuses: set<int> := {403, 498, 499}

  /** `__check_req`: raises for a response that is not ok, AuthError for the token statuses. */
  function CheckReq(resp: Response): (o: Outcome<Error>)
    ensures o.Pass? <==> !(400 <= resp.status <= 599)
    ensures o.Fail? && o.error.AuthError? <==> resp.status in {403, 498, 499}
    ensures o.Fail? && o.error.HttpError? <==> 400 <= resp.status <= 599 && resp.status !in {403, 498, 499}
    ensures o.Fail? ==> !o.error.TransportError?
    ensures o.Fail? ==> o.error.url == resp.url && o.error.status == resp.status && o.error.text == resp.text
    ensures resp.status == 401 ==> o == Fail(HttpError(resp.url, 401, resp.text))
  {
    if !IsOk(resp.status) then
      if resp.status in AuthStatuses then Fail(AuthError(resp.url, resp.status, resp.text))
      else Fail(HttpError(resp.url, resp.status, resp.text))
    else Pass
  }
}
