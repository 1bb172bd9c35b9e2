/**
 * The authenticated-session request layer as a pure state machine over a
 * scripted transport: the replies still to come and the log of requests sent.
 * Each function here is the specification of the method of the same name in
 * class `Reaper.CassandraReaper`.
 */
module Protocol {
  import opened Wrappers
  import opened Http

  const Authorization: string := "Authorization"

  /**
   * What the client holds: the stored password, the token, the session
   * headers, the transport (scripted replies and request log) and the
   * number of `login` calls made so far.
   */
  datatype State = State(
    password: string,
    token: string,
    headers: map<string, string>,
    pending: seq<Reply>,
    log: seq<Sent>,
    logins: nat)

  function Bearer(token: string): string
  {
    "Bearer " + token
  }

  /**
   * The session invariant: the only header the client sets is Authorization,
   * it is there only once a token was stored, and it always carries that token.
   */
  predicate Inv(s: State)
  {
    && s.headers.Keys <= {Authorization}
    && (Authorization in s.headers ==> s.headers[Authorization] == Bearer(s.token))
    && (Authorization !in s.headers ==> s.token == "")
  }

  /** A fresh client: no token, no header, nothing sent yet. */
  function Initial(password: string, transport: seq<Reply>): (s: State)
    ensures Inv(s)
    ensures s.token == "" && Authorization !in s.headers
    ensures s.password == password && s.pending == transport && s.log == [] && s.logins == 0
  {
    State(password, "", map[], transport, [], 0)
  }

  /** The replies after the next one. */
  function Rest(p: seq<Reply>): seq<Reply>
  {
    if p == [] then [] else p[1..]
  }

  /** The replies left once `n` requests have been sent. */
  function Drop(p: seq<Reply>, n: nat): seq<Reply>
  {
    if n >= |p| then [] else p[n..]
  }

  /** Reply `i` of the script is an answer with an ok status. */
  predicate OkAt(p: seq<Reply>, i: nat)
  {
    i < |p| && p[i].Answer? && IsOk(p[i].status)
  }

  /** Reply `i` of the script is an answer with one of the token statuses. */
  predicate AuthRejectedAt(p: seq<Reply>, i: nat)
  {
    i < |p| && p[i].Answer? && p[i].status in AuthStatuses
  }

  predicate IsAuthFailure<T>(r: Result<T, Error>)
  {
    r.Failure? && r.error.AuthError?
  }

  /**
   * An independent reading of what reply `i`, given to a request for `url`,
   * amounts to once checked: a missing reply or a fault is a transport
   * error; a token status is an AuthError; any other 4xx or 5xx status is an
   * HTTPError; everything else is a response.
   */
  function ReplyOutcome(p: seq<Reply>, i: nat, url: string): Result<Response, Error>
  {
    if i >= |p| || p[i].Fault? then Failure(TransportError(url))
    else if p[i].status in AuthStatuses then Failure(AuthError(url, p[i].status, p[i].text))
    else if 400 <= p[i].status < 600 then Failure(HttpError(url, p[i].status, p[i].text))
    else Success(Response(url, p[i].status, p[i].text))
  }

  /** The transport: take the next scripted reply and log the request with the current headers. */
  function Transmit(s: State, req: Request): (State, Result<Response, Error>)
  {
    var s' := s.(pending := Rest(s.pending), log := s.log + [Sent(req, s.headers)]);
    if s.pending == [] || s.pending[0].Fault? then (s', Failure(TransportError(req.url)))
    else (s', Success(Response(req.url, s.pending[0].status, s.pending[0].text)))
  }

  /**
   * One undecorated verb helper (`__get`, `__delete`, `__post`, `__put`,
   * `__patch`): send once, then `__check_req`. Exactly one request is sent,
   * with the current headers, and only the transport changes.
   */
  function Attempt(s: State, req: Request): (r: (State, Result<Response, Error>))
    ensures r.0 == s.(pending := Rest(s.pending), log := s.log + [Sent(req, s.headers)])
    ensures r.1 == ReplyOutcome(s.pending, 0, req.url)
    ensures r.1.Success? <==> OkAt(s.pending, 0)
    ensures IsAuthFailure(r.1) <==> AuthRejectedAt(s.pending, 0)
  {
    var (s1, sent) := Transmit(s, req);
    match sent
    case Failure(e) => (s1, Failure(e))
    case Success(resp) =>
      match CheckReq(resp)
      case Pass => (s1, Success(resp))
      case Fail(e) => (s1, Failure(e))
  }

  /** The form `login` posts. */
  function LoginData(user: string, password: string): Params
  {
    map["username" := Str(user), "password" := Str(password), "rememberMe" := Bool(false)]
  }

  function LoginRequest(url: string, user: string, password: string): Request
  {
    Request(POST, UrlJoin(url, "login"), map[], Form(LoginData(user, password)))
  }

  function JwtRequest(url: string): Request
  {
    Request(GET, UrlJoin(url, "jwt"), map[], NoBody)
  }

  /**
   * `login`: POST the credentials to /login and check; only then GET /jwt and
   * check; only then store the body text as token and set the header.
   */
  function Login(s: State, url: string, user: string): (r: (State, Outcome<Error>))
    ensures Inv(s) ==> Inv(r.0)
    ensures r.0.logins == s.logins + 1 && r.0.password == s.password
    ensures r.1.Pass? <==> OkAt(s.pending, 0) && OkAt(s.pending, 1)
    ensures r.1.Pass? ==>
      && r.0.token == s.pending[1].text
      && r.0.headers == s.headers[Authorization := Bearer(s.pending[1].text)]
    ensures r.1.Fail? ==> r.0.token == s.token && r.0.headers == s.headers
    ensures !OkAt(s.pending, 0) ==> r.1 == Fail(ReplyOutcome(s.pending, 0, UrlJoin(url, "login")).error)
    ensures OkAt(s.pending, 0) && !OkAt(s.pending, 1) ==>
      r.1 == Fail(ReplyOutcome(s.pending, 1, UrlJoin(url, "jwt")).error)
    ensures r.0.log == s.log + [Sent(LoginRequest(url, user, s.password), s.headers)]
      + (if OkAt(s.pending, 0) then [Sent(JwtRequest(url), s.headers)] else [])
    ensures r.0.pending == Drop(s.pending, if OkAt(s.pending, 0) then 2 else 1)
  {
    var s0 := s.(logins := s.logins + 1);
    var (s1, login) := Attempt(s0, LoginRequest(url, user, s.password));
    if login.Failure? then (s1, Fail(login.error))
    else
      var (s2, jwt) := Attempt(s1, JwtRequest(url));
      if jwt.Failure? then (s2, Fail(jwt.error))
      else (s2.(token := jwt.value.text, headers := s2.headers[Authorization := Bearer(jwt.value.text)]), Pass)
  }

  /**
   * `__auth_req` around one verb helper: one attempt; only on an AuthError,
   * one `login` and, if it succeeds, one more identical attempt whose result
   * is final. A failing `login` is final too.
   */
  function AuthReq(s: State, url: string, user: string, req: Request): (r: (State, Result<Response, Error>))
    ensures Inv(s) ==> Inv(r.0)
    ensures r.0.password == s.password
    ensures r.0.logins == if AuthRejectedAt(s.pending, 0) then s.logins + 1 else s.logins
    ensures |s.log| < |r.0.log| <= |s.log| + 4
    ensures r.0.log[..|s.log| + 1] == s.log + [Sent(req, s.headers)]
    ensures r.0.pending == Drop(s.pending, |r.0.log| - |s.log|)
    ensures !AuthRejectedAt(s.pending, 0) ==> r == Attempt(s, req)
    ensures AuthRejectedAt(s.pending, 0) && OkAt(s.pending, 1) && OkAt(s.pending, 2) ==>
      && r.0.token == s.pending[2].text
      && r.0.headers == s.headers[Authorization := Bearer(s.pending[2].text)]
      && r.0.log == s.log + [Sent(req, s.headers),
                             Sent(LoginRequest(url, user, s.password), s.headers),
                             Sent(JwtRequest(url), s.headers),
                             Sent(req, s.headers[Authorization := Bearer(s.pending[2].text)])]
      && r.1 == ReplyOutcome(s.pending, 3, req.url)
    ensures AuthRejectedAt(s.pending, 0) && !(OkAt(s.pending, 1) && OkAt(s.pending, 2)) ==>
      && r.1 == Failure(if !OkAt(s.pending, 1)
                        then ReplyOutcome(s.pending, 1, UrlJoin(url, "login")).error
                        else ReplyOutcome(s.pending, 2, UrlJoin(url, "jwt")).error)
      && r.0.token == s.token && r.0.headers == s.headers
      && r.0.log == s.log + [Sent(req, s.headers), Sent(LoginRequest(url, user, s.password), s.headers)]
                          + (if OkAt(s.pending, 1) then [Sent(JwtRequest(url), s.headers)] else [])
  {
    assert Attempt(s, req).0.pending == Drop(s.pending, 1);
    var (s1, first) := Attempt(s, req);
    if IsAuthFailure(first) then
      var (s2, relogin) := Login(s1, url, user);
      match relogin
      case Fail(e) => (s2, Failure(e))
      case Pass => Attempt(s2, req)
    else (s1, first)
  }
}
