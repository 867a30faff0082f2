/** Logging in: the only operation that changes the session's token. */
module Auth {
  import opened Wrappers
  import opened Errors
  import opened Http
  import opened Dockerhub

  const LoginPath := "/users/login/"

  datatype LoginRequest = LoginRequest(username: string, password: string)

  datatype LoginResponse = LoginResponse(token: string)

  /** The decode target Login allocates: a response with no token. */
  const NoResponse := LoginResponse("")

  /** The token a login exchange yields, or why it yields none: the error of
      NewRequest or Do unchanged, or NoToken when a 2xx answer has an empty token. */
  function LoginVerdict(io: Io<LoginResponse>): (r: Result<string, Error>)
    ensures r.Success? ==> r.value != ""
    ensures r.Success? <==> Settle(io, NoResponse).Success? && Settle(io, NoResponse).value.token != ""
    ensures r.Success? ==> r.value == Settle(io, NoResponse).value.token
    ensures Settle(io, NoResponse).Failure? ==> r == Failure(Settle(io, NoResponse).error)
    ensures Settle(io, NoResponse).Success? && r.Failure? ==> r.error == NoToken
  {
    match Settle(io, NoResponse)
    case Failure(e) => Failure(e)
    case Success(res) => if |res.token| == 0 then Failure(NoToken) else Success(res.token)
  }

  /** POSTs the credentials to the login endpoint and, on a usable token, stores it
      in the session; on any failure the session's token is left as it was. */
  method Login(c: Client, username: string, password: string, io: Io<LoginResponse>)
    returns (sent: Option<Request<LoginRequest>>, err: Option<Error>)
    modifies c`authToken
    ensures sent.Some? <==> io.url.Accepted?
    ensures sent.Some? ==>
      sent.value == Request(Post, ApiPrefix + LoginPath, Headers(old(c.authToken), c.userAgent, true),
                            Some(LoginRequest(username, password)))
    ensures err.None? <==> LoginVerdict(io).Success?
    ensures err.Some? ==> err.value == LoginVerdict(io).error && c.authToken == old(c.authToken)
    ensures err.None? ==> c.authToken == LoginVerdict(io).value
    ensures c.userAgent == old(c.userAgent) && c.baseURL == old(c.baseURL)
  {
    var req := c.NewRequest(Post, LoginPath, Some(LoginRequest(username, password)), io.url);
    if req.Failure? {
      return None, Some(req.error);
    }
    sent := Some(req.value);
    var res := Do(io.ctx, io.exchange, NoResponse);
    if res.Failure? {
      return sent, Some(res.error);
    }
    if |res.value.value.token| == 0 {
      return sent, Some(NoToken);
    }
    c.SetAuthToken(res.value.value.token);
    err := None;
  }

  /** A 2xx answer with an empty body is not a login: the token check fails with
      its own message. */
  lemma EmptyAnswerIsNoToken(status: int)
    requires 200 <= status <= 299
    ensures LoginVerdict(Io(Accepted, Live, Delivered(Response(status, Eof)))) == Failure(NoToken)
    ensures Message(NoToken) == "did not recieve token"
  {
  }

  /** A first login on a fresh client, then any other request: the login request
      carries no Authorization header, and the later request carries the received
      token exactly when the login succeeded. */
  method LoginOnFreshClient<B>(username: string, password: string, io: Io<LoginResponse>,
                               verb: Method, path: string, body: Option<B>)
    returns (login: Option<Request<LoginRequest>>, err: Option<Error>, next: Request<B>)
    ensures login.Some? ==> AuthorizationHeader !in login.value.headers
    ensures login.Some? ==> login.value.body == Some(LoginRequest(username, password))
    ensures err.None? <==> LoginVerdict(io).Success?
    ensures LoginVerdict(io).Success? ==> BearerToken(next.headers) == Some(LoginVerdict(io).value)
    ensures LoginVerdict(io).Success? ==> next.headers[AuthorizationHeader] == TokenScheme + LoginVerdict(io).value
    ensures err.Some? ==> AuthorizationHeader !in next.headers
  {
    var c := new Client();
    login, err := Login(c, username, password, io);
    var built := c.NewRequest(verb, path, body, Accepted);
    next := built.value;
    BearerTokenOfHeaders(c.authToken, c.userAgent, body.Some?);
  }
}
