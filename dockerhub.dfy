/** The session and the shared request pipeline every facade goes through:
    the client state, the request builder (NewRequest) and the response
    executor (Do). The transport, the URL parser and the JSON decoder are
    foreign; what they produce for one exchange is given as input (`Io`). */
module Dockerhub {
  import opened Wrappers
  import opened Errors
  import opened Http

  const DefaultUserAgent := "dockerhub-go/v1"
  const DefaultBaseURL := "https://hub.docker.com"
  const ApiPrefix := "/v2"

  const AuthorizationHeader := "Authorization"
  const ContentTypeHeader := "Content-Type"
  const UserAgentHeader := "User-Agent"
  const JsonContentType := "application/json"
  const TokenScheme := "JWT "

  datatype Method = Get | Post | Patch

  /** The URL parser's verdict on the resolved reference. */
  datatype UrlCheck = Accepted | Rejected(reason: string)

  /** A request context: still live, or done for a reason. */
  datatype Context = Live | Done(cause: Cause)

  /** What the HTTP transport did with the request. */
  datatype Exchange<T> = TransportFailed(reason: string) | Delivered(response: Response<T>)

  /** Everything foreign to one facade call. */
  datatype Io<T> = Io(url: UrlCheck, ctx: Context, exchange: Exchange<T>)

  /** A built request: method, path under the API prefix, headers and the body record
      (None for a nil body). */
  datatype Request<B> = Request(verb: Method, path: string, headers: map<string, string>, body: Option<B>)

  /** A successful Do: the status and the decode target's final value. */
  datatype Reply<T> = Reply(status: int, value: T)

  /** The headers of a request built with the given session token and user agent. */
  function Headers(token: string, userAgent: string, hasBody: bool): (h: map<string, string>)
    ensures AuthorizationHeader in h <==> token != ""
    ensures AuthorizationHeader in h ==> h[AuthorizationHeader] == TokenScheme + token
    ensures ContentTypeHeader in h <==> hasBody
    ensures ContentTypeHeader in h ==> h[ContentTypeHeader] == JsonContentType
    ensures UserAgentHeader in h && h[UserAgentHeader] == userAgent
    ensures h.Keys <= {AuthorizationHeader, ContentTypeHeader, UserAgentHeader}
  {
    var auth := if token != "" then map[AuthorizationHeader := TokenScheme + token] else map[];
    var kind := if hasBody then map[ContentTypeHeader := JsonContentType] else map[];
    (auth + kind)[UserAgentHeader := userAgent]
  }

  /** The token a server reads from the `Authorization` header, if any. */
  function BearerToken(h: map<string, string>): Option<string>
  {
    if AuthorizationHeader in h && |h[AuthorizationHeader]| > |TokenScheme|
       && h[AuthorizationHeader][..|TokenScheme|] == TokenScheme
    then Some(h[AuthorizationHeader][|TokenScheme|..])
    else None
  }

  /** A server recovers exactly the session token from a built request, and none
      when the session has no token. */
  lemma BearerTokenOfHeaders(token: string, userAgent: string, hasBody: bool)
    ensures BearerToken(Headers(token, userAgent, hasBody)) == if token == "" then None else Some(token)
  {
    var h := Headers(token, userAgent, hasBody);
    if token != "" {
      assert h[AuthorizationHeader][..|TokenScheme|] == TokenScheme;
      assert h[AuthorizationHeader][|TokenScheme|..] == token;
    }
  }

  /** The outcome of sending a request. A transport failure reports the context's
      error when the context is done and the transport's otherwise; a response
      must have a 2xx status before its body is looked at; an empty body (io.EOF)
      leaves the target as it was and is not an error. */
  function Do<T>(ctx: Context, exchange: Exchange<T>, target: T): (r: Result<Reply<T>, Error>)
    ensures exchange.TransportFailed? ==>
      r == Failure(if ctx.Done? then ContextDone(ctx.cause) else Transport(exchange.reason))
    ensures exchange.Delivered? && !Successful(exchange.response.status) ==>
      r == Failure(RequestFailed(exchange.response.status))
    ensures r.Success? <==>
      exchange.Delivered? && Successful(exchange.response.status) && !exchange.response.body.Invalid?
    ensures r.Success? ==> r.value.status == exchange.response.status
    ensures r.Success? ==> r.value.value == if exchange.response.body.Value? then exchange.response.body.v else target
    ensures r.Failure? && exchange.Delivered? && exchange.response.body.Invalid? && Successful(exchange.response.status) ==>
      r.error == Undecodable(exchange.response.body.reason)
  {
    match exchange
    case TransportFailed(reason) =>
      if ctx.Done? then Failure(ContextDone(ctx.cause)) else Failure(Transport(reason))
    case Delivered(resp) =>
      var check := CheckResponse(resp);
      if check.Some? then Failure(check.value)
      else
        match resp.body
        case Value(v) => Success(Reply(resp.status, v))
        case Eof => Success(Reply(resp.status, target))
        case Invalid(reason) => Failure(Undecodable(reason))
  }

  /** A non-2xx response fails the same way whatever its body and whatever the context. */
  lemma DoRejectsBeforeDecoding<T>(ctx1: Context, ctx2: Context, status: int, b1: Decoded<T>, b2: Decoded<T>, t: T)
    requires !Successful(status)
    ensures Do(ctx1, Delivered(Response(status, b1)), t) == Do(ctx2, Delivered(Response(status, b2)), t)
  {
  }

  /** The error the JSON decoder gives when asked to store a value through a nil target. */
  const NilTargetReason := "json: Unmarshal(nil)"

  /** Do with a nil decode target. The decoder still reads the body: an empty body
      is io.EOF and a malformed one a syntax error, as for any target, but a
      well-formed value cannot be stored and is refused. Here `Value(())` stands
      for a body that holds a well-formed JSON value. */
  function IntoNil(io: Io<()>): (d: Io<()>)
    ensures d.url == io.url && d.ctx == io.ctx
    ensures io.exchange.TransportFailed? ==> d.exchange == io.exchange
    ensures io.exchange.Delivered? ==>
      && d.exchange.Delivered?
      && d.exchange.response.status == io.exchange.response.status
      && (d.exchange.response.body.Eof? <==> io.exchange.response.body.Eof?)
      && !d.exchange.response.body.Value?
  {
    match io.exchange
    case TransportFailed(_) => io
    case Delivered(Response(status, body)) =>
      var seen := if body.Value? then Invalid(NilTargetReason) else body;
      io.(exchange := Delivered(Response(status, seen)))
  }

  /** What a facade hands back: a nil result with the error of NewRequest or of Do,
      unchanged, or the decode target. */
  function Settle<T>(io: Io<T>, blank: T): (r: Result<T, Error>)
    ensures io.url.Rejected? ==> r == Failure(BadUrl(io.url.reason))
    ensures r.Success? <==> io.url.Accepted? && Do(io.ctx, io.exchange, blank).Success?
    ensures io.url.Accepted? && r.Failure? ==> r.error == Do(io.ctx, io.exchange, blank).error
    ensures r.Success? ==> r.value == Do(io.ctx, io.exchange, blank).value.value
  {
    if io.url.Rejected? then Failure(BadUrl(io.url.reason))
    else
      match Do(io.ctx, io.exchange, blank)
      case Failure(e) => Failure(e)
      case Success(reply) => Success(reply.value)
  }

  /** A Dockerhub API session. The token is the only state the library itself
      changes after construction. */
  class Client {
    var baseURL: string
    var userAgent: string
    var authToken: string

    /** NewClient: no token, the default user agent and the public API host. */
    constructor ()
      ensures authToken == ""
      ensures userAgent == DefaultUserAgent
      ensures baseURL == DefaultBaseURL
    {
      baseURL := DefaultBaseURL;
      userAgent := DefaultUserAgent;
      authToken := "";
    }

    method SetAuthToken(token: string)
      modifies this`authToken
      ensures authToken == token
      ensures userAgent == old(userAgent) && baseURL == old(baseURL)
    {
      authToken := token;
    }

    /** Builds a request for `path` under the API prefix; reads the session and
        changes nothing. */
    method NewRequest<B>(verb: Method, path: string, body: Option<B>, url: UrlCheck)
      returns (r: Result<Request<B>, Error>)
      ensures url.Rejected? ==> r == Failure(BadUrl(url.reason))
      ensures url.Accepted? ==>
        r == Success(Request(verb, ApiPrefix + path, Headers(authToken, userAgent, body.Some?), body))
    {
      if url.Rejected? {
        return Failure(BadUrl(url.reason));
      }
      var headers: map<string, string> := map[];
      if |authToken| != 0 {
        headers := headers[AuthorizationHeader := TokenScheme + authToken];
      }
      if body.Some? {
        headers := headers[ContentTypeHeader := JsonContentType];
      }
      headers := headers[UserAgentHeader := userAgent];
      ghost var spec := Headers(authToken, userAgent, body.Some?);
      assert headers.Keys == spec.Keys;
      assert headers == spec;
      r := Success(Request(verb, ApiPrefix + path, headers, body));
    }

    /** NewRequest followed by Do, the step every facade but Login repeats:
        `sent` is the request handed to the transport, None when NewRequest failed. */
    method Send<B, T>(verb: Method, path: string, body: Option<B>, io: Io<T>, blank: T)
      returns (sent: Option<Request<B>>, r: Result<T, Error>)
      ensures sent.Some? <==> io.url.Accepted?
      ensures sent.Some? ==>
        sent.value == Request(verb, ApiPrefix + path, Headers(authToken, userAgent, body.Some?), body)
      ensures r == Settle(io, blank)
    {
      var req := NewRequest(verb, path, body, io.url);
      if req.Failure? {
        return None, Failure(req.error);
      }
      sent := Some(req.value);
      var reply := Do(io.ctx, io.exchange, blank);
      if reply.Failure? {
        return sent, Failure(reply.error);
      }
      r := Success(reply.value.value);
    }
  }
}
