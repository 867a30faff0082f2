/** The user facade: the profile of the logged-in user. */
module User {
  import opened Wrappers
  import opened Errors
  import opened Dockerhub

  const CurrentUserPath := "/user/"

  /** GET the current user's path, with no body and hence no Content-Type. */
  method GetLoggedInUser<T>(c: Client, io: Io<T>, blank: T)
    returns (sent: Option<Request<()>>, r: Result<T, Error>)
    ensures sent.Some? <==> io.url.Accepted?
    ensures sent.Some? ==>
      sent.value == Request(Get, ApiPrefix + CurrentUserPath, Headers(c.authToken, c.userAgent, false), None)
    ensures sent.Some? ==> ContentTypeHeader !in sent.value.headers
    ensures r == Settle(io, blank)
  {
    sent, r := c.Send(Get, CurrentUserPath, None, io, blank);
  }
}
