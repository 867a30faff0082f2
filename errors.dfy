/** The errors the client surfaces, one constructor per place that produces one,
    with the text Go's `Error()` method gives for each. */
module Errors {
  import opened Wrappers
  import Fmt

  /** Why a context is done: the value `ctx.Err()` returns. */
  datatype Cause = Canceled | DeadlineExceeded

  datatype Error =
    | BadUrl(reason: string)        // url.Parse rejected "/v2" + path in NewRequest
    | Transport(reason: string)     // the HTTP client could not complete the exchange
    | ContextDone(cause: Cause)     // ctx.Err() once the context is done
    | RequestFailed(status: int)    // CheckResponse: a status outside 200..299
    | Undecodable(reason: string)   // the JSON decoder failed with something other than io.EOF
    | NoToken                       // Login got a 2xx answer without a token

  const RequestFailedPrefix := "Request failed with status "
  const NoTokenText := "did not recieve token"

  /** Foreign errors keep their own text; the client's own errors have fixed
      texts, and a failed status can be read back from its message. */
  function Message(e: Error): (m: string)
    ensures e.BadUrl? || e.Transport? || e.Undecodable? ==> m == e.reason
    ensures e == NoToken ==> m == NoTokenText
    ensures e == ContextDone(Canceled) ==> m == "context canceled"
    ensures e == ContextDone(DeadlineExceeded) ==> m == "context deadline exceeded"
    ensures e.RequestFailed? ==>
      && |m| > |RequestFailedPrefix| && m[..|RequestFailedPrefix|] == RequestFailedPrefix
      && Fmt.ParseInt(m[|RequestFailedPrefix|..]) == Some(e.status)
      && Fmt.NoLeadingZero(m[|RequestFailedPrefix|..])
  {
    match e
    case BadUrl(reason) => reason
    case Transport(reason) => reason
    case ContextDone(Canceled) => "context canceled"
    case ContextDone(DeadlineExceeded) => "context deadline exceeded"
    case RequestFailed(status) =>
      var d := Fmt.IntToDecimal(status);
      Fmt.IntToDecimalRoundTrip(status);
      assert (RequestFailedPrefix + d)[|RequestFailedPrefix|..] == d;
      RequestFailedPrefix + d
    case Undecodable(reason) => reason
    case NoToken => NoTokenText
  }
}
