/** Classification of HTTP responses by status code. */
module Http {
  import opened Wrappers
  import opened Errors

  /** What the JSON decoder made of a response body for a given target:
      a value, io.EOF for an empty body, or a decoding error. */
  datatype Decoded<T> = Value(v: T) | Eof | Invalid(reason: string)

  datatype Response<T> = Response(status: int, body: Decoded<T>)

  /** The Successful class of section 15.3 of RFC 9110. */
  predicate Successful(status: int)
  {
    200 <= status <= 299
  }

  /** No error exactly for a Successful status; otherwise an error naming the status. */
  function CheckResponse<T>(r: Response<T>): (err: Option<Error>)
    ensures err.None? <==> Successful(r.status)
    ensures err.Some? ==> err.value.RequestFailed? && err.value.status == r.status
  {
    var status := r.status;
    if status >= 200 && status <= 299 then None
    else Some(RequestFailed(status))
  }

  /** The verdict depends on the status code alone, never on the body. */
  lemma CheckResponseReadsStatusOnly<T>(r1: Response<T>, r2: Response<T>)
    requires r1.status == r2.status
    ensures CheckResponse(r1) == CheckResponse(r2)
  {
  }

  /** The edges of the accepted range. */
  lemma CheckResponseBoundaries<T>(b: Decoded<T>)
    ensures CheckResponse(Response(199, b)).Some? && CheckResponse(Response(300, b)).Some?
    ensures CheckResponse(Response(200, b)).None? && CheckResponse(Response(299, b)).None?
  {
  }
}
