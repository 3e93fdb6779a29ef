/** The one place where tools.py turns an HTTP exchange into a Python value:
    `handle_response`, and the transport failure that escapes every API tool. */
module Http {
  import opened Values

  /** What `requests` hands back: the status code, the body as `response.json()`
      would decode it (None when the body is not JSON), and `failure`, the text
      `str(e)` of the HTTPError that `raise_for_status()` would raise. */
  datatype Response = Response(status: int, body: Option<Json>, failure: string)

  /** The outcome of sending one request: a response, or a transport exception
      (connection refused, timeout, ...) raised by `requests` itself. */
  datatype Reply = Received(response: Response) | Unreachable(message: string)

  /** `raise_for_status()` raises exactly for the client and server error codes. */
  predicate IsHttpError(status: int)
  {
    400 <= status < 600
  }

  /** handle_response: an HTTP error becomes the value `{"error": "HTTPError: ..."}`,
      anything else is the decoded body, unchanged. */
  function HandleResponse(response: Response): (r: Outcome<Json>)
    ensures IsHttpError(response.status) ==> r == Returned(ErrorValue("HTTPError: " + response.failure))
    ensures !IsHttpError(response.status) && response.body.Some? ==> r == Returned(response.body.value)
    ensures !IsHttpError(response.status) && response.body.None? ==> r == Raised(JsonDecode)
  {
    if IsHttpError(response.status) then
      Returned(ErrorValue("HTTPError: " + response.failure))
    else
      match response.body
      case Some(body) => Returned(body)
      case None => Raised(JsonDecode)
  }

  /** An API tool call: send the request and pass the response to
      handle_response. The `try: ... except Exception: raise` around the call in
      delete_project and get_connection_uri changes nothing: it re-raises. */
  function Call(reply: Reply): (r: Outcome<Json>)
    ensures reply.Unreachable? ==> r == Raised(Transport(reply.message))
    ensures reply.Received? && IsHttpError(reply.response.status) ==>
      r == Returned(ErrorValue("HTTPError: " + reply.response.failure))
    ensures reply.Received? && !IsHttpError(reply.response.status) && reply.response.body.Some? ==>
      r == Returned(reply.response.body.value)
    ensures reply.Received? && !IsHttpError(reply.response.status) && reply.response.body.None? ==>
      r == Raised(JsonDecode)
  {
    match reply
    case Unreachable(message) => Raised(Transport(message))
    case Received(response) => HandleResponse(response)
  }

  /** handle_response never raises on an HTTP error: the only exception it
      lets out is the JSON decoding error of a successful response. */
  lemma HandleResponseRaisesOnlyOnUndecodableBody(response: Response)
    ensures HandleResponse(response).Raised? <==> !IsHttpError(response.status) && response.body.None?
  {
  }

  /** So an HTTP error reaches the caller of any API tool as a value, also
      through the re-raising `try` blocks; only a transport failure or an
      undecodable successful body raises. */
  lemma CallRaisesOnlyOnTransportOrDecode(reply: Reply)
    ensures Call(reply).Raised? <==>
      reply.Unreachable? || (!IsHttpError(reply.response.status) && reply.response.body.None?)
    ensures reply.Received? && IsHttpError(reply.response.status) ==>
      Call(reply) == Returned(ErrorValue("HTTPError: " + reply.response.failure))
  {
  }
}
