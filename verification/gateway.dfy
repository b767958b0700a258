/** What the API routes share: the outcome of one call to the payment
    gateway (lib/paystack-service.ts, left abstract), the failure channel of an
    Effect pipeline, and the HTTP reply a route finally produces. */
module Gateway {
  import opened Wrappers
  import opened Json
  import opened Errors

  const StatusOk := 200
  const StatusBadRequest := 400
  const StatusServerError := 500

  const InternalServerError := "Internal server error"

  /** One gateway call as the route sees it. `Replied` is a 2xx reply whose
      body matched the service's response schema (`data` is what that schema
      decoded); `Unreachable` is a `PaystackError` (the fetch rejected, the
      status was not 2xx, or the body was not JSON), which has no `_tag`;
      `Mismatch` is the `ParseError` of a body of the wrong shape. */
  datatype Call<D> =
    | Replied(status: bool, message: Option<string>, data: D)
    | Unreachable(httpStatus: Option<int>)
    | Mismatch

  /** A failure travelling down an Effect pipeline: one of the tagged errors
      of lib/errors.ts, a `ParseError` from a schema, or anything without a
      tag the route's `catchTags` knows (`PaystackError`, the
      `UnknownException` of a rejected `request.json()`). */
  datatype Fault = Raised(error: ApiError) | ParseFailure | Untagged

  /** Where an `Effect.gen` body ends: a JSON response, a failure, or a
      defect (a `TypeError` thrown inside the generator, which `catchAll`
      does not see). */
  datatype Step = Success(body: Json) | Failure(fault: Fault) | Defect

  /** The HTTP reply; `Unhandled` is a rejected handler promise, which the
      framework answers with its own error page. */
  datatype Reply = Reply(status: int, body: Json) | Unhandled
  {
    predicate IsOk()
    {
      Reply? && 200 <= status < 300
    }
  }

  /** What a route answered, and what it sent to the gateway, if anything. */
  datatype Handled<R> = Handled(reply: Reply, sent: Option<R>)

  function BadRequest(message: string): Step
  {
    Failure(Raised(BadRequestError(message)))
  }

  /** The fault a failed call puts on the pipeline. */
  function CallFault<D>(c: Call<D>): (f: Fault)
    requires !c.Replied?
    ensures f == ParseFailure <==> c.Mismatch?
    ensures f == Untagged <==> c.Unreachable?
  {
    if c.Mismatch? then ParseFailure else Untagged
  }

  /** The common prefix of every gateway-backed route: a refused call becomes
      a `BadRequestError` carrying the gateway's message or the route's
      fallback, and a failed call becomes its fault. */
  function Refusal<D>(c: Call<D>, fallback: string): (s: Step)
    requires !(c.Replied? && c.status)
    ensures c.Replied? ==> s == BadRequest(c.message.GetOr(fallback))
    ensures !c.Replied? ==> s == Failure(CallFault(c))
  {
    if c.Replied? then BadRequest(c.message.GetOr(fallback)) else Failure(CallFault(c))
  }

  /** A successful response body, sent with status 200. */
  function Respond(s: Step): (r: Reply)
    requires s.Success?
    ensures r.IsOk() && r.body == s.body
  {
    Reply(StatusOk, s.body)
  }

  function Error(status: int, message: string): (r: Reply)
    ensures r.Reply? && r.status == status && r.body == ErrorBody(message)
  {
    Reply(status, ErrorBody(message))
  }
}
