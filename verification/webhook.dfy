/** `POST /api/webhooks/paystack` (app/api/webhooks/paystack/route.ts): check
    the delivery's signature, parse and decode the envelope, and hand the
    event to its handler. The HMAC-SHA-512 digest (RFC 2104) and `JSON.parse`
    are parameters of the model. */
module Webhook {
  import opened Wrappers
  import opened Json
  import opened Errors
  import opened Schemas
  import opened Gateway

  const MissingSignature := "Missing signature"
  const InvalidSignature := "Invalid signature"
  const InvalidJson := "Invalid JSON payload"
  const InvalidData := "Invalid webhook data"
  const ProcessingFailed := "Webhook processing failed"

  /** The seven event handlers (each only logs). */
  datatype Handler =
    | SubscriptionCreate
    | SubscriptionDisable
    | SubscriptionNotRenew
    | InvoiceCreate
    | InvoicePaymentFailed
    | InvoiceUpdate
    | ChargeSuccess
  {
    /** The event name the `switch` routes to this handler. */
    function EventName(): string
    {
      match this
      case SubscriptionCreate => "subscription.create"
      case SubscriptionDisable => "subscription.disable"
      case SubscriptionNotRenew => "subscription.not_renew"
      case InvoiceCreate => "invoice.create"
      case InvoicePaymentFailed => "invoice.payment_failed"
      case InvoiceUpdate => "invoice.update"
      case ChargeSuccess => "charge.success"
    }
  }

  /** The `switch (validatedEvent.event)`: one handler, or the default
      branch's log line. */
  function Dispatch(event: string): (h: Option<Handler>)
    ensures h.Some? ==> h.value.EventName() == event
  {
    match event
    case "subscription.create" => Some(SubscriptionCreate)
    case "subscription.disable" => Some(SubscriptionDisable)
    case "subscription.not_renew" => Some(SubscriptionNotRenew)
    case "invoice.create" => Some(InvoiceCreate)
    case "invoice.payment_failed" => Some(InvoicePaymentFailed)
    case "invoice.update" => Some(InvoiceUpdate)
    case "charge.success" => Some(ChargeSuccess)
    case _ => None
  }

  /** A delivery's reply and the handler that ran, if any. */
  datatype Delivery = Delivery(reply: Reply, ran: Option<Handler>)

  /** `{ status: "success" }`. */
  const Acknowledged := JObj(map["status" := JStr("success")])

  /** The inputs of one delivery: `payload` is `request.text()` (`None` if
      reading fails), `signature` the `x-paystack-signature` header, `secret`
      the gateway key (`None` when unset, which makes `createHmac` throw);
      `hmac(key, text)` is the hex digest and `parse` is `JSON.parse`. */
  function Run(secret: Option<string>, hmac: (string, string) -> string, parse: string -> Option<Json>,
               payload: Option<string>, signature: Option<string>): (r: (Step, Option<Handler>))
    ensures r.1.Some? ==> r.0 == Success(Acknowledged)
    ensures r.0.Success? ==>
      && payload.Some? && signature.Some? && secret.Some?
      && hmac(secret.value, payload.value) == signature.value
  {
    if payload.None? then (Failure(Untagged), None)
    else if signature.None? then (BadRequest(MissingSignature), None)
    else if secret.None? then (Defect, None)
    else if hmac(secret.value, payload.value) != signature.value then (BadRequest(InvalidSignature), None)
    else if parse(payload.value).None? then (BadRequest(InvalidJson), None)
    else
      var event := DecodeWebhookEvent(parse(payload.value).value);
      if event.None? then (Failure(ParseFailure), None)
      else (Success(Acknowledged), Dispatch(event.value.event))
  }

  /** The route's `catchTags` / `catchAll` table. */
  function Catch(s: Step): (r: Reply)
    ensures s.Success? ==> r == Reply(StatusOk, s.body)
    ensures s == Failure(ParseFailure) ==> r == Error(StatusBadRequest, InvalidData)
    ensures s.Failure? && s.fault.Raised? && s.fault.error.BadRequestError? ==>
      r == Error(StatusBadRequest, s.fault.error.text)
    ensures s.Failure? && (s.fault.Untagged? || (s.fault.Raised? && !s.fault.error.BadRequestError?)) ==>
      r == Error(StatusServerError, ProcessingFailed)
    ensures s.Defect? <==> r.Unhandled?
  {
    match s
    case Success(b) => Respond(s)
    case Failure(ParseFailure) => Error(StatusBadRequest, InvalidData)
    case Failure(Raised(BadRequestError(m))) => Error(StatusBadRequest, m)
    case Failure(_) => Error(StatusServerError, ProcessingFailed)
    case Defect => Unhandled
  }

  function Post(secret: Option<string>, hmac: (string, string) -> string, parse: string -> Option<Json>,
                payload: Option<string>, signature: Option<string>): Delivery
  {
    var (s, ran) := Run(secret, hmac, parse, payload, signature);
    Delivery(Catch(s), ran)
  }

  /** The delivery passes every check: signed with the key, valid JSON, and
      a well-formed envelope. */
  predicate Authentic(secret: string, hmac: (string, string) -> string, parse: string -> Option<Json>,
                      payload: string, signature: string)
  {
    hmac(secret, payload) == signature
    && parse(payload).Some?
    && DecodeWebhookEvent(parse(payload).value).Some?
  }

  // ---------------------------------------------------------------------
  // Properties

  /** Each handler is reached by exactly its own event name, and any other
      name reaches none. */
  lemma DispatchExact(event: string, h: Handler)
    ensures Dispatch(event) == Some(h) <==> event == h.EventName()
  {
  }

  lemma DispatchRoundTrip(h: Handler)
    ensures Dispatch(h.EventName()) == Some(h)
  {
  }

  /** The checks run in order and the first failure decides the reply: a
      missing header, then a wrong signature, then unparsable JSON, then a bad
      envelope. No handler runs unless all pass. */
  lemma CheckOrder(secret: string, hmac: (string, string) -> string, parse: string -> Option<Json>,
                   payload: string, signature: Option<string>)
    ensures var d := Post(Some(secret), hmac, parse, Some(payload), signature);
      && (signature.None? ==> d == Delivery(Error(StatusBadRequest, MissingSignature), None))
      && (signature.Some? && hmac(secret, payload) != signature.value ==>
            d == Delivery(Error(StatusBadRequest, InvalidSignature), None))
      && (signature.Some? && hmac(secret, payload) == signature.value && parse(payload).None? ==>
            d == Delivery(Error(StatusBadRequest, InvalidJson), None))
      && (signature.Some? && hmac(secret, payload) == signature.value && parse(payload).Some?
          && DecodeWebhookEvent(parse(payload).value).None? ==>
            d == Delivery(Error(StatusBadRequest, InvalidData), None))
  {
  }

  /** The signature is checked against the raw text before it is parsed:
      two parsers that disagree on everything give the same reply to a
      delivery whose signature does not match. */
  lemma SignatureBeforeParse(secret: string, hmac: (string, string) -> string,
                             p1: string -> Option<Json>, p2: string -> Option<Json>,
                             payload: string, signature: string)
    requires hmac(secret, payload) != signature
    ensures Post(Some(secret), hmac, p1, Some(payload), Some(signature))
         == Post(Some(secret), hmac, p2, Some(payload), Some(signature))
  {
  }

  /** A delivery is acknowledged with `{status: "success"}` exactly when it
      is authentic, whatever its event; then the handler of its event runs
      (or none, for an unknown event). */
  lemma AcknowledgedIffAuthentic(secret: string, hmac: (string, string) -> string, parse: string -> Option<Json>,
                                 payload: string, signature: string)
    ensures var d := Post(Some(secret), hmac, parse, Some(payload), Some(signature));
      && (d.reply == Reply(StatusOk, Acknowledged) <==> Authentic(secret, hmac, parse, payload, signature))
      && (d.ran.Some? ==> Authentic(secret, hmac, parse, payload, signature))
      && (Authentic(secret, hmac, parse, payload, signature) ==>
            d.ran == Dispatch(DecodeWebhookEvent(parse(payload).value).value.event))
  {
    assert Error(StatusBadRequest, InvalidData) != Reply(StatusOk, Acknowledged);
  }

  /** An unreadable body is a 500 "Webhook processing failed"; an unset key
      makes the digest throw past the handlers. */
  lemma OtherFailures(secret: Option<string>, hmac: (string, string) -> string, parse: string -> Option<Json>,
                      payload: Option<string>, signature: string)
    ensures payload.None? ==>
      Post(secret, hmac, parse, payload, Some(signature)) == Delivery(Error(StatusServerError, ProcessingFailed), None)
    ensures payload.Some? && secret.None? ==>
      Post(secret, hmac, parse, payload, Some(signature)) == Delivery(Unhandled, None)
  {
  }
}
