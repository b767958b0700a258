/** `GET` and `POST /api/subscription/verify` (app/api/subscription/verify/route.ts):
    look a transaction up at the gateway and answer with an allow-listed
    projection of it. Only `GET` rejects a transaction that did not succeed. */
module Verify {
  import opened Wrappers
  import opened Json
  import opened Errors
  import opened Gateway

  const ReferenceRequired := "Transaction reference is required"
  const VerifyFailed := "Failed to verify transaction"
  const UnknownStatus := "unknown"
  const NoGatewayResponse := "No gateway response"

  /** The members of a transaction the browser may see. */
  const SafeKeys := {"amount", "currency", "reference", "plan", "customer", "metadata"}

  datatype Customer = Customer(email: string, customerCode: string)

  /** The `data` the service's verify schema decodes. `plan` is absent,
      `null` (`Some(None)`) or a string. `gatewayResponse` is not declared by
      that schema; it is kept optional here. */
  datatype Transaction = Transaction(
    id: int,
    reference: string,
    amount: int,
    currency: string,
    status: string,
    paidAt: string,
    customer: Customer,
    plan: Option<Option<string>>,
    authorization: map<string, Json>,
    metadata: map<string, Json>,
    gatewayResponse: Option<string>)

  /** The record as a plain JSON object (`result.data`). */
  function TransactionJson(t: Transaction): Json
  {
    var base := map[
      "id" := JNum(t.id), "reference" := JStr(t.reference), "amount" := JNum(t.amount),
      "currency" := JStr(t.currency), "status" := JStr(t.status), "paid_at" := JStr(t.paidAt),
      "customer" := JObj(map["email" := JStr(t.customer.email), "customer_code" := JStr(t.customer.customerCode)]),
      "authorization" := JObj(t.authorization), "metadata" := JObj(t.metadata)];
    var withPlan := Put(base, "plan",
      if t.plan.None? then None else if t.plan.value.None? then Some(JNull) else Some(JStr(t.plan.value.value)));
    JObj(Put(withPlan, "gateway_response",
      if t.gatewayResponse.Some? then Some(JStr(t.gatewayResponse.value)) else None))
  }

  /** `v?.a?.b`. */
  function Nested(v: Json, a: string, b: string): (r: Option<Json>)
    ensures r.Some? <==> Get(v, a).Some? && Get(Get(v, a).value, b).Some?
  {
    var inner := Get(v, a);
    if inner.Some? then Get(inner.value, b) else None
  }

  /** The four members copied as they are; undefined ones vanish when the
      response is serialised. */
  function CopiedMembers(v: Json): (m: map<string, Json>)
    ensures m.Keys <= {"amount", "currency", "reference", "plan"}
    ensures Copied(m, v, "amount") && Copied(m, v, "currency")
    ensures Copied(m, v, "reference") && Copied(m, v, "plan")
  {
    Put(Put(Put(Put(map[], "amount", Get(v, "amount")), "currency", Get(v, "currency")),
            "reference", Get(v, "reference")), "plan", Get(v, "plan"))
  }

  /** `{ inner: v.outer?.inner }`: one member of a nested object, kept only
      when it is there. */
  function Pick(v: Json, outer: string, inner: string): (c: Json)
    ensures c.JObj? && c.fields.Keys <= {inner}
    ensures Copied(c.fields, Get(v, outer).GetOr(JNull), inner)
  {
    JObj(Put(map[], inner, Nested(v, outer, inner)))
  }

  /** `createSafeTransactionResponse`. */
  function SafeTransaction(v: Json): (r: Json)
    ensures r.JObj? && r.fields.Keys <= SafeKeys
    ensures "customer" in r.fields && "metadata" in r.fields
  {
    JObj(CopiedMembers(v)["customer" := Pick(v, "customer", "email")]["metadata" := Pick(v, "metadata", "plan_interval")])
  }

  /** Member `k` of `r` is `v`'s member `k`, present exactly when `v` has it. */
  predicate Copied(r: map<string, Json>, v: Json, k: string)
  {
    (k in r <==> Get(v, k).Some?) && (k in r ==> r[k] == Get(v, k).value)
  }

  /** The projection keeps exactly the allow-listed members: the four plain
      ones when present, the customer's e-mail and the plan interval, and
      nothing else at any level. */
  lemma SafeTransactionShape(v: Json)
    ensures var r := SafeTransaction(v);
      && r.JObj? && r.fields.Keys <= SafeKeys
      && Copied(r.fields, v, "amount") && Copied(r.fields, v, "currency")
      && Copied(r.fields, v, "reference") && Copied(r.fields, v, "plan")
      && "customer" in r.fields && r.fields["customer"].JObj?
      && r.fields["customer"].fields.Keys <= {"email"}
      && Copied(r.fields["customer"].fields, Get(v, "customer").GetOr(JNull), "email")
      && "metadata" in r.fields && r.fields["metadata"].JObj?
      && r.fields["metadata"].fields.Keys <= {"plan_interval"}
      && Copied(r.fields["metadata"].fields, Get(v, "metadata").GetOr(JNull), "plan_interval")
  {
  }

  /** Projecting a projection changes nothing. */
  lemma SafeTransactionIdempotent(v: Json)
    ensures SafeTransaction(SafeTransaction(v)) == SafeTransaction(v)
  {
    var r := SafeTransaction(v);
    SafeTransactionShape(v);
    SafeTransactionShape(r);
    var rr := SafeTransaction(r);
    assert rr.fields.Keys == r.fields.Keys;
    assert rr.fields["customer"] == r.fields["customer"];
    assert rr.fields["metadata"] == r.fields["metadata"];
  }

  /** What the members of a decoded record hold. */
  lemma TransactionJsonMembers(t: Transaction)
    ensures var j := TransactionJson(t);
      && Get(j, "amount") == Some(JNum(t.amount))
      && Get(j, "currency") == Some(JStr(t.currency))
      && Get(j, "reference") == Some(JStr(t.reference))
      && (Get(j, "plan").Some? <==> t.plan.Some?)
      && Get(j, "customer") == Some(JObj(map["email" := JStr(t.customer.email), "customer_code" := JStr(t.customer.customerCode)]))
      && Get(j, "metadata") == Some(JObj(t.metadata))
  {
  }

  /** The `plan` member of a decoded record: absent, `null`, or the code. */
  lemma TransactionPlan(t: Transaction)
    ensures Get(TransactionJson(t), "plan") ==
      if t.plan.None? then None else if t.plan.value.None? then Some(JNull) else Some(JStr(t.plan.value.value))
  {
  }

  /** For a decoded transaction: amount, currency, reference and the
      customer's e-mail always come through, the plan exactly when the record
      has one (null included), the interval exactly when the metadata has it;
      the id, status, payment time, customer code, authorization and gateway
      response never do. */
  lemma DecodedProjection(t: Transaction)
    ensures var r := SafeTransaction(TransactionJson(t)).fields;
      && r["amount"] == JNum(t.amount)
      && r["currency"] == JStr(t.currency)
      && r["reference"] == JStr(t.reference)
      && ("plan" in r <==> t.plan.Some?)
      && r["customer"].fields.Keys == {"email"} && r["customer"].fields["email"] == JStr(t.customer.email)
      && ("plan_interval" in r["metadata"].fields <==> "plan_interval" in t.metadata)
      && ("plan_interval" in t.metadata ==> r["metadata"].fields["plan_interval"] == t.metadata["plan_interval"])
      && r.Keys <= SafeKeys
  {
    TransactionJsonMembers(t);
    ProjectRecord(TransactionJson(t), t);
  }

  lemma ProjectRecord(j: Json, t: Transaction)
    requires Get(j, "amount") == Some(JNum(t.amount))
    requires Get(j, "currency") == Some(JStr(t.currency))
    requires Get(j, "reference") == Some(JStr(t.reference))
    requires Get(j, "plan").Some? <==> t.plan.Some?
    requires Get(j, "customer") == Some(JObj(map["email" := JStr(t.customer.email), "customer_code" := JStr(t.customer.customerCode)]))
    requires Get(j, "metadata") == Some(JObj(t.metadata))
    ensures var r := SafeTransaction(j).fields;
      && r["amount"] == JNum(t.amount)
      && r["currency"] == JStr(t.currency)
      && r["reference"] == JStr(t.reference)
      && ("plan" in r <==> t.plan.Some?)
      && r["customer"].fields.Keys == {"email"} && r["customer"].fields["email"] == JStr(t.customer.email)
      && ("plan_interval" in r["metadata"].fields <==> "plan_interval" in t.metadata)
      && ("plan_interval" in t.metadata ==> r["metadata"].fields["plan_interval"] == t.metadata["plan_interval"])
      && r.Keys <= SafeKeys
  {
  }

  // ---------------------------------------------------------------------
  // The handlers

  /** `String(transaction.status || 'unknown')`. */
  function StatusText(t: Transaction): (s: string)
    ensures s != ""
    ensures t.status != "" ==> s == t.status
  {
    if t.status != "" then t.status else UnknownStatus
  }

  /** `String(transaction.gateway_response || 'No gateway response')`. */
  function GatewayText(t: Transaction): (s: string)
    ensures s != ""
    ensures t.gatewayResponse.Some? && t.gatewayResponse.value != "" ==> s == t.gatewayResponse.value
  {
    if t.gatewayResponse.Some? && t.gatewayResponse.value != "" then t.gatewayResponse.value
    else NoGatewayResponse
  }

  /** `{ status: "success", transaction: <projection> }`. */
  function SuccessBody(t: Transaction): Json
  {
    JObj(map["status" := JStr("success"), "transaction" := SafeTransaction(TransactionJson(t))])
  }

  /** The body of a `TransactionFailedError` reply. */
  function FailedBody(e: ApiError): Json
    requires e.TransactionFailedError?
  {
    JObj(map["error" := JStr(e.Message()), "status" := JStr(e.status),
             "gateway_response" := JStr(e.gatewayResponse)])
  }

  /** The catch table both handlers share. */
  function Catch(s: Step): (r: Reply)
    ensures s.Success? ==> r == Reply(StatusOk, s.body)
    ensures s.Failure? && s.fault.Raised? && s.fault.error.BadRequestError? ==>
      r == Error(StatusBadRequest, s.fault.error.text)
    ensures s.Failure? && s.fault.Raised? && s.fault.error.TransactionFailedError? ==>
      r == Reply(StatusBadRequest, FailedBody(s.fault.error))
    ensures s.Failure? && (s.fault.ParseFailure? || s.fault.Untagged? || (s.fault.Raised? && s.fault.error.UnknownError?)) ==>
      r == Error(StatusServerError, InternalServerError)
    ensures s.Defect? <==> r.Unhandled?
  {
    match s
    case Success(b) => Respond(s)
    case Failure(Raised(BadRequestError(m))) => Error(StatusBadRequest, m)
    case Failure(Raised(TransactionFailedError(st, g))) => Reply(StatusBadRequest, FailedBody(s.fault.error))
    case Failure(_) => Error(StatusServerError, InternalServerError)
    case Defect => Unhandled
  }

  /** The `GET` generator body. `query` is `searchParams.get("reference")`. */
  function GetRun(query: Option<string>, reply: Call<Transaction>): (Step, Option<string>)
  {
    if query.None? then (BadRequest(ReferenceRequired), None)
    else if !(reply.Replied? && reply.status) then (Refusal(reply, VerifyFailed), query)
    else
      var t := reply.data;
      if t.status != "success" then
        (Failure(Raised(NewTransactionFailed(StatusText(t), GatewayText(t)))), query)
      else (Success(SuccessBody(t)), query)
  }

  /** `GET` asks about the query's reference, unchanged, and answers 2xx only
      for a transaction the gateway returned as successful; it never throws
      past its handlers. */
  function HandleGet(query: Option<string>, reply: Call<Transaction>): (h: Handled<string>)
    ensures h.sent == query
    ensures h.reply.Reply?
    ensures h.reply.IsOk() ==> reply.Replied? && reply.status && reply.data.status == "success"
  {
    var (s, sent) := GetRun(query, reply);
    Handled(Catch(s), sent)
  }

  /** The `POST` generator body. `body` is `None` when `request.json()`
      rejects; `body.reference` on a `null` body throws inside the generator. */
  function PostRun(body: Option<Json>, reply: Call<Transaction>): (Step, Option<Json>)
  {
    if body.None? then (Failure(Untagged), None)
    else
      var read := Read(body.value, "reference");
      if read.Throws? then (Defect, None)
      else if FromNullable(read).None? then (BadRequest(ReferenceRequired), None)
      else
        var sent := FromNullable(read);
        if !(reply.Replied? && reply.status) then (Refusal(reply, VerifyFailed), sent)
        else (Success(SuccessBody(reply.data)), sent)
  }

  /** `POST` answers 2xx only after the gateway accepted a reference it was
      sent; only a `null` body throws past the handlers. */
  function HandlePost(body: Option<Json>, reply: Call<Transaction>): (h: Handled<Json>)
    ensures h.reply.IsOk() ==> h.sent.Some? && reply.Replied? && reply.status
    ensures h.reply.IsOk() ==>
      && h.reply.body.JObj? && "transaction" in h.reply.body.fields
      && h.reply.body.fields["transaction"] == SafeTransaction(TransactionJson(reply.data))
    ensures h.reply.Unhandled? <==> body.Some? && body.value.JNull?
    ensures h.sent.Some? ==> body.Some? && h.sent == FromNullable(Read(body.value, "reference"))
  {
    var (s, sent) := PostRun(body, reply);
    Handled(Catch(s), sent)
  }

  // ---------------------------------------------------------------------
  // Properties

  /** Without a reference both handlers answer 400 and call nothing; a
      `null` body makes `POST` throw past its error handlers. */
  lemma MissingReference(query: Option<string>, body: Json, reply: Call<Transaction>)
    ensures query.None? ==> HandleGet(query, reply) == Handled(Error(StatusBadRequest, ReferenceRequired), None)
    ensures !body.JNull? && FromNullable(Read(body, "reference")).None? ==>
      HandlePost(Some(body), reply) == Handled(Error(StatusBadRequest, ReferenceRequired), None)
    ensures body.JNull? ==> HandlePost(Some(body), reply) == Handled(Unhandled, None)
  {
  }

  /** A refusal is 400 with the gateway's message or the fallback; a reply
      of the wrong shape or an unreachable gateway is 500 on both handlers. */
  lemma GatewayFailures(query: string, body: Json, reply: Call<Transaction>)
    requires !(reply.Replied? && reply.status)
    requires FromNullable(Read(body, "reference")).Some?
    ensures reply.Replied? ==>
      && HandleGet(Some(query), reply).reply == Error(StatusBadRequest, reply.message.GetOr("Failed to verify transaction"))
      && HandlePost(Some(body), reply).reply == Error(StatusBadRequest, reply.message.GetOr("Failed to verify transaction"))
    ensures !reply.Replied? ==>
      && HandleGet(Some(query), reply).reply == Error(StatusServerError, InternalServerError)
      && HandlePost(Some(body), reply).reply == Error(StatusServerError, InternalServerError)
  {
  }

  /** `GET` refuses a transaction whose status is not "success", naming the
      status (or 'unknown') and the gateway response (or its default). */
  lemma GetRejectsUnsuccessful(query: string, message: Option<string>, t: Transaction)
    requires t.status != "success"
    ensures var r := HandleGet(Some(query), Replied(true, message, t)).reply;
      && r.Reply? && r.status == StatusBadRequest
      && r.body.JObj? && r.body.fields.Keys == {"error", "status", "gateway_response"}
      && r.body.fields["error"] == JStr("Transaction was not successful")
      && r.body.fields["status"] == JStr(if t.status == "" then "unknown" else t.status)
      && r.body.fields["gateway_response"] ==
           JStr(if t.gatewayResponse.Some? && t.gatewayResponse.value != "" then t.gatewayResponse.value
                else "No gateway response")
  {
  }

  /** `GET` answers 200 with the projection exactly when the gateway
      accepted and the status is "success". */
  lemma GetSucceeds(query: string, reply: Call<Transaction>)
    ensures HandleGet(Some(query), reply).reply.IsOk() <==>
      reply.Replied? && reply.status && reply.data.status == "success"
    ensures HandleGet(Some(query), reply).reply.IsOk() ==>
      HandleGet(Some(query), reply).reply.body == SuccessBody(reply.data)
  {
  }

  /** `POST` never looks at the status: any accepted lookup is a success,
      even one `GET` refuses for the same transaction. */
  lemma PostIgnoresStatus(query: string, body: Json, message: Option<string>, t: Transaction)
    requires FromNullable(Read(body, "reference")).Some?
    ensures HandlePost(Some(body), Replied(true, message, t)).reply == Reply(StatusOk, SuccessBody(t))
    ensures t.status != "success" ==> !HandleGet(Some(query), Replied(true, message, t)).reply.IsOk()
  {
  }

  /** The reference sent is the one received: the query value as given
      (even empty), or the body's non-null `reference` member. */
  lemma ReferenceForwarded(query: string, body: Json, reply: Call<Transaction>)
    ensures HandleGet(Some(query), reply).sent == Some(query)
    ensures body.JObj? && "reference" in body.fields && !body.fields["reference"].JNull? ==>
      HandlePost(Some(body), reply).sent == Some(body.fields["reference"])
  {
  }
}
