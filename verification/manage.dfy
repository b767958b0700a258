/** `POST` and `GET /api/subscription/manage` (app/api/subscription/manage/route.ts):
    ask the gateway for a subscription's management link, or fetch the
    subscription itself. Only `BadRequestError` has its own handler. */
module Manage {
  import opened Wrappers
  import opened Json
  import opened Errors
  import opened Gateway

  const CodeRequired := "Subscription code is required"
  const LinkFailed := "Failed to generate management link"
  const FetchFailed := "Failed to fetch subscription"

  /** `catchTag("BadRequestError", …)` then `catchAll`. */
  function Catch(s: Step): (r: Reply)
    ensures s.Success? ==> r == Reply(StatusOk, s.body)
    ensures s.Failure? && s.fault.Raised? && s.fault.error.BadRequestError? ==>
      r == Error(StatusBadRequest, s.fault.error.text)
    ensures s.Failure? && !(s.fault.Raised? && s.fault.error.BadRequestError?) ==>
      r == Error(StatusServerError, InternalServerError)
    ensures s.Defect? <==> r.Unhandled?
  {
    match s
    case Success(b) => Respond(s)
    case Failure(Raised(BadRequestError(m))) => Error(StatusBadRequest, m)
    case Failure(_) => Error(StatusServerError, InternalServerError)
    case Defect => Unhandled
  }

  /** `{ link }`. */
  function LinkBody(link: string): Json
  {
    JObj(map["link" := JStr(link)])
  }

  /** The `POST` generator body: `body.subscription_code`, then the link call. */
  function PostRun(body: Option<Json>, reply: Call<string>): (Step, Option<Json>)
  {
    if body.None? then (Failure(Untagged), None)
    else
      var read := Read(body.value, "subscription_code");
      if read.Throws? then (Defect, None)
      else if FromNullable(read).None? then (BadRequest(CodeRequired), None)
      else
        var sent := FromNullable(read);
        if reply.Replied? && reply.status then (Success(LinkBody(reply.data)), sent)
        else (Refusal(reply, LinkFailed), sent)
  }

  /** `POST` answers 2xx only after the gateway accepted the code it was
      sent; only a `null` body throws past the handlers. */
  function HandlePost(body: Option<Json>, reply: Call<string>): (h: Handled<Json>)
    ensures h.reply.IsOk() ==> h.sent.Some? && reply.Replied? && reply.status
    ensures h.reply.IsOk() ==> h.reply.body == JObj(map["link" := JStr(reply.data)])
    ensures h.reply.Unhandled? <==> body.Some? && body.value.JNull?
    ensures h.sent.Some? ==> body.Some? && h.sent == FromNullable(Read(body.value, "subscription_code"))
  {
    var (s, sent) := PostRun(body, reply);
    Handled(Catch(s), sent)
  }

  /** The `GET` generator body: the `subscription_code` query value, then the
      fetch; the decoded subscription is answered as it is. */
  function GetRun(query: Option<string>, reply: Call<Json>): (Step, Option<string>)
  {
    if query.None? then (BadRequest(CodeRequired), None)
    else if reply.Replied? && reply.status then (Success(reply.data), query)
    else (Refusal(reply, FetchFailed), query)
  }

  /** `GET` asks about the query's code, unchanged, answers 2xx only with
      the gateway's accepted answer, and never throws past its handlers. */
  function HandleGet(query: Option<string>, reply: Call<Json>): (h: Handled<string>)
    ensures h.sent == query
    ensures h.reply.Reply?
    ensures h.reply.IsOk() ==> reply.Replied? && reply.status && h.reply.body == reply.data
  {
    var (s, sent) := GetRun(query, reply);
    Handled(Catch(s), sent)
  }

  // ---------------------------------------------------------------------
  // Properties

  /** Without a code both handlers answer 400 "Subscription code is
      required" and call nothing; a `null` body throws past the handlers. */
  lemma MissingCode(query: Option<string>, body: Json, link: Call<string>, sub: Call<Json>)
    ensures query.None? ==> HandleGet(query, sub) == Handled(Error(StatusBadRequest, CodeRequired), None)
    ensures !body.JNull? && FromNullable(Read(body, "subscription_code")).None? ==>
      HandlePost(Some(body), link) == Handled(Error(StatusBadRequest, CodeRequired), None)
    ensures body.JNull? ==> HandlePost(Some(body), link) == Handled(Unhandled, None)
  {
  }

  /** With a code, `POST` calls the gateway with it and answers exactly
      `{link}` on acceptance, the gateway's message or "Failed to generate
      management link" on refusal, and 500 on any other failure. */
  lemma PostOutcomes(body: Json, reply: Call<string>)
    requires FromNullable(Read(body, "subscription_code")).Some?
    ensures var h := HandlePost(Some(body), reply);
      && h.sent == FromNullable(Read(body, "subscription_code"))
      && (reply.Replied? && reply.status ==>
            h.reply.IsOk() && h.reply.body.JObj? && h.reply.body.fields.Keys == {"link"}
            && h.reply.body.fields["link"] == JStr(reply.data))
      && (reply.Replied? && !reply.status ==>
            h.reply == Error(StatusBadRequest, reply.message.GetOr("Failed to generate management link")))
      && (!reply.Replied? ==> h.reply == Error(StatusServerError, InternalServerError))
  {
    assert LinkBody(if reply.Replied? then reply.data else "").fields.Keys == {"link"};
  }

  /** With a code, `GET` answers the fetched subscription unchanged on
      acceptance, the message or "Failed to fetch subscription" on refusal,
      and 500 on any other failure, including a reply of the wrong shape. */
  lemma GetOutcomes(code: string, reply: Call<Json>)
    ensures var h := HandleGet(Some(code), reply);
      && h.sent == Some(code)
      && (reply.Replied? && reply.status ==> h.reply == Reply(StatusOk, reply.data))
      && (reply.Replied? && !reply.status ==>
            h.reply == Error(StatusBadRequest, reply.message.GetOr("Failed to fetch subscription")))
      && (!reply.Replied? ==> h.reply == Error(StatusServerError, InternalServerError))
  {
  }
}
