/** `POST /api/subscription/initialize` (app/api/subscription/initialize/route.ts):
    decode the donor's request, resolve the plan, build the gateway's
    initialize request and map every outcome to an HTTP reply. */
module Initialize {
  import opened Wrappers
  import opened Text
  import opened Json
  import opened Errors
  import opened Schemas
  import opened Plans
  import opened Gateway

  const InvalidInput := "Invalid input"
  const InvalidPlan := "Invalid plan"
  const EmailMissing := "Email is required"
  const InitializeFailed := "Failed to initialize transaction"
  const CallbackPath := "/donation/callback"

  /** The `metadata` object sent with the request; absent names are dropped
      when the request is serialised. */
  datatype Metadata = Metadata(
    planId: string,
    planName: string,
    planInterval: Interval,
    firstName: Option<string>,
    lastName: Option<string>,
    phone: Option<string>)

  /** The body of the gateway's `transaction/initialize` call. */
  datatype InitRequest = InitRequest(
    email: string,
    amount: int,
    plan: Option<string>,
    callbackUrl: string,
    metadata: Metadata)

  /** The `data` the service's response schema decodes on success. */
  datatype InitData = InitData(accessCode: string, authorizationUrl: string, reference: string)

  /** Template-literal text of `process.env.NEXT_PUBLIC_APP_URL`: an unset
      variable reads as "undefined". */
  function AppUrlText(appUrl: Option<string>): string
  {
    appUrl.GetOr("undefined")
  }

  /** A plan code is attached only to a recurring plan whose code is truthy. */
  function PlanField(plan: DonationPlan): (r: Option<string>)
    ensures r.Some? <==> plan.interval != OneOff && plan.planCode.Some? && plan.planCode.value != ""
    ensures r.Some? ==> r == plan.planCode
  {
    if plan.interval != OneOff && plan.planCode.Some? && plan.planCode.value != "" then plan.planCode
    else None
  }

  /** `s?.trim()`. */
  function TrimOpt(s: Option<string>): (r: Option<string>)
    ensures r.Some? <==> s.Some?
    ensures r.Some? ==> r.value == Trim(s.value)
  {
    if s.Some? then Some(Trim(s.value)) else None
  }

  /** The `initializationRequest` object. */
  function BuildRequest(req: CreateSubscriptionRequest, plan: DonationPlan, appUrl: Option<string>): InitRequest
  {
    InitRequest(
      Trim(req.email),
      plan.amount * 100,
      PlanField(plan),
      AppUrlText(appUrl) + CallbackPath,
      Metadata(plan.id, plan.name, plan.interval, TrimOpt(req.firstName), TrimOpt(req.lastName), req.phone))
  }

  /** The request as `JSON.stringify` writes it: undefined members vanish. */
  function MetadataJson(m: Metadata): Json
  {
    var base := map[
      "plan_id" := JStr(m.planId), "plan_name" := JStr(m.planName),
      "plan_interval" := JStr(m.planInterval.Name())];
    var f := Put(base, "first_name", if m.firstName.Some? then Some(JStr(m.firstName.value)) else None);
    var l := Put(f, "last_name", if m.lastName.Some? then Some(JStr(m.lastName.value)) else None);
    JObj(Put(l, "phone", if m.phone.Some? then Some(JStr(m.phone.value)) else None))
  }

  function RequestJson(r: InitRequest): Json
  {
    var base := map[
      "email" := JStr(r.email), "amount" := JNum(r.amount),
      "callback_url" := JStr(r.callbackUrl), "metadata" := MetadataJson(r.metadata)];
    JObj(Put(base, "plan", if r.plan.Some? then Some(JStr(r.plan.value)) else None))
  }

  /** The success body: exactly the three fields the browser needs. */
  function InitBody(d: InitData): Json
  {
    JObj(map[
      "access_code" := JStr(d.accessCode),
      "authorization_url" := JStr(d.authorizationUrl),
      "reference" := JStr(d.reference)])
  }

  /** The `Effect.gen` body, over the plan list `plans` that `getPlanById`
      searches. `body` is `None` when `request.json()` rejects; `reply` is
      the gateway's answer to the request this step sends. */
  function Run(plans: seq<DonationPlan>, appUrl: Option<string>, body: Option<Json>, reply: Call<InitData>): (r: (Step, Option<InitRequest>))
    ensures !r.0.Defect?
    ensures r.1.Some? ==>
      && body.Some? && DecodeRequest(body.value).Some?
      && FindById(plans, DecodeRequest(body.value).value.planId).Some?
      && r.1.value.metadata.planId == DecodeRequest(body.value).value.planId
    ensures r.0.Success? ==> r.1.Some? && reply.Replied? && reply.status
  {
    if body.None? then (Failure(Untagged), None)
    else if DecodeRequest(body.value).None? then (Failure(ParseFailure), None)
    else Resolve(plans, appUrl, DecodeRequest(body.value).value, reply)
  }

  /** The steps after decoding: plan lookup, the e-mail guard, the call. */
  function Resolve(plans: seq<DonationPlan>, appUrl: Option<string>, req: CreateSubscriptionRequest, reply: Call<InitData>): (r: (Step, Option<InitRequest>))
    ensures !r.0.Defect?
    ensures r.1.Some? ==> FindById(plans, req.planId).Some? && r.1.value.metadata.planId == req.planId
    ensures r.0.Success? ==> r.1.Some? && reply.Replied? && reply.status
  {
    var plan := FindById(plans, req.planId);
    if plan.None? then (BadRequest(InvalidPlan), None)
    else if Trim(req.email) == "" then (BadRequest(EmailMissing), None)
    else
      var sent := BuildRequest(req, plan.value, appUrl);
      if reply.Replied? && reply.status then (Success(InitBody(reply.data)), Some(sent))
      else (Refusal(reply, InitializeFailed), Some(sent))
  }

  /** The e-mail of a decoded request is non-empty and its own trim. */
  lemma DecodedEmailTrimmed(v: Json)
    requires DecodeRequest(v).Some?
    ensures var email := DecodeRequest(v).value.email; email != "" && Trim(email) == email
  {
    var email := DecodeRequest(v).value.email;
    EmailPatternFacts(email);
    TrimNoWhitespace(email);
  }

  /** The route's `catchTags` / `catchAll` table. */
  function Catch(s: Step): (r: Reply)
    ensures s.Success? ==> r == Reply(StatusOk, s.body)
    ensures s == Failure(ParseFailure) ==> r == Error(StatusBadRequest, InvalidInput)
    ensures s.Failure? && s.fault.Raised? && s.fault.error.BadRequestError? ==>
      r == Error(StatusBadRequest, s.fault.error.text)
    ensures s.Failure? && (s.fault.Untagged? || (s.fault.Raised? && !s.fault.error.BadRequestError?)) ==>
      r == Error(StatusServerError, InternalServerError)
    ensures s.Defect? <==> r.Unhandled?
  {
    match s
    case Success(b) => Respond(s)
    case Failure(ParseFailure) => Error(StatusBadRequest, InvalidInput)
    case Failure(Raised(BadRequestError(m))) => Error(StatusBadRequest, m)
    case Failure(_) => Error(StatusServerError, InternalServerError)
    case Defect => Unhandled
  }

  /** The route over a given plan list. It always answers JSON, calls the
      gateway only for a body the schema accepts and whose plan it found, and
      answers 2xx only when the gateway accepted that call. */
  function Serve(plans: seq<DonationPlan>, appUrl: Option<string>, body: Option<Json>, reply: Call<InitData>): (h: Handled<InitRequest>)
    ensures h.reply.Reply?
    ensures h.sent.Some? ==>
      && body.Some? && DecodeRequest(body.value).Some?
      && FindById(plans, DecodeRequest(body.value).value.planId).Some?
      && h.sent.value.metadata.planId == DecodeRequest(body.value).value.planId
    ensures h.reply.IsOk() ==> h.sent.Some? && reply.Replied? && reply.status
  {
    var (s, sent) := Run(plans, appUrl, body, reply);
    Handled(Catch(s), sent)
  }

  /** `POST`, searching the catalog of lib/donation-plans.ts. */
  function Post(env: Env, appUrl: Option<string>, body: Option<Json>, reply: Call<InitData>): (h: Handled<InitRequest>)
    ensures h.sent.Some? ==> GetPlanById(env, h.sent.value.metadata.planId).Some?
  {
    Serve(AllPlans(env), appUrl, body, reply)
  }

  // ---------------------------------------------------------------------
  // Properties

  /** A body the request schema refuses gets 400 "Invalid input", and the
      gateway is not called; an unreadable body is a server error. */
  lemma ServeRejectsBadBody(plans: seq<DonationPlan>, appUrl: Option<string>, body: Option<Json>, reply: Call<InitData>)
    ensures body.None? ==>
      Serve(plans, appUrl, body, reply) == Handled(Error(StatusServerError, InternalServerError), None)
    ensures body.Some? && DecodeRequest(body.value).None? ==>
      Serve(plans, appUrl, body, reply) == Handled(Error(StatusBadRequest, InvalidInput), None)
  {
  }

  /** An id no plan carries gets 400 "Invalid plan", without a gateway call. */
  lemma ServeUnknownPlan(plans: seq<DonationPlan>, appUrl: Option<string>, v: Json, reply: Call<InitData>)
    requires DecodeRequest(v).Some?
    requires forall k :: 0 <= k < |plans| ==> plans[k].id != DecodeRequest(v).value.planId
    ensures Serve(plans, appUrl, Some(v), reply) == Handled(Error(StatusBadRequest, InvalidPlan), None)
  {
  }

  /** For the catalog: an id outside `PlanIds` is an invalid plan. */
  lemma PostUnknownPlan(env: Env, appUrl: Option<string>, v: Json, reply: Call<InitData>)
    requires DecodeRequest(v).Some? && DecodeRequest(v).value.planId !in PlanIds
    ensures Post(env, appUrl, Some(v), reply) == Handled(Error(StatusBadRequest, InvalidPlan), None)
  {
    GetPlanByIdMissing(env, DecodeRequest(v).value.planId);
  }

  /** A decoded e-mail matches the schema's pattern, so it has no surrounding
      whitespace and is not empty: the route's "Email is required" guard
      never fires, and that message can only be a gateway's own. */
  lemma EmailRequiredUnreachable(plans: seq<DonationPlan>, appUrl: Option<string>, body: Option<Json>, reply: Call<InitData>)
    ensures Run(plans, appUrl, body, reply).0 == BadRequest(EmailMissing) ==>
      reply == Replied(false, Some(EmailMissing), reply.data)
  {
    if body.Some? && DecodeRequest(body.value).Some? {
      var req := DecodeRequest(body.value).value;
      DecodedEmailTrimmed(body.value);
      ResolveEmailGuard(plans, appUrl, req, reply);
    }
  }

  lemma ResolveEmailGuard(plans: seq<DonationPlan>, appUrl: Option<string>, req: CreateSubscriptionRequest, reply: Call<InitData>)
    requires req.email != "" && Trim(req.email) == req.email
    ensures Resolve(plans, appUrl, req, reply).0 == BadRequest(EmailMissing) ==>
      reply == Replied(false, Some(EmailMissing), reply.data)
  {
  }

  /** With a known plan the gateway is called exactly once, with the request
      built from the decoded body, whose e-mail is the decoded one unchanged. */
  lemma ServeSendsRequest(plans: seq<DonationPlan>, appUrl: Option<string>, v: Json, reply: Call<InitData>)
    requires DecodeRequest(v).Some? && FindById(plans, DecodeRequest(v).value.planId).Some?
    ensures var req := DecodeRequest(v).value;
      && Serve(plans, appUrl, Some(v), reply).sent == Some(BuildRequest(req, FindById(plans, req.planId).value, appUrl))
      && BuildRequest(req, FindById(plans, req.planId).value, appUrl).email == req.email
  {
    DecodedEmailTrimmed(v);
  }

  /** The request carries the amount in cents, the plan code exactly for a
      recurring plan with a non-empty code, the callback address, and the
      plan's identity with the donor's trimmed names and raw phone. This is
      the promised request, field by field, stated in terms of the plan and
      the donor's request rather than of the helpers that build it. */
  lemma RequestContents(req: CreateSubscriptionRequest, plan: DonationPlan, appUrl: Option<string>)
    ensures var r := BuildRequest(req, plan, appUrl);
      && r.amount == plan.amount * 100
      && (r.plan.Some? <==> plan.interval != OneOff && plan.planCode.Some? && plan.planCode.value != "")
      && (r.plan.Some? ==> r.plan.value == plan.planCode.value)
      && r.callbackUrl == AppUrlText(appUrl) + "/donation/callback"
      && r.metadata.planId == plan.id && r.metadata.planName == plan.name
      && r.metadata.planInterval == plan.interval
      && (r.metadata.firstName.Some? <==> req.firstName.Some?)
      && (r.metadata.firstName.Some? ==> r.metadata.firstName.value == Trim(req.firstName.value))
      && (r.metadata.lastName.Some? <==> req.lastName.Some?)
      && (r.metadata.lastName.Some? ==> r.metadata.lastName.value == Trim(req.lastName.value))
      && r.metadata.phone == req.phone
  {
  }

  /** The serialised request has exactly these keys, `plan` only when a plan
      code is attached. */
  lemma RequestJsonKeys(r: InitRequest)
    ensures RequestJson(r).JObj?
    ensures RequestJson(r).fields.Keys ==
      {"email", "amount", "callback_url", "metadata"} + (if r.plan.Some? then {"plan"} else {})
    ensures RequestJson(r).fields["amount"] == JNum(r.amount)
    ensures RequestJson(r).fields["metadata"] == MetadataJson(r.metadata)
    ensures "plan" in RequestJson(r).fields ==> RequestJson(r).fields["plan"] == JStr(r.plan.value)
  {
    var base := map[
      "email" := JStr(r.email), "amount" := JNum(r.amount),
      "callback_url" := JStr(r.callbackUrl), "metadata" := MetadataJson(r.metadata)];
    assert base.Keys == {"email", "amount", "callback_url", "metadata"};
  }

  /** The serialised metadata has the plan's three members, and each optional
      donor member exactly when it is present. */
  lemma MetadataJsonKeys(m: Metadata)
    ensures MetadataJson(m).JObj?
    ensures MetadataJson(m).fields.Keys ==
      {"plan_id", "plan_name", "plan_interval"}
      + (if m.firstName.Some? then {"first_name"} else {})
      + (if m.lastName.Some? then {"last_name"} else {})
      + (if m.phone.Some? then {"phone"} else {})
    ensures MetadataJson(m).fields["plan_interval"] == JStr(m.planInterval.Name())
  {
    var base := map[
      "plan_id" := JStr(m.planId), "plan_name" := JStr(m.planName),
      "plan_interval" := JStr(m.planInterval.Name())];
    var fv := if m.firstName.Some? then Some(JStr(m.firstName.value)) else None;
    var lv := if m.lastName.Some? then Some(JStr(m.lastName.value)) else None;
    var pv := if m.phone.Some? then Some(JStr(m.phone.value)) else None;
    var f := Put(base, "first_name", fv);
    var l := Put(f, "last_name", lv);
    PutKeys(base, "first_name", fv);
    PutKeys(f, "last_name", lv);
    PutKeys(l, "phone", pv);
    assert MetadataJson(m) == JObj(Put(l, "phone", pv));
  }

  /** A one-off plan is never sent with a plan code; every catalog plan that
      recurs is. */
  lemma OneOffHasNoPlanField(env: Env, req: CreateSubscriptionRequest, appUrl: Option<string>, id: string)
    requires GetPlanById(env, id).Some?
    ensures var p := GetPlanById(env, id).value;
      BuildRequest(req, p, appUrl).plan.Some? <==> p.interval != OneOff
  {
    CatalogInvariants(env);
  }

  /** How the gateway's answer is reported once the request was sent: a
      refusal as 400 with its message or the fallback, an ill-shaped reply as
      400 "Invalid input", an unreachable gateway as 500, and an acceptance
      as exactly the three checkout fields. */
  lemma ServeGatewayOutcomes(plans: seq<DonationPlan>, appUrl: Option<string>, v: Json, reply: Call<InitData>)
    requires DecodeRequest(v).Some? && FindById(plans, DecodeRequest(v).value.planId).Some?
    ensures var h := Serve(plans, appUrl, Some(v), reply).reply;
      && (reply.Replied? && !reply.status ==>
            h == Error(StatusBadRequest, reply.message.GetOr("Failed to initialize transaction")))
      && (reply.Replied? && reply.status ==>
            h.IsOk() && h.body.JObj?
            && h.body.fields.Keys == {"access_code", "authorization_url", "reference"}
            && h.body.fields["access_code"] == JStr(reply.data.accessCode)
            && h.body.fields["authorization_url"] == JStr(reply.data.authorizationUrl)
            && h.body.fields["reference"] == JStr(reply.data.reference))
      && (reply.Mismatch? ==> h == Error(StatusBadRequest, InvalidInput))
      && (reply.Unreachable? ==> h == Error(StatusServerError, InternalServerError))
  {
    DecodedEmailTrimmed(v);
    ResolveOutcomes(plans, appUrl, DecodeRequest(v).value, reply);
  }

  lemma ResolveOutcomes(plans: seq<DonationPlan>, appUrl: Option<string>, req: CreateSubscriptionRequest, reply: Call<InitData>)
    requires FindById(plans, req.planId).Some? && Trim(req.email) != ""
    ensures var h := Catch(Resolve(plans, appUrl, req, reply).0);
      && (reply.Replied? && !reply.status ==>
            h == Error(StatusBadRequest, reply.message.GetOr("Failed to initialize transaction")))
      && (reply.Replied? && reply.status ==>
            h.IsOk() && h.body.JObj?
            && h.body.fields.Keys == {"access_code", "authorization_url", "reference"}
            && h.body.fields["access_code"] == JStr(reply.data.accessCode)
            && h.body.fields["authorization_url"] == JStr(reply.data.authorizationUrl)
            && h.body.fields["reference"] == JStr(reply.data.reference))
      && (reply.Mismatch? ==> h == Error(StatusBadRequest, InvalidInput))
      && (reply.Unreachable? ==> h == Error(StatusServerError, InternalServerError))
  {
    if reply.Replied? && reply.status {
      assert InitBody(reply.data).fields.Keys == {"access_code", "authorization_url", "reference"};
    }
  }

  /** Every reply is 200, 400 or 500, never a rejected promise, and it is 200
      exactly when the gateway was called and accepted. */
  lemma ServeStatuses(plans: seq<DonationPlan>, appUrl: Option<string>, body: Option<Json>, reply: Call<InitData>)
    ensures var h := Serve(plans, appUrl, body, reply);
      && h.reply.Reply?
      && h.reply.status in {StatusOk, StatusBadRequest, StatusServerError}
      && (h.reply.status == StatusOk <==> h.sent.Some? && reply.Replied? && reply.status)
  {
    if body.Some? && DecodeRequest(body.value).Some? {
      ResolveStatuses(plans, appUrl, DecodeRequest(body.value).value, reply);
    }
  }

  lemma ResolveStatuses(plans: seq<DonationPlan>, appUrl: Option<string>, req: CreateSubscriptionRequest, reply: Call<InitData>)
    ensures var (s, sent) := Resolve(plans, appUrl, req, reply);
      && Catch(s).Reply?
      && Catch(s).status in {StatusOk, StatusBadRequest, StatusServerError}
      && (Catch(s).status == StatusOk <==> sent.Some? && reply.Replied? && reply.status)
  {
  }
}
